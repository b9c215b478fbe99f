/** The stream endpoint's own code: stale-cursor check, subscribe, replay, pump. */
module StreamApi {
  import opened Model
  import opened Store
  import opened Queries
  import opened Mailboxes
  import opened Paging
  import opened Hub
  import Cluster

  datatype Message =
    | Data(e: Envelope)
    | Ready(resumeFrom: nat, aggregate: Option<ItemId>)
    | ReplayComplete(upTo: nat, count: nat)
    | Ping
    | CursorTooOld(requested: nat, oldest: nat)

  /** The events among the messages on a wire. */
  function Events(wire: seq<Message>): seq<Envelope> {
    if wire == [] then []
    else
      var last := wire[|wire| - 1];
      Events(wire[..|wire| - 1]) + (if last.Data? then [last.e] else [])
  }

  lemma EventsSnoc(wire: seq<Message>, m: Message)
    ensures Events(wire + [m]) == Events(wire) + (if m.Data? then [m.e] else [])
  {
    assert (wire + [m])[..|wire|] == wire;
  }

  class WebSocket {
    var wire: seq<Message>
    var closed: Option<int>

    constructor ()
      ensures wire == [] && closed == None
    {
      wire, closed := [], None;
    }

    method SendJson(m: Message)
      modifies this`wire
      ensures wire == old(wire) + [m]
      ensures Events(wire) == Events(old(wire)) + (if m.Data? then [m.e] else [])
    {
      EventsSnoc(wire, m);
      wire := wire + [m];
    }

    /** Closing a closed socket is quietly ignored. */
    method Close(code: int)
      modifies this`closed
      ensures closed == if old(closed).None? then Some(code) else old(closed)
    {
      if closed.None? {
        closed := Some(code);
      }
    }
  }

  /**
   * Batching is invisible: on one snapshot, replay in pages of any size sends what one unbounded ordered read
   * returns, and reports how far it got and how much it sent.
   */
  method Replay(socket: WebSocket, outbox: Outbox, afterSeq: nat, aggregate: Option<ItemId>, pageSize: nat)
    returns (cursor: nat)
    requires pageSize >= 1 && Keyed(outbox) && DistinctPositions(outbox)
    modifies socket`wire
    ensures var rows := StreamAfter(outbox, aggregate, afterSeq);
      && cursor == Next(afterSeq, rows)
      && Events(socket.wire) == Events(old(socket.wire)) + rows && old(socket.wire) <= socket.wire
      && socket.wire != [] && socket.wire[|socket.wire| - 1] == ReplayComplete(cursor, |rows|)
  {
    hide SelectStream, StreamAfter, Events, Keyed, DistinctPositions;
    ghost var before, given := Events(socket.wire), [];
    cursor := afterSeq;
    var sent := 0;
    assert before + [] == before;
    while true
      invariant sent == |given| && cursor == Next(afterSeq, given)
      invariant Events(socket.wire) == before + given && old(socket.wire) <= socket.wire
      invariant StreamAfter(outbox, aggregate, afterSeq) == given + StreamAfter(outbox, aggregate, cursor)
      decreases |StreamAfter(outbox, aggregate, cursor)|
    {
      var events := SelectStream(outbox, aggregate, cursor, pageSize);
      PageThenRest(outbox, aggregate, cursor, pageSize);
      if events == [] {
        break;
      }
      ghost var rest := StreamAfter(outbox, aggregate, Next(cursor, events));
      assert given + (events + rest) == (given + events) + rest;
      cursor, sent := SendPage(socket, events, cursor, sent);
      given := given + events;
      if |events| < pageSize {
        break;
      }
    }
    assert given + [] == given;
    socket.SendJson(ReplayComplete(cursor, sent));
  }

  method SendPage(socket: WebSocket, events: seq<Envelope>, after: nat, count: nat) returns (cursor: nat, sent: nat)
    modifies socket`wire
    ensures cursor == Next(after, events) && sent == count + |events|
    ensures Events(socket.wire) == Events(old(socket.wire)) + events && old(socket.wire) <= socket.wire
  {
    cursor, sent := after, count;
    assert Events(socket.wire) + events[..0] == Events(socket.wire);
    for k := 0 to |events|
      invariant cursor == Next(after, events[..k]) && sent == count + k
      invariant Events(socket.wire) == Events(old(socket.wire)) + events[..k] && old(socket.wire) <= socket.wire
    {
      assert events[..k + 1] == events[..k] + [events[k]];
      socket.SendJson(Data(events[k]));
      // `stream_seq or cursor`: a row above some cursor is never at 0
      cursor := events[k].pos;
      sent := sent + 1;
    }
    assert events[..|events|] == events;
  }

  // ---- The pump ------------------------------------------------------------------------------------

  /** What the hub does to the subscriber while the pump is suspended: around its overflow test and its wait. */
  datatype Round = Round(before: seq<Turn>, during: seq<Turn>)

  predicate HubOnly(turns: seq<Turn>) {
    forall k :: 0 <= k < |turns| ==> !turns[k].Taken?
  }

  predicate HubRounds(rounds: seq<Round>) {
    forall k :: 0 <= k < |rounds| ==> HubOnly(rounds[k].before) && HubOnly(rounds[k].during)
  }

  /** Everything that happens to the subscriber over these rounds. */
  function Interleaved(rounds: seq<Round>): seq<Turn> {
    if rounds == [] then []
    else
      var last := rounds[|rounds| - 1];
      Interleaved(rounds[..|rounds| - 1]) + last.before + last.during + [Taken]
  }

  lemma HubTurn(m: Mailbox, past: seq<Turn>, turn: Turn)
    requires !turn.Taken?
    ensures PlayAll(m, past + [turn]) == Play(PlayAll(m, past), turn)
    ensures TakenFrom(m, past + [turn]) == TakenFrom(m, past)
  {
    assert (past + [turn])[..|past|] == past;
  }

  method Meanwhile(hub: StreamHub, s: Subscriber, turns: seq<Turn>, ghost m: Mailbox, ghost past: seq<Turn>)
    requires HubOnly(turns) && s.State() == PlayAll(m, past)
    modifies s
    ensures s.State() == PlayAll(m, past + turns) && TakenFrom(m, past + turns) == TakenFrom(m, past)
  {
    hide PlayAll, TakenFrom, Deliver;
    assert past + turns[..0] == past;
    for k := 0 to |turns|
      invariant s.State() == PlayAll(m, past + turns[..k]) && TakenFrom(m, past + turns[..k]) == TakenFrom(m, past)
    {
      assert past + turns[..k + 1] == (past + turns[..k]) + [turns[k]];
      HubTurn(m, past + turns[..k], turns[k]);
      if turns[k].Published? {
        hub.PublishTo(s, turns[k].batch);
      } else {
        s.Interrupt();
      }
    }
    assert turns[..|turns|] == turns;
  }

  /** The entry the pump would get, or nothing on a timeout. */
  function HeadOf(m: Mailbox): Option<Entry> {
    if m.queue == [] then None else Some(m.queue[0])
  }

  function SentFor(entry: Option<Entry>, skip: nat): seq<Envelope> {
    if entry.Some? && entry.value.Carry? && skip < entry.value.e.pos then [entry.value.e] else []
  }

  /** What goes on the wire for it: a ping for a timeout, nothing for the sentinel or for what was replayed. */
  function Reply(entry: Option<Entry>, skip: nat): seq<Message> {
    match entry
    case None => [Ping]
    case Some(Stop) => []
    case Some(Carry(e)) => if skip < e.pos then [Data(e)] else []
  }

  /** Waiting for the head is one more turn. */
  lemma TakeOne(m: Mailbox, past: seq<Turn>, skip: nat)
    requires Stop !in TakenFrom(m, past)
    ensures var b, past' := PlayAll(m, past), past + [Taken];
      && PlayAll(m, past') == Play(b, Taken)
      && (Stop in TakenFrom(m, past') <==> HeadOf(b) == Some(Stop))
      && Sends(TakenFrom(m, past'), skip) == Sends(TakenFrom(m, past), skip) + SentFor(HeadOf(b), skip)
  {
    assert (past + [Taken])[..|past|] == past;
    var taken, b := TakenFrom(m, past), PlayAll(m, past);
    if b.queue == [] {
      assert taken + [] == taken && Sends(taken, skip) + [] == Sends(taken, skip);
    } else {
      assert (taken + [b.queue[0]])[..|taken|] == taken;
    }
  }

  /** One wait for the queue and what follows from it. */
  method PumpOnce(socket: WebSocket, s: Subscriber, skipUpTo: nat, ghost m: Mailbox, ghost past: seq<Turn>)
    requires s.State() == PlayAll(m, past) && Stop !in TakenFrom(m, past) && socket.closed.None?
    modifies socket, s`queue
    ensures var past' := past + [Taken];
      && s.State() == PlayAll(m, past')
      && socket.wire == old(socket.wire) + Reply(HeadOf(PlayAll(m, past)), skipUpTo)
      && Events(socket.wire) == Events(old(socket.wire)) + SentFor(HeadOf(PlayAll(m, past)), skipUpTo)
      && socket.closed == if Stop in TakenFrom(m, past') then Some(Cluster.SERVER_SHUTDOWN) else None
    ensures old(s.queue) == [] ==> socket.wire == old(socket.wire) + [Ping] && socket.closed.None?
    ensures old(s.queue) != [] && old(s.queue)[0].Stop? ==>
      socket.wire == old(socket.wire) && socket.closed == Some(4002)
    ensures old(s.queue) != [] && old(s.queue)[0].Carry? ==>
      var e := old(s.queue)[0].e;
      && socket.wire == old(socket.wire) + (if e.pos <= skipUpTo then [] else [Data(e)])
      && socket.closed.None? && s.queue == old(s.queue)[1..]
  {
    hide PlayAll, TakenFrom, Sends, Events, Interleaved;
    TakeOne(m, past, skipUpTo);
    ghost var given, wire := Events(socket.wire), socket.wire;
    assert given + [] == given && wire + [] == wire;
    var entry := s.NextEvent();
    assert entry == HeadOf(PlayAll(m, past));
    if entry.None? {
      socket.SendJson(Ping);
      return;
    }
    if entry.value.Stop? {
      socket.Close(Cluster.SERVER_SHUTDOWN);
      return;
    }
    if entry.value.e.pos <= skipUpTo {
      return;
    }
    socket.SendJson(Data(entry.value.e));
  }

  /**
   * The pump over any number of rounds: what it adds to the wire is what `Sends` says of what it drew, so
   * `PumpSendsPrefix` applies; it closes with 4002 exactly on the sentinel, and with 4001 at the first round whose
   * test finds the queue overflowed, drawing nothing more.
   */
  method Pump(socket: WebSocket, hub: StreamHub, s: Subscriber, skipUpTo: nat, rounds: seq<Round>,
              ghost m: Mailbox, ghost past: seq<Turn>)
    returns (ghost turns: seq<Turn>)
    requires HubRounds(rounds) && s.State() == PlayAll(m, past) && TakenFrom(m, past) == [] && socket.closed.None?
    modifies socket, s
    ensures s.State() == PlayAll(m, turns)
    ensures past <= turns <= past + Interleaved(rounds)
    ensures socket.closed.None? ==> turns == past + Interleaved(rounds)
    ensures Events(socket.wire) == Events(old(socket.wire)) + Sends(TakenFrom(m, turns), skipUpTo)
    ensures socket.closed == Some(4002) <==> Stop in TakenFrom(m, turns)
    ensures socket.closed.Some? && Stop !in TakenFrom(m, turns) ==> socket.closed == Some(4001) && s.overflowed
    ensures forall k: nat ::
      k < |rounds| && PlayAll(m, past + Interleaved(rounds[..k]) + rounds[k].before).overflowed ==>
        socket.closed.Some? && |turns| <= |past + Interleaved(rounds[..k]) + rounds[k].before|
    ensures old(socket.wire) <= socket.wire
  {
    hide PlayAll, TakenFrom, Sends, Events, HeadOf, SentFor, Reply, Interleaved;
    turns := past;
    assert turns == past + [];
    ghost var given := Events(socket.wire);
    NothingSent(given, skipUpTo);
    InterleavedPrefix(rounds, 0);
    for k := 0 to |rounds|
      invariant s.State() == PlayAll(m, turns) && socket.closed.None?
      invariant turns == past + Interleaved(rounds[..k]) && Interleaved(rounds[..k]) <= Interleaved(rounds)
      invariant Stop !in TakenFrom(m, turns)
      invariant Events(socket.wire) == given + Sends(TakenFrom(m, turns), skipUpTo) && old(socket.wire) <= socket.wire
      invariant forall i: nat :: i < k ==> !PlayAll(m, past + Interleaved(rounds[..i]) + rounds[i].before).overflowed
    {
      LaterTests(rounds, k);
      InterleavedPrefix(rounds, k + 1);
      InterleavedSnoc(rounds, k);
      Meanwhile(hub, s, rounds[k].before, m, turns);
      turns := turns + rounds[k].before;
      if s.overflowed {
        socket.Close(Cluster.SLOW_CONSUMER);
        return;
      }
      Meanwhile(hub, s, rounds[k].during, m, turns);
      turns := turns + rounds[k].during;
      TakeOne(m, turns, skipUpTo);
      PumpOnce(socket, s, skipUpTo, m, turns);
      turns := turns + [Taken];
      if socket.closed.Some? {
        return;
      }
    }
  }

  /** Later rounds only add turns. */
  lemma LaterTests(rounds: seq<Round>, k: nat)
    requires k < |rounds|
    ensures forall i: nat :: k < i < |rounds| ==>
      |Interleaved(rounds[..k]) + rounds[k].before + rounds[k].during + [Taken]| <= |Interleaved(rounds[..i])|
  {
    InterleavedSnoc(rounds, k);
    forall i: nat | k < i < |rounds|
      ensures |Interleaved(rounds[..k + 1])| <= |Interleaved(rounds[..i])|
    {
      InterleavedPrefix(rounds[..i], k + 1);
      assert rounds[..i][..k + 1] == rounds[..k + 1];
    }
  }

  lemma InterleavedSnoc(rounds: seq<Round>, k: nat)
    requires k < |rounds|
    ensures Interleaved(rounds[..k + 1]) == Interleaved(rounds[..k]) + rounds[k].before + rounds[k].during + [Taken]
  {
    assert rounds[..k + 1][..k] == rounds[..k];
  }

  lemma {:induction false} InterleavedPrefix(rounds: seq<Round>, k: nat)
    requires k <= |rounds|
    ensures Interleaved(rounds[..k]) <= Interleaved(rounds)
    ensures Interleaved(rounds[..0]) == [] && rounds[..|rounds|] == rounds
  {
    if k < |rounds| {
      InterleavedPrefix(rounds[..|rounds| - 1], k);
      assert rounds[..|rounds| - 1][..k] == rounds[..k];
    } else {
      assert rounds[..k] == rounds;
    }
  }

  lemma NothingSent(given: seq<Envelope>, skip: nat)
    ensures given + Sends([], skip) == given
  {
  }

  // ---- The endpoint --------------------------------------------------------------------------------

  /** A connection past the check. */
  method Admit(socket: WebSocket, hub: StreamHub, id: nat, lastEventId: nat, aggregate: Option<ItemId>, replay: bool,
               pageSize: nat, atReplay: Outbox, early: seq<Turn>, rounds: seq<Round>)
    returns (ghost turns: seq<Turn>)
    requires hub.Valid() && id !in hub.subscribers && socket.wire == [] && socket.closed.None?
    requires pageSize >= 1 && Keyed(atReplay) && DistinctPositions(atReplay)
    requires HubOnly(early) && HubRounds(rounds)
    modifies socket, hub`subscribers
    ensures hub.Valid() && hub.subscribers == old(hub.subscribers)
    ensures socket.closed.Some? ==> socket.closed == Some(4001) || socket.closed == Some(4002)
    ensures socket.wire != [] && socket.wire[0] == Ready(lastEventId, aggregate)
    ensures early <= turns <= early + Interleaved(rounds)
    ensures socket.closed.None? ==> turns == early + Interleaved(rounds)
    ensures replay && lastEventId > 0 ==>
      exists n: nat :: n <= |Events(socket.wire)| &&
        var backlog := Events(socket.wire)[..n];
        var m := Mailbox(hub.queueSize, aggregate, lastEventId, [], false);
        && Rising(backlog) && (forall e :: e in backlog <==> Listed(atReplay, aggregate, lastEventId, e))
        && Events(socket.wire)[n..] == Sends(TakenFrom(m, turns), Next(lastEventId, backlog))
    ensures !(replay && lastEventId > 0) ==>
      var m := Mailbox(hub.queueSize, aggregate, lastEventId, [], false);
      Events(socket.wire) == Sends(TakenFrom(m, turns), lastEventId)
    ensures forall k: nat ::
      var m := Mailbox(hub.queueSize, aggregate, lastEventId, [], false);
      k < |rounds| && PlayAll(m, early + Interleaved(rounds[..k]) + rounds[k].before).overflowed ==>
        socket.closed.Some? && |turns| <= |early + Interleaved(rounds[..k]) + rounds[k].before|
  {
    hide StreamAfter, Sends, TakenFrom, Interleaved, PlayAll, Keyed, DistinctPositions, Events, Listed, Rising;
    hide HubOnly, HubRounds, Next;
    var s := hub.Subscribe(id, aggregate, lastEventId);
    ghost var m := s.State();
    assert hub.subscribers[id] == s && s.id == id;
    NoneSent(Ready(lastEventId, aggregate));
    socket.SendJson(Ready(lastEventId, aggregate));
    var replayedTo := lastEventId;
    NoTurns(m, early);
    Meanwhile(hub, s, early, m, []);
    if replay && lastEventId > 0 {
      replayedTo := Replay(socket, atReplay, lastEventId, aggregate, pageSize);
      StreamAfterIsAll(atReplay, aggregate, lastEventId);
      assert Events(socket.wire) == StreamAfter(atReplay, aggregate, lastEventId);
    }
    ghost var backlog := Events(socket.wire);
    turns := Pump(socket, hub, s, replayedTo, rounds, m, early);
    assert Events(socket.wire)[..|backlog|] == backlog;
    assert Events(socket.wire)[|backlog|..] == Sends(TakenFrom(m, turns), replayedTo);
    hub.Unsubscribe(s);
    assert old(hub.subscribers)[id := s] - {id} == old(hub.subscribers);
  }

  /**
   * One connection. `atCheck` and `atReplay` are the table when the stale-cursor check and the replay read it,
   * `early` what the hub does between subscribing and pumping, and `id` the subscriber's UUID.
   *
   * The check refuses, with 4003 and without an event, exactly a cursor to be replayed whose next position lies below
   * every row of a table that has some. Otherwise, if a replay is due, every row above the cursor that the filter
   * admits comes first, in stream order; then, and otherwise from the start, only what the pump draws from a queue
   * that was filling all along. The hub is left without the subscriber.
   */
  method Stream(socket: WebSocket, hub: StreamHub, id: nat, lastEventId: nat, aggregate: Option<ItemId>, replay: bool,
                pageSize: nat, atCheck: Outbox, atReplay: Outbox, early: seq<Turn>, rounds: seq<Round>)
    returns (ghost turns: seq<Turn>)
    requires hub.Valid() && id !in hub.subscribers && socket.wire == [] && socket.closed.None?
    requires pageSize >= 1 && Keyed(atCheck) && Keyed(atReplay) && DistinctPositions(atReplay)
    requires HubOnly(early) && HubRounds(rounds)
    modifies socket, hub`subscribers
    ensures hub.Valid() && hub.subscribers == old(hub.subscribers)
    ensures socket.closed == Some(4003) <==>
      && replay && lastEventId > 0
      && (exists e :: InTable(atCheck, e)) && forall e :: InTable(atCheck, e) ==> lastEventId + 1 < e.pos
    ensures socket.closed == Some(4003) ==>
      && |socket.wire| == 1 && socket.wire[0].CursorTooOld? && socket.wire[0].requested == lastEventId
      && (exists e :: InTable(atCheck, e) && e.pos == socket.wire[0].oldest)
      && forall e :: InTable(atCheck, e) ==> socket.wire[0].oldest <= e.pos
    ensures socket.closed != Some(4003) ==>
      && socket.wire != [] && socket.wire[0] == Ready(lastEventId, aggregate)
      && early <= turns <= early + Interleaved(rounds)
      && (socket.closed.None? ==> turns == early + Interleaved(rounds))
    ensures socket.closed != Some(4003) && replay && lastEventId > 0 ==>
      exists n: nat :: n <= |Events(socket.wire)| &&
        var backlog := Events(socket.wire)[..n];
        var m := Mailbox(hub.queueSize, aggregate, lastEventId, [], false);
        && Rising(backlog) && (forall e :: e in backlog <==> Listed(atReplay, aggregate, lastEventId, e))
        && Events(socket.wire)[n..] == Sends(TakenFrom(m, turns), Next(lastEventId, backlog))
    ensures !(replay && lastEventId > 0) ==>
      var m := Mailbox(hub.queueSize, aggregate, lastEventId, [], false);
      Events(socket.wire) == Sends(TakenFrom(m, turns), lastEventId)
    ensures forall k: nat ::
      var m := Mailbox(hub.queueSize, aggregate, lastEventId, [], false);
      k < |rounds| && PlayAll(m, early + Interleaved(rounds[..k]) + rounds[k].before).overflowed ==>
        socket.closed.Some?
        && (socket.closed != Some(4003) ==> |turns| <= |early + Interleaved(rounds[..k]) + rounds[k].before|)
  {
    hide Sends, TakenFrom, Interleaved, PlayAll, Keyed, DistinctPositions, Events, InTable, Listed, Rising;
    turns := [];
    StaleMeans(atCheck, lastEventId);
    if replay && lastEventId > 0 {
      var oldest := OldestPosition(atCheck);
      if oldest.Some? && oldest.value > lastEventId + 1 {
        NoneSent(CursorTooOld(lastEventId, oldest.value));
        socket.SendJson(CursorTooOld(lastEventId, oldest.value));
        socket.Close(Cluster.CURSOR_TOO_OLD);
        return;
      }
    }
    turns := Admit(socket, hub, id, lastEventId, aggregate, replay, pageSize, atReplay, early, rounds);
  }

  lemma NoneSent(m: Message)
    requires !m.Data?
    ensures Events([]) == [] && Events([m]) == []
  {
    assert [m][..0] == [];
  }

  /** What the oldest row says about a cursor. */
  lemma StaleMeans(outbox: Outbox, after: nat)
    requires Keyed(outbox)
    ensures var oldest := OldestPosition(outbox);
      (oldest.Some? && oldest.value > after + 1)
      <==> (exists e :: InTable(outbox, e)) && forall e :: InTable(outbox, e) ==> after + 1 < e.pos
    ensures var oldest := OldestPosition(outbox);
      oldest.Some? ==>
        && (exists e :: InTable(outbox, e) && e.pos == oldest.value)
        && forall e :: InTable(outbox, e) ==> oldest.value <= e.pos
  {
    OldestPositionFacts(outbox);
    var oldest := OldestPosition(outbox);
    forall e | InTable(outbox, e) ensures oldest.Some? && oldest.value <= e.pos {
      assert e.pos in Positions(outbox);
    }
    if oldest.Some? {
      var id :| id in outbox && outbox[id].stamp.Some? && outbox[id].stamp.value.pos == oldest.value;
      var d := Envelope(oldest.value, outbox[id].event);
      assert InTable(outbox, d) && d.pos == oldest.value;
    }
  }

  lemma NoTurns(m: Mailbox, turns: seq<Turn>)
    ensures PlayAll(m, []) == m && TakenFrom(m, []) == [] && [] + turns == turns
  {
  }
}

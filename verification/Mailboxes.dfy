/** A subscriber's bounded queue with its sticky overflow flag, as values. */
module Mailboxes {
  import opened Model
  import opened Ordering

  datatype Entry = Carry(e: Envelope) | Stop    // Stop is the shutdown sentinel

  /** `capacity` 0 is asyncio.Queue's unbounded queue. `cursor` is the position last accepted. */
  datatype Mailbox = Mailbox(
    capacity: nat, aggregate: Option<ItemId>, cursor: nat, queue: seq<Entry>, overflowed: bool)

  predicate Full(m: Mailbox) {
    0 < m.capacity <= |m.queue|
  }

  /** put_nowait, once the overflow flag is known to be clear. */
  function Put(m: Mailbox, entry: Entry): Mailbox {
    if Full(m) then m.(overflowed := true) else m.(queue := m.queue + [entry])
  }

  function Offer(m: Mailbox, e: Envelope): Mailbox {
    if m.overflowed then m else Put(m, Carry(e))
  }

  predicate Accepts(m: Mailbox, e: Envelope) {
    !m.overflowed && !Full(m)
  }

  function Interrupt(m: Mailbox): Mailbox {
    Put(m, Stop)
  }

  /** One turn of the publish loop: unwanted envelopes pass by, accepted ones move the cursor. */
  function Push(m: Mailbox, e: Envelope): Mailbox {
    if !Wants(m.aggregate, e) then m
    else if Accepts(m, e) then Offer(m, e).(cursor := e.pos)
    else Offer(m, e)
  }

  function Deliver(m: Mailbox, batch: seq<Envelope>): Mailbox {
    if batch == [] then m else Push(Deliver(m, batch[..|batch| - 1]), batch[|batch| - 1])
  }

  /** Once overflowed, the rest of a batch cannot matter: breaking out of the loop loses nothing. */
  lemma {:induction false} OverflowIsFinal(m: Mailbox, batch: seq<Envelope>, n: nat)
    requires n <= |batch| && Deliver(m, batch[..n]).overflowed
    ensures Deliver(m, batch) == Deliver(m, batch[..n])
    decreases |batch|
  {
    if n < |batch| {
      assert batch[..|batch| - 1][..n] == batch[..n];
      OverflowIsFinal(m, batch[..|batch| - 1], n);
    } else {
      assert batch[..n] == batch;
    }
  }

  // ---- Whole lives of a mailbox ----------------------------------------------------------------

  /** What happens to a subscriber: the hub publishes or interrupts, the pump takes the head. */
  datatype Turn = Published(batch: seq<Envelope>) | Interrupted | Taken

  function Play(m: Mailbox, turn: Turn): Mailbox {
    match turn
    case Published(batch) => Deliver(m, batch)
    case Interrupted => Interrupt(m)
    case Taken => if m.queue == [] then m else m.(queue := m.queue[1..])
  }

  function PlayAll(m: Mailbox, turns: seq<Turn>): Mailbox {
    if turns == [] then m else Play(PlayAll(m, turns[..|turns| - 1]), turns[|turns| - 1])
  }

  /** Everything published to the hub, in order. */
  function Offered(turns: seq<Turn>): seq<Envelope> {
    if turns == [] then []
    else
      var last := turns[|turns| - 1];
      Offered(turns[..|turns| - 1]) + (if last.Published? then last.batch else [])
  }

  /** Everything the pump has taken, in order. */
  function TakenFrom(m: Mailbox, turns: seq<Turn>): seq<Entry> {
    if turns == [] then []
    else
      var before := PlayAll(m, turns[..|turns| - 1]);
      TakenFrom(m, turns[..|turns| - 1])
      + (if turns[|turns| - 1].Taken? && before.queue != [] then [before.queue[0]] else [])
  }

  function Carried(entries: seq<Entry>): seq<Envelope> {
    if entries == [] then []
    else
      var last := entries[|entries| - 1];
      Carried(entries[..|entries| - 1]) + (if last.Carry? then [last.e] else [])
  }

  /** What the pump sends of what it draws: nothing past the sentinel, nothing up to `skip`. */
  function Sends(entries: seq<Entry>, skip: nat): seq<Envelope> {
    if entries == [] then []
    else
      var init, last := entries[..|entries| - 1], entries[|entries| - 1];
      Sends(init, skip) + (if Stop !in init && last.Carry? && skip < last.e.pos then [last.e] else [])
  }

  function Wanted(aggregate: Option<ItemId>, s: seq<Envelope>): seq<Envelope> {
    Filter(s, (e: Envelope) => Wants(aggregate, e))
  }

  /** The filter keeps the events of its one entity, or all events if there is none. */
  lemma WantedIs(aggregate: Option<ItemId>, s: seq<Envelope>, e: Envelope)
    ensures e in Wanted(aggregate, s) <==> e in s && (aggregate.None? || aggregate.value == e.event.aggregate)
  {
  }

  lemma CarriedSnoc(a: seq<Entry>, x: Entry)
    ensures Carried(a + [x]) == Carried(a) + (if x.Carry? then [x.e] else [])
  {
    assert (a + [x])[..|a|] == a;
  }

  /** `held` is everything accepted so far; `all` everything wanted that was published. */
  ghost predicate Contiguous(m: Mailbox, held: seq<Envelope>, all: seq<Envelope>) {
    held <= all && (!m.overflowed ==> held == all)
  }

  lemma WantedSnoc(aggregate: Option<ItemId>, s: seq<Envelope>, e: Envelope)
    ensures Wanted(aggregate, s + [e]) == Wanted(aggregate, s) + (if Wants(aggregate, e) then [e] else [])
  {
    FilterSnoc(s, e, (e: Envelope) => Wants(aggregate, e));
  }

  /** Same subscriber, overflow flag not cleared, queue within its capacity if it was. */
  ghost predicate Evolves(m: Mailbox, m': Mailbox) {
    && m'.aggregate == m.aggregate && m'.capacity == m.capacity
    && (m.overflowed ==> m'.overflowed)
    && (0 < m.capacity && |m.queue| <= m.capacity ==> |m'.queue| <= m.capacity)
  }

  lemma PutContiguous(m: Mailbox, x: Entry, drawn: seq<Entry>, all: seq<Envelope>)
    requires Contiguous(m, Carried(drawn + m.queue), all) && !m.overflowed
    ensures var m' := Put(m, x);
            && Evolves(m, m')
            && Contiguous(m', Carried(drawn + m'.queue), all + (if x.Carry? then [x.e] else []))
  {
    assert drawn + (m.queue + [x]) == (drawn + m.queue) + [x];
    CarriedSnoc(drawn + m.queue, x);
    assert all <= all + (if x.Carry? then [x.e] else []);
  }

  lemma {:induction false} DeliverContiguous(m: Mailbox, batch: seq<Envelope>, drawn: seq<Entry>, all: seq<Envelope>)
    requires Contiguous(m, Carried(drawn + m.queue), all)
    ensures var m' := Deliver(m, batch);
            Evolves(m, m') && Contiguous(m', Carried(drawn + m'.queue), all + Wanted(m.aggregate, batch))
  {
    hide Carried, Put;
    if batch == [] {
      assert all + Wanted(m.aggregate, batch) == all;
    } else {
      var init, e := batch[..|batch| - 1], batch[|batch| - 1];
      DeliverContiguous(m, init, drawn, all);
      var d := Deliver(m, init);
      var sofar := all + Wanted(m.aggregate, init);
      WantedSnoc(m.aggregate, init, e);
      assert batch == init + [e];
      assert all + Wanted(m.aggregate, batch) == sofar + (if Wants(m.aggregate, e) then [e] else []);
      if Wants(m.aggregate, e) && !d.overflowed {
        PutContiguous(d, Carry(e), drawn, sofar);
      } else {
        assert Deliver(m, batch) == d;
      }
    }
  }

  lemma PlayContiguous(m: Mailbox, turn: Turn, drawn: seq<Entry>, all: seq<Envelope>)
    requires Contiguous(m, Carried(drawn + m.queue), all)
    ensures var m' := Play(m, turn);
            var drawn' := drawn + (if turn.Taken? && m.queue != [] then [m.queue[0]] else []);
            && Evolves(m, m')
            && Contiguous(m', Carried(drawn' + m'.queue),
                          all + (if turn.Published? then Wanted(m.aggregate, turn.batch) else []))
  {
    match turn {
      case Published(batch) =>
        DeliverContiguous(m, batch, drawn, all);
        assert drawn + [] == drawn;
      case Interrupted =>
        assert drawn + [] == drawn && all + [] == all;
        CarriedSnoc(drawn + m.queue, Stop);
        assert drawn + (m.queue + [Stop]) == (drawn + m.queue) + [Stop];
        assert Carried(drawn + m.queue) + [] == Carried(drawn + m.queue);
      case Taken =>
        assert all + [] == all;
        if m.queue != [] {
          assert (drawn + [m.queue[0]]) + m.queue[1..] == drawn + m.queue;
        } else {
          assert drawn + [] == drawn;
        }
    }
  }

  /**
   * Overflow never makes a gap: whatever is published, interrupted and taken, in any order, the events accepted
   * into the queue are a prefix of the wanted events published, all of them until the queue overflows.
   */
  lemma {:induction false} AcceptedIsPrefix(m: Mailbox, turns: seq<Turn>)
    requires m.queue == [] && !m.overflowed
    ensures var m' := PlayAll(m, turns);
            && Evolves(m, m')
            && Contiguous(m', Carried(TakenFrom(m, turns) + m'.queue), Wanted(m.aggregate, Offered(turns)))
  {
    if turns == [] {
      assert [] + m.queue == [];
    } else {
      var n := |turns| - 1;
      AcceptedIsPrefix(m, turns[..n]);
      var b := PlayAll(m, turns[..n]);
      var last := turns[n];
      PlayContiguous(b, last, TakenFrom(m, turns[..n]), Wanted(m.aggregate, Offered(turns[..n])));
      if last.Published? {
        WantedConcat(m.aggregate, Offered(turns[..n]), last.batch);
      } else {
        assert Offered(turns) == Offered(turns[..n]);
        assert Wanted(m.aggregate, Offered(turns)) + [] == Wanted(m.aggregate, Offered(turns));
      }
    }
  }

  lemma WantedConcat(aggregate: Option<ItemId>, a: seq<Envelope>, b: seq<Envelope>)
    ensures Wanted(aggregate, a + b) == Wanted(aggregate, a) + Wanted(aggregate, b)
  {
    FilterConcat(a, b, (e: Envelope) => Wants(aggregate, e));
  }

  lemma {:induction false} SendsPrefixOfCarried(entries: seq<Entry>, skip: nat)
    ensures var all := Filter(Carried(entries), (e: Envelope) => skip < e.pos);
            Sends(entries, skip) <= all && (Stop !in entries ==> Sends(entries, skip) == all)
  {
    if entries != [] {
      var init, last := entries[..|entries| - 1], entries[|entries| - 1];
      var above := (e: Envelope) => skip < e.pos;
      var all, all' := Filter(Carried(init), above), Filter(Carried(entries), above);
      SendsPrefixOfCarried(init, skip);
      if last.Carry? {
        FilterSnoc(Carried(init), last.e, above);
        assert all' == all + (if above(last.e) then [last.e] else []);
      } else {
        assert Carried(entries) == Carried(init) + [] == Carried(init);
        assert last in entries;
      }
      assert all <= all';
      if Stop in init {
        assert Stop in entries;
        assert Sends(entries, skip) == Sends(init, skip) + [] == Sends(init, skip);
      }
    }
  }

  /**
   * What the pump draws, skips and sends is a prefix of the wanted events above `skip`, however the queue
   * overflowed and whatever was queued behind the shutdown sentinel; and it is all of them once the queue is drained,
   * unless it overflowed or the sentinel came.
   */
  lemma PumpSendsPrefix(m: Mailbox, turns: seq<Turn>, skip: nat)
    requires m.queue == [] && !m.overflowed
    ensures Sends(TakenFrom(m, turns), skip)
         <= Filter(Wanted(m.aggregate, Offered(turns)), (e: Envelope) => skip < e.pos)
    ensures var m' := PlayAll(m, turns);
            m'.queue == [] && !m'.overflowed && Stop !in TakenFrom(m, turns) ==>
              Sends(TakenFrom(m, turns), skip)
              == Filter(Wanted(m.aggregate, Offered(turns)), (e: Envelope) => skip < e.pos)
  {
    var above := (e: Envelope) => skip < e.pos;
    var drawn, all := TakenFrom(m, turns), Wanted(m.aggregate, Offered(turns));
    AcceptedIsPrefix(m, turns);
    SendsPrefixOfCarried(drawn, skip);
    CarriedPrefix(drawn, PlayAll(m, turns).queue);
    FilterPrefix(Carried(drawn), all, above);
    assert drawn + [] == drawn;
  }

  lemma {:induction false} CarriedPrefix(a: seq<Entry>, b: seq<Entry>)
    ensures Carried(a) <= Carried(a + b)
  {
    if b == [] {
      assert a + b == a;
    } else {
      CarriedPrefix(a, b[..|b| - 1]);
      assert a + b == (a + b[..|b| - 1]) + [b[|b| - 1]];
      CarriedSnoc(a + b[..|b| - 1], b[|b| - 1]);
    }
  }

  /** The overflow flag is sticky over whole lives. */
  lemma {:induction false} OverflowIsPermanent(m: Mailbox, turns: seq<Turn>, n: nat)
    requires n <= |turns| && PlayAll(m, turns[..n]).overflowed
    ensures PlayAll(m, turns).overflowed
    decreases |turns|
  {
    if n == |turns| {
      assert turns[..n] == turns;
    } else {
      var k := |turns| - 1;
      assert turns[..k][..n] == turns[..n];
      OverflowIsPermanent(m, turns[..k], n);
      if turns[k].Published? {
        OverflowIsFinal(PlayAll(m, turns[..k]), turns[k].batch, 0);
        assert turns[k].batch[..0] == [];
      }
    }
  }

  // ---- When a mailbox overflows, and what the sentinel comes to ----------------------------------------

  /** A box that overflows while it takes a batch is left full. */
  lemma {:induction false} OverflowsFull(m: Mailbox, batch: seq<Envelope>)
    requires !m.overflowed && Deliver(m, batch).overflowed
    ensures 0 < m.capacity && m.capacity <= |Deliver(m, batch).queue|
  {
    var init := batch[..|batch| - 1];
    if Deliver(m, init).overflowed {
      OverflowsFull(m, init);
    } else {
      SameCapacity(m, init);
    }
  }

  lemma {:induction false} SameCapacity(m: Mailbox, batch: seq<Envelope>)
    ensures Deliver(m, batch).capacity == m.capacity
  {
    if batch != [] { SameCapacity(m, batch[..|batch| - 1]); }
  }

  /**
   * A queue fills before it overflows: whenever one that began clear and empty has overflowed, there was a first turn
   * to overflow it, and that turn left it holding exactly its capacity, which is not 0.
   */
  lemma {:induction false} FillsBeforeOverflow(m: Mailbox, turns: seq<Turn>) returns (k: nat)
    requires m.queue == [] && !m.overflowed && PlayAll(m, turns).overflowed
    ensures k < |turns| && !PlayAll(m, turns[..k]).overflowed && PlayAll(m, turns[..k + 1]).overflowed
    ensures 0 < m.capacity == |PlayAll(m, turns[..k + 1]).queue|
  {
    var n := |turns| - 1;
    if PlayAll(m, turns[..n]).overflowed {
      k := FillsBeforeOverflow(m, turns[..n]);
      assert turns[..n][..k] == turns[..k] && turns[..n][..k + 1] == turns[..k + 1];
    } else {
      k := n;
      assert turns[..n + 1] == turns;
      var b := PlayAll(m, turns[..n]);
      AcceptedIsPrefix(m, turns[..n]);
      AcceptedIsPrefix(m, turns);
      if turns[n].Published? { OverflowsFull(b, turns[n].batch); }
    }
  }

  function Takes(turns: seq<Turn>): nat {
    if turns == [] then 0
    else Takes(turns[..|turns| - 1]) + (if turns[|turns| - 1].Taken? then 1 else 0)
  }

  /** Everything that has gone in and not been lost, in order: what was taken, then what is queued. */
  function Passed(m: Mailbox, turns: seq<Turn>): seq<Entry> {
    TakenFrom(m, turns) + PlayAll(m, turns).queue
  }

  lemma {:induction false} DeliverAppends(m: Mailbox, batch: seq<Envelope>)
    ensures m.queue <= Deliver(m, batch).queue
  {
    if batch != [] { DeliverAppends(m, batch[..|batch| - 1]); }
  }

  lemma TurnPasses(m: Mailbox, past: seq<Turn>, turn: Turn)
    ensures Passed(m, past) <= Passed(m, past + [turn])
    ensures |TakenFrom(m, past + [turn])| == |TakenFrom(m, past)|
              + (if turn.Taken? && PlayAll(m, past).queue != [] then 1 else 0)
  {
    hide PlayAll, TakenFrom, Deliver;
    NextTurn(m, past, turn);
    var taken, b := TakenFrom(m, past), PlayAll(m, past);
    match turn {
      case Published(batch) => DeliverAppends(b, batch);
      case Interrupted =>
      case Taken => if b.queue != [] { assert (taken + [b.queue[0]]) + b.queue[1..] == taken + b.queue; }
    }
  }

  lemma NextTurn(m: Mailbox, past: seq<Turn>, turn: Turn)
    ensures PlayAll(m, past + [turn]) == Play(PlayAll(m, past), turn)
    ensures TakenFrom(m, past + [turn]) ==
      if turn.Taken? && PlayAll(m, past).queue != [] then TakenFrom(m, past) + [PlayAll(m, past).queue[0]]
      else TakenFrom(m, past)
  {
    hide Play;
    assert (past + [turn])[..|past|] == past;
    assert TakenFrom(m, past) + [] == TakenFrom(m, past);
  }

  /** First in, first out: the entry at place `p` of what has passed is taken by the time `p + 1` entries are. */
  lemma {:induction false} FirstInFirstOut(m: Mailbox, past: seq<Turn>, more: seq<Turn>, p: nat)
    requires p < |Passed(m, past)|
    ensures Passed(m, past) <= Passed(m, past + more)
    ensures p < |TakenFrom(m, past + more)| || |TakenFrom(m, past + more)| >= |TakenFrom(m, past)| + Takes(more)
    ensures p < |TakenFrom(m, past + more)| ==> TakenFrom(m, past + more)[p] == Passed(m, past)[p]
  {
    hide PlayAll, TakenFrom, Passed;
    if more == [] {
      assert past + more == past;
      PassedStarts(m, past);
    } else {
      var init, last := more[..|more| - 1], more[|more| - 1];
      FirstInFirstOut(m, past, init, p);
      assert past + more == (past + init) + [last];
      TurnPasses(m, past + init, last);
      PassedStarts(m, past + init);
      PassedStarts(m, past + more);
    }
  }

  lemma PassedStarts(m: Mailbox, turns: seq<Turn>)
    ensures TakenFrom(m, turns) <= Passed(m, turns)
    ensures |Passed(m, turns)| == |TakenFrom(m, turns)| + |PlayAll(m, turns).queue|
    ensures PlayAll(m, turns).queue == [] <==> |Passed(m, turns)| == |TakenFrom(m, turns)|
  {
  }

  /**
   * A shutdown is heard: once a subscriber has been interrupted, as many takes as it had entries queued, and one
   * more, draw the sentinel, whatever else is published meanwhile, unless there was no room for it and the queue
   * overflowed.
   */
  lemma InterruptIsHeard(m: Mailbox, past: seq<Turn>, more: seq<Turn>)
    requires Takes(more) > |PlayAll(m, past).queue|
    ensures Stop in TakenFrom(m, past + [Interrupted] + more) || PlayAll(m, past + [Interrupted]).overflowed
  {
    var b, told := PlayAll(m, past), past + [Interrupted];
    assert told[..|past|] == past;
    if !PlayAll(m, told).overflowed {
      assert PlayAll(m, told).queue == b.queue + [Stop];
      var p := |Passed(m, told)| - 1;
      assert Passed(m, told)[p] == Stop;
      FirstInFirstOut(m, told, more, p);
      assert |TakenFrom(m, told)| == |TakenFrom(m, past)|;
    }
  }

  /** `cursor` is the position of the last event accepted. */
  lemma {:induction false} CursorIsLastAccepted(m: Mailbox, batch: seq<Envelope>)
    ensures var m' := Deliver(m, batch);
      && m.queue <= m'.queue
      && if |m'.queue| == |m.queue| then m'.cursor == m.cursor
         else m'.queue[|m'.queue| - 1].Carry? && m'.cursor == m'.queue[|m'.queue| - 1].e.pos
  {
    if batch != [] { CursorIsLastAccepted(m, batch[..|batch| - 1]); }
  }
}

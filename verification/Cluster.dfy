/**
 * The whole service: the database, one tailer and one hub per worker, stream sessions and their clients.
 *
 * Every await point is a place where other steps may come between, so each statement, hand-off, send and
 * receive is a step of its own. A step by `Db` is any step of the database machine.
 */
module Cluster {
  import opened Model
  import opened Mailboxes
  import opened Reader
  import S = Store

  /** Batch sizes are at least 1; `capacity` bounds each subscriber's queue. */
  datatype Config = Config(tailBatch: nat, page: nat, capacity: nat)

  predicate ValidConfig(cfg: Config) {
    cfg.tailBatch >= 1 && cfg.page >= 1
  }

  // ---- Tailers ---------------------------------------------------------------------------------

  datatype TailerPhase =
    | Down
    | Starting                          // connected and listening, cursor not read yet
    | Ready                             // about to fetch a batch
    | Fetched(rows: seq<Envelope>)      // the rows are here, not handed to the hub yet
    | Waiting                           // waiting for its wakeup flag or the poll timeout
    | Debouncing
    | Backoff

  /**
   * `notices` counts notifications sent to this connection and not yet received. The histories are the cursor
   * it started from and everything it has handed to its hub since.
   */
  datatype Tailer = Tailer(
    phase: TailerPhase, connected: bool, wakeup: bool, notices: nat, cursor: nat,
    origin: nat, handed: seq<Envelope>)

  /** LISTEN is active: a commit that publishes reaches this connection. */
  function Notified(t: Tailer): Tailer {
    if t.connected then t.(notices := t.notices + 1) else t
  }

  /** Closing a connection loses whatever was on its way to it. */
  function Disconnected(t: Tailer): Tailer {
    t.(connected := false, notices := 0)
  }

  function AfterHandOff(cfg: Config, t: Tailer): Tailer
    requires t.phase.Fetched?
  {
    var rows := t.phase.rows;
    var next := if |rows| < cfg.tailBatch then Waiting else Ready;
    if rows == [] then t.(phase := next)
    else t.(phase := next, cursor := rows[|rows| - 1].pos, handed := t.handed + rows)
  }

  // ---- Sessions --------------------------------------------------------------------------------

  /**
   * A subscriber in a hub. Its histories: the tailer cursor when it joined, the position up to which it has
   * been offered everything and refused nothing, and what it has accepted.
   */
  datatype Channel = Channel(box: Mailbox, joined: nat, reach: nat, accepted: seq<Envelope>)

  function PushChannel(ch: Channel, e: Envelope): Channel {
    var box := Push(ch.box, e);
    if ch.box.overflowed then ch
    else if !Wants(ch.box.aggregate, e) then ch.(reach := e.pos)
    else if box.overflowed then ch.(box := box)
    else ch.(box := box, reach := e.pos, accepted := ch.accepted + [e])
  }

  function DeliverChannel(ch: Channel, rows: seq<Envelope>): Channel {
    if rows == [] then ch else PushChannel(DeliverChannel(ch, rows[..|rows| - 1]), rows[|rows| - 1])
  }

  datatype SessionPhase =
    | Opened                            // accepted, stale-cursor check due
    | Cleared                           // check passed or not needed, not subscribed yet
    | Replaying                         // subscribed, about to read a replay page
    | Sending(rest: seq<Envelope>, short: bool, upto: nat)
                                        // sending a page; `upto` is how far the page is complete
    | Pumping(skip: nat)
    | Closed(code: int)

  /**
   * `after` is the last_event_id it was opened with and `edge` the position it has sent up to. `wire` is on its
   * way to the client. Histories: `floor`, the position from which the session owes everything, and `sent`.
   */
  datatype Session = Session(
    worker: nat, after: nat, phase: SessionPhase, chan: Channel, edge: nat, wire: seq<Envelope>,
    floor: nat, sent: seq<Envelope>)

  const SLOW_CONSUMER := 4001
  const SERVER_SHUTDOWN := 4002
  const CURSOR_TOO_OLD := 4003
  const ABNORMAL := 1006

  predicate Subscribed(z: Session) {
    z.phase.Replaying? || z.phase.Sending? || z.phase.Pumping?
  }

  function Send(z: Session, e: Envelope): Session {
    z.(edge := e.pos, wire := z.wire + [e], sent := z.sent + [e])
  }

  // ---- Clients ---------------------------------------------------------------------------------

  /** `initial` is the cursor it was started with, `log` (a history) every event it has processed. */
  datatype Client = Client(
    aggregate: Option<ItemId>, replay: bool, initial: nat, reader: Reader, log: seq<Envelope>,
    conn: Option<Session>, refused: bool)

  predicate WantsReplay(c: Client, after: nat) {
    c.replay && after > 0
  }

  // ---- The state and its steps -----------------------------------------------------------------

  datatype Cluster = Cluster(store: S.Store, tailers: map<nat, Tailer>, clients: map<nat, Client>)

  datatype Act =
    | Db(a: S.Action)
    // tailer and hub of worker w
    | Start(w: nat) | Position(w: nat) | Reconnect(w: nat)
    | Fetch(w: nat) | HandOff(w: nat)
    | Notice(w: nat) | Wake(w: nat) | Timeout(w: nat) | Debounced(w: nat)
    | Disconnect(w: nat) | Fail(w: nat) | Retry(w: nat)
    | Shutdown(w: nat) | Crash(w: nat)
    // session and client c
    | Open(c: nat, on: nat) | Check(c: nat) | Subscribe(c: nat)
    | ReplayFetch(c: nat) | ReplaySend(c: nat) | Overrun(c: nat) | Pump(c: nat)
    | Receive(c: nat) | Hear(c: nat) | Drop(c: nat)

  predicate Up(s: Cluster, w: nat) {
    w in s.tailers && !s.tailers[w].phase.Down?
  }

  predicate CanTail(s: Cluster, a: Act) {
    match a
    case Start(w) => !Up(s, w)
    case Position(w) => Up(s, w) && s.tailers[w].phase.Starting? && s.tailers[w].connected
    case Reconnect(w) => Up(s, w) && s.tailers[w].phase.Ready? && !s.tailers[w].connected
    case Fetch(w) => Up(s, w) && s.tailers[w].phase.Ready? && s.tailers[w].connected
    case HandOff(w) => Up(s, w) && s.tailers[w].phase.Fetched?
    case Notice(w) => Up(s, w) && s.tailers[w].connected && s.tailers[w].notices > 0
    case Wake(w) => Up(s, w) && s.tailers[w].phase.Waiting? && s.tailers[w].wakeup
    case Timeout(w) => Up(s, w) && s.tailers[w].phase.Waiting?
    case Debounced(w) => Up(s, w) && s.tailers[w].phase.Debouncing?
    case Disconnect(w) => Up(s, w)
    case Fail(w) => Up(s, w) && !s.tailers[w].phase.Starting?
    case Retry(w) => Up(s, w) && s.tailers[w].phase.Backoff?
    case Shutdown(w) => Up(s, w)
    case Crash(w) => Up(s, w)
    case _ => false
  }

  predicate HasSession(s: Cluster, c: nat) {
    c in s.clients && s.clients[c].conn.Some?
  }

  function SessionOf(s: Cluster, c: nat): Session
    requires HasSession(s, c)
  {
    s.clients[c].conn.value
  }

  predicate CanStream(s: Cluster, a: Act) {
    match a
    case Open(c, w) =>
      c in s.clients && !s.clients[c].refused && s.clients[c].conn.None?
      && Up(s, w) && !s.tailers[w].phase.Starting?
    case Check(c) => HasSession(s, c) && SessionOf(s, c).phase.Opened?
    case Subscribe(c) => HasSession(s, c) && SessionOf(s, c).phase.Cleared? && Up(s, SessionOf(s, c).worker)
    case ReplayFetch(c) => HasSession(s, c) && SessionOf(s, c).phase.Replaying?
    case ReplaySend(c) => HasSession(s, c) && SessionOf(s, c).phase.Sending? && SessionOf(s, c).phase.rest != []
    // The pump tests the overflow flag and then waits for the head, so the flag may rise before it takes it
    case Overrun(c) => HasSession(s, c) && SessionOf(s, c).phase.Pumping? && SessionOf(s, c).chan.box.overflowed
    case Pump(c) => HasSession(s, c) && SessionOf(s, c).phase.Pumping? && SessionOf(s, c).chan.box.queue != []
    case Receive(c) => HasSession(s, c) && SessionOf(s, c).wire != []
    // The close frame comes behind everything on the wire, and only if the connection lasts that long
    case Hear(c) => HasSession(s, c) && SessionOf(s, c).phase.Closed? && SessionOf(s, c).wire == []
    case Drop(c) => HasSession(s, c)
    case _ => false
  }

  predicate CanAct(s: Cluster, a: Act) {
    if a.Db? then S.Can(s.store, a.a) else CanTail(s, a) || CanStream(s, a)
  }

  /** Applies `f` to every open session of worker `w`. */
  function OnWorker(s: Cluster, w: nat, f: Session -> Session): map<nat, Client> {
    map c | c in s.clients ::
      if s.clients[c].conn.Some? && s.clients[c].conn.value.worker == w
      then s.clients[c].(conn := Some(f(s.clients[c].conn.value))) else s.clients[c]
  }

  function Delivered(z: Session, rows: seq<Envelope>): Session {
    if Subscribed(z) then z.(chan := DeliverChannel(z.chan, rows)) else z
  }

  function Signalled(z: Session): Session {
    if Subscribed(z) then z.(chan := z.chan.(box := Interrupt(z.chan.box))) else z
  }

  /** The worker is gone: nothing more is sent, what is on the wire may or may not arrive. */
  function Severed(z: Session): Session {
    if z.phase.Closed? then z else z.(phase := Closed(ABNORMAL))
  }

  function SetTailer(s: Cluster, w: nat, t: Tailer): Cluster {
    s.(tailers := s.tailers[w := t])
  }

  function DoTail(cfg: Config, s: Cluster, a: Act): Cluster
    requires CanTail(s, a)
  {
    match a
    case Start(w) => SetTailer(s, w, Tailer(Starting, true, false, 0, 0, 0, []))
    case Position(w) =>
      var at := S.NewestPosition(s.store.outbox);
      SetTailer(s, w, s.tailers[w].(phase := Ready, cursor := at, origin := at))
    case Reconnect(w) => SetTailer(s, w, s.tailers[w].(connected := true, notices := 0))
    case Fetch(w) =>
      var t := s.tailers[w];
      SetTailer(s, w, t.(phase := Fetched(S.SelectStream(s.store.outbox, None, t.cursor, cfg.tailBatch))))
    case HandOff(w) =>
      var t := s.tailers[w];
      var rows := t.phase.rows;
      SetTailer(s, w, AfterHandOff(cfg, t)).(clients := OnWorker(s, w, z => Delivered(z, rows)))
    case Notice(w) => SetTailer(s, w, s.tailers[w].(notices := s.tailers[w].notices - 1, wakeup := true))
    case Wake(w) => SetTailer(s, w, s.tailers[w].(phase := Debouncing, wakeup := false))
    case Timeout(w) => SetTailer(s, w, s.tailers[w].(phase := Ready, wakeup := false))
    case Debounced(w) => SetTailer(s, w, s.tailers[w].(phase := Ready))
    case Disconnect(w) => SetTailer(s, w, Disconnected(s.tailers[w]))
    case Fail(w) => SetTailer(s, w, Disconnected(s.tailers[w]).(phase := Backoff))
    case Retry(w) => SetTailer(s, w, s.tailers[w].(phase := Ready))
    case Shutdown(w) => s.(clients := OnWorker(s, w, z => Signalled(z)))
    case Crash(w) =>
      SetTailer(s, w, Disconnected(s.tailers[w]).(phase := Down)).(clients := OnWorker(s, w, z => Severed(z)))
  }

  function SetSession(s: Cluster, c: nat, z: Session): Cluster
    requires c in s.clients
  {
    s.(clients := s.clients[c := s.clients[c].(conn := Some(z))])
  }

  /** A new connection resumes from the client's cursor. */
  function NewSession(cfg: Config, c: Client, w: nat): Session {
    var after := c.reader.cursor;
    var box := Mailbox(cfg.capacity, c.aggregate, after, [], false);
    Session(w, after, Opened, Channel(box, 0, 0, []), after, [], after, [])
  }

  /** The stale-cursor check against the oldest row still in the table. */
  predicate TooOld(outbox: Outbox, after: nat) {
    var oldest := S.OldestPosition(outbox);
    oldest.Some? && oldest.value > after + 1
  }

  function Joined(z: Session, cursor: nat): Session {
    z.(chan := z.chan.(joined := cursor, reach := cursor))
  }

  /** After a page: a short one ends the replay, a full one is followed by another. */
  function PageSent(z: Session, short: bool): Session {
    z.(phase := if short then Pumping(z.edge) else Replaying)
  }

  function PumpOnce(z: Session): Session
    requires z.phase.Pumping? && z.chan.box.queue != []
  {
    var box := z.chan.box;
    if box.queue[0].Stop? then z.(phase := Closed(SERVER_SHUTDOWN))
    else
      var z' := z.(chan := z.chan.(box := box.(queue := box.queue[1..])));
      if box.queue[0].e.pos <= z.phase.skip then z' else Send(z', box.queue[0].e)
  }

  function DoStream(cfg: Config, s: Cluster, a: Act): Cluster
    requires CanStream(s, a)
  {
    match a
    case Open(c, w) => SetSession(s, c, NewSession(cfg, s.clients[c], w))
    case Check(c) =>
      var z := SessionOf(s, c);
      if WantsReplay(s.clients[c], z.after) && TooOld(s.store.outbox, z.after) then
        SetSession(s, c, z.(phase := Closed(CURSOR_TOO_OLD)))
      else SetSession(s, c, z.(phase := Cleared))
    case Subscribe(c) =>
      var z := SessionOf(s, c);
      var cursor := s.tailers[z.worker].cursor;
      if WantsReplay(s.clients[c], z.after) then SetSession(s, c, Joined(z, cursor).(phase := Replaying))
      else
        var floor := if cursor < z.after then z.after else cursor;
        SetSession(s, c, Joined(z, cursor).(phase := Pumping(z.after), edge := floor, floor := floor))
    case ReplayFetch(c) =>
      var z := SessionOf(s, c);
      var rows := S.SelectStream(s.store.outbox, s.clients[c].aggregate, z.edge, cfg.page);
      var short := |rows| < cfg.page;
      var upto := if short then Head(s.store.published) else Head(rows);
      SetSession(s, c, if rows == [] then PageSent(z, true) else z.(phase := Sending(rows, short, upto)))
    case ReplaySend(c) =>
      var z := SessionOf(s, c);
      var Sending(rest, short, upto) := z.phase;
      var z' := Send(z, rest[0]);
      SetSession(s, c, if |rest| == 1 then PageSent(z', short) else z'.(phase := Sending(rest[1..], short, upto)))
    case Overrun(c) => SetSession(s, c, SessionOf(s, c).(phase := Closed(SLOW_CONSUMER)))
    case Pump(c) => SetSession(s, c, PumpOnce(SessionOf(s, c)))
    case Receive(c) =>
      var z, client := SessionOf(s, c), s.clients[c];
      var e := z.wire[0];
      var s' := SetSession(s, c, z.(wire := z.wire[1..]));
      var log := if e.pos > client.reader.cursor then client.log + [e] else client.log;
      s'.(clients := s'.clients[c := s'.clients[c].(reader := Show(client.reader, e.pos), log := log)])
    case Hear(c) =>
      // Told that its cursor is too old, a client gives up; any other close it reconnects after
      var refused := SessionOf(s, c).phase == Closed(CURSOR_TOO_OLD);
      s.(clients := s.clients[c := s.clients[c].(conn := None, refused := s.clients[c].refused || refused)])
    case Drop(c) => s.(clients := s.clients[c := s.clients[c].(conn := None)])
  }

  function DoAct(cfg: Config, s: Cluster, a: Act): Cluster
    requires CanAct(s, a)
  {
    if a.Db? then
      var s' := s.(store := S.Do(s.store, a.a));
      // The trigger on stream_seq notifies every listener in the publisher's commit
      if a.a.PCommit? then s'.(tailers := map w | w in s.tailers :: Notified(s.tailers[w])) else s'
    else if CanTail(s, a) then DoTail(cfg, s, a)
    else DoStream(cfg, s, a)
  }
}

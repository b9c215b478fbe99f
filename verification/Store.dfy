/**
 * PostgreSQL with its writers, publishers and retention sweeps, one step per statement.
 *
 * Each statement runs under READ COMMITTED on the committed tables. A transaction's own changes are
 * staged in its record and reach the tables in its commit step; a crash or an error before that step
 * discards them. Sequences (`lastId`, `streamSeq`) are not transactional: they never roll back.
 */
module Store {
  import opened Model
  import opened Ordering
  import EventLog

  // ---- Writers -------------------------------------------------------------------------------

  datatype WriteOp =
    | Create(name: string, value: int)
    | Update(item: ItemId, newName: Option<string>, newValue: Option<int>, expected: Option<nat>)
    | Delete(item: ItemId, expected: Option<nat>)

  datatype WriterPhase =
    | Begun
    | Locked(row: Item)         // holds FOR UPDATE on the item row it read, version accepted
    | Written(payload: Item)    // the item row is changed, uncommitted
    | Appended(event: Event)    // the outbox row is inserted, uncommitted

  /** `target` is the row a write is about; a create draws a fresh UUID for it. */
  datatype Writer = Writer(op: WriteOp, target: ItemId, at: Time, phase: WriterPhase)

  datatype Verdict = Accepted | NotFound | Conflict(current: nat)

  /** What `SELECT ... FOR UPDATE` and the version check decide about an update or a delete. */
  function Judge(items: map<ItemId, Item>, op: WriteOp): Verdict
    requires !op.Create?
  {
    if op.item !in items then NotFound
    else if op.expected.Some? && items[op.item].version != op.expected.value then Conflict(items[op.item].version)
    else Accepted
  }

  /** The snapshot a write puts in its event: the row it leaves, or the row it deletes. */
  function Snapshot(op: WriteOp, row: Option<Item>, at: Time): Item
    requires op.Create? || row.Some?
  {
    match op
    case Create(name, value) => Item(name, value, 1, at, at)
    case Update(_, name, value, _) =>
      Item(if name.Some? then name.value else row.value.name, if value.Some? then value.value else row.value.value,
           row.value.version + 1, row.value.createdAt, at)
    case Delete(_, _) => row.value
  }

  function KindOf(op: WriteOp): Kind {
    match op case Create(_, _) => Created case Update(_, _, _, _) => Updated case Delete(_, _) => Deleted
  }

  // ---- Publishers ----------------------------------------------------------------------------

  datatype PublisherPhase =
    | Began
    | Holding                               // holds the advisory lock
    | Claimed(ids: seq<nat>)                // rows locked by FOR UPDATE SKIP LOCKED
    | Drawn(ids: seq<nat>, start: nat)      // nextval done, setval still due
    | Reserved(ids: seq<nat>, start: nat)   // the whole block is taken
    | Marked(ids: seq<nat>, start: nat)     // rows updated, uncommitted

  datatype Publisher = Publisher(at: Time, phase: PublisherPhase)

  /** A reserved range of stream positions, both ends included. */
  datatype Block = Block(lo: nat, hi: nat)

  function RowsOf(phase: PublisherPhase): seq<nat> {
    if phase.Began? || phase.Holding? then [] else phase.ids
  }

  // ---- Statements ----------------------------------------------------------------------------

  predicate Queued(outbox: Outbox, id: nat) {
    id in outbox && outbox[id].stamp.None?
  }

  function QueuedIds(outbox: Outbox, locked: set<nat>): set<nat> {
    set id | id in outbox && Queued(outbox, id) && id !in locked
  }

  /** ORDER BY id LIMIT n over unpublished rows, skipping rows another transaction has locked. */
  function ClaimRows(outbox: Outbox, locked: set<nat>, limit: nat): seq<nat> {
    FirstBy(QueuedIds(outbox, locked), ById, limit)
  }

  /** Position of an id in the array given to unnest. */
  function IndexOf(ids: seq<nat>, id: nat): (k: nat)
    requires id in ids
    ensures k < |ids| && ids[k] == id
  {
    if ids[0] == id then 0 else 1 + IndexOf(ids[1..], id)
  }

  /** UPDATE ... FROM unnest(ids, start, start + 1, ...): rows no longer in the table are not touched. */
  function MarkRows(outbox: Outbox, ids: seq<nat>, start: nat, at: Time): Outbox {
    map id | id in outbox ::
      if id in ids then outbox[id].(stamp := Some(Stamp(at, start + IndexOf(ids, id)))) else outbox[id]
  }

  /** The envelopes of the rows that `MarkRows` stamps, in stream order. */
  function BlockEvents(outbox: Outbox, ids: seq<nat>, start: nat): seq<Envelope> {
    if ids == [] then []
    else
      (if ids[0] in outbox then [Envelope(start, outbox[ids[0]].event)] else [])
      + BlockEvents(outbox, ids[1..], start + 1)
  }

  /** Published rows older than the cutoff. */
  function AgedIds(outbox: Outbox, cutoff: Time): set<nat> {
    set id | id in outbox && outbox[id].stamp.Some? && outbox[id].stamp.value.at < cutoff
  }

  /** ... ORDER BY id LIMIT n */
  function AgedRows(outbox: Outbox, cutoff: Time, limit: nat): seq<nat> {
    FirstBy(AgedIds(outbox, cutoff), ById, limit)
  }

  function DeleteRows(outbox: Outbox, ids: seq<nat>): Outbox {
    outbox - SetOf(ids)
  }

  function PosOf(outbox: Outbox, id: nat): nat {
    if id in outbox && outbox[id].stamp.Some? then outbox[id].stamp.value.pos else 0
  }

  function ByPosition(outbox: Outbox): nat -> int {
    (id: nat) => PosOf(outbox, id)
  }

  /** Published rows with stream_seq > after that the filter admits. */
  function StreamIds(outbox: Outbox, aggregate: Option<ItemId>, after: nat): set<nat> {
    set id | id in outbox && outbox[id].stamp.Some? && outbox[id].stamp.value.pos > after
             && (aggregate.None? || aggregate.value == outbox[id].event.aggregate)
  }

  /** ... ORDER BY stream_seq LIMIT n: the tailer's query, and with a filter the replay's. */
  function SelectStream(outbox: Outbox, aggregate: Option<ItemId>, after: nat, limit: nat): (rows: seq<Envelope>)
  {
    var page := FirstBy(StreamIds(outbox, aggregate, after), ByPosition(outbox), limit);
    seq(|page|, k requires 0 <= k < |page| =>
      assert page[k] in StreamIds(outbox, aggregate, after);
      Envelope(PosOf(outbox, page[k]), outbox[page[k]].event))
  }

  function Positions(outbox: Outbox): set<nat> {
    set id | id in outbox && outbox[id].stamp.Some? :: outbox[id].stamp.value.pos
  }

  /** min(stream_seq) over published rows, null when there is none. */
  function OldestPosition(outbox: Outbox): Option<nat> {
    var ps := OrderBy(Positions(outbox), ById);
    if ps == [] then None else Some(ps[0])
  }

  /** coalesce(max(stream_seq), 0) */
  function NewestPosition(outbox: Outbox): nat {
    var ps := OrderBy(Positions(outbox), ById);
    if ps == [] then 0 else ps[|ps| - 1]
  }

  // ---- The state and its steps ---------------------------------------------------------------

  datatype Store = Store(
    clock: Time,
    items: map<ItemId, Item>,
    outbox: Outbox,
    lastId: nat,                    // last value of the outbox BIGSERIAL
    streamSeq: nat,                 // last value of outbox_stream_seq
    writers: map<nat, Writer>,
    publishers: map<nat, Publisher>,
    lock: Option<nat>,              // holder of the publish advisory lock
    // Histories. Nothing in the service reads them.
    used: set<ItemId>,              // UUIDs ever drawn
    committed: seq<Event>,          // every event ever committed, in commit order
    ops: seq<WriteOp>,              // the write behind each committed event
    published: seq<Envelope>,       // every event ever published, in publication order
    blocks: seq<Block>)             // every position range ever reserved

  datatype Action =
    | Tick
    | WBegin(w: nat, op: WriteOp, target: ItemId)
    | WLock(w: nat)
    | WWrite(w: nat)
    | WAppend(w: nat)
    | WCommit(w: nat)
    | WAbort(w: nat)
    | PBegin(p: nat)
    | PTryLock(p: nat)
    | PClaim(p: nat, limit: nat)
    | PNextVal(p: nat)
    | PSetVal(p: nat)
    | PMark(p: nat)
    | PCommit(p: nat)
    | PCrash(p: nat)
    | Trim(window: nat, limit: nat)

  const Empty := Store(0, map[], map[], 0, 0, map[], map[], None, {}, [], [], [], [])

  /**
   * An update or delete that has the item row locked or has written it. A row whose insert is uncommitted is not
   * there to wait for.
   */
  predicate Locks(tx: Writer, x: ItemId) {
    tx.target == x && !tx.phase.Begun? && !tx.op.Create?
  }

  predicate RowBusy(s: Store, w: nat, x: ItemId) {
    exists v :: v in s.writers && v != w && Locks(s.writers[v], x)
  }

  predicate CanWrite(s: Store, a: Action) {
    match a
    case WBegin(w, op, x) => w !in s.writers && (if op.Create? then x !in s.used else x == op.item)
    case WLock(w) =>
      w in s.writers && s.writers[w].phase.Begun? && !s.writers[w].op.Create? && !RowBusy(s, w, s.writers[w].target)
    case WWrite(w) =>
      w in s.writers && if s.writers[w].op.Create? then s.writers[w].phase.Begun? else s.writers[w].phase.Locked?
    case WAppend(w) => w in s.writers && s.writers[w].phase.Written?
    case WCommit(w) => w in s.writers && s.writers[w].phase.Appended?
    case WAbort(w) => w in s.writers
    case _ => false
  }

  predicate CanPublish(s: Store, a: Action) {
    match a
    case PBegin(p) => p !in s.publishers
    case PTryLock(p) => p in s.publishers && s.publishers[p].phase.Began?
    case PClaim(p, limit) => p in s.publishers && s.publishers[p].phase.Holding? && limit >= 1
    case PNextVal(p) => p in s.publishers && s.publishers[p].phase.Claimed?
    case PSetVal(p) => p in s.publishers && s.publishers[p].phase.Drawn? && |s.publishers[p].phase.ids| > 1
    case PMark(p) => p in s.publishers && s.publishers[p].phase.Reserved?
    case PCommit(p) => p in s.publishers && s.publishers[p].phase.Marked?
    case PCrash(p) => p in s.publishers
    case _ => false
  }

  predicate Can(s: Store, a: Action) {
    match a
    case Tick => true
    case Trim(_, limit) => limit >= 1
    case _ => CanWrite(s, a) || CanPublish(s, a)
  }

  function SetWriter(s: Store, w: nat, phase: WriterPhase): Store
    requires w in s.writers
  {
    s.(writers := s.writers[w := s.writers[w].(phase := phase)])
  }

  function EndWriter(s: Store, w: nat): Store {
    s.(writers := s.writers - {w})
  }

  function DoWrite(s: Store, a: Action): Store
    requires CanWrite(s, a)
  {
    match a
    case WBegin(w, op, x) =>
      s.(writers := s.writers[w := Writer(op, x, s.clock, Begun)], used := if op.Create? then s.used + {x} else s.used)
    case WLock(w) =>
      // ItemNotFound and VersionConflict roll the transaction back
      var op := s.writers[w].op;
      if Judge(s.items, op).Accepted? then SetWriter(s, w, Locked(s.items[op.item])) else EndWriter(s, w)
    case WWrite(w) =>
      var tx := s.writers[w];
      SetWriter(s, w, Written(Snapshot(tx.op, if tx.phase.Locked? then Some(tx.phase.row) else None, tx.at)))
    case WAppend(w) =>
      var tx := s.writers[w];
      var e := Event(s.lastId + 1, tx.target, KindOf(tx.op), tx.phase.payload);
      SetWriter(s, w, Appended(e)).(lastId := s.lastId + 1)
    case WCommit(w) =>
      var tx := s.writers[w];
      var e := tx.phase.event;
      EndWriter(s, w).(items := EventLog.Absorb(s.items, e), outbox := s.outbox[e.id := Row(e, None)],
                       committed := s.committed + [e], ops := s.ops + [tx.op])
    case WAbort(w) => EndWriter(s, w)
  }

  function SetPublisher(s: Store, p: nat, phase: PublisherPhase): Store
    requires p in s.publishers
  {
    s.(publishers := s.publishers[p := s.publishers[p].(phase := phase)])
  }

  /** The transaction ends: row locks and the advisory lock go with it. */
  function EndPublisher(s: Store, p: nat): Store {
    s.(publishers := s.publishers - {p}, lock := if s.lock == Some(p) then None else s.lock)
  }

  /** Outbox rows locked by publisher transactions other than `p`. */
  function LockedRows(s: Store, p: nat): set<nat> {
    set q, id | q in s.publishers && q != p && id in RowsOf(s.publishers[q].phase) :: id
  }

  function DoPublish(s: Store, a: Action): Store
    requires CanPublish(s, a)
  {
    match a
    case PBegin(p) => s.(publishers := s.publishers[p := Publisher(s.clock, Began)])
    case PTryLock(p) =>
      if s.lock.None? then SetPublisher(s, p, Holding).(lock := Some(p)) else EndPublisher(s, p)
    case PClaim(p, limit) =>
      var ids := ClaimRows(s.outbox, LockedRows(s, p), limit);
      if ids == [] then EndPublisher(s, p) else SetPublisher(s, p, Claimed(ids))
    case PNextVal(p) =>
      var ids, start := s.publishers[p].phase.ids, s.streamSeq + 1;
      if |ids| > 1 then SetPublisher(s, p, Drawn(ids, start)).(streamSeq := start)
      else SetPublisher(s, p, Reserved(ids, start)).(streamSeq := start, blocks := s.blocks + [Block(start, start)])
    case PSetVal(p) =>
      var Drawn(ids, start) := s.publishers[p].phase;
      var hi := start + |ids| - 1;
      SetPublisher(s, p, Reserved(ids, start)).(streamSeq := hi, blocks := s.blocks + [Block(start, hi)])
    case PMark(p) =>
      SetPublisher(s, p, Marked(s.publishers[p].phase.ids, s.publishers[p].phase.start))
    case PCommit(p) =>
      var Publisher(at, Marked(ids, start)) := s.publishers[p];
      EndPublisher(s, p).(outbox := MarkRows(s.outbox, ids, start, at),
                          published := s.published + BlockEvents(s.outbox, ids, start))
    case PCrash(p) => EndPublisher(s, p)
  }

  function Do(s: Store, a: Action): Store
    requires Can(s, a)
  {
    match a
    case Tick => s.(clock := s.clock + 1)
    case Trim(window, limit) => s.(outbox := DeleteRows(s.outbox, AgedRows(s.outbox, s.clock - window, limit)))
    case _ => if CanWrite(s, a) then DoWrite(s, a) else DoPublish(s, a)
  }
}

/** The item repository's own code: each write is one transaction that also appends its event. */
module Repository {
  import opened Model
  import opened EventLog
  import opened Store
  import opened StoreInvariant
  import opened Database

  datatype WriteResult =
    | Done(item: Item, eventId: nat)
    | ItemNotFound
    | VersionConflict(expected: nat, current: nat)

  /** The event a write appends: it carries the next outbox id and the snapshot the write leaves. */
  function EventOf(s: Store, op: WriteOp, x: ItemId, payload: Item): Event {
    Event(s.lastId + 1, x, KindOf(op), payload)
  }

  /** The database after one event and its write, and nothing else. */
  function Committed(s: Store, op: WriteOp, e: Event): Store {
    s.(items := Absorb(s.items, e), outbox := s.outbox[e.id := Row(e, None)], lastId := e.id,
       committed := s.committed + [e], ops := s.ops + [op],
       used := if op.Create? then s.used + {e.aggregate} else s.used)
  }

  /** Database `s` with transaction `w` of `op`, begun at `at`, in `phase`. */
  function Within(s: Store, w: nat, op: WriteOp, x: ItemId, at: Time, phase: WriterPhase): Store {
    s.(writers := s.writers[w := Writer(op, x, at, phase)], used := if op.Create? then s.used + {x} else s.used)
  }

  lemma WriteStep(s: Store, w: nat, op: WriteOp, x: ItemId, at: Time, phase: WriterPhase)
    requires if op.Create? then phase == Begun else phase.Locked?
    ensures Can(Within(s, w, op, x, at, phase), WWrite(w))
    ensures Do(Within(s, w, op, x, at, phase), WWrite(w))
         == Within(s, w, op, x, at, Written(Snapshot(op, if phase.Locked? then Some(phase.row) else None, at)))
  {
    hide Snapshot, DoPublish, CanPublish;
  }

  lemma AppendStep(s: Store, w: nat, op: WriteOp, x: ItemId, at: Time, payload: Item)
    ensures Can(Within(s, w, op, x, at, Written(payload)), WAppend(w))
    ensures var e := EventOf(s, op, x, payload);
            Do(Within(s, w, op, x, at, Written(payload)), WAppend(w))
                == Within(s.(lastId := e.id), w, op, x, at, Appended(e))
  {
    hide Snapshot, DoPublish, CanPublish;
  }

  lemma CommitStep(s: Store, w: nat, op: WriteOp, x: ItemId, at: Time, payload: Item)
    requires w !in s.writers
    ensures var e := EventOf(s, op, x, payload);
            var s2 := Within(s.(lastId := e.id), w, op, x, at, Appended(e));
            Can(s2, WCommit(w)) && Do(s2, WCommit(w)) == Committed(s, op, e)
  {
    hide Snapshot, Absorb, DoPublish, CanPublish;
    var e := EventOf(s, op, x, payload);
    assert Within(s.(lastId := e.id), w, op, x, at, Appended(e)).writers - {w} == s.writers;
  }

  // ---- Waiting for a row -----------------------------------------------------------------------------

  /** The database after these steps, if each of them is enabled in turn. */
  function Steps(s: Store, steps: seq<Action>): Option<Store> {
    if steps == [] then Some(s)
    else
      var before, a := Steps(s, steps[..|steps| - 1]), steps[|steps| - 1];
      if before.Some? && Can(before.value, a) then Some(Do(before.value, a)) else None
  }

  predicate ByWriter(a: Action, w: nat) {
    match a
    case WBegin(v, _, _) => v == w
    case WLock(v) => v == w
    case WWrite(v) => v == w
    case WAppend(v) => v == w
    case WCommit(v) => v == w
    case WAbort(v) => v == w
    case _ => false
  }

  /**
   * What others do while transaction `w`, just begun, waits for the row of `op`: any steps that are enabled and not
   * its own, until nobody has the row locked.
   */
  predicate Awaits(s: Store, w: nat, op: WriteOp, others: seq<Action>)
    requires !op.Create?
  {
    var granted := Steps(Within(s, w, op, op.item, s.clock, Begun), others);
    && granted.Some? && !RowBusy(granted.value, w, op.item)
    && forall k :: 0 <= k < |others| ==> !ByWriter(others[k], w)
  }

  /** The database `w` finds when it is granted the row, without `w` itself. */
  function Found(s: Store, w: nat, op: WriteOp, others: seq<Action>): Store
    requires !op.Create? && Awaits(s, w, op, others)
  {
    var granted := Steps(Within(s, w, op, op.item, s.clock, Begun), others).value;
    granted.(writers := granted.writers - {w})
  }

  lemma {:induction false} WaiterStays(s: Store, steps: seq<Action>, w: nat)
    requires Steps(s, steps).Some? && w in s.writers && forall k :: 0 <= k < |steps| ==> !ByWriter(steps[k], w)
    ensures w in Steps(s, steps).value.writers && Steps(s, steps).value.writers[w] == s.writers[w]
  {
    hide Do, Can;
    if steps != [] {
      WaiterStays(s, steps[..|steps| - 1], w);
      OthersKeepWriter(Steps(s, steps[..|steps| - 1]).value, steps[|steps| - 1], w);
    }
  }

  lemma OthersKeepWriter(s: Store, a: Action, w: nat)
    requires Can(s, a) && w in s.writers && !ByWriter(a, w)
    ensures w in Do(s, a).writers && Do(s, a).writers[w] == s.writers[w]
  {
    hide Snapshot, Absorb, ClaimRows, LockedRows, MarkRows, BlockEvents, AgedRows, Judge;
    if CanWrite(s, a) {
      assert Do(s, a) == DoWrite(s, a);
    } else if CanPublish(s, a) {
      assert Do(s, a).writers == s.writers;
    }
  }

  lemma {:induction false} StepsPrefix(s: Store, steps: seq<Action>, k: nat)
    requires k <= |steps| && Steps(s, steps).Some?
    ensures Steps(s, steps[..k]).Some?
    ensures k < |steps| ==>
      && Can(Steps(s, steps[..k]).value, steps[k])
      && Steps(s, steps[..k + 1]) == Some(Do(Steps(s, steps[..k]).value, steps[k]))
    decreases |steps|
  {
    hide Do, Can;
    if k == |steps| {
      assert steps[..k] == steps;
    } else if k == |steps| - 1 {
      assert steps[..k + 1] == steps;
    } else {
      var init := steps[..|steps| - 1];
      StepsPrefix(s, init, k);
      assert init[..k] == steps[..k] && init[..k + 1] == steps[..k + 1];
    }
  }

  lemma GrantedIs(s: Store, w: nat, op: WriteOp, others: seq<Action>)
    requires !op.Create? && w !in s.writers && Awaits(s, w, op, others)
    ensures var granted := Steps(Within(s, w, op, op.item, s.clock, Begun), others);
            && granted == Some(Within(Found(s, w, op, others), w, op, op.item, s.clock, Begun))
            && w !in Found(s, w, op, others).writers
  {
    hide Steps;
    var s0 := Within(s, w, op, op.item, s.clock, Begun);
    WaiterStays(s0, others, w);
    var granted, found := Steps(s0, others).value, Found(s, w, op, others);
    assert found.writers[w := Writer(op, op.item, s.clock, Begun)] == granted.writers;
  }

  /** FOR UPDATE reads the row as committed when it is granted, however long that took. */
  lemma LockStep(s: Store, w: nat, op: WriteOp, at: Time)
    requires !op.Create? && w !in s.writers && !RowBusy(Within(s, w, op, op.item, at, Begun), w, op.item)
    ensures var s0 := Within(s, w, op, op.item, at, Begun);
            && Can(s0, WLock(w))
            && Do(s0, WLock(w)) ==
               if Judge(s.items, op).Accepted? then Within(s, w, op, op.item, at, Locked(s.items[op.item])) else s
  {
    hide DoPublish, CanPublish, RowBusy;
    assert Within(s, w, op, op.item, at, Begun).writers - {w} == s.writers;
  }

  lemma BeginStep(s: Store, w: nat, op: WriteOp, x: ItemId)
    requires w !in s.writers && if op.Create? then x !in s.used else x == op.item
    ensures Can(s, WBegin(w, op, x)) && Do(s, WBegin(w, op, x)) == Within(s, w, op, x, s.clock, Begun)
  {
    hide DoPublish, CanPublish;
  }

  class ItemRepository {
    const db: Database

    constructor (db: Database)
      ensures this.db == db
    {
      this.db := db;
    }

    /** The write, the event and the commit. */
    method Finish(w: nat, op: WriteOp, x: ItemId, phase: WriterPhase, ghost s: Store, ghost at: Time)
      returns (r: WriteResult)
      requires w !in s.writers && (if op.Create? then phase == Begun else phase.Locked?)
      requires Inv(db.store)
      requires db.store == Within(s, w, op, x, at, phase)
      modifies db
      ensures Inv(db.store)
      ensures var e := EventOf(s, op, x, Snapshot(op, if phase.Locked? then Some(phase.row) else None, at));
              db.store == Committed(s, op, e) && r == Done(e.payload, e.id)
    {
      hide Inv, Do, Can;
      WriteStep(s, w, op, x, at, phase);
      db.Run(WWrite(w));
      var item := db.store.writers[w].phase.payload;
      AppendStep(s, w, op, x, at, item);
      CommitStep(s, w, op, x, at, item);
      db.Run(WAppend(w));
      var eventId := db.store.lastId;
      db.Run(WCommit(w));
      return Done(item, eventId);
    }

    /** `w` names the transaction, `x` is the UUID the database draws for the row. */
    method Create(w: nat, x: ItemId, name: string, value: int) returns (r: WriteResult)
      requires Inv(db.store) && w !in db.store.writers && x !in db.store.used
      modifies db
      ensures Inv(db.store)
      ensures var s := old(db.store);
              var item := Item(name, value, 1, s.clock, s.clock);
              && r == Done(item, s.lastId + 1)
              && db.store == Committed(s, WriteOp.Create(name, value), Event(s.lastId + 1, x, Created, item))
    {
      hide Inv, Do, Can;
      ghost var s := db.store;
      var op := WriteOp.Create(name, value);
      BeginStep(s, w, op, x);
      db.Run(WBegin(w, op, x));
      r := Finish(w, op, x, Begun, s, s.clock);
    }

    /** The transaction is suspended until the row is free; meanwhile the others run. */
    method Wait(others: seq<Action>)
      requires Inv(db.store) && Steps(db.store, others).Some?
      modifies db
      ensures Inv(db.store) && Some(db.store) == Steps(old(db.store), others)
    {
      hide Inv, Do, Can;
      ghost var s := db.store;
      for k := 0 to |others|
        invariant Inv(db.store) && Some(db.store) == Steps(s, others[..k])
      {
        StepsPrefix(s, others, k);
        db.Run(others[k]);
      }
      assert others[..|others|] == others;
    }

    /** SELECT ... FOR UPDATE, the existence check and the version check; a failure rolls back. */
    method Lock(w: nat, op: WriteOp, others: seq<Action>) returns (phase: Option<WriterPhase>, r: WriteResult)
      requires Inv(db.store) && w !in db.store.writers && !op.Create? && Awaits(db.store, w, op, others)
      modifies db
      ensures Inv(db.store)
      ensures var s := Found(old(db.store), w, op, others);
        && w !in s.writers
        && match Judge(s.items, op)
           case NotFound => phase == None && r == ItemNotFound && db.store == s
           case Conflict(current) => phase == None && r == VersionConflict(op.expected.value, current) && db.store == s
           case Accepted =>
             && phase == Some(Locked(s.items[op.item]))
             && db.store == Within(s, w, op, op.item, old(db.store.clock), Locked(s.items[op.item]))
    {
      hide Inv, Do, Can, Steps, RowBusy;
      ghost var start := db.store;
      BeginStep(start, w, op, op.item);
      db.Run(WBegin(w, op, op.item));
      Wait(others);
      ghost var s := Found(start, w, op, others);
      GrantedIs(start, w, op, others);
      LockStep(s, w, op, start.clock);
      r := ItemNotFound;
      db.Run(WLock(w));
      if w in db.store.writers {
        return Some(db.store.writers[w].phase), r;
      }
      if op.item in db.store.items {
        r := VersionConflict(op.expected.value, db.store.items[op.item].version);
      }
      return None, r;
    }

    /**
     * Applies to the row as committed when the lock is granted, whatever `others` did first; a missing item or a
     * stale version leaves everything as it was. The row's time is that of the transaction's start.
     */
    method Update(w: nat, x: ItemId, name: Option<string>, value: Option<int>, expected: Option<nat>,
      others: seq<Action>)
      returns (r: WriteResult)
      requires Inv(db.store) && w !in db.store.writers
      requires Awaits(db.store, w, WriteOp.Update(x, name, value, expected), others)
      modifies db
      ensures Inv(db.store)
      ensures var op := WriteOp.Update(x, name, value, expected);
        var s := Found(old(db.store), w, op, others);
        if x !in s.items then r == ItemNotFound && db.store == s
        else
          var row := s.items[x];
          if expected.Some? && row.version != expected.value then
            r == VersionConflict(expected.value, row.version) && db.store == s
          else
            var item := Item(if name.Some? then name.value else row.name,
                             if value.Some? then value.value else row.value,
                             row.version + 1, row.createdAt, old(db.store.clock));
            r == Done(item, s.lastId + 1) && db.store == Committed(s, op, Event(s.lastId + 1, x, Updated, item))
    {
      hide Inv, Awaits, Found;
      var op := WriteOp.Update(x, name, value, expected);
      ghost var at, s := db.store.clock, Found(db.store, w, op, others);
      var phase;
      phase, r := Lock(w, op, others);
      if phase.Some? {
        r := Finish(w, op, x, phase.value, s, at);
      }
    }

    /** The deletion's event carries the row as it was: its version does not advance. */
    method Delete(w: nat, x: ItemId, expected: Option<nat>, others: seq<Action>) returns (r: WriteResult)
      requires Inv(db.store) && w !in db.store.writers && Awaits(db.store, w, WriteOp.Delete(x, expected), others)
      modifies db
      ensures Inv(db.store)
      ensures var op := WriteOp.Delete(x, expected);
        var s := Found(old(db.store), w, op, others);
        if x !in s.items then r == ItemNotFound && db.store == s
        else if expected.Some? && s.items[x].version != expected.value then
          r == VersionConflict(expected.value, s.items[x].version) && db.store == s
        else
          && r == Done(s.items[x], s.lastId + 1)
          && db.store == Committed(s, op, Event(s.lastId + 1, x, Deleted, s.items[x]))
    {
      hide Inv, Awaits, Found;
      var op := WriteOp.Delete(x, expected);
      ghost var at, s := db.store.clock, Found(db.store, w, op, others);
      var phase;
      phase, r := Lock(w, op, others);
      if phase.Some? {
        r := Finish(w, op, x, phase.value, s, at);
      }
    }
  }
}

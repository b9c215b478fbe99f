/** The publisher's own code, run without interference, and what batching does to its result: nothing. */
module Publisher {
  import opened Model
  import opened Ordering
  import opened Store
  import opened StoreInvariant
  import opened Database

  /** Every queued row, in id order. */
  function Queue(outbox: Outbox): seq<nat> {
    OrderBy(QueuedIds(outbox, {}), ById)
  }

  /** The database after a transaction begun at `at` gives `ids` the positions after `streamSeq`, in that order. */
  function Published(s: Store, at: Time, ids: seq<nat>, blocks: seq<Block>): Store {
    s.(outbox := MarkRows(s.outbox, ids, s.streamSeq + 1, at),
       published := s.published + BlockEvents(s.outbox, ids, s.streamSeq + 1),
       streamSeq := s.streamSeq + |ids|,
       blocks := blocks)
  }

  // ---- What a batch claims, and what it leaves ---------------------------------------------------

  lemma ClaimIsFirst(outbox: Outbox, limit: nat)
    ensures var q := Queue(outbox);
            ClaimRows(outbox, {}, limit) == if |q| <= limit then q else q[..limit]
  {
  }

  lemma QueueFacts(outbox: Outbox)
    ensures Ascending(Queue(outbox), ById)
    ensures forall id :: id in Queue(outbox) <==> Queued(outbox, id)
  {
    var q := Queue(outbox);
    forall i, j | 0 <= i < j < |q| ensures ById(q[i]) < ById(q[j]) {
      assert Before(ById, q[i], q[j]);
    }
  }

  lemma SplitMembers(q: seq<nat>, k: nat, id: nat)
    requires Ascending(q, ById) && k <= |q|
    ensures id in q[k..] <==> id in q && id !in q[..k]
  {
    if id in q[k..] {
      var j :| k <= j < |q| && q[j] == id;
      assert forall i :: 0 <= i < k ==> ById(q[i]) < ById(q[j]);
    }
    if id in q && id !in q[..k] {
      assert q == q[..k] + q[k..];
    }
  }

  /** What a batch leaves queued is the rest of the queue. */
  lemma RestOfQueue(outbox: Outbox, k: nat, start: nat, at: Time)
    requires k <= |Queue(outbox)|
    ensures Queue(MarkRows(outbox, Queue(outbox)[..k], start, at)) == Queue(outbox)[k..]
  {
    hide Queue;
    var q := Queue(outbox);
    var outbox' := MarkRows(outbox, q[..k], start, at);
    QueueFacts(outbox);
    QueueFacts(outbox');
    forall id ensures id in Queue(outbox') <==> id in q[k..] {
      SplitMembers(q, k, id);
    }
    AscendingUnique(Queue(outbox'), q[k..], ById);
  }

  // ---- Batches compose ---------------------------------------------------------------------------

  lemma {:induction false} IndexInConcat(a: seq<nat>, b: seq<nat>, id: nat)
    requires id in a + b
    ensures IndexOf(a + b, id) == if id in a then IndexOf(a, id) else |a| + IndexOf(b, id)
  {
    if a == [] {
      assert a + b == b;
    } else {
      assert (a + b)[1..] == a[1..] + b;
      if a[0] != id { IndexInConcat(a[1..], b, id); }
    }
  }

  lemma MarkConcat(outbox: Outbox, a: seq<nat>, b: seq<nat>, start: nat, at: Time)
    requires forall id :: id in a ==> id !in b
    ensures MarkRows(MarkRows(outbox, a, start, at), b, start + |a|, at) == MarkRows(outbox, a + b, start, at)
  {
    forall id | id in outbox
      ensures MarkRows(MarkRows(outbox, a, start, at), b, start + |a|, at)[id] == MarkRows(outbox, a + b, start, at)[id]
    {
      if id in a + b { IndexInConcat(a, b, id); }
    }
  }

  lemma {:induction false} EventsConcat(outbox: Outbox, a: seq<nat>, b: seq<nat>, start: nat)
    ensures BlockEvents(outbox, a + b, start) == BlockEvents(outbox, a, start) + BlockEvents(outbox, b, start + |a|)
  {
    if a == [] {
      assert a + b == b;
    } else {
      assert (a + b)[1..] == a[1..] + b;
      EventsConcat(outbox, a[1..], b, start + 1);
    }
  }

  lemma {:induction false} MarkKeepsEvents(outbox: Outbox, a: seq<nat>, at: Time, from: nat, ids: seq<nat>, start: nat)
    ensures BlockEvents(MarkRows(outbox, a, from, at), ids, start) == BlockEvents(outbox, ids, start)
  {
    if ids != [] { MarkKeepsEvents(outbox, a, at, from, ids[1..], start + 1); }
  }

  /** Publishing `a` and then `b` assigns the positions that publishing `a + b` at once would. */
  lemma BatchesCompose(s: Store, at: Time, a: seq<nat>, b: seq<nat>, blocks: seq<Block>, blocks': seq<Block>)
    requires forall id :: id in a ==> id !in b
    ensures Published(Published(s, at, a, blocks), at, b, blocks') == Published(s, at, a + b, blocks')
  {
    MarkConcat(s.outbox, a, b, s.streamSeq + 1, at);
    EventsConcat(s.outbox, a, b, s.streamSeq + 1);
    MarkKeepsEvents(s.outbox, a, at, s.streamSeq + 1, b, s.streamSeq + |a| + 1);
    assert (s.published + BlockEvents(s.outbox, a, s.streamSeq + 1)) + BlockEvents(s.outbox, b, s.streamSeq + |a| + 1)
        == s.published + BlockEvents(s.outbox, a + b, s.streamSeq + 1);
  }

  lemma PublishNothing(s: Store, at: Time)
    ensures Published(s, at, [], s.blocks) == s
  {
    assert MarkRows(s.outbox, [], s.streamSeq + 1, at) == s.outbox;
  }

  /** After the first `done` of the queue, one more batch makes it the first `done + count`. */
  lemma NextBatch(s: Store, at: Time, q: seq<nat>, done: nat, count: nat, limit: nat, s1: Store, s2: Store)
    requires q == Queue(s.outbox) && done <= |q|
    requires s1 == Published(s, at, q[..done], s1.blocks)
    requires var ids := ClaimRows(s1.outbox, {}, limit); count == |ids| && s2 == Published(s1, at, ids, s2.blocks)
    ensures done + count <= |q| && s2 == Published(s, at, q[..done + count], s2.blocks)
    ensures count < limit ==> done + count == |q|
  {
    hide Queue, ClaimRows, MarkRows, BlockEvents;
    RestOfQueue(s.outbox, done, s.streamSeq + 1, at);
    ClaimIsFirst(s1.outbox, limit);
    var ids := ClaimRows(s1.outbox, {}, limit);
    assert Queue(s1.outbox) == q[done..];
    assert ids == q[done..][..count];
    assert q[..done] + ids == q[..done + count];
    QueueFacts(s.outbox);
    forall x | x in q[..done] ensures x !in ids {
      SplitMembers(q, done, x);
      assert q[done..] == ids + q[done..][count..];
    }
    BatchesCompose(s, at, q[..done], ids, s1.blocks, s2.blocks);
  }

  lemma AllPublished(s: Store, at: Time, q: seq<nat>, s': Store)
    requires q == Queue(s.outbox) && s' == Published(s, at, q[..|q|], s'.blocks)
    ensures s' == Published(s, at, q, s'.blocks) && forall x :: !Queued(s'.outbox, x)
  {
    assert q[..|q|] == q;
    hide Queue;
    QueueFacts(s.outbox);
  }

  // ---- The statements of one transaction ---------------------------------------------------------

  /** Database `s` with publisher `p`, begun at `at`, in `phase` and holding the lock. */
  function Under(s: Store, p: nat, at: Time, phase: PublisherPhase): Store {
    s.(publishers := s.publishers[p := Publisher(at, phase)], lock := Some(p))
  }

  lemma HolderIs(s: Store)
    requires Inv(s)
    ensures OneHolder(s)
  {
  }

  lemma BeginStep(s: Store, p: nat)
    requires p !in s.publishers
    ensures Can(s, PBegin(p)) && Do(s, PBegin(p)) == s.(publishers := s.publishers[p := Publisher(s.clock, Began)])
  {
  }

  lemma LockStep(s: Store, p: nat, at: Time)
    requires OneHolder(s) && p !in s.publishers
    ensures var s' := s.(publishers := s.publishers[p := Publisher(at, Began)]);
            && Can(s', PTryLock(p))
            && Do(s', PTryLock(p)) == if s.lock.Some? then s else Under(s, p, at, Holding)
  {
    hide ClaimRows, LockedRows, MarkRows, BlockEvents, DoWrite;
    var s' := s.(publishers := s.publishers[p := Publisher(at, Began)]);
    assert s'.publishers - {p} == s.publishers;
  }

  lemma ClaimStep(s: Store, p: nat, at: Time, limit: nat)
    requires OneHolder(s) && p !in s.publishers && s.lock.None? && limit >= 1
    ensures var s' := Under(s, p, at, Holding);
            var ids := ClaimRows(s.outbox, {}, limit);
            && Can(s', PClaim(p, limit))
            && Do(s', PClaim(p, limit)) == if ids == [] then s else Under(s, p, at, Claimed(ids))
  {
    hide ClaimRows, MarkRows, BlockEvents, DoWrite;
    var s' := Under(s, p, at, Holding);
    assert LockedRows(s', p) == {} by {
      forall q | q in s'.publishers && q != p ensures RowsOf(s'.publishers[q].phase) == [] {
        assert s.publishers[q].phase.Began?;
      }
    }
    assert s'.publishers - {p} == s.publishers;
  }

  lemma NextValStep(s: Store, p: nat, at: Time, ids: seq<nat>)
    requires ids != []
    ensures var s0, start := Under(s, p, at, Claimed(ids)), s.streamSeq + 1;
            && Can(s0, PNextVal(p))
            && Do(s0, PNextVal(p)) ==
               if |ids| > 1 then Under(s.(streamSeq := start), p, at, Drawn(ids, start))
               else
                 var s' := s.(streamSeq := start, blocks := s.blocks + [Block(start, start)]);
                 Under(s', p, at, Reserved(ids, start))
  {
    hide ClaimRows, LockedRows, MarkRows, BlockEvents, DoWrite;
  }

  lemma SetValStep(s: Store, p: nat, at: Time, ids: seq<nat>)
    requires |ids| > 1
    ensures var start, hi := s.streamSeq + 1, s.streamSeq + |ids|;
            var s1 := Under(s.(streamSeq := start), p, at, Drawn(ids, start));
            && Can(s1, PSetVal(p))
            && Do(s1, PSetVal(p))
               == Under(s.(streamSeq := hi, blocks := s.blocks + [Block(start, hi)]), p, at, Reserved(ids, start))
  {
    hide ClaimRows, LockedRows, MarkRows, BlockEvents, DoWrite;
  }

  lemma CommitSteps(s: Store, p: nat, at: Time, ids: seq<nat>, blocks: seq<Block>)
    requires p !in s.publishers && s.lock.None?
    ensures var start := s.streamSeq + 1;
            var s0 := Under(s.(streamSeq := s.streamSeq + |ids|, blocks := blocks), p, at, Reserved(ids, start));
            && Can(s0, PMark(p)) && Can(Do(s0, PMark(p)), PCommit(p))
            && Do(Do(s0, PMark(p)), PCommit(p)) == Published(s, at, ids, blocks)
  {
    hide MarkRows, BlockEvents;
    var s0 := Under(s.(streamSeq := s.streamSeq + |ids|, blocks := blocks), p, at, Reserved(ids, s.streamSeq + 1));
    assert Do(s0, PMark(p)).publishers - {p} == s.publishers;
  }

  // ---- The class ---------------------------------------------------------------------------------

  class OutboxPublisher {
    const id: nat
    const batchSize: nat
    var stopping: bool
    var publishedTotal: nat
    var skippedRounds: nat

    constructor (id: nat, batchSize: nat)
      ensures this.id == id && this.batchSize == batchSize && !stopping && publishedTotal == 0 && skippedRounds == 0
    {
      this.id, this.batchSize, stopping, publishedTotal, skippedRounds := id, batchSize, false, 0, 0;
    }

    /** nextval reserves one position; setval, under the lock, the rest of the block. */
    method ReserveBlock(db: Database, ids: seq<nat>, ghost s: Store, ghost at: Time)
      requires Inv(db.store) && ids != [] && db.store == Under(s, id, at, Claimed(ids))
      modifies db
      ensures Inv(db.store)
      ensures var s' := s.(streamSeq := s.streamSeq + |ids|, blocks := db.store.blocks);
              db.store == Under(s', id, at, Reserved(ids, s.streamSeq + 1))
    {
      hide Inv, Do, Can;
      NextValStep(s, id, at, ids);
      db.Run(PNextVal(id));
      if |ids| > 1 {
        SetValStep(s, id, at, ids);
        db.Run(PSetVal(id));
      }
    }

    /** One transaction: a busy lock is a skipped round, an empty claim publishes nothing. */
    method PublishBatch(db: Database) returns (count: nat)
      requires batchSize >= 1 && Inv(db.store) && id !in db.store.publishers
      modifies this`publishedTotal, this`skippedRounds, db
      ensures old(db.store).lock.Some? ==>
        && count == 0 && db.store == old(db.store)
        && skippedRounds == old(skippedRounds) + 1 && publishedTotal == old(publishedTotal)
      ensures old(db.store).lock.None? ==>
        var ids := ClaimRows(old(db.store).outbox, {}, batchSize);
        && count == |ids| && db.store == Published(old(db.store), db.store.clock, ids, db.store.blocks)
        && publishedTotal == old(publishedTotal) + count && skippedRounds == old(skippedRounds)
      ensures Inv(db.store)
    {
      hide Inv, Do, Can, MarkRows, BlockEvents, ClaimRows, OneHolder;
      ghost var s := db.store;
      HolderIs(s);
      BeginStep(s, id);
      db.Run(PBegin(id));
      LockStep(s, id, s.clock);
      db.Run(PTryLock(id));
      if id !in db.store.publishers {
        skippedRounds := skippedRounds + 1;
        return 0;
      }
      ClaimStep(s, id, s.clock, batchSize);
      db.Run(PClaim(id, batchSize));
      if id !in db.store.publishers {
        PublishNothing(s, s.clock);
        return 0;
      }
      var ids := db.store.publishers[id].phase.ids;
      count := |ids|;
      ReserveBlock(db, ids, s, s.clock);
      CommitSteps(s, id, s.clock, ids, db.store.blocks);
      db.Run(PMark(id));
      db.Run(PCommit(id));
      publishedTotal := publishedTotal + count;
    }

    /**
     * Batching is invisible: however small the batches, a sole publisher's drain assigns the whole queue the
     * positions that one unbounded batch would, and leaves nothing queued.
     */
    method Drain(db: Database) returns (total: nat)
      requires batchSize >= 1 && Inv(db.store) && id !in db.store.publishers
      modifies this`publishedTotal, this`skippedRounds, db
      ensures Inv(db.store)
      ensures stopping || old(db.store).lock.Some? ==> total == 0 && db.store == old(db.store)
      ensures !stopping && old(db.store).lock.None? ==>
        var q := Queue(old(db.store).outbox);
        && total == |q| && db.store == Published(old(db.store), db.store.clock, q, db.store.blocks)
        && (forall x :: !Queued(db.store.outbox, x))
      ensures publishedTotal == old(publishedTotal) + total
    {
      hide Inv, Queue, MarkRows, BlockEvents, ClaimRows;
      ghost var s, q := db.store, Queue(db.store.outbox);
      PublishNothing(s, s.clock);
      total := 0;
      while !stopping
        invariant Inv(db.store) && total <= |q|
        invariant db.store == Published(s, s.clock, q[..total], db.store.blocks)
        invariant publishedTotal == old(publishedTotal) + total
        invariant stopping || s.lock.Some? ==> total == 0 && db.store == s
        decreases |q| - total
      {
        ghost var before := db.store;
        var count := PublishBatch(db);
        if s.lock.None? { NextBatch(s, s.clock, q, total, count, batchSize, before, db.store); }
        total := total + count;
        if count < batchSize {
          break;
        }
      }
      if s.lock.None? && !stopping { AllPublished(s, s.clock, q, db.store); }
    }
  }
}

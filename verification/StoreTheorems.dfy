/** The database-side guarantees, for every run of writers, publishers, crashes and sweeps. */
module StoreTheorems {
  import opened Model
  import opened Ordering
  import opened EventLog
  import opened Store
  import opened StoreInvariant

  /** The state after a run from the empty database, if every step of it was enabled. */
  function After(acts: seq<Action>): Option<Store> {
    if acts == [] then Some(Empty)
    else
      var before := After(acts[..|acts| - 1]);
      var a := acts[|acts| - 1];
      if before.Some? && Can(before.value, a) then Some(Do(before.value, a)) else None
  }

  ghost predicate Reachable(s: Store) {
    exists acts :: After(acts) == Some(s)
  }

  lemma {:induction false} RunKeepsInv(acts: seq<Action>)
    requires After(acts).Some?
    ensures Inv(After(acts).value)
  {
    if acts == [] {
      EmptyInv();
    } else {
      var init := acts[..|acts| - 1];
      RunKeepsInv(init);
      StepKeepsInv(After(init).value, acts[|acts| - 1]);
    }
  }

  lemma ReachableInv(s: Store)
    requires Reachable(s)
    ensures Inv(s)
  {
    var acts :| After(acts) == Some(s);
    RunKeepsInv(acts);
  }

  // ---- Event log ---------------------------------------------------------------------------

  /**
   * Every entity's committed events are created v1, updated v2 .. vn, then perhaps deleted at vn and
   * nothing after; their outbox ids ascend; and the committed row is the snapshot in the last of them.
   */
  lemma EventLogGrammar(s: Store, x: ItemId)
    requires Reachable(s)
    ensures var p := Project(s.committed, x);
            && (forall k :: 0 <= k < |p| ==>
                  && (p[k].kind.Created? <==> k == 0)
                  && (p[k].kind.Deleted? ==> k == |p| - 1)
                  && p[k].payload.version == if p[k].kind.Deleted? then k else k + 1)
            && Ascending(p, (e: Event) => e.id)
            && (x in s.items <==> p != [] && !p[|p| - 1].kind.Deleted?)
            && (x in s.items ==> s.items[x] == p[|p| - 1].payload && s.items[x].version == |p|)
  {
    ReachableInv(s);
    var p := Project(s.committed, x);
    assert Grammar(p) && Lookup(s.items, x) == Current(p);
    forall k: nat | k < |p|
      ensures p[k].kind.Created? <==> k == 0
      ensures p[k].kind.Deleted? ==> k == |p| - 1
      ensures p[k].payload.version == if p[k].kind.Deleted? then k else k + 1
    {
      GrammarShape(p, k);
    }
    CommittedAscend(s, x);
  }

  lemma CommittedAscend(s: Store, x: ItemId)
    requires LogOk(s)
    ensures Ascending(Project(s.committed, x), (e: Event) => e.id)
  {
    FilterAscending(s.committed, (e: Event) => e.aggregate == x, (e: Event) => e.id);
  }

  /**
   * Row and event are one write, made on the committed row: a writer's commit appends exactly one event, under a
   * fresh id, whose snapshot is what the write makes of the row as committed at that moment, so no update is lost;
   * it applies exactly that event to the items table and queues exactly that event in the outbox.
   */
  lemma CommitIsAtomic(s: Store, w: nat)
    requires Reachable(s) && Can(s, WCommit(w))
    ensures var s', tx, e := Do(s, WCommit(w)), s.writers[w], s.writers[w].phase.event;
            && Runs(s.items, tx.op, e) && e.aggregate == tx.target
            && (!tx.op.Delete? ==> e.payload.updatedAt == tx.at)
            && s'.committed == s.committed + [e]
            && s'.items == Absorb(s.items, e)
            && e.id !in s.outbox && s'.outbox == s.outbox[e.id := Row(e, None)]
  {
    ReachableInv(s);
    CommitRuns(s, w);
    var e := s.writers[w].phase.event;
    forall id | id in s.outbox ensures id != e.id {
      assert s.outbox[id].event in s.committed;
    }
  }

  /** `e` is what the write does when run alone on `items`: it is accepted, and its snapshot comes from that row. */
  ghost predicate Runs(items: map<ItemId, Item>, op: WriteOp, e: Event) {
    && (if op.Create? then e.aggregate !in items else e.aggregate == op.item && Judge(items, op).Accepted?)
    && e.kind == KindOf(op)
    && e.payload == Snapshot(op, Lookup(items, e.aggregate), e.payload.updatedAt)
  }

  lemma CommitRuns(s: Store, w: nat)
    requires WriteInv(s) && CanWrite(s, WCommit(w))
    ensures var tx, e := s.writers[w], s.writers[w].phase.event;
            && Runs(s.items, tx.op, e) && e.aggregate == tx.target
            && (!tx.op.Delete? ==> e.payload.updatedAt == tx.at)
            && forall c :: c in s.committed ==> c.id != e.id
  {
    hide LogOk, VersionsOk, RowsOk;
    OwnWriter(s, w);
  }

  lemma ItemsAreTheView(s: Store)
    requires RowsOk(s)
    ensures s.items == View(s.committed)
  {
    var view := View(s.committed);
    forall x: ItemId ensures x in view <==> x in s.items
    {
      ViewIsLatest(s.committed, x);
      assert Lookup(s.items, x) == Current(Project(s.committed, x));
    }
    forall x | x in view ensures view[x] == s.items[x] {
      ViewIsLatest(s.committed, x);
      assert Lookup(s.items, x) == Current(Project(s.committed, x));
    }
  }

  /** The i-th committed event is its write run alone on the table the events before it leave. */
  ghost predicate SerialAt(s: Store, i: nat)
    requires |s.ops| == |s.committed| && i < |s.committed|
  {
    Runs(View(s.committed[..i]), s.ops[i], s.committed[i])
  }

  ghost predicate SerialHistory(s: Store) {
    |s.ops| == |s.committed| && forall i: nat :: i < |s.committed| ==> SerialAt(s, i)
  }

  lemma StepKeepsSerial(s: Store, a: Action)
    requires Inv(s) && Can(s, a) && SerialHistory(s)
    ensures SerialHistory(Do(s, a))
  {
    hide Inv, Do, Can, Runs, View;
    var s' := Do(s, a);
    if a.WCommit? {
      CommitAppends(s, a.w);
      forall i: nat | i < |s'.committed| ensures SerialAt(s', i) {
        assert s'.committed[..i] == s.committed[..i];
        if i < |s.committed| { assert SerialAt(s, i); } else { assert s.committed[..i] == s.committed; }
      }
    } else {
      OnlyCommitsWrite(s, a);
      forall i: nat | i < |s'.committed| ensures SerialAt(s', i) {
        assert SerialAt(s, i);
      }
    }
  }

  lemma CommitAppends(s: Store, w: nat)
    requires Inv(s) && Can(s, WCommit(w))
    ensures var s', tx := Do(s, WCommit(w)), s.writers[w];
            && s'.committed == s.committed + [tx.phase.event] && s'.ops == s.ops + [tx.op]
            && Runs(View(s.committed), tx.op, tx.phase.event)
  {
    hide Runs, View, TableOk, StreamOk, PublishersOk, BlocksOk;
    CommitRuns(s, w);
    ItemsAreTheView(s);
  }

  lemma {:induction false} RunIsSerial(acts: seq<Action>)
    requires After(acts).Some?
    ensures SerialHistory(After(acts).value)
  {
    hide SerialHistory, Do, Can;
    if acts == [] {
      EmptyIsSerial();
    } else {
      var init := acts[..|acts| - 1];
      RunIsSerial(init);
      RunKeepsInv(init);
      StepKeepsSerial(After(init).value, acts[|acts| - 1]);
    }
  }

  lemma EmptyIsSerial()
    ensures SerialHistory(Empty)
  {
  }

  /**
   * Locked, versioned writes are serializable: under every interleaving, with aborts and crashes, each committed
   * write did what it would have done run alone, in commit order, on the table the writes before it leave - accepted
   * there, taking every field it does not set from there - and the items table is what all of them leave.
   */
  lemma WritesAreSerializable(s: Store)
    requires Reachable(s)
    ensures |s.ops| == |s.committed|
    ensures forall i: nat :: i < |s.committed| ==> Runs(View(s.committed[..i]), s.ops[i], s.committed[i])
    ensures s.items == View(s.committed)
  {
    hide Runs, Do, Can;
    var acts :| After(acts) == Some(s);
    RunIsSerial(acts);
    ReachableInv(s);
    ItemsAreTheView(s);
    forall i: nat | i < |s.committed| ensures Runs(View(s.committed[..i]), s.ops[i], s.committed[i]) {
      assert SerialAt(s, i);
    }
  }

  /**
   * FOR UPDATE waits exactly for other updates and deletes that hold the row, never for an uncommitted create; and
   * what it is then granted is the row as committed, until the write commits or ends.
   */
  lemma LocksWaitForHolders(s: Store, w: nat)
    requires Reachable(s) && w in s.writers && !s.writers[w].op.Create?
    ensures var tx := s.writers[w];
      && (tx.phase.Begun? ==>
            (Can(s, WLock(w)) <==>
              forall v :: v in s.writers && v != w && s.writers[v].target == tx.target ==>
                s.writers[v].phase.Begun? || s.writers[v].op.Create?))
      && (!tx.phase.Begun? ==>
            && tx.target in s.items
            && (tx.op.expected.Some? ==> s.items[tx.target].version == tx.op.expected.value)
            && (tx.phase.Locked? ==> tx.phase.row == s.items[tx.target])
            && forall v :: v in s.writers && v != w && s.writers[v].target == tx.target ==> s.writers[v].phase.Begun?)
  {
    hide LogOk, VersionsOk, RowsOk, PublishInv;
    ReachableInv(s);
    OwnWriter(s, w);
    forall v | v in s.writers && v != w ensures Apart(s.writers[v], s.writers[w]) {
    }
  }

  /** No other step touches the items table or the committed log: aborts and rejections leave no trace. */
  lemma OnlyCommitsWrite(s: Store, a: Action)
    requires Can(s, a) && !a.WCommit?
    ensures Do(s, a).items == s.items && Do(s, a).committed == s.committed && Do(s, a).ops == s.ops
    ensures CanWrite(s, a) ==> Do(s, a).outbox == s.outbox && Do(s, a).published == s.published
  {
    if CanWrite(s, a) {
      assert Do(s, a) == DoWrite(s, a);
    } else if CanPublish(s, a) {
      assert Do(s, a) == DoPublish(s, a);
    }
  }

  /** At most one update or delete that supplied `expected_version = v` ever commits for an entity. */
  lemma OptimisticLock(s: Store, i: nat, j: nat, v: nat)
    requires Reachable(s)
    requires i < |s.ops| && j < |s.ops| && !s.ops[i].Create? && !s.ops[j].Create?
    requires s.ops[i].item == s.ops[j].item && s.ops[i].expected == Some(v) && s.ops[j].expected == Some(v)
    ensures i == j
  {
    ReachableInv(s);
    assert Records(s.ops[i], s.committed[i]) && Records(s.ops[j], s.committed[j]);
  }

  /**
   * A crash or an abort can come at any point of any transaction, between nextval and setval too. It leaves every
   * table and history as it was and frees what the transaction held; positions it drew stay spent.
   */
  lemma CrashAnywhere(s: Store, t: nat)
    ensures t in s.writers ==> Can(s, WAbort(t)) && Do(s, WAbort(t)) == s.(writers := s.writers - {t})
    ensures t in s.publishers ==>
      && Can(s, PCrash(t))
      && Do(s, PCrash(t)) == s.(publishers := s.publishers - {t}, lock := if s.lock == Some(t) then None else s.lock)
  {
    hide ClaimRows, LockedRows, MarkRows, BlockEvents, Snapshot;
  }

  // ---- Publication -------------------------------------------------------------------------

  function Events(h: seq<Envelope>): (r: seq<Event>)
    ensures |r| == |h| && forall i :: 0 <= i < |h| ==> r[i] == h[i].event
  {
    seq(|h|, i requires 0 <= i < |h| => h[i].event)
  }

  lemma PublishedAscend(s: Store, x: ItemId)
    requires StreamOk(s)
    ensures Ascending(Project(Events(s.published), x), (e: Event) => e.id)
  {
    FilterAscending(Events(s.published), (e: Event) => e.aggregate == x, (e: Event) => e.id);
  }

  lemma PublishedMember(s: Store, c: Event)
    requires TableOk(s)
    ensures c in Events(s.published) ==> c in s.committed && !Queued(s.outbox, c.id)
    ensures c in s.committed && !Queued(s.outbox, c.id) ==> c in Events(s.published)
  {
    var es := Events(s.published);
    if c in es {
      var i :| 0 <= i < |es| && es[i] == c;
      assert s.published[i] in s.published;
    }
    if c in s.committed && !Queued(s.outbox, c.id) {
      assert IsPublished(s, c);
      var e :| e in s.published && e.event == c;
      var i :| 0 <= i < |s.published| && s.published[i] == e;
      assert es[i] == c;
    }
  }

  lemma Parts(s: Store)
    requires Inv(s)
    ensures LogOk(s) && RowsOk(s) && TableOk(s) && StreamOk(s)
  {
  }

  /** Whatever is older than a published event of the same entity is published too. */
  lemma OlderIsPublished(s: Store, u: Event, c: Event)
    requires StreamOk(s) && TableOk(s)
    requires u in Events(s.published) && c in s.committed && c.aggregate == u.aggregate && c.id < u.id
    ensures c in Events(s.published)
  {
    var i :| 0 <= i < |s.published| && s.published[i].event == u;
    assert s.published[i] in s.published;
    PublishedMember(s, c);
  }

  /**
   * Version order, `outbox.id` order and stream order of one entity agree: what has been published of it is
   * a prefix of what has been committed of it, and only queued events are missing.
   */
  lemma PerEntityOrder(s: Store, x: ItemId)
    requires Reachable(s)
    ensures Project(Events(s.published), x) <= Project(s.committed, x)
    ensures (forall c :: c in s.committed && c.aggregate == x ==> !Queued(s.outbox, c.id))
              ==> Project(Events(s.published), x) == Project(s.committed, x)
  {
    hide Inv, LogOk, RowsOk, TableOk, StreamOk;
    ReachableInv(s);
    Parts(s);
    var pub, com := Project(Events(s.published), x), Project(s.committed, x);
    var byId := (e: Event) => e.id;
    PublishedAscend(s, x);
    CommittedAscend(s, x);
    forall c: Event {
      PublishedMember(s, c);
    }
    forall u, c | u in pub && c in com && byId(c) < byId(u) ensures c in pub {
      OlderIsPublished(s, u, c);
    }
    DownwardClosedIsPrefix(pub, com, byId);
    if forall c :: c in s.committed && c.aggregate == x ==> !Queued(s.outbox, c.id) {
      AscendingUnique(pub, com, byId);
    }
  }

  /** Folding everything ever published leaves each entity exactly at its last published event. */
  lemma ViewFollowsEachEntity(s: Store, x: ItemId)
    requires Reachable(s)
    ensures exists n: nat :: n <= |Project(s.committed, x)|
              && Project(Events(s.published), x) == Project(s.committed, x)[..n]
              && Lookup(View(Events(s.published)), x) == Current(Project(s.committed, x)[..n])
  {
    PerEntityOrder(s, x);
    ViewIsLatest(Events(s.published), x);
    var n := |Project(Events(s.published), x)|;
    assert Project(Events(s.published), x) == Project(s.committed, x)[..n];
  }

  /**
   * A consumer that folds the whole stream rebuilds the items table once nothing is left to publish, although
   * the stream need not list events in id order or in commit order.
   */
  lemma ViewReconstruction(s: Store)
    requires Reachable(s)
    requires forall id :: !Queued(s.outbox, id)
    ensures View(Events(s.published)) == s.items
  {
    ReachableInv(s);
    var view := View(Events(s.published));
    forall x: ItemId ensures Lookup(view, x) == Lookup(s.items, x) {
      PerEntityOrder(s, x);
      ViewIsLatest(Events(s.published), x);
      assert Lookup(s.items, x) == Current(Project(s.committed, x));
    }
    assert forall x: ItemId :: x in view <==> x in s.items by {
      forall x: ItemId ensures x in view <==> x in s.items {
        assert Lookup(view, x) == Lookup(s.items, x);
      }
    }
    forall x | x in view ensures view[x] == s.items[x] {
      assert Lookup(view, x) == Lookup(s.items, x);
    }
  }

  /**
   * With any number of publishers and a crash possible between any two statements, including between
   * nextval and setval: positions are unique, ascend and never exceed the sequence, reserved blocks are disjoint and
   * ascend, and no two publishers are past the lock at once.
   */
  lemma PublisherSafety(s: Store)
    requires Reachable(s)
    ensures forall i, j :: 0 <= i < j < |s.published| ==> s.published[i].pos < s.published[j].pos
    ensures forall e :: e in s.published ==> 1 <= e.pos <= s.streamSeq
    ensures forall i, j :: 0 <= i < j < |s.blocks| ==> s.blocks[i].lo <= s.blocks[i].hi < s.blocks[j].lo
    ensures forall p, q :: p in s.publishers && q in s.publishers && p != q ==>
              s.publishers[p].phase.Began? || s.publishers[q].phase.Began?
  {
    ReachableInv(s);
    assert forall i :: 0 <= i < |s.blocks| ==> s.blocks[i] in s.blocks;
  }

  /** `s'` has published what `s` had, and then only positions above all of it. */
  ghost predicate Extends(s: Store, s': Store) {
    && s.published <= s'.published
    && (forall d, e :: d in s.published && e in s'.published[|s.published|..] ==> d.pos < e.pos)
    && (forall e :: e in s'.published[|s.published|..] ==> Head(s.published) < e.pos)
  }

  /** The envelopes fill the block, position by position. */
  ghost predicate Fills(h: seq<Envelope>, b: Block) {
    |h| == b.hi - b.lo + 1 && forall k :: 0 <= k < |h| ==> h[k].pos == b.lo + k
  }

  lemma AppendExtends(s: Store, s': Store, block: seq<Envelope>, start: nat)
    requires s'.published == s.published + block && block != []
    requires Unassigned(s, start)
    requires forall k :: 0 <= k < |block| ==> block[k].pos == start + k
    ensures Extends(s, s')
    ensures s'.published[|s.published|..] == block && Fills(block, Block(start, start + |block| - 1))
  {
    assert s'.published[|s.published|..] == block;
    forall e | e in block ensures start <= e.pos {
      var k :| 0 <= k < |block| && block[k] == e;
    }
    if s.published != [] {
      assert s.published[|s.published| - 1] in s.published;
    }
  }

  lemma PublishExtends(s: Store, p: nat)
    requires CanPublish(s, PCommit(p)) && PublisherOk(s, s.publishers[p].phase)
    ensures Extends(s, DoPublish(s, PCommit(p)))
    ensures s.blocks != [] && Fills(DoPublish(s, PCommit(p)).published[|s.published|..], s.blocks[|s.blocks| - 1])
  {
    hide DoPublish, BlockEvents, MarkRows;
    var s' := DoPublish(s, PCommit(p));
    var ids, start, at, block := CommitOf(s, p);
    assert s'.published == s.published + block;
    assert OwnsBlock(s, ids, start) && |block| == |ids| && ids != [];
    assert forall k :: 0 <= k < |block| ==> block[k].pos == start + k;
    AppendExtends(s, s', block, start);
  }

  /**
   * Only a publisher's commit publishes, what it publishes lies above everything published before and fills the
   * block it reserved last, and no step moves the sequence back. A publisher that ends in any other way leaves
   * the stream as it was: all it can leave is a hole.
   */
  lemma CommitsExtendTheStream(s: Store, a: Action)
    requires Reachable(s) && Can(s, a)
    ensures Extends(s, Do(s, a)) && s.streamSeq <= Do(s, a).streamSeq
    ensures !a.PCommit? ==> Do(s, a).published == s.published
    ensures a.PCommit? ==> s.blocks != [] && Fills(Do(s, a).published[|s.published|..], s.blocks[|s.blocks| - 1])
  {
    ReachableInv(s);
    StreamStep(s, a);
  }

  lemma StreamStep(s: Store, a: Action)
    requires Inv(s) && Can(s, a)
    ensures Extends(s, Do(s, a)) && s.streamSeq <= Do(s, a).streamSeq
    ensures !a.PCommit? ==> Do(s, a).published == s.published
    ensures a.PCommit? ==> s.blocks != [] && Fills(Do(s, a).published[|s.published|..], s.blocks[|s.blocks| - 1])
  {
    if a.PCommit? {
      assert PublisherOk(s, s.publishers[a.p].phase);
      PublishExtends(s, a.p);
    } else if CanWrite(s, a) {
      assert Do(s, a) == DoWrite(s, a);
    } else if CanPublish(s, a) {
      PublisherStepFrame(s, a);
    }
  }
}

/** What every reachable database state satisfies, whatever the interleaving of writers, publishers and sweeps. */
module StoreInvariant {
  import opened Model
  import opened EventLog
  import opened Store
  import opened Queries

  // ---- Writers -------------------------------------------------------------------------------

  /** A committed event is the one its write was meant to append. */
  ghost predicate Records(op: WriteOp, e: Event) {
    && e.kind == KindOf(op)
    && match op {
         case Create(_, _) => e.payload.version == 1
         case Update(x, _, _, expected) =>
           e.aggregate == x && (expected.Some? ==> e.payload.version == expected.value + 1)
         case Delete(x, expected) => e.aggregate == x && (expected.Some? ==> e.payload.version == expected.value)
       }
  }

  ghost predicate LogOk(s: Store) {
    && |s.ops| == |s.committed|
    && (forall i :: 0 <= i < |s.committed| ==> Records(s.ops[i], s.committed[i]))
    && (forall c :: c in s.committed ==> c.id <= s.lastId && c.aggregate in s.used)
    && s.items.Keys <= s.used
    && (forall i, j :: 0 <= i < j < |s.committed| ==> s.committed[i].id != s.committed[j].id)
    && (forall i, j :: 0 <= i < j < |s.committed| && s.committed[i].aggregate == s.committed[j].aggregate
          ==> s.committed[i].id < s.committed[j].id)
  }

  ghost predicate VersionsOk(s: Store) {
    && (forall i, j :: 0 <= i < j < |s.committed| && s.committed[i].aggregate == s.committed[j].aggregate
          ==> && !s.committed[i].kind.Deleted?
              && s.committed[i].payload.version <= s.committed[j].payload.version
              && (s.committed[j].kind.Updated? ==> s.committed[i].payload.version < s.committed[j].payload.version))
    && (forall c :: c in s.committed && c.aggregate in s.items
          ==> !c.kind.Deleted? && c.payload.version <= s.items[c.aggregate].version)
  }

  /** Every entity's events are grammatical and the committed row is the snapshot of the last one. */
  ghost predicate RowsOk(s: Store) {
    forall x: ItemId :: Grammar(Project(s.committed, x)) && Lookup(s.items, x) == Current(Project(s.committed, x))
  }

  /** The row an update or delete locked is still the committed one, at the version it accepted. */
  ghost predicate Held(s: Store, w: Writer) {
    && !w.op.Create?
    && w.target in s.items
    && (w.op.expected.Some? ==> s.items[w.target].version == w.op.expected.value)
  }

  ghost predicate Stages(s: Store, w: Writer, payload: Item) {
    if w.op.Create? then payload == Snapshot(w.op, None, w.at)
    else Held(s, w) && payload == Snapshot(w.op, Some(s.items[w.target]), w.at)
  }

  ghost predicate WriterOk(s: Store, w: Writer) {
    && (if w.op.Create? then
          && w.target in s.used && w.target !in s.items
          && (forall c :: c in s.committed ==> c.aggregate != w.target)
        else w.target == w.op.item)
    && match w.phase {
         case Begun => true
         case Locked(row) => Held(s, w) && row == s.items[w.target]
         case Written(payload) => Stages(s, w, payload)
         case Appended(e) =>
           && e.aggregate == w.target && e.kind == KindOf(w.op) && Stages(s, w, e.payload)
           && e.id <= s.lastId
           && (forall c :: c in s.committed ==> c.id != e.id && (c.aggregate == w.target ==> c.id < e.id))
       }
  }

  /** Two transactions never hold the same row, stage the same create, or hold the same outbox id. */
  ghost predicate Apart(v: Writer, w: Writer) {
    && (!v.phase.Begun? && !w.phase.Begun? ==> v.target != w.target)
    && (v.op.Create? && w.op.Create? ==> v.target != w.target)
    && (v.phase.Appended? && w.phase.Appended? ==> v.phase.event.id != w.phase.event.id)
  }

  ghost predicate WritersOk(s: Store) {
    && (forall w :: w in s.writers ==> WriterOk(s, s.writers[w]))
    && (forall v, w :: v in s.writers && w in s.writers && v != w ==> Apart(s.writers[v], s.writers[w]))
  }

  ghost predicate WriteInv(s: Store) {
    LogOk(s) && VersionsOk(s) && RowsOk(s) && WritersOk(s)
  }

  // ---- Publication ---------------------------------------------------------------------------

  ghost predicate TableOk(s: Store) {
    && Keyed(s.outbox)
    && (forall id :: id in s.outbox ==>
          if s.outbox[id].stamp.None? then s.outbox[id].event in s.committed
          else Envelope(s.outbox[id].stamp.value.pos, s.outbox[id].event) in s.published)
    && (forall e :: e in s.published ==>
          && e.event in s.committed && !Queued(s.outbox, e.event.id)
          && (e.event.id in s.outbox ==> InTable(s.outbox, e)))
    && (forall c :: c in s.committed ==> Queued(s.outbox, c.id) || IsPublished(s, c))
  }

  ghost predicate IsPublished(s: Store, c: Event) {
    exists e :: e in s.published && e.event == c
  }

  ghost predicate StreamOk(s: Store) {
    && Rising(s.published)
    && (forall e :: e in s.published ==> 1 <= e.pos <= s.streamSeq)
    && (forall i, j :: 0 <= i < j < |s.published| && s.published[i].event.aggregate == s.published[j].event.aggregate
          ==> s.published[i].event.id < s.published[j].event.id)
    && (forall e, c :: e in s.published && c in s.committed && c.aggregate == e.event.aggregate && c.id < e.event.id
          ==> !Queued(s.outbox, c.id))
  }

  /** A queued event of the same entity as row `id`, older than it. */
  ghost predicate Overdue(s: Store, c: Event, id: nat)
    requires id in s.outbox
  {
    c in s.committed && Queued(s.outbox, c.id) && c.id < id && c.aggregate == s.outbox[id].event.aggregate
  }

  /** A claim holds queued rows in id order, and with each row every older queued row of its entity. */
  ghost predicate ClaimOk(s: Store, ids: seq<nat>) {
    && ids != []
    && (forall i, j :: 0 <= i < j < |ids| ==> ids[i] < ids[j])
    && (forall id :: id in ids ==> Queued(s.outbox, id))
    && (forall id, c :: id in ids && Overdue(s, c, id) ==> c.id in ids)
  }

  /** Positions from `start` on have never been assigned. */
  ghost predicate Unassigned(s: Store, start: nat) {
    && 1 <= start
    && (forall e :: e in s.published ==> e.pos < start)
  }

  ghost predicate PublisherOk(s: Store, phase: PublisherPhase) {
    match phase
    case Began => true
    case Holding => true
    case Claimed(ids) => ClaimOk(s, ids)
    case Drawn(ids, start) =>
      && ClaimOk(s, ids) && |ids| > 1 && Unassigned(s, start) && s.streamSeq == start
      && (s.blocks != [] ==> s.blocks[|s.blocks| - 1].hi < start)
    case Reserved(ids, start) => ClaimOk(s, ids) && OwnsBlock(s, ids, start)
    case Marked(ids, start) => ClaimOk(s, ids) && OwnsBlock(s, ids, start)
  }

  ghost predicate OwnsBlock(s: Store, ids: seq<nat>, start: nat) {
    && Unassigned(s, start)
    && s.streamSeq == start + |ids| - 1
    && s.blocks != [] && s.blocks[|s.blocks| - 1] == Block(start, s.streamSeq)
  }

  /** Exactly the holder of the advisory lock is past `pg_try_advisory_xact_lock`. */
  ghost predicate OneHolder(s: Store) {
    && (forall p :: p in s.publishers ==> (s.publishers[p].phase.Began? <==> s.lock != Some(p)))
    && (s.lock.Some? ==> s.lock.value in s.publishers)
  }

  ghost predicate PublishersOk(s: Store) {
    (forall p :: p in s.publishers ==> PublisherOk(s, s.publishers[p].phase)) && OneHolder(s)
  }

  /** Disjoint, ascending and never above `top`. */
  ghost predicate BlocksBelow(bs: seq<Block>, top: nat) {
    && (forall b :: b in bs ==> 1 <= b.lo <= b.hi <= top)
    && (forall i, j :: 0 <= i < j < |bs| ==> bs[i].hi < bs[j].lo)
  }

  ghost predicate BlocksOk(s: Store) {
    BlocksBelow(s.blocks, s.streamSeq)
  }

  ghost predicate PublishInv(s: Store) {
    TableOk(s) && StreamOk(s) && PublishersOk(s) && BlocksOk(s)
  }

  ghost predicate Inv(s: Store) {
    WriteInv(s) && PublishInv(s)
  }

  lemma EmptyInv()
    ensures Inv(Empty)
  {
  }

  // ---- Writer steps --------------------------------------------------------------------------

  /** Nothing a writer sees has changed, except that more ids and UUIDs are taken. */
  ghost predicate SameForWriters(s: Store, s': Store) {
    && s'.items == s.items && s'.committed == s.committed && s'.ops == s.ops
    && s.lastId <= s'.lastId && s.used <= s'.used
  }

  /** A step that rewrites the record of `w` alone has only that record to account for. */
  lemma OneWriterStep(s: Store, s': Store, w: nat)
    requires WriteInv(s) && SameForWriters(s, s')
    requires s'.writers - {w} == s.writers - {w}
    requires w in s'.writers ==>
      && WriterOk(s', s'.writers[w])
      && forall v :: v in s.writers && v != w ==> Apart(s.writers[v], s'.writers[w])
    ensures WriteInv(s')
  {
    forall v | v in s'.writers && v != w ensures v in s.writers && s'.writers[v] == s.writers[v] {
      assert v in s'.writers - {w};
    }
    forall v | v in s'.writers ensures WriterOk(s', s'.writers[v]) {
      assert v != w ==> WriterOk(s, s.writers[v]);
    }
    forall u, v | u in s'.writers && v in s'.writers && u != v ensures Apart(s'.writers[u], s'.writers[v]) {
      assert u != w && v != w ==> Apart(s.writers[u], s.writers[v]);
    }
  }

  lemma WriterStepKeepsWriters(s: Store, a: Action)
    requires WriteInv(s) && CanWrite(s, a) && !a.WCommit?
    ensures WriteInv(DoWrite(s, a))
  {
    hide VersionsOk, RowsOk;
    var s' := DoWrite(s, a);
    assert a.w in s.writers ==> WriterOk(s, s.writers[a.w]);
    forall v | v in s.writers && v != a.w && a.w in s'.writers ensures Apart(s.writers[v], s'.writers[a.w]) {
      assert WriterOk(s, s.writers[v]);
      assert a.w in s.writers ==> Apart(s.writers[v], s.writers[a.w]);
    }
    OneWriterStep(s, s', a.w);
  }

  lemma CommitKeepsLog(s: Store, w: nat)
    requires LogOk(s) && CanWrite(s, WCommit(w)) && WriterOk(s, s.writers[w])
    ensures LogOk(DoWrite(s, WCommit(w)))
  {
    assert Records(s.writers[w].op, s.writers[w].phase.event);
  }

  lemma CommitKeepsVersions(s: Store, w: nat)
    requires VersionsOk(s) && CanWrite(s, WCommit(w)) && WriterOk(s, s.writers[w])
    ensures VersionsOk(DoWrite(s, WCommit(w)))
  {
  }

  lemma CommitKeepsRows(s: Store, w: nat)
    requires RowsOk(s) && CanWrite(s, WCommit(w)) && WriterOk(s, s.writers[w])
    ensures RowsOk(DoWrite(s, WCommit(w)))
  {
    var s' := DoWrite(s, WCommit(w));
    var tx := s.writers[w];
    var e := tx.phase.event;
    assert WriterOk(s, tx);
    forall x: ItemId
      ensures Grammar(Project(s'.committed, x)) && Lookup(s'.items, x) == Current(Project(s'.committed, x))
    {
      ProjectSnoc(s.committed, e, x);
      var p := Project(s.committed, x);
      assert Grammar(p) && Lookup(s.items, x) == Current(p);
      if x == e.aggregate {
        if tx.op.Create? {
          ProjectEmpty(s.committed, x);
        }
        assert Follows(p + [e], |p|);
        GrammarSnoc(p, e);
        assert Project(s'.committed, x) == p + [e];
      } else {
        assert Project(s'.committed, x) == p;
      }
    }
  }

  lemma CommitKeepsWriters(s: Store, w: nat)
    requires LogOk(s) && WritersOk(s) && CanWrite(s, WCommit(w))
    ensures WritersOk(DoWrite(s, WCommit(w)))
  {
    var s' := DoWrite(s, WCommit(w));
    assert WriterOk(s, s.writers[w]);
    forall v | v in s'.writers ensures WriterOk(s', s'.writers[v]) {
      assert WriterOk(s, s.writers[v]) && Apart(s.writers[v], s.writers[w]);
    }
  }

  lemma CommitKeepsWriteInv(s: Store, w: nat)
    requires WriteInv(s) && CanWrite(s, WCommit(w))
    ensures WriteInv(DoWrite(s, WCommit(w)))
  {
    assert WriterOk(s, s.writers[w]);
    CommitKeepsLog(s, w);
    CommitKeepsVersions(s, w);
    CommitKeepsRows(s, w);
    CommitKeepsWriters(s, w);
  }

  lemma OwnWriter(s: Store, w: nat)
    requires WriteInv(s) && w in s.writers
    ensures WriterOk(s, s.writers[w])
  {
  }

  /** A new event joins the committed log and the queue together. */
  lemma QueueEvent(s: Store, e: Event)
    requires TableOk(s) && forall c :: c in s.committed ==> c.id != e.id
    ensures TableOk(s.(outbox := s.outbox[e.id := Row(e, None)], committed := s.committed + [e]))
  {
    var s' := s.(outbox := s.outbox[e.id := Row(e, None)], committed := s.committed + [e]);
    forall d | d in s.published ensures d.event in s'.committed && d.event.id != e.id {
      assert d.event in s.committed;
    }
    forall c | c in s'.committed ensures Queued(s'.outbox, c.id) || IsPublished(s', c) {
      if c != e && !Queued(s'.outbox, c.id) {
        assert IsPublished(s, c);
      }
    }
  }

  lemma SameTable(s: Store, s': Store)
    requires TableOk(s) && s'.outbox == s.outbox && s'.published == s.published && s'.committed == s.committed
    ensures TableOk(s')
  {
    forall c | c in s'.committed && !Queued(s'.outbox, c.id) ensures IsPublished(s', c) {
      assert IsPublished(s, c);
    }
  }

  lemma CommitKeepsTable(s: Store, w: nat)
    requires TableOk(s) && CanWrite(s, WCommit(w)) && WriterOk(s, s.writers[w])
    ensures TableOk(DoWrite(s, WCommit(w)))
  {
    hide TableOk, Stages, EventLog.Absorb;
    var e := s.writers[w].phase.event;
    QueueEvent(s, e);
    SameTable(s.(outbox := s.outbox[e.id := Row(e, None)], committed := s.committed + [e]), DoWrite(s, WCommit(w)));
  }

  lemma CommitKeepsStream(s: Store, w: nat)
    requires TableOk(s) && StreamOk(s) && CanWrite(s, WCommit(w)) && WriterOk(s, s.writers[w])
    ensures StreamOk(DoWrite(s, WCommit(w)))
  {
    hide Stages, EventLog.Absorb;
    var s' := DoWrite(s, WCommit(w));
    var added := s.writers[w].phase.event;
    forall e, c | e in s'.published && c in s'.committed && c.aggregate == e.event.aggregate && c.id < e.event.id
      ensures !Queued(s'.outbox, c.id)
    {
      assert e.event in s.committed;
      assert c != added;
    }
  }

  lemma CommitKeepsClaim(s: Store, w: nat, ids: seq<nat>)
    requires TableOk(s) && CanWrite(s, WCommit(w)) && WriterOk(s, s.writers[w]) && ClaimOk(s, ids)
    ensures ClaimOk(DoWrite(s, WCommit(w)), ids)
  {
    hide Stages, EventLog.Absorb;
    var s' := DoWrite(s, WCommit(w));
    var e := s.writers[w].phase.event;
    forall id | id in ids
      ensures Queued(s'.outbox, id) && s'.outbox[id] == s.outbox[id] && s.outbox[id].event in s.committed
    {
      assert Queued(s.outbox, id);
    }
    forall id, c | id in ids && Overdue(s', c, id) ensures c.id in ids {
      assert s.outbox[id].event in s.committed && s.outbox[id].event.id == id;
      assert c != e;
      assert Overdue(s, c, id);
    }
  }

  lemma CommitKeepsPublishers(s: Store, w: nat)
    requires Inv(s) && CanWrite(s, WCommit(w))
    ensures PublishersOk(DoWrite(s, WCommit(w))) && BlocksOk(DoWrite(s, WCommit(w)))
  {
    forall p | p in s.publishers ensures PublisherOk(DoWrite(s, WCommit(w)), s.publishers[p].phase) {
      assert PublisherOk(s, s.publishers[p].phase);
      if !s.publishers[p].phase.Began? && !s.publishers[p].phase.Holding? {
        CommitKeepsClaim(s, w, s.publishers[p].phase.ids);
      }
    }
  }

  // ---- Publisher steps -----------------------------------------------------------------------

  lemma BlockEventsAre(outbox: Outbox, ids: seq<nat>, start: nat)
    requires forall id :: id in ids ==> id in outbox
    ensures var es := BlockEvents(outbox, ids, start);
            |es| == |ids| && forall k :: 0 <= k < |ids| ==> es[k] == Envelope(start + k, outbox[ids[k]].event)
  {
    if ids != [] {
      assert ids[0] in ids;
      assert forall id :: id in ids[1..] ==> id in ids;
      BlockEventsAre(outbox, ids[1..], start + 1);
      assert forall k :: 0 < k < |ids| ==> ids[k] == ids[1..][k - 1];
    }
  }

  /** A publisher that holds the lock finds no outbox row locked: SKIP LOCKED skips nothing. */
  lemma NothingToSkip(s: Store, p: nat)
    requires PublishersOk(s) && s.lock == Some(p)
    ensures LockedRows(s, p) == {}
  {
    forall q | q in s.publishers && q != p ensures RowsOf(s.publishers[q].phase) == [] {
      assert s.publishers[q].phase.Began?;
    }
  }

  lemma SameWriteState(s: Store, s': Store)
    requires WriteInv(s) && SameForWriters(s, s') && s'.writers == s.writers
    ensures WriteInv(s')
  {
    forall w | w in s'.writers ensures WriterOk(s', s'.writers[w]) {
      assert WriterOk(s, s.writers[w]);
    }
  }

  /** Publisher steps before commit touch neither the tables nor the published history. */
  lemma PublisherStepFrame(s: Store, a: Action)
    requires CanPublish(s, a) && !a.PCommit?
    requires a.PSetVal? ==> PublisherOk(s, s.publishers[a.p].phase)
    ensures var s' := DoPublish(s, a);
            && s'.outbox == s.outbox && s'.published == s.published && s'.committed == s.committed
            && SameForWriters(s, s') && s'.writers == s.writers
            && s.streamSeq <= s'.streamSeq
  {
    hide ClaimRows, LockedRows, MarkRows, BlockEvents, ClaimOk, Unassigned;
  }

  lemma SameTables(s: Store, s': Store)
    requires TableOk(s) && StreamOk(s)
    requires s'.outbox == s.outbox && s'.published == s.published && s'.committed == s.committed
    requires s.streamSeq <= s'.streamSeq
    ensures TableOk(s') && StreamOk(s')
  {
    forall c | c in s'.committed && !Queued(s'.outbox, c.id) ensures IsPublished(s', c) {
      assert IsPublished(s, c);
    }
  }

  lemma SameClaim(s: Store, s': Store, ids: seq<nat>)
    requires ClaimOk(s, ids) && s'.outbox == s.outbox && s'.committed == s.committed
    ensures ClaimOk(s', ids)
  {
    forall id, c | id in ids && Overdue(s', c, id) ensures c.id in ids {
      assert Overdue(s, c, id);
    }
  }

  /** The row claims a publisher holds after PClaim. */
  lemma ClaimIsOk(s: Store, p: nat, limit: nat)
    requires Inv(s) && s.lock == Some(p) && limit >= 1
    ensures var ids := ClaimRows(s.outbox, LockedRows(s, p), limit);
            && IsClaim(s.outbox, {}, limit, ids)
            && (ids != [] ==> ClaimOk(s, ids))
  {
    hide ClaimRows, LockedRows, WriteInv, StreamOk, BlocksOk;
    NothingToSkip(s, p);
    var ids := ClaimRows(s.outbox, LockedRows(s, p), limit);
    ClaimRowsIsClaim(s.outbox, LockedRows(s, p), limit);
    forall id, c | id in ids && Overdue(s, c, id) ensures c.id in ids {
      var k :| 0 <= k < |ids| && ids[k] == id;
    }
  }

  /** While one publisher is past the lock, the others can only begin, fail to lock, or end. */
  lemma OtherPublisherKept(s: Store, a: Action, p: nat)
    requires Inv(s) && CanPublish(s, a) && !a.PCommit?
    requires p in s.publishers && p != a.p
    ensures PublisherOk(DoPublish(s, a), s.publishers[p].phase)
  {
    var s' := DoPublish(s, a);
    var phase := s.publishers[p].phase;
    PublisherStepFrame(s, a);
    assert PublisherOk(s, phase);
    if !phase.Began? {
      assert a.p in s.publishers ==> s.publishers[a.p].phase.Began?;
      assert s'.streamSeq == s.streamSeq && s'.blocks == s.blocks;
      if !phase.Holding? { SameClaim(s, s', phase.ids); }
    }
  }

  lemma OwnPublisherKept(s: Store, a: Action)
    requires Inv(s) && CanPublish(s, a) && !a.PCommit?
    requires a.p in DoPublish(s, a).publishers
    ensures PublisherOk(DoPublish(s, a), DoPublish(s, a).publishers[a.p].phase)
  {
    hide WriteInv, TableOk, MarkRows, BlockEvents;
    var s' := DoPublish(s, a);
    PublisherStepFrame(s, a);
    assert a.p in s.publishers ==> PublisherOk(s, s.publishers[a.p].phase);
    if a.PClaim? { ClaimIsOk(s, a.p, a.limit); }
    var phase := s'.publishers[a.p].phase;
    if !phase.Began? && !phase.Holding? {
      SameClaim(s, s', phase.ids);
      if a.PNextVal? { assert |phase.ids| >= 1; }
    }
  }

  lemma OneMoreBlock(bs: seq<Block>, top: nat, b: Block)
    requires BlocksBelow(bs, top) && 1 <= b.lo <= b.hi && top <= b.hi
    requires bs != [] ==> bs[|bs| - 1].hi < b.lo
    ensures BlocksBelow(bs + [b], b.hi)
  {
    assert forall i :: 0 <= i < |bs| ==> bs[i] in bs;
    assert forall i :: 0 <= i < |bs| - 1 ==> bs[i].hi < bs[|bs| - 1].lo;
  }

  /** Only nextval and setval touch the sequence and the reserved blocks. */
  lemma SequenceMoves(s: Store, a: Action)
    requires CanPublish(s, a)
    ensures var s' := DoPublish(s, a);
      if a.PNextVal? && |s.publishers[a.p].phase.ids| > 1 then s'.streamSeq == s.streamSeq + 1 && s'.blocks == s.blocks
      else if a.PNextVal? then
        s'.streamSeq == s.streamSeq + 1 && s'.blocks == s.blocks + [Block(s.streamSeq + 1, s.streamSeq + 1)]
      else if a.PSetVal? then
        var Drawn(ids, start) := s.publishers[a.p].phase;
        s'.streamSeq == start + |ids| - 1 && s'.blocks == s.blocks + [Block(start, s'.streamSeq)]
      else s'.streamSeq == s.streamSeq && s'.blocks == s.blocks
  {
    hide ClaimRows, LockedRows, MarkRows, BlockEvents;
  }

  lemma PublisherStepKeepsBlocks(s: Store, a: Action)
    requires PublishersOk(s) && BlocksOk(s) && CanPublish(s, a) && !a.PCommit?
    ensures BlocksOk(DoPublish(s, a))
  {
    hide DoPublish, ClaimOk, OneHolder;
    SequenceMoves(s, a);
    if a.PNextVal? {
      assert s.blocks != [] ==> s.blocks[|s.blocks| - 1] in s.blocks;
      OneMoreBlock(s.blocks, s.streamSeq, Block(s.streamSeq + 1, s.streamSeq + 1));
    } else if a.PSetVal? {
      assert PublisherOk(s, s.publishers[a.p].phase);
      var Drawn(ids, start) := s.publishers[a.p].phase;
      OneMoreBlock(s.blocks, s.streamSeq, Block(start, start + |ids| - 1));
    }
  }

  lemma StepKeepsOneHolder(s: Store, a: Action)
    requires OneHolder(s) && CanPublish(s, a)
    ensures OneHolder(DoPublish(s, a))
    ensures forall p :: p in DoPublish(s, a).publishers && p != a.p ==>
              p in s.publishers && DoPublish(s, a).publishers[p] == s.publishers[p]
  {
    hide ClaimRows, LockedRows, MarkRows, BlockEvents;
  }

  lemma PublisherStepKeepsPublishers(s: Store, a: Action)
    requires Inv(s) && CanPublish(s, a) && !a.PCommit?
    ensures PublishersOk(DoPublish(s, a))
  {
    hide WriteInv, TableOk, StreamOk, BlocksOk, PublisherOk, OneHolder, DoPublish;
    var s' := DoPublish(s, a);
    StepKeepsOneHolder(s, a);
    forall p | p in s'.publishers ensures PublisherOk(s', s'.publishers[p].phase) {
      if p == a.p { OwnPublisherKept(s, a); } else { OtherPublisherKept(s, a, p); }
    }
  }

  // ---- The publisher's commit ------------------------------------------------------------------

  lemma MarkRowsAre(outbox: Outbox, ids: seq<nat>, start: nat, at: Time)
    requires forall i, j :: 0 <= i < j < |ids| ==> ids[i] < ids[j]
    requires forall id :: id in ids ==> id in outbox
    ensures var marked := MarkRows(outbox, ids, start, at);
            && marked.Keys == outbox.Keys
            && (forall id :: id in outbox && id !in ids ==> marked[id] == outbox[id])
            && (forall k :: 0 <= k < |ids| ==> marked[ids[k]] == Row(outbox[ids[k]].event, Some(Stamp(at, start + k))))
  {
    forall k | 0 <= k < |ids| ensures ids[k] in ids && IndexOf(ids, ids[k]) == k {
      assert ids[k] in ids;
    }
  }

  /** The commit of publisher `p`: its claim, its block, and the state it leaves. */
  ghost predicate Commits(s: Store, p: nat, ids: seq<nat>, start: nat, at: Time, block: seq<Envelope>) {
    && p in s.publishers && s.publishers[p] == Publisher(at, Marked(ids, start))
    && ClaimOk(s, ids) && OwnsBlock(s, ids, start)
    && |block| == |ids|
    && (forall k :: 0 <= k < |ids| ==> ids[k] in s.outbox && block[k] == Envelope(start + k, s.outbox[ids[k]].event))
    && var s' := DoPublish(s, PCommit(p));
    && s'.published == s.published + block && s'.committed == s.committed && s'.streamSeq == s.streamSeq
    && s'.outbox.Keys == s.outbox.Keys
    && (forall id :: id in s.outbox && id !in ids ==> s'.outbox[id] == s.outbox[id])
    && (forall k :: 0 <= k < |ids| ==> s'.outbox[ids[k]] == Row(block[k].event, Some(Stamp(at, start + k))))
  }

  lemma CommitOf(s: Store, p: nat) returns (ids: seq<nat>, start: nat, at: Time, block: seq<Envelope>)
    requires CanPublish(s, PCommit(p)) && PublisherOk(s, s.publishers[p].phase)
    ensures Commits(s, p, ids, start, at, block)
  {
    at := s.publishers[p].at;
    ids, start := s.publishers[p].phase.ids, s.publishers[p].phase.start;
    assert forall id :: id in ids ==> Queued(s.outbox, id);
    block := BlockEvents(s.outbox, ids, start);
    BlockEventsAre(s.outbox, ids, start);
    MarkRowsAre(s.outbox, ids, start, at);
    forall k | 0 <= k < |ids| ensures ids[k] in s.outbox {
      assert ids[k] in ids;
    }
  }

  lemma SameEvent(s: Store, c: Event, d: Event)
    requires LogOk(s) && c in s.committed && d in s.committed && c.id == d.id
    ensures c == d
  {
    var i :| 0 <= i < |s.committed| && s.committed[i] == c;
    var j :| 0 <= j < |s.committed| && s.committed[j] == d;
  }

  lemma MarkedRowsListed(s: Store, p: nat, ids: seq<nat>, start: nat, at: Time, block: seq<Envelope>, id: nat)
    requires TableOk(s) && Commits(s, p, ids, start, at, block)
    requires id in s.outbox
    ensures var s' := DoPublish(s, PCommit(p));
            && s'.outbox[id].event == s.outbox[id].event
            && if s'.outbox[id].stamp.None? then s'.outbox[id].event in s.committed
               else Envelope(s'.outbox[id].stamp.value.pos, s'.outbox[id].event) in s'.published
  {
    hide DoPublish;
    if id in ids {
      var k :| 0 <= k < |ids| && ids[k] == id;
      assert block[k] in block;
      assert block[k] in DoPublish(s, PCommit(p)).published;
    }
  }

  lemma EnvelopesInTable(s: Store, p: nat, ids: seq<nat>, start: nat, at: Time, block: seq<Envelope>, e: Envelope)
    requires TableOk(s) && Commits(s, p, ids, start, at, block)
    requires e in s.published + block
    ensures var s' := DoPublish(s, PCommit(p));
            && e.event in s.committed && !Queued(s'.outbox, e.event.id)
            && (e.event.id in s'.outbox ==> InTable(s'.outbox, e))
  {
    if e in s.published {
      assert forall id :: id in ids ==> Queued(s.outbox, id);
    } else {
      var k :| 0 <= k < |block| && block[k] == e;
      assert ids[k] in ids && Queued(s.outbox, ids[k]);
    }
  }

  lemma PublishKeepsTable(s: Store, p: nat, ids: seq<nat>, start: nat, at: Time, block: seq<Envelope>)
    requires LogOk(s) && TableOk(s) && Commits(s, p, ids, start, at, block)
    ensures TableOk(DoPublish(s, PCommit(p)))
  {
    var s' := DoPublish(s, PCommit(p));
    forall id | id in s'.outbox
      ensures s'.outbox[id].event.id == id
      ensures if s'.outbox[id].stamp.None? then s'.outbox[id].event in s'.committed
              else Envelope(s'.outbox[id].stamp.value.pos, s'.outbox[id].event) in s'.published
    {
      MarkedRowsListed(s, p, ids, start, at, block, id);
    }
    forall e | e in s'.published
      ensures e.event in s'.committed && !Queued(s'.outbox, e.event.id)
              && (e.event.id in s'.outbox ==> InTable(s'.outbox, e))
    {
      EnvelopesInTable(s, p, ids, start, at, block, e);
    }
    forall c | c in s'.committed ensures Queued(s'.outbox, c.id) || IsPublished(s', c) {
      if c.id in ids {
        var k :| 0 <= k < |ids| && ids[k] == c.id;
        assert ids[k] in ids && Queued(s.outbox, ids[k]);
        SameEvent(s, c, block[k].event);
        assert block[k] in s'.published;
      } else if !Queued(s.outbox, c.id) {
        assert IsPublished(s, c);
      }
    }
  }

  lemma PublishKeepsRising(s: Store, p: nat, ids: seq<nat>, start: nat, at: Time, block: seq<Envelope>)
    requires StreamOk(s) && Commits(s, p, ids, start, at, block)
    ensures var s' := DoPublish(s, PCommit(p));
            Rising(s'.published) && forall e :: e in s'.published ==> 1 <= e.pos <= s'.streamSeq
  {
    hide DoPublish;
    var s' := DoPublish(s, PCommit(p));
    assert s'.published == s.published + block;
    assert forall i :: 0 <= i < |s.published| ==> s.published[i] in s.published;
    forall e | e in s'.published ensures 1 <= e.pos <= s'.streamSeq {
      if e !in s.published {
        var k :| 0 <= k < |block| && block[k] == e;
      }
    }
  }

  /** Within an entity, rows already published have smaller ids than the rows of a claim. */
  lemma QueuedIsNewer(s: Store, e: Envelope, id: nat)
    requires TableOk(s) && StreamOk(s) && e in s.published && Queued(s.outbox, id)
    requires s.outbox[id].event.aggregate == e.event.aggregate
    ensures e.event.id < id
  {
    var c := s.outbox[id].event;
    assert c in s.committed && c.id == id;
  }

  lemma PublishKeepsEntityOrder(
    s: Store, p: nat, ids: seq<nat>, start: nat, at: Time, block: seq<Envelope>, i: nat, j: nat)
    requires TableOk(s) && StreamOk(s) && Commits(s, p, ids, start, at, block)
    requires var h := s.published + block; i < j < |h| && h[i].event.aggregate == h[j].event.aggregate
    ensures var h := s.published + block; h[i].event.id < h[j].event.id
  {
    hide DoPublish, OwnsBlock, Rising;
    var n := |s.published|;
    if n <= j {
      assert ids[j - n] in ids && Queued(s.outbox, ids[j - n]);
      assert s.outbox[ids[j - n]].event.id == ids[j - n];
      if i < n {
        assert s.published[i] in s.published;
        QueuedIsNewer(s, s.published[i], ids[j - n]);
      } else {
        assert ids[i - n] in ids && Queued(s.outbox, ids[i - n]);
        assert s.outbox[ids[i - n]].event.id == ids[i - n];
      }
    }
  }

  lemma PublishKeepsDownward(
    s: Store, p: nat, ids: seq<nat>, start: nat, at: Time, block: seq<Envelope>, e: Envelope, c: Event)
    requires TableOk(s) && StreamOk(s) && Commits(s, p, ids, start, at, block)
    requires e in s.published + block && c in s.committed && c.aggregate == e.event.aggregate && c.id < e.event.id
    ensures !Queued(DoPublish(s, PCommit(p)).outbox, c.id)
  {
    if Queued(s.outbox, c.id) {
      if e !in s.published {
        var k :| 0 <= k < |block| && block[k] == e;
        assert ids[k] in ids && Queued(s.outbox, ids[k]);
        assert Overdue(s, c, ids[k]);
        var m :| 0 <= m < |ids| && ids[m] == c.id;
      }
    }
  }

  lemma PublishKeepsPublishers(s: Store, p: nat)
    requires Inv(s) && CanPublish(s, PCommit(p))
    ensures PublishersOk(DoPublish(s, PCommit(p))) && BlocksOk(DoPublish(s, PCommit(p)))
  {
    var s' := DoPublish(s, PCommit(p));
    forall q | q in s'.publishers ensures PublisherOk(s', s'.publishers[q].phase) {
      assert s.publishers[q].phase.Began?;
    }
  }

  lemma PublishKeepsStream(s: Store, p: nat, ids: seq<nat>, start: nat, at: Time, block: seq<Envelope>)
    requires TableOk(s) && StreamOk(s) && Commits(s, p, ids, start, at, block)
    ensures StreamOk(DoPublish(s, PCommit(p)))
  {
    hide DoPublish;
    var s' := DoPublish(s, PCommit(p));
    var h := s.published + block;
    assert s'.published == h && s'.committed == s.committed;
    PublishKeepsRising(s, p, ids, start, at, block);
    forall i: nat, j: nat | i < j < |h| && h[i].event.aggregate == h[j].event.aggregate
      ensures h[i].event.id < h[j].event.id
    {
      PublishKeepsEntityOrder(s, p, ids, start, at, block, i, j);
    }
    forall e, c | e in h && c in s.committed && c.aggregate == e.event.aggregate && c.id < e.event.id
      ensures !Queued(s'.outbox, c.id)
    {
      PublishKeepsDownward(s, p, ids, start, at, block, e, c);
    }
  }

  lemma PublishKeepsInv(s: Store, p: nat)
    requires Inv(s) && CanPublish(s, PCommit(p))
    ensures Inv(DoPublish(s, PCommit(p)))
  {
    var s' := DoPublish(s, PCommit(p));
    assert PublisherOk(s, s.publishers[p].phase);
    var ids, start, at, block := CommitOf(s, p);
    SameWriteState(s, s');
    PublishKeepsTable(s, p, ids, start, at, block);
    PublishKeepsStream(s, p, ids, start, at, block);
    PublishKeepsPublishers(s, p);
  }

  // ---- Retention and the whole step ------------------------------------------------------------

  /** A retention statement removes published rows only. */
  lemma TrimIsPublishedOnly(s: Store, a: Action)
    requires a.Trim? && Can(s, a)
    ensures var s' := Do(s, a);
            && (forall id :: Queued(s'.outbox, id) <==> Queued(s.outbox, id))
            && (forall id :: id in s'.outbox ==> id in s.outbox && s'.outbox[id] == s.outbox[id])
            && s'.published == s.published && s'.committed == s.committed && s'.streamSeq == s.streamSeq
  {
    AgedRowsIsAgedBatch(s.outbox, s.clock - a.window, a.limit);
  }

  lemma TrimKeepsClaim(s: Store, a: Action, ids: seq<nat>)
    requires a.Trim? && Can(s, a) && ClaimOk(s, ids)
    ensures ClaimOk(Do(s, a), ids)
  {
    TrimIsPublishedOnly(s, a);
    var s' := Do(s, a);
    forall id, c | id in ids && Overdue(s', c, id) ensures c.id in ids {
      assert Overdue(s, c, id);
    }
  }

  lemma TrimKeepsTables(s: Store, a: Action)
    requires TableOk(s) && StreamOk(s) && a.Trim? && Can(s, a)
    ensures TableOk(Do(s, a)) && StreamOk(Do(s, a))
  {
    hide Do;
    var s' := Do(s, a);
    TrimIsPublishedOnly(s, a);
    forall c | c in s'.committed && !Queued(s'.outbox, c.id) ensures IsPublished(s', c) {
      assert IsPublished(s, c);
    }
  }

  lemma TrimKeepsPublishers(s: Store, a: Action)
    requires PublishersOk(s) && BlocksOk(s) && a.Trim? && Can(s, a)
    ensures PublishersOk(Do(s, a)) && BlocksOk(Do(s, a))
  {
    hide AgedRows, DeleteRows;
    forall p | p in s.publishers ensures PublisherOk(Do(s, a), s.publishers[p].phase) {
      var phase := s.publishers[p].phase;
      assert PublisherOk(s, phase);
      if !phase.Began? && !phase.Holding? { TrimKeepsClaim(s, a, phase.ids); }
    }
  }

  /** Every enabled step of every process keeps the invariant. */
  lemma StepKeepsInv(s: Store, a: Action)
    requires Inv(s) && Can(s, a)
    ensures Inv(Do(s, a))
  {
    hide LogOk, VersionsOk, RowsOk, WritersOk, TableOk, StreamOk, PublishersOk, BlocksOk;
    var s' := Do(s, a);
    if a.Tick? {
      SameWriteState(s, s');
      SameTables(s, s');
      SamePublishers(s, s');
    } else if a.Trim? {
      SameWriteState(s, s');
      TrimKeepsTables(s, a);
      TrimKeepsPublishers(s, a);
    } else if a.WCommit? {
      CommitKeepsWriteInv(s, a.w);
      OwnWriter(s, a.w);
      CommitKeepsTable(s, a.w);
      CommitKeepsStream(s, a.w);
      CommitKeepsPublishers(s, a.w);
    } else if CanWrite(s, a) {
      WriterStepKeepsWriters(s, a);
      SameTables(s, s');
      SamePublishers(s, s');
    } else if a.PCommit? {
      PublishKeepsInv(s, a.p);
    } else {
      assert a.PSetVal? ==> PublisherOk(s, s.publishers[a.p].phase) by { OwnPhaseOk(s, a.p); }
      PublisherStepFrame(s, a);
      SameWriteState(s, s');
      SameTables(s, s');
      PublisherStepKeepsPublishers(s, a);
      PublisherStepKeepsBlocks(s, a);
    }
  }

  lemma OwnPhaseOk(s: Store, p: nat)
    requires PublishersOk(s)
    ensures p in s.publishers ==> PublisherOk(s, s.publishers[p].phase)
  {
  }

  lemma SamePublishers(s: Store, s': Store)
    requires PublishersOk(s) && BlocksOk(s)
    requires s'.outbox == s.outbox && s'.published == s.published && s'.committed == s.committed
    requires s'.publishers == s.publishers && s'.lock == s.lock && s'.streamSeq == s.streamSeq && s'.blocks == s.blocks
    ensures PublishersOk(s') && BlocksOk(s')
  {
    forall p | p in s'.publishers ensures PublisherOk(s', s'.publishers[p].phase) {
      var phase := s.publishers[p].phase;
      assert PublisherOk(s, phase);
      if !phase.Began? && !phase.Holding? { SameClaim(s, s', phase.ids); }
    }
  }
}

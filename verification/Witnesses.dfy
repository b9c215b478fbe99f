/** Short runs that show why the hypotheses on retention are needed: without them the documented promises fail. */
module Witnesses {
  import opened Model
  import opened Store
  import opened Queries
  import opened StoreTheorems
  import opened TailerInvariant
  import opened Refusal
  import opened Retention
  import Cluster
  import SI = StoreInvariant
  import P = Publisher
  import R = Repository

  /** Reached from the empty database without any deletion. */
  ghost predicate Built(s: Store) {
    exists acts :: Builds(acts, s)
  }

  ghost predicate Builds(acts: seq<Action>, s: Store) {
    After(acts) == Some(s) && forall k :: 0 <= k < |acts| ==> !acts[k].Trim?
  }

  lemma EmptyReachable()
    ensures Built(Empty)
  {
    assert Builds([], Empty);
  }

  lemma StepReachable(s: Store, a: Action)
    requires Built(s) && Can(s, a) && !a.Trim?
    ensures Built(Do(s, a))
  {
    hide Do, Can;
    var acts :| Builds(acts, s);
    assert (acts + [a])[..|acts|] == acts;
    assert Builds(acts + [a], Do(s, a));
  }

  lemma TrimReachable(s: Store, window: nat, limit: nat)
    requires Built(s) && limit >= 1
    ensures Reachable(s) && Reachable(Do(s, Trim(window, limit)))
  {
    hide Do;
    var acts :| Builds(acts, s);
    assert (acts + [Trim(window, limit)])[..|acts|] == acts;
    assert After(acts + [Trim(window, limit)]) == Some(Do(s, Trim(window, limit)));
  }

  lemma BuiltIsReachable(s: Store)
    requires Built(s)
    ensures Reachable(s)
  {
    hide Do, Can;
    var acts :| Builds(acts, s);
  }

  lemma BuiltInv(s: Store)
    requires Built(s)
    ensures SI.Inv(s)
  {
    hide SI.Inv, Do, Can, Built, Reachable;
    BuiltIsReachable(s);
    ReachableInv(s);
  }

  const OP := WriteOp.Create("x", 0)

  /** A create, from begin to commit. */
  function WithItem(s: Store, x: ItemId): Store {
    R.Committed(s, OP, Event(s.lastId + 1, x, Created, Item("x", 0, 1, s.clock, s.clock)))
  }

  /** A create by transaction `w`, up to but not including its commit. */
  function Appending(s: Store, w: nat, x: ItemId): Store {
    var e := R.EventOf(s, OP, x, Item("x", 0, 1, s.clock, s.clock));
    R.Within(s.(lastId := e.id), w, OP, x, s.clock, Appended(e))
  }

  lemma AppendReachable(s: Store, w: nat, x: ItemId)
    requires Built(s) && w !in s.writers && x !in s.used
    ensures Built(Appending(s, w, x))
  {
    hide Built, Reachable, Do, Can;
    var item := Item("x", 0, 1, s.clock, s.clock);
    R.BeginStep(s, w, OP, x);
    StepReachable(s, WBegin(w, OP, x));
    R.WriteStep(s, w, OP, x, s.clock, Begun);
    StepReachable(R.Within(s, w, OP, x, s.clock, Begun), WWrite(w));
    R.AppendStep(s, w, OP, x, s.clock, item);
    StepReachable(R.Within(s, w, OP, x, s.clock, Written(item)), WAppend(w));
  }

  lemma CreateReachable(s: Store, w: nat, x: ItemId)
    requires Built(s) && w !in s.writers && x !in s.used
    ensures Built(WithItem(s, x))
  {
    hide Built, Reachable, Do, Can;
    AppendReachable(s, w, x);
    R.CommitStep(s, w, OP, x, s.clock, Item("x", 0, 1, s.clock, s.clock));
    StepReachable(Appending(s, w, x), WCommit(w));
  }

  ghost predicate OnlyQueued(outbox: Outbox, id: nat) {
    Queued(outbox, id) && forall i :: Queued(outbox, i) ==> i == id
  }

  lemma ClaimsOne(outbox: Outbox, id: nat)
    requires OnlyQueued(outbox, id)
    ensures ClaimRows(outbox, {}, 1) == [id]
  {
    hide ClaimRows;
    ClaimRowsIsClaim(outbox, {}, 1);
    var ids := ClaimRows(outbox, {}, 1);
    assert Queued(outbox, id) && id !in {};
    assert ids != [];
    assert ids[0] in ids;
  }

  /** Publisher `p` is waiting, nobody holds the lock and `id` is the only row to publish. */
  ghost predicate MayPublish(s: Store, p: nat, id: nat) {
    s.lock.None? && p in s.publishers && s.publishers[p].phase.Began? && OnlyQueued(s.outbox, id)
  }

  function Without(s: Store, p: nat): Store {
    s.(publishers := s.publishers - {p})
  }

  lemma ClaimReachable(s: Store, p: nat, id: nat)
    requires Built(s) && MayPublish(s, p, id)
    ensures p !in Without(s, p).publishers && Built(P.Under(Without(s, p), p, s.publishers[p].at, Claimed([id])))
  {
    hide Built, Reachable, SI.Inv, Do, Can, ClaimRows;
    BuiltInv(s);
    P.HolderIs(s);
    var s0, at := Without(s, p), s.publishers[p].at;
    assert s == s0.(publishers := s0.publishers[p := Publisher(at, Began)]);
    P.LockStep(s0, p, at);
    StepReachable(s, PTryLock(p));
    ClaimsOne(s.outbox, id);
    P.ClaimStep(s0, p, at, 1);
    StepReachable(P.Under(s0, p, at, Holding), PClaim(p, 1));
  }

  /** A waiting publisher gets the lock and publishes the one queued row. */
  function WithPublished(s: Store, p: nat, id: nat): Store
    requires p in s.publishers && id in s.outbox
  {
    var pos := s.streamSeq + 1;
    Without(s, p).(
       outbox := s.outbox[id := s.outbox[id].(stamp := Some(Stamp(s.publishers[p].at, pos)))],
       published := s.published + [Envelope(pos, s.outbox[id].event)],
       streamSeq := pos, blocks := s.blocks + [Block(pos, pos)])
  }

  lemma PublishReachable(s: Store, p: nat, id: nat)
    requires Built(s) && MayPublish(s, p, id)
    ensures Built(WithPublished(s, p, id))
  {
    hide Built, Reachable, Do, Can;
    ClaimReachable(s, p, id);
    var s0, at, pos := Without(s, p), s.publishers[p].at, s.streamSeq + 1;
    var blocks := s.blocks + [Block(pos, pos)];
    P.NextValStep(s0, p, at, [id]);
    StepReachable(P.Under(s0, p, at, Claimed([id])), PNextVal(p));
    var s1 := P.Under(s0.(streamSeq := pos, blocks := blocks), p, at, Reserved([id], pos));
    P.CommitSteps(s0, p, at, [id], blocks);
    StepReachable(s1, PMark(p));
    StepReachable(Do(s1, PMark(p)), PCommit(p));
    OneRow(s0, at, id, blocks);
  }

  lemma OneRow(s: Store, at: Time, id: nat, blocks: seq<Block>)
    requires id in s.outbox
    ensures var pos := s.streamSeq + 1;
            P.Published(s, at, [id], blocks)
            == s.(outbox := s.outbox[id := s.outbox[id].(stamp := Some(Stamp(at, pos)))],
                  published := s.published + [Envelope(pos, s.outbox[id].event)], streamSeq := pos, blocks := blocks)
  {
    var pos := s.streamSeq + 1;
    assert BlockEvents(s.outbox, [id], pos) == [Envelope(pos, s.outbox[id].event)];
    assert MarkRows(s.outbox, [id], pos, at) == s.outbox[id := s.outbox[id].(stamp := Some(Stamp(at, pos)))];
  }

  /** A publisher dies between nextval and commit: its position is spent. */
  function WithHole(s: Store, p: nat): Store {
    var pos := s.streamSeq + 1;
    Without(s, p).(streamSeq := pos, blocks := s.blocks + [Block(pos, pos)])
  }

  lemma CrashReachable(s: Store, p: nat, id: nat)
    requires Built(s) && MayPublish(s, p, id)
    ensures Built(WithHole(s, p))
  {
    hide Built, Reachable, Do, Can;
    ClaimReachable(s, p, id);
    var s0, at, pos := Without(s, p), s.publishers[p].at, s.streamSeq + 1;
    P.NextValStep(s0, p, at, [id]);
    StepReachable(P.Under(s0, p, at, Claimed([id])), PNextVal(p));
    var s1 := P.Under(WithHole(s, p), p, at, Reserved([id], pos));
    CrashStep(WithHole(s, p), p, at, Reserved([id], pos));
    StepReachable(s1, PCrash(p));
  }

  lemma CrashStep(s: Store, p: nat, at: Time, phase: PublisherPhase)
    requires p !in s.publishers && s.lock.None?
    ensures Can(P.Under(s, p, at, phase), PCrash(p)) && Do(P.Under(s, p, at, phase), PCrash(p)) == s
  {
    assert P.Under(s, p, at, phase).publishers - {p} == s.publishers;
  }

  function WithPublisher(s: Store, p: nat): Store {
    s.(publishers := s.publishers[p := Publisher(s.clock, Began)])
  }

  function Later(s: Store): Store {
    s.(clock := s.clock + 1)
  }

  lemma SmallSteps(s: Store, p: nat)
    requires Built(s)
    ensures p !in s.publishers ==> Built(WithPublisher(s, p))
    ensures Built(Later(s))
  {
    hide Built, Reachable;
    if p !in s.publishers { StepReachable(s, PBegin(p)); }
    StepReachable(s, Tick);
  }

  /** A batch larger than what is aged is a whole sweep. */
  lemma SweepReachable(s: Store, limit: nat)
    requires Built(s) && |AgedIds(s.outbox, s.clock)| < limit
    ensures Reachable(s) && Reachable(Swept(s, s.clock))
  {
    hide Built, Reachable, AgedRows, DeleteRows, AgedIds;
    BatchTakes(s.outbox, s.clock, limit);
    var ids := AgedRows(s.outbox, s.clock, limit);
    assert |ids| < limit by { TakenSize(s.outbox, s.clock, limit); }
    TrimReachable(s, 0, limit);
    assert DeleteRows(s.outbox, ids) - {} == DeleteRows(s.outbox, ids);
  }

  lemma TakenSize(outbox: Outbox, cutoff: Time, limit: nat)
    ensures |AgedRows(outbox, cutoff, limit)| <= |AgedIds(outbox, cutoff)|
  {
    BatchTakes(outbox, cutoff, limit);
  }

  // ---- The runs --------------------------------------------------------------------------------------

  function RowAt(id: nat, x: ItemId, created: Time, at: Time, pos: nat): Row {
    Row(Event(id, x, Created, Item("x", 0, 1, created, created)), Some(Stamp(at, pos)))
  }

  /**
   * A publisher begins, waits, and takes the lock only after another, begun later, has published: its row is later
   * in the stream with an earlier published_at. The sweep then deletes it and keeps the row before it, and the
   * stale-cursor check lets a client resume that has not seen the deleted event.
   */
  lemma PublishedOutOfOrder() returns (s: Store, swept: Store)
    ensures Reachable(s) && !PublishedInOrder(s.outbox)
    ensures swept == Swept(s, s.clock) && Reachable(swept) && RetainsSome(swept) && !RetainsSuffix(swept)
    ensures !Cluster.TooOld(swept.outbox, 1) && !Whole(swept, 1)
  {
    hide Built, Reachable, WithItem, WithPublished, AgedIds, R.Committed;
    s := OutOfOrder();
    assert AgedIds(s.outbox, 1) == {2} by { AgedIs(s.outbox, 1, {2}); }
    SweepReachable(s, 2);
    swept := Swept(s, 1);
    assert swept.outbox == map[1 := RowAt(1, 7, 0, 1, 1)];
    var d, e := Envelope(1, s.outbox[1].event), Envelope(2, s.outbox[2].event);
    assert swept.published == [d, e];
    assert d in swept.published && e in swept.published && !Trimmed(swept, d) && Trimmed(swept, e);
    OldestIs(swept.outbox, 1);
  }

  lemma AgedIs(outbox: Outbox, cutoff: Time, ids: set<nat>)
    requires forall id :: Aged(outbox, cutoff, id) <==> id in ids
    ensures AgedIds(outbox, cutoff) == ids
  {
  }

  lemma OldestIs(outbox: Outbox, id: nat)
    requires id in outbox && outbox[id].stamp.Some? && forall i :: i in outbox ==> i == id
    ensures OldestPosition(outbox) == Some(outbox[id].stamp.value.pos)
  {
    OldestPositionFacts(outbox);
    assert Positions(outbox) == {outbox[id].stamp.value.pos};
  }

  lemma OutOfOrder() returns (s: Store)
    ensures Built(s) && s.clock == 1
    ensures s.outbox == map[1 := RowAt(1, 7, 0, 1, 1), 2 := RowAt(2, 8, 1, 0, 2)]
    ensures s.published == [Envelope(1, s.outbox[1].event), Envelope(2, s.outbox[2].event)]
  {
    hide Built, Reachable;
    EmptyReachable();
    CreateReachable(Empty, 0, 7);
    var s1 := WithItem(Empty, 7);
    SmallSteps(s1, 2);
    var s2 := WithPublisher(s1, 2);
    SmallSteps(s2, 1);
    var s3 := Later(s2);
    SmallSteps(s3, 1);
    var s4 := WithPublisher(s3, 1);
    PublishReachable(s4, 1, 1);
    var s5 := WithPublished(s4, 1, 1);
    CreateReachable(s5, 0, 8);
    var s6 := WithItem(s5, 8);
    PublishReachable(s6, 2, 2);
    s := WithPublished(s6, 2, 2);
  }

  /** One item created and published by publisher 1 while nothing else goes on. */
  lemma OneMore(s: Store, x: ItemId, id: nat) returns (s': Store)
    requires Built(s) && s.writers == map[] && s.publishers == map[] && s.lock.None? && x !in s.used
    requires id == s.lastId + 1 && forall i :: !Queued(s.outbox, i)
    ensures s' == WithPublished(WithPublisher(WithItem(s, x), 1), 1, id) && Built(s')
  {
    hide Built, Reachable;
    CreateReachable(s, 0, x);
    SmallSteps(WithItem(s, x), 1);
    forall i | Queued(WithItem(s, x).outbox, i) ensures i == id {
      assert !Queued(s.outbox, i);
    }
    PublishReachable(WithPublisher(WithItem(s, x), 1), 1, id);
    s' := WithPublished(WithPublisher(WithItem(s, x), 1), 1, id);
  }

  /** Retention empties the outbox, and the check then accepts a cursor whose later events are gone. */
  lemma EmptiedOutbox() returns (swept: Store)
    ensures Reachable(swept) && RetainsSuffix(swept) && !RetainsSome(swept)
    ensures !Cluster.TooOld(swept.outbox, 1) && !Whole(swept, 1)
  {
    hide Built, Reachable, AgedIds;
    EmptyReachable();
    var s1 := OneMore(Empty, 7, 1);
    assert s1.outbox == map[1 := RowAt(1, 7, 0, 0, 1)];
    var s2 := OneMore(s1, 8, 2);
    var s := Later(s2);
    SmallSteps(s2, 1);
    assert s.outbox == map[1 := RowAt(1, 7, 0, 0, 1), 2 := RowAt(2, 8, 0, 0, 2)];
    assert AgedIds(s.outbox, 1) == {1, 2} by { AgedIs(s.outbox, 1, {1, 2}); }
    SweepReachable(s, 3);
    swept := Swept(s, 1);
    var e := Envelope(2, s.outbox[2].event);
    assert e in swept.published && Trimmed(swept, e);
    OldestPositionFacts(swept.outbox);
  }

  /** A crash leaves position 2 a hole, so a client at cursor 1 that has missed nothing is refused. */
  lemma NeedlessRefusal() returns (swept: Store)
    ensures Reachable(swept) && RetainsSuffix(swept) && RetainsSome(swept)
    ensures Cluster.TooOld(swept.outbox, 1) && Whole(swept, 1)
  {
    hide Built, Reachable, AgedIds;
    var s := HoleInTheMiddle();
    assert AgedIds(s.outbox, 1) == {1} by { AgedIs(s.outbox, 1, {1}); }
    SweepReachable(s, 2);
    swept := Swept(s, 1);
    var d, e := Envelope(1, s.outbox[1].event), Envelope(3, s.outbox[2].event);
    assert swept.published == [d, e];
    assert e in swept.published && !Trimmed(swept, e);
    OldestIs(swept.outbox, 2);
  }

  lemma HoleInTheMiddle() returns (s: Store)
    ensures Built(s) && s.clock == 1
    ensures s.outbox == map[1 := RowAt(1, 7, 0, 0, 1), 2 := RowAt(2, 8, 1, 1, 3)]
    ensures s.published == [Envelope(1, s.outbox[1].event), Envelope(3, s.outbox[2].event)]
  {
    hide Built, Reachable;
    EmptyReachable();
    var s1 := OneMore(Empty, 7, 1);
    assert s1.outbox == map[1 := RowAt(1, 7, 0, 0, 1)];
    var s2 := Later(s1);
    SmallSteps(s1, 1);
    CreateReachable(s2, 0, 8);
    var s3 := WithPublisher(WithItem(s2, 8), 1);
    SmallSteps(WithItem(s2, 8), 1);
    CrashReachable(s3, 1, 2);
    var s4 := WithPublisher(WithHole(s3, 1), 1);
    SmallSteps(WithHole(s3, 1), 1);
    PublishReachable(s4, 1, 2);
    s := WithPublished(s4, 1, 2);
  }

  /**
   * Two items are created: the transaction with the smaller outbox id commits only after the other one's event is
   * published. The stream lists them against id order, so a cursor over ids would skip the late one.
   */
  lemma StreamAgainstIdOrder() returns (s: Store)
    ensures Reachable(s) && Built(s) && |s.published| == 2
    ensures s.published[0].pos < s.published[1].pos && s.published[1].event.id < s.published[0].event.id
    ensures s.clock == 0 && s.outbox == map[1 := RowAt(1, 7, 0, 0, 2), 2 := RowAt(2, 8, 0, 0, 1)]
    ensures s.published == [Envelope(1, s.outbox[2].event), Envelope(2, s.outbox[1].event)]
  {
    hide Built, Reachable, Do, Can;
    EmptyReachable();
    AppendReachable(Empty, 0, 7);
    var s1 := Appending(Empty, 0, 7);
    CreateReachable(s1, 1, 8);
    var s2 := WithItem(s1, 8);
    SmallSteps(s2, 1);
    PublishReachable(WithPublisher(s2, 1), 1, 2);
    var s3 := WithPublished(WithPublisher(s2, 1), 1, 2);
    LateCommit(s1, s3);
    StepReachable(s3, WCommit(0));
    var s4 := Do(s3, WCommit(0));
    SmallSteps(s4, 1);
    PublishReachable(WithPublisher(s4, 1), 1, 1);
    s := WithPublished(WithPublisher(s4, 1), 1, 1);
    BuiltIsReachable(s);
  }

  /** The late transaction commits: its row joins the queue. */
  lemma LateCommit(s1: Store, s3: Store)
    requires 0 in s1.writers && s1.writers[0].phase.Appended? && s1.writers[0].phase.event.id == 1
    requires s3.writers == s1.writers
    ensures Can(s3, WCommit(0))
    ensures var s4, row := Do(s3, WCommit(0)), Row(s1.writers[0].phase.event, None);
            && s4.outbox == s3.outbox[1 := row] && s4.published == s3.published && s4.streamSeq == s3.streamSeq
            && s4.publishers == s3.publishers && s4.lock == s3.lock && s4.clock == s3.clock
  {
    hide DoPublish, CanPublish;
  }

  lemma FirstAged(outbox: Outbox, cutoff: Time, id: nat)
    requires Aged(outbox, cutoff, id) && forall i :: Aged(outbox, cutoff, i) ==> id <= i
    ensures AgedRows(outbox, cutoff, 1) == [id]
  {
    hide AgedRows;
    AgedRowsIsAgedBatch(outbox, cutoff, 1);
    var ids := AgedRows(outbox, cutoff, 1);
    assert ids != [];
    assert ids[0] in ids;
  }

  /**
   * In the middle of a sweep the same happens with published_at in order and the table not emptied: batches go by
   * id, and the first takes the event that is later in the stream.
   */
  lemma MidSweep() returns (s: Store, trimmed: Store)
    ensures Reachable(s) && PublishedInOrder(s.outbox) && Can(s, Trim(0, 1))
    ensures trimmed == Do(s, Trim(0, 1)) && Reachable(trimmed) && RetainsSome(trimmed) && !RetainsSuffix(trimmed)
    ensures !Cluster.TooOld(trimmed.outbox, 1) && !Whole(trimmed, 1)
  {
    hide Built, Reachable, Do, Can, AgedRows;
    var s0 := StreamAgainstIdOrder();
    s := Later(s0);
    SmallSteps(s0, 0);
    FirstAged(s.outbox, 1, 1);
    TrimOne(s, 1);
    TrimReachable(s, 0, 1);
    trimmed := Do(s, Trim(0, 1));
    LaterIsTrimmed(s, trimmed);
  }

  lemma TrimOne(s: Store, id: nat)
    requires AgedRows(s.outbox, s.clock, 1) == [id]
    ensures Can(s, Trim(0, 1)) && Do(s, Trim(0, 1)) == s.(outbox := s.outbox - {id})
  {
    hide AgedRows;
    assert DeleteRows(s.outbox, [id]) == s.outbox - {id};
  }

  lemma LaterIsTrimmed(s: Store, trimmed: Store)
    requires s.outbox == map[1 := RowAt(1, 7, 0, 0, 2), 2 := RowAt(2, 8, 0, 0, 1)]
    requires s.published == [Envelope(1, s.outbox[2].event), Envelope(2, s.outbox[1].event)]
    requires trimmed == s.(outbox := s.outbox - {1})
    ensures RetainsSome(trimmed) && !RetainsSuffix(trimmed)
    ensures !Cluster.TooOld(trimmed.outbox, 1) && !Whole(trimmed, 1)
  {
    var d, e := Envelope(1, s.outbox[2].event), Envelope(2, s.outbox[1].event);
    assert d in trimmed.published && e in trimmed.published && !Trimmed(trimmed, d) && Trimmed(trimmed, e);
    OldestIs(trimmed.outbox, 2);
  }
}

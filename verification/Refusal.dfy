/** The stale-cursor check: when an accepted cursor has its history whole, and when a refusal was needed. */
module Refusal {
  import opened Model
  import opened Cluster
  import opened TailerInvariant
  import opened SessionInvariant
  import opened Delivery
  import opened Streaming
  import CI = ClusterInvariant
  import S = Store
  import Q = Queries
  import SI = StoreInvariant

  /** Nothing published above `after` has been trimmed: a replay from there is whole. */
  ghost predicate Whole(st: S.Store, after: nat) {
    forall e :: e in st.published && after < e.pos ==> !Trimmed(st, e)
  }

  /** What the table retains of the stream is its end: everything from its oldest row on. */
  ghost predicate RetainsSuffix(st: S.Store) {
    forall d, e :: d in st.published && e in st.published && !Trimmed(st, d) && d.pos < e.pos ==> !Trimmed(st, e)
  }

  ghost predicate RetainsSome(st: S.Store) {
    exists e :: e in st.published && !Trimmed(st, e)
  }

  /** The oldest row of the check is the oldest untrimmed event. */
  lemma OldestIsUntrimmed(st: S.Store)
    requires SI.TableOk(st) && SI.StreamOk(st)
    ensures var oldest := S.OldestPosition(st.outbox);
            && (oldest.Some? <==> RetainsSome(st))
            && (oldest.Some? ==>
                  && (exists d :: d in st.published && !Trimmed(st, d) && d.pos == oldest.value)
                  && (forall e :: e in st.published && !Trimmed(st, e) ==> oldest.value <= e.pos))
  {
    Q.OldestPositionFacts(st.outbox);
    var oldest := S.OldestPosition(st.outbox);
    forall e | e in st.published && !Trimmed(st, e) ensures oldest.Some? && oldest.value <= e.pos {
      assert Q.InTable(st.outbox, e);
      assert e.pos in S.Positions(st.outbox);
    }
    if oldest.Some? {
      var id :| id in st.outbox && st.outbox[id].stamp.Some? && st.outbox[id].stamp.value.pos == oldest.value;
      var d := Envelope(oldest.value, st.outbox[id].event);
      assert d in st.published && !Trimmed(st, d);
    }
  }

  /**
   * With a suffix retained, an accepted cursor has its history whole exactly when the table holds a published row,
   * or nothing was ever published above the cursor: the branch for an empty table is the one that fails.
   */
  lemma AcceptedIsWhole(st: S.Store, after: nat)
    requires SI.TableOk(st) && SI.StreamOk(st) && RetainsSuffix(st) && !TooOld(st.outbox, after)
    ensures Whole(st, after) <==> S.OldestPosition(st.outbox).Some? || Head(st.published) <= after
    ensures RetainsSome(st) ==> Whole(st, after)
  {
    OldestIsUntrimmed(st);
    if RetainsSome(st) {
      var oldest := S.OldestPosition(st.outbox).value;
      var d :| d in st.published && !Trimmed(st, d) && d.pos == oldest;
      forall e | e in st.published && after < e.pos ensures !Trimmed(st, e) {
        if e.pos == oldest { SamePosition(st, d, e); }
      }
    } else if st.published != [] {
      var last := st.published[|st.published| - 1];
      assert last in st.published && Trimmed(st, last);
      forall e | e in st.published ensures e.pos <= last.pos { HeadIsTop(st, e); }
    }
  }

  /**
   * The documented promise, an explicit refusal rather than a truncated history, holds for all cursors exactly
   * when the table retains a suffix of the stream and is not empty of published rows. The one exception is a
   * stream that never got past position 1, where no cursor greater than 0 is owed anything.
   */
  lemma RefusalPromise(st: S.Store)
    requires SI.TableOk(st) && SI.StreamOk(st)
    ensures (forall after: nat :: after > 0 && !TooOld(st.outbox, after) ==> Whole(st, after))
        <==> RetainsSuffix(st) && (RetainsSome(st) || Head(st.published) <= 1)
  {
    OldestIsUntrimmed(st);
    if RetainsSuffix(st) && (RetainsSome(st) || Head(st.published) <= 1) {
      forall after: nat | after > 0 && !TooOld(st.outbox, after) ensures Whole(st, after) {
        if RetainsSome(st) {
          AcceptedIsWhole(st, after);
        } else {
          forall e | e in st.published ensures e.pos <= 1 { HeadIsTop(st, e); }
        }
      }
    }
    if forall after: nat :: after > 0 && !TooOld(st.outbox, after) ==> Whole(st, after) {
      if RetainsSome(st) {
        PromiseMeansSuffix(st);
      } else {
        assert !TooOld(st.outbox, 1) && Whole(st, 1);
        if st.published != [] {
          assert st.published[|st.published| - 1] in st.published;
        }
      }
    }
  }

  lemma PromiseMeansSuffix(st: S.Store)
    requires SI.TableOk(st) && SI.StreamOk(st) && RetainsSome(st)
    requires forall after: nat :: after > 0 && !TooOld(st.outbox, after) ==> Whole(st, after)
    ensures RetainsSuffix(st)
  {
    OldestIsUntrimmed(st);
    var oldest := S.OldestPosition(st.outbox).value;
    var least := if oldest > 1 then oldest - 1 else 1;
    assert !TooOld(st.outbox, least) && Whole(st, least);
    forall d, e | d in st.published && e in st.published && !Trimmed(st, d) && d.pos < e.pos ensures !Trimmed(st, e) {
      assert oldest <= d.pos;
    }
  }

  /**
   * With a suffix retained, a refusal is needless exactly when every number from the cursor to the oldest row is
   * a hole: something is lost if and only if something was published in between.
   */
  lemma NeedlessRefusals(st: S.Store, after: nat)
    requires SI.TableOk(st) && SI.StreamOk(st)
    requires RetainsSuffix(st) && TooOld(st.outbox, after)
    ensures Whole(st, after)
        <==> forall e :: e in st.published && after < e.pos ==> S.OldestPosition(st.outbox).value <= e.pos
  {
    OldestIsUntrimmed(st);
    var oldest := S.OldestPosition(st.outbox).value;
    var d :| d in st.published && !Trimmed(st, d) && d.pos == oldest;
    if forall e :: e in st.published && after < e.pos ==> oldest <= e.pos {
      forall e | e in st.published && after < e.pos ensures !Trimmed(st, e) {
        if e.pos == oldest { SamePosition(st, d, e); }
      }
    }
  }

  // ---- Over runs ---------------------------------------------------------------------------------

  /**
   * The check refuses, with 4003, exactly a cursor to be replayed whose next position lies below every retained
   * event, if any is retained: the cursor just below the oldest is let in. A refused connection has sent nothing.
   */
  lemma RefusedSendsNothing(cfg: Config, run: seq<Cluster>, acts: seq<Act>, c: nat, i: nat)
    requires IsRun(cfg, run, acts) && i < |acts| && acts[i] == Check(c)
    ensures HasSession(run[i], c) && HasSession(run[i + 1], c)
    ensures var st, after, z' := run[i].store, SessionOf(run[i], c).after, SessionOf(run[i + 1], c);
            var refused := && run[i].clients[c].replay && after > 0
                           && (exists e :: e in st.published && !Trimmed(st, e))
                           && (forall e :: e in st.published && !Trimmed(st, e) ==> after + 1 < e.pos);
            && z'.phase == (if refused then Closed(4003) else Cleared)
            && z'.wire == [] && z'.sent == []
  {
    hide TooOld, ClientOk, BasicOk, CI.Inv, SI.TableOk, SI.StreamOk, Trimmed;
    RunInv(cfg, run, acts, i);
    assert Follows(cfg, run, acts, i);
    ClientIn(cfg, run[i], c);
    StoreParts(cfg, run[i]);
    TooOldMeans(run[i].store, SessionOf(run[i], c).after);
    assert Idle(cfg, run[i].clients[c], SessionOf(run[i], c));
  }

  lemma TooOldMeans(st: S.Store, after: nat)
    requires SI.TableOk(st) && SI.StreamOk(st)
    ensures TooOld(st.outbox, after) <==>
      && (exists e :: e in st.published && !Trimmed(st, e))
      && (forall e :: e in st.published && !Trimmed(st, e) ==> after + 1 < e.pos)
  {
    hide SI.TableOk, SI.StreamOk, Trimmed;
    OldestIsUntrimmed(st);
  }

  /** A client gives up only on hearing that close: one that loses a refused connection first comes back. */
  lemma GivesUpOnlyWhenTold(cfg: Config, run: seq<Cluster>, acts: seq<Act>, c: nat, i: nat)
    requires IsRun(cfg, run, acts) && i < |acts| && c in run[i].clients
    ensures c in run[i + 1].clients
    ensures run[i + 1].clients[c].refused <==>
            run[i].clients[c].refused
            || (acts[i] == Hear(c) && HasSession(run[i], c) && SessionOf(run[i], c).phase == Closed(CURSOR_TOO_OLD))
  {
    hide S.Can, S.Do, DoTail, DoStream, CI.Init;
    assert Follows(cfg, run, acts, i);
    var s, a := run[i], acts[i];
    if !a.Db? {
      if CanTail(s, a) {
        CI.TailOnClient(cfg, s, a, c);
      } else {
        CI.StreamFrame(cfg, s, a);
        if a.c == c { GivesUpStep(cfg, s, a); }
      }
    }
  }

  lemma GivesUpStep(cfg: Config, s: Cluster, a: Act)
    requires CanStream(s, a)
    ensures a.c in s.clients && a.c in DoStream(cfg, s, a).clients
    ensures DoStream(cfg, s, a).clients[a.c].refused <==>
            s.clients[a.c].refused || (a.Hear? && SessionOf(s, a.c).phase == Closed(CURSOR_TOO_OLD))
  {
    hide S.SelectStream, TooOld, PumpOnce, Send, NewSession, PageSent, Joined;
  }

  /** Only retention deletes rows, and what is published is in the table when it is. */
  lemma RowsStay(st: S.Store, a: S.Action, e: Envelope)
    requires SI.Inv(st) && S.Can(st, a) && !a.Trim? && e in S.Do(st, a).published
    ensures Trimmed(S.Do(st, a), e) ==> e in st.published && Trimmed(st, e)
  {
    hide SI.WriteInv, SI.StreamOk, SI.BlocksOk, SI.TableOk, SI.PublishersOk, SI.PublisherOk;
    hide S.BlockEvents, S.MarkRows, S.ClaimRows, S.LockedRows;
    if a.PCommit? {
      OwnPhase(st, a.p);
      var ids, start, at, block := SI.CommitOf(st, a.p);
      assert S.Do(st, a) == S.DoPublish(st, a);
      BlockInTable(st, a.p, ids, start, at, block, e);
    } else if S.CanWrite(st, a) {
      assert S.Do(st, a) == S.DoWrite(st, a);
    } else if S.CanPublish(st, a) {
      OwnPhase(st, a.p);
      SI.PublisherStepFrame(st, a);
    }
  }

  lemma OwnPhase(st: S.Store, p: nat)
    requires SI.Inv(st)
    ensures p in st.publishers ==> SI.PublisherOk(st, st.publishers[p].phase)
    ensures SI.TableOk(st)
  {
  }

  lemma BlockInTable(st: S.Store, p: nat, ids: seq<nat>, start: nat, at: Time, block: seq<Envelope>, e: Envelope)
    requires SI.TableOk(st) && SI.Commits(st, p, ids, start, at, block) && e in st.published + block
    ensures var st' := S.DoPublish(st, S.PCommit(p));
            st'.outbox.Keys == st.outbox.Keys && (e in block ==> e.event.id in st.outbox)
  {
    if e in block {
      var k :| 0 <= k < |block| && block[k] == e;
      assert st.outbox[ids[k]].event.id == ids[k];
    }
  }

  // ---- What a replay covers --------------------------------------------------------------------------

  /**
   * Everything up to `top` is on its way: a last page being sent reaches at least that far, and once the pump
   * runs, nothing up to there is left above the edge.
   */
  ghost predicate Covered(st: S.Store, c: Client, z: Session, top: nat) {
    match z.phase
    case Opened => false
    case Cleared => false
    case Replaying => true
    case Sending(_, short, upto) => short ==> top <= upto
    case Pumping(_) => Complete(st, c.aggregate, z.edge, top, [])
    case Closed(_) => true
  }

  lemma CompleteBelow(st: S.Store, aggregate: Option<ItemId>, lo: nat, hi: nat, lo': nat, hi': nat)
    requires Complete(st, aggregate, lo, hi, []) && lo <= lo' && hi' <= hi
    ensures Complete(st, aggregate, lo', hi', [])
  {
  }

  lemma FetchCovers(cfg: Config, s: Cluster, c: nat, top: nat)
    requires SI.TableOk(s.store) && SI.StreamOk(s.store) && cfg.page >= 1 && CanStream(s, ReplayFetch(c))
    requires top <= Head(s.store.published)
    ensures var s' := DoStream(cfg, s, ReplayFetch(c));
            HasSession(s', c) && Covered(s'.store, s'.clients[c], SessionOf(s', c), top)
  {
    hide SI.TableOk, SI.StreamOk, S.SelectStream, Complete;
    var z, aggregate := SessionOf(s, c), s.clients[c].aggregate;
    PageIsSlice(s.store, aggregate, z.edge, cfg.page);
    if S.SelectStream(s.store.outbox, aggregate, z.edge, cfg.page) == [] {
      CompleteBelow(s.store, aggregate, z.edge, Head(s.store.published), z.edge, top);
    }
  }

  lemma SendCovers(cfg: Config, s: Cluster, c: nat, top: nat)
    requires CanStream(s, ReplaySend(c)) && PhaseOk(cfg, s.store, s.tailers, s.clients[c], SessionOf(s, c))
    requires Covered(s.store, s.clients[c], SessionOf(s, c), top)
    ensures var s' := DoStream(cfg, s, ReplaySend(c));
            HasSession(s', c) && Covered(s'.store, s'.clients[c], SessionOf(s', c), top)
  {
    hide Complete, ChannelOk;
    var z, aggregate := SessionOf(s, c), s.clients[c].aggregate;
    var Sending(rest, short, upto) := z.phase;
    FirstOfSlice(s.store, s.clients[c], z.edge, upto, rest);
    if |rest| == 1 && short {
      assert rest[1..] == [];
      CompleteBelow(s.store, aggregate, rest[0].pos, upto, rest[0].pos, top);
    }
  }

  /** The pump sends upwards only. */
  lemma PumpCovers(st: S.Store, c: Client, z: Session, top: nat)
    requires z.phase.Pumping? && z.chan.box.queue != [] && Covered(st, c, z, top)
    requires SentTheSame(z, PumpOnce(z)) || SentOneMore(st, c, z, PumpOnce(z))
    ensures Covered(st, c, PumpOnce(z), top)
  {
    var z' := PumpOnce(z);
    if z'.phase.Pumping? { CompleteBelow(st, c.aggregate, z.edge, top, z'.edge, top); }
  }

  /** The steps of one session keep what is covered. */
  lemma OwnStepCovers(cfg: Config, s: Cluster, a: Act, top: nat)
    requires CanStream(s, a) && HasSession(s, a.c) && HasSession(DoStream(cfg, s, a), a.c)
    requires SI.TableOk(s.store) && SI.StreamOk(s.store) && cfg.page >= 1 && top <= Head(s.store.published)
    requires PhaseOk(cfg, s.store, s.tailers, s.clients[a.c], SessionOf(s, a.c))
    requires Covered(s.store, s.clients[a.c], SessionOf(s, a.c), top)
    ensures var s' := DoStream(cfg, s, a); Covered(s'.store, s'.clients[a.c], SessionOf(s', a.c), top)
  {
    if a.ReplayFetch? {
      FetchCovers(cfg, s, a.c, top);
    } else if a.ReplaySend? {
      SendCovers(cfg, s, a.c, top);
    } else if a.Pump? {
      PumpSends(cfg, s.store, s.tailers, s.clients[a.c], SessionOf(s, a.c));
      PumpCovers(s.store, s.clients[a.c], SessionOf(s, a.c), top);
      PumpStays(cfg, s, a.c);
    } else {
      OtherStepStays(cfg, s, a, top);
    }
  }

  lemma PumpStays(cfg: Config, s: Cluster, c: nat)
    requires CanStream(s, Pump(c))
    ensures var s' := DoStream(cfg, s, Pump(c));
            s'.store == s.store && s'.clients[c] == s.clients[c].(conn := Some(PumpOnce(SessionOf(s, c))))
  {
    hide PumpOnce;
  }

  lemma OtherStepStays(cfg: Config, s: Cluster, a: Act, top: nat)
    requires CanStream(s, a) && HasSession(s, a.c) && HasSession(DoStream(cfg, s, a), a.c)
    requires !a.ReplayFetch? && !a.ReplaySend? && !a.Pump?
    requires Covered(s.store, s.clients[a.c], SessionOf(s, a.c), top)
    ensures var s' := DoStream(cfg, s, a); Covered(s'.store, s'.clients[a.c], SessionOf(s', a.c), top)
  {
    hide Complete, TooOld;
  }

  /** Steps of the database and of workers leave a session's phase and edge, or close it. */
  lemma OthersKeepPhase(cfg: Config, s: Cluster, a: Act, c: nat)
    requires CanAct(s, a) && HasSession(s, c) && HasSession(DoAct(cfg, s, a), c)
    requires a.Db? || CanTail(s, a) || (CanStream(s, a) && a.c != c)
    ensures var z, z' := SessionOf(s, c), SessionOf(DoAct(cfg, s, a), c);
            z'.edge == z.edge && (z'.phase == z.phase || z'.phase.Closed?)
    ensures DoAct(cfg, s, a).clients[c].aggregate == s.clients[c].aggregate
  {
    hide S.Can, S.Do, DoTail, DoStream, DeliverChannel;
    if !a.Db? {
      if CanTail(s, a) {
        CI.TailOnClient(cfg, s, a, c);
      } else {
        CI.StreamFrame(cfg, s, a);
      }
    }
  }

  lemma CoveredStep(cfg: Config, s: Cluster, a: Act, c: nat, top: nat)
    requires ValidConfig(cfg) && CI.Inv(cfg, s) && CanAct(s, a) && HasSession(s, c) && HasSession(DoAct(cfg, s, a), c)
    requires top <= Head(s.store.published) && Covered(s.store, s.clients[c], SessionOf(s, c), top)
    ensures var s' := DoAct(cfg, s, a);
            top <= Head(s'.store.published) && Covered(s'.store, s'.clients[c], SessionOf(s', c), top)
  {
    hide CI.Inv, DoTail, DoStream, S.Do, S.Can, SI.TableOk, SI.StreamOk, ClientOk, BasicOk, PhaseOk, Grows, Complete;
    var s' := DoAct(cfg, s, a);
    StoreMoves(cfg, s, a);
    HeadGrows(s.store, s'.store);
    if a.Db? || CanTail(s, a) || a.c != c {
      OthersKeepPhase(cfg, s, a, c);
      if s'.clients[c].conn.value.phase.Pumping? {
        SliceGrows(s.store, s'.store, s.clients[c].aggregate, SessionOf(s, c).edge, top, []);
      }
    } else {
      ClientIn(cfg, s, c);
      StoreParts(cfg, s);
      OwnStepCovers(cfg, s, a, top);
    }
  }

  lemma HeadGrows(st: S.Store, st': S.Store)
    requires Grows(st, st')
    ensures Head(st.published) <= Head(st'.published)
  {
  }

  /** From any replay query on, what it saw is covered. */
  lemma {:induction false} CoveredRun(cfg: Config, run: seq<Cluster>, acts: seq<Act>, c: nat, k: nat, i: nat)
    requires IsRun(cfg, run, acts) && k <= i < |run| && k < |acts| && acts[k] == ReplayFetch(c)
    requires forall m: nat :: k <= m <= i ==> HasSession(run[m], c)
    ensures HasSession(run[i], c)
    ensures var top := Head(run[k].store.published);
            top <= Head(run[i].store.published) && Covered(run[i].store, run[i].clients[c], SessionOf(run[i], c), top)
  {
    hide CI.Inv, DoAct, Covered;
    if i == k {
      assert Follows(cfg, run, acts, k);
      assert Covered(run[k].store, run[k].clients[c], SessionOf(run[k], c), Head(run[k].store.published)) by {
        ReplayingIsCovered(run[k], c);
      }
    } else {
      CoveredRun(cfg, run, acts, c, k, i - 1);
      RunInv(cfg, run, acts, i - 1);
      assert Follows(cfg, run, acts, i - 1);
      CoveredStep(cfg, run[i - 1], acts[i - 1], c, Head(run[k].store.published));
    }
  }

  lemma ReplayingIsCovered(s: Cluster, c: nat)
    requires CanAct(s, ReplayFetch(c))
    ensures HasSession(s, c) && forall top: nat :: Covered(s.store, s.clients[c], SessionOf(s, c), top)
  {
  }

  /** Everything in the snapshot that the filter wants above `after` has been sent. */
  ghost predicate Covers(sent: seq<Envelope>, snapshot: S.Store, aggregate: Option<ItemId>, after: nat) {
    forall e :: e in snapshot.published && Wants(aggregate, e) && after < e.pos ==> e in sent
  }

  lemma PumpingCovers(st0: S.Store, st: S.Store, c: Client, z: Session, after: nat)
    requires Rising(st0.published) && forall e :: e in st0.published ==> e in st.published
    requires z.phase.Pumping? && Covered(st, c, z, Head(st0.published))
    requires forall e :: e in st.published && Wants(c.aggregate, e) && z.edge < e.pos ==> !Trimmed(st, e)
    requires z.sent == SliceOf(st.published, c.aggregate, after, z.edge)
    ensures Covers(z.sent, st0, c.aggregate, after)
  {
    forall e | e in st0.published && Wants(c.aggregate, e) && after < e.pos ensures e in z.sent {
      HeadIsTop(st0, e);
      assert e in st.published;
    }
  }

  lemma {:induction false} SameReplayFlag(cfg: Config, run: seq<Cluster>, acts: seq<Act>, c: nat, k: nat, i: nat)
    requires IsRun(cfg, run, acts) && k <= i < |run| && c in run[k].clients
    ensures c in run[i].clients && run[i].clients[c].replay == run[k].clients[c].replay
  {
    hide CI.Inv, DoAct, CanAct;
    if i > k {
      SameReplayFlag(cfg, run, acts, c, k, i - 1);
      assert Follows(cfg, run, acts, i - 1);
      ClientMoves(cfg, run[i - 1], acts[i - 1], c);
    }
  }

  /** What a session opened with is what its clients' cursor was; it lasts as long as the session. */
  ghost predicate OneSession(run: seq<Cluster>, c: nat, j: nat, i: nat, after: nat)
    requires i < |run|
  {
    forall k: nat :: j <= k <= i ==> HasSession(run[k], c) && SessionOf(run[k], c).after == after
  }

  /** A replaying session sends pages or pumps only after a replay query. */
  lemma {:induction false} SomeQuery(cfg: Config, run: seq<Cluster>, acts: seq<Act>, c: nat, j: nat, i: nat, after: nat)
    returns (k: nat)
    requires IsRun(cfg, run, acts) && j <= i < |run| && OneSession(run, c, j, i, after)
    requires SessionOf(run[j], c).phase.Opened? && WantsReplay(run[j].clients[c], after)
    requires SessionOf(run[i], c).phase.Sending? || SessionOf(run[i], c).phase.Pumping?
    ensures j <= k < i && acts[k] == ReplayFetch(c)
  {
    hide CI.Inv, CI.Init, DoAct, CanAct;
    var s, a := run[i - 1], acts[i - 1];
    assert Follows(cfg, run, acts, i - 1);
    if a == ReplayFetch(c) {
      k := i - 1;
    } else {
      SameReplayFlag(cfg, run, acts, c, j, i - 1);
      QueryFirst(cfg, s, a, c);
      k := SomeQuery(cfg, run, acts, c, j, i - 1, after);
    }
  }

  lemma QueryFirst(cfg: Config, s: Cluster, a: Act, c: nat)
    requires CanAct(s, a) && a != ReplayFetch(c) && HasSession(s, c) && HasSession(DoAct(cfg, s, a), c)
    requires WantsReplay(s.clients[c], SessionOf(s, c).after)
    requires var z' := SessionOf(DoAct(cfg, s, a), c); z'.phase.Sending? || z'.phase.Pumping?
    ensures SessionOf(s, c).phase.Sending? || SessionOf(s, c).phase.Pumping?
  {
    hide S.Can, S.Do, DoTail, TooOld, S.SelectStream;
    if a.Db? || CanTail(s, a) || a.c != c { OthersKeepPhase(cfg, s, a, c); }
  }

  /**
   * What a cursor is sent when it is served: everything its filter wants above it, without gap up to the session's
   * edge; and once the pump runs, that includes everything ever published up to the last replay query, and so up to
   * every one.
   */
  ghost predicate Served(run: seq<Cluster>, acts: seq<Act>, c: nat, j: nat, i: nat, after: nat)
    requires i < |run| && |run| == |acts| + 1 && HasSession(run[i], c)
  {
    var aggregate, z := run[i].clients[c].aggregate, SessionOf(run[i], c);
    && z.sent == SliceOf(run[i].store.published, aggregate, after, z.edge)
    && (z.phase.Pumping? ==>
          && (exists k: nat :: j <= k < i && acts[k] == ReplayFetch(c))
          && forall k: nat :: j <= k < i && acts[k] == ReplayFetch(c) ==>
              Covers(z.sent, run[k].store, aggregate, after))
  }

  /** A session is served as long as nothing it has yet to send is trimmed. */
  lemma UntrimmedIsServed(cfg: Config, run: seq<Cluster>, acts: seq<Act>, c: nat, j: nat, i: nat, after: nat)
    requires IsRun(cfg, run, acts) && j <= i < |run| && OneSession(run, c, j, i, after)
    requires SessionOf(run[j], c).phase.Opened? && WantsReplay(run[j].clients[c], after)
    requires forall k: nat :: j <= k <= i ==> NothingUnsentTrimmed(run[k], c)
    ensures HasSession(run[i], c) && Served(run, acts, c, j, i, after)
  {
    hide CI.Inv, DoAct, CanAct, Covered, Covers, NothingUnsentTrimmed;
    ReplayMeetsLive(cfg, run, acts, c, j, i);
    SameReplayFlag(cfg, run, acts, c, j, i);
    var client, z := run[i].clients[c], SessionOf(run[i], c);
    if z.phase.Pumping? {
      var last := SomeQuery(cfg, run, acts, c, j, i, after);
      UnsentAt(run[i], c);
      forall k: nat | j <= k < i && acts[k] == ReplayFetch(c)
        ensures Covers(z.sent, run[k].store, client.aggregate, after)
      {
        CoveredRun(cfg, run, acts, c, k, i);
        StreamGrows(cfg, run, acts, k, i);
        RunInv(cfg, run, acts, k);
        RisingIn(cfg, run[k]);
        PumpingCovers(run[k].store, run[i].store, client, z, after);
      }
    }
  }

  lemma UnsentAt(s: Cluster, c: nat)
    requires NothingUnsentTrimmed(s, c) && HasSession(s, c) && Subscribed(SessionOf(s, c))
    ensures forall e :: e in s.store.published && Wants(s.clients[c].aggregate, e) && SessionOf(s, c).edge < e.pos
              ==> !Trimmed(s.store, e)
  {
  }

  lemma StoreParts(cfg: Config, s: Cluster)
    requires CI.Inv(cfg, s)
    ensures SI.TableOk(s.store) && SI.StreamOk(s.store)
  {
  }
}

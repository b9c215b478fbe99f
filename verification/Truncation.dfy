/**
 * Retention over whole runs: which deletion batches make a client lose history without being told. A batch can do so
 * through the table a later check reads, or by taking what a session already let in has yet to be sent.
 */
module Truncation {
  import opened Model
  import opened Cluster
  import opened TailerInvariant
  import opened SessionInvariant
  import opened Delivery
  import opened Streaming
  import opened Refusal
  import opened Retention
  import CI = ClusterInvariant
  import Q = Queries
  import S = Store
  import SI = StoreInvariant

  // ---- The test on a batch -------------------------------------------------------------------------

  ghost predicate LeavesSome(outbox: Outbox, ids: seq<nat>) {
    exists id :: id in outbox && outbox[id].stamp.Some? && id !in ids
  }

  /**
   * What could be checked before deleting `ids`, on the table alone: they are the start of what is published, and
   * they are not all of it, unless nothing lies past position 1.
   */
  ghost predicate SafeBatch(outbox: Outbox, ids: seq<nat>) {
    FromTheStart(outbox, ids) && (LeavesSome(outbox, ids) || S.NewestPosition(outbox) <= 1)
  }

  /** An explicit refusal rather than a truncated history, for every cursor. */
  ghost predicate KeepsPromise(st: S.Store) {
    forall after: nat :: after > 0 && !TooOld(st.outbox, after) ==> Whole(st, after)
  }

  /** By `RefusalPromise`, what keeping the promise comes to. */
  ghost predicate Kept(st: S.Store) {
    RetainsSuffix(st) && (RetainsSome(st) || Head(st.published) <= 1)
  }

  // ---- One deletion batch --------------------------------------------------------------------------

  lemma LeftIsRetained(st: S.Store, cutoff: Time, limit: nat)
    requires SI.TableOk(st)
    ensures RetainsSome(Batched(st, cutoff, limit)) <==> LeavesSome(st.outbox, S.AgedRows(st.outbox, cutoff, limit))
  {
    hide S.AgedRows, SI.TableOk, S.DeleteRows;
    var st', ids := Batched(st, cutoff, limit), S.AgedRows(st.outbox, cutoff, limit);
    if e :| e in st'.published && !Trimmed(st', e) {
      BatchTrims(st, ids, e);
      assert e.event.id in st.outbox && e.event.id !in ids;
    }
    if id :| id in st.outbox && st.outbox[id].stamp.Some? && id !in ids {
      var e := EnvelopeOf(st, id);
      BatchTrims(st, ids, e);
      assert e in st'.published && !Trimmed(st', e);
    }
  }

  lemma LastIsRetained(st: S.Store) returns (last: Envelope)
    requires SI.StreamOk(st) && RetainsSuffix(st) && RetainsSome(st)
    ensures last in st.published && last.pos == Head(st.published) && !Trimmed(st, last)
  {
    var d :| d in st.published && !Trimmed(st, d);
    last := st.published[|st.published| - 1];
    assert last in st.published;
    HeadIsTop(st, d);
    SamePosition(st, d, last);
  }

  lemma RowOfEvent(st: S.Store, e: Envelope)
    requires SI.TableOk(st) && e in st.published && !Trimmed(st, e)
    ensures e.pos in S.Positions(st.outbox)
  {
    assert Q.InTable(st.outbox, e);
  }

  lemma EventOfRow(st: S.Store, pos: nat)
    requires SI.TableOk(st) && pos in S.Positions(st.outbox)
    ensures RetainsSome(st)
  {
    var id :| id in st.outbox && st.outbox[id].stamp.Some? && st.outbox[id].stamp.value.pos == pos;
    var e := EnvelopeOf(st, id);
  }

  /** With a suffix retained and something of it, the newest row of the table is the newest event ever published. */
  lemma NewestIsHead(st: S.Store)
    requires SI.TableOk(st) && SI.StreamOk(st) && RetainsSuffix(st)
    ensures RetainsSome(st) ==> S.NewestPosition(st.outbox) == Head(st.published)
    ensures !RetainsSome(st) ==> S.NewestPosition(st.outbox) == 0
  {
    hide SI.TableOk, SI.StreamOk, RetainsSome, RetainsSuffix, S.Positions;
    Q.NewestPositionFacts(st.outbox);
    NewestIsOld(st);
    if RetainsSome(st) {
      var last := LastIsRetained(st);
      RowOfEvent(st, last);
    } else if S.NewestPosition(st.outbox) != 0 {
      EventOfRow(st, S.NewestPosition(st.outbox));
    }
  }

  lemma BatchKeeps(st: S.Store, cutoff: Time, limit: nat)
    requires SI.TableOk(st) && SI.StreamOk(st) && Kept(st)
    ensures Kept(Batched(st, cutoff, limit)) <==> SafeBatch(st.outbox, S.AgedRows(st.outbox, cutoff, limit))
  {
    hide S.AgedRows, SI.TableOk, SI.StreamOk, S.DeleteRows, RetainsSuffix, RetainsSome, FromTheStart, LeavesSome;
    BatchKeepsSuffix(st, cutoff, limit);
    LeftIsRetained(st, cutoff, limit);
    NewestIsHead(st);
  }

  // ---- Every other step ----------------------------------------------------------------------------

  lemma OtherStepKeeps(st: S.Store, a: S.Action)
    requires SI.Inv(st) && S.Can(st, a) && !a.Trim? && Kept(st)
    ensures Kept(S.Do(st, a))
  {
    hide SI.Inv, S.Do, S.Can, Trimmed;
    var st' := S.Do(st, a);
    StoreGrows(st, a);
    StreamRises(st);
    forall e | e in st'.published && Trimmed(st', e) ensures e in st.published && Trimmed(st, e) {
      RowsStay(st, a, e);
    }
    forall d, e | d in st'.published && e in st'.published && !Trimmed(st', d) && d.pos < e.pos
      ensures !Trimmed(st', e)
    {
      if Trimmed(st', e) { HeadIsTop(st, e); }
    }
    if RetainsSome(st) {
      var e :| e in st.published && !Trimmed(st, e);
      assert e in st'.published && !Trimmed(st', e);
    } else if st'.published != [] {
      var last := st'.published[|st'.published| - 1];
      assert last in st'.published;
      if Trimmed(st', last) { HeadIsTop(st, last); }
    }
  }

  lemma StreamRises(st: S.Store)
    requires SI.Inv(st)
    ensures SI.TableOk(st) && SI.StreamOk(st) && Rising(st.published)
  {
  }

  // ---- Whole runs ----------------------------------------------------------------------------------

  /** If this step is a deletion batch, it passes the test. */
  ghost predicate TrimsSafely(st: S.Store, a: Act) {
    a.Db? && a.a.Trim? ==> SafeBatch(st.outbox, S.AgedRows(st.outbox, st.clock - a.a.window, a.a.limit))
  }

  lemma StepKeeps(cfg: Config, s: Cluster, a: Act)
    requires CI.Inv(cfg, s) && CanAct(s, a) && Kept(s.store)
    ensures Kept(DoAct(cfg, s, a).store) <==> TrimsSafely(s.store, a)
  {
    hide SI.Inv, CI.TailersOk, CI.ClientsOk, Kept, SafeBatch, DoTail, DoStream;
    hide S.Can, S.AgedRows, S.DeleteRows, S.DoWrite, S.DoPublish;
    StreamRises(s.store);
    if !a.Db? {
      StoreMoves(cfg, s, a);
    } else if a.a.Trim? {
      BatchKeeps(s.store, s.store.clock - a.a.window, a.a.limit);
    } else {
      OtherStepKeeps(s.store, a.a);
    }
  }

  lemma EmptyKeeps()
    ensures Kept(S.Empty)
  {
  }

  lemma {:induction false} SafeRunKeeps(cfg: Config, run: seq<Cluster>, acts: seq<Act>, i: nat)
    requires IsRun(cfg, run, acts) && i < |run|
    requires forall k: nat :: k < i ==> TrimsSafely(run[k].store, acts[k])
    ensures Kept(run[i].store)
  {
    hide CI.Inv, DoAct, CanAct, Kept, TrimsSafely;
    if i == 0 {
      EmptyKeeps();
    } else {
      SafeRunKeeps(cfg, run, acts, i - 1);
      RunInv(cfg, run, acts, i - 1);
      assert Follows(cfg, run, acts, i - 1);
      StepKeeps(cfg, run[i - 1], acts[i - 1]);
    }
  }

  lemma KeptIsPromise(cfg: Config, run: seq<Cluster>, acts: seq<Act>, i: nat)
    requires IsRun(cfg, run, acts) && i < |run|
    ensures Kept(run[i].store) <==> KeepsPromise(run[i].store)
  {
    hide CI.Inv, DoAct, CanAct, TooOld, Whole;
    RunInv(cfg, run, acts, i);
    StoreParts(cfg, run[i]);
    RefusalPromise(run[i].store);
  }

  /** No state of a run lets a stale cursor through exactly when every batch of the run passes the test on the table. */
  lemma StatesKeepPromise(cfg: Config, run: seq<Cluster>, acts: seq<Act>)
    requires IsRun(cfg, run, acts)
    ensures (forall i: nat :: i < |run| ==> KeepsPromise(run[i].store))
        <==> (forall i: nat :: i < |acts| ==> TrimsSafely(run[i].store, acts[i]))
  {
    hide CI.Inv, DoAct, CanAct, Kept, TrimsSafely, KeepsPromise;
    if forall i: nat :: i < |acts| ==> TrimsSafely(run[i].store, acts[i]) {
      forall i: nat | i < |run| ensures KeepsPromise(run[i].store) {
        SafeRunKeeps(cfg, run, acts, i);
        KeptIsPromise(cfg, run, acts, i);
      }
    }
    if forall i: nat :: i < |run| ==> KeepsPromise(run[i].store) {
      forall i: nat | i < |acts| ensures TrimsSafely(run[i].store, acts[i]) {
        KeptIsPromise(cfg, run, acts, i);
        KeptIsPromise(cfg, run, acts, i + 1);
        RunInv(cfg, run, acts, i);
        assert Follows(cfg, run, acts, i);
        StepKeeps(cfg, run[i], acts[i]);
      }
    }
  }

  // ---- Sessions that were let in -------------------------------------------------------------------

  /** Past the check with a cursor to replay from, and not closed. */
  predicate Admitted(s: Cluster, c: nat) {
    && HasSession(s, c)
    && WantsReplay(s.clients[c], SessionOf(s, c).after)
    && (SessionOf(s, c).phase.Cleared? || Subscribed(SessionOf(s, c)))
  }

  /** Nothing an admitted session has yet to send has been trimmed. */
  ghost predicate KeepsSession(s: Cluster, c: nat) {
    Admitted(s, c) ==>
      forall e :: e in s.store.published && Wants(s.clients[c].aggregate, e) && SessionOf(s, c).edge < e.pos
        ==> !Trimmed(s.store, e)
  }

  /** The test on a batch against the open sessions: it takes no row that an admitted one has yet to send. */
  ghost predicate Spares(s: Cluster, c: nat, ids: seq<nat>) {
    Admitted(s, c) ==>
      forall id :: id in ids && id in s.store.outbox
        && Wants(s.clients[c].aggregate, Envelope(S.PosOf(s.store.outbox, id), s.store.outbox[id].event))
        ==> S.PosOf(s.store.outbox, id) <= SessionOf(s, c).edge
  }

  /** If this step is a deletion batch, it spares session `c`. */
  ghost predicate TrimSpares(s: Cluster, a: Act, c: nat) {
    a.Db? && a.a.Trim? ==> Spares(s, c, S.AgedRows(s.store.outbox, s.store.clock - a.a.window, a.a.limit))
  }

  lemma BatchKeepsSession(cfg: Config, s: Cluster, a: Act, c: nat)
    requires CI.Inv(cfg, s) && a.Db? && a.a.Trim? && CanAct(s, a) && KeepsSession(s, c)
    ensures KeepsSession(DoAct(cfg, s, a), c) <==> TrimSpares(s, a, c)
  {
    hide CI.Inv, S.AgedRows, S.DeleteRows, SI.TableOk, SI.StreamOk;
    var st, s' := s.store, DoAct(cfg, s, a);
    var ids := S.AgedRows(st.outbox, st.clock - a.a.window, a.a.limit);
    StoreParts(cfg, s);
    assert s'.store == Batched(st, st.clock - a.a.window, a.a.limit) && s'.clients == s.clients;
    if Admitted(s, c) {
      var aggregate, edge := s.clients[c].aggregate, SessionOf(s, c).edge;
      if Spares(s, c, ids) {
        forall e | e in st.published && Wants(aggregate, e) && edge < e.pos ensures !Trimmed(s'.store, e) {
          BatchTrims(st, ids, e);
        }
      }
      if KeepsSession(s', c) {
        BatchIsPublished(st, st.clock - a.a.window, a.a.limit);
        forall id | id in ids && id in st.outbox
                    && Wants(aggregate, Envelope(S.PosOf(st.outbox, id), st.outbox[id].event))
          ensures S.PosOf(st.outbox, id) <= edge
        {
          var e := EnvelopeOf(st, id);
          BatchTrims(st, ids, e);
        }
      }
    }
  }

  lemma DbKeepsSession(cfg: Config, s: Cluster, a: Act, c: nat)
    requires CI.Inv(cfg, s) && a.Db? && !a.a.Trim? && CanAct(s, a) && KeepsSession(s, c)
    ensures KeepsSession(DoAct(cfg, s, a), c)
  {
    hide CI.TailersOk, CI.ClientsOk, SI.Inv, S.Do, S.Can, Trimmed;
    var s' := DoAct(cfg, s, a);
    StoreGrows(s.store, a.a);
    if Admitted(s', c) {
      forall e | e in s'.store.published && Wants(s.clients[c].aggregate, e) && SessionOf(s, c).edge < e.pos
        ensures !Trimmed(s'.store, e)
      {
        RowsStay(s.store, a.a, e);
      }
    }
  }

  lemma TailKeepsSession(cfg: Config, s: Cluster, a: Act, c: nat)
    requires CanTail(s, a) && KeepsSession(s, c)
    ensures KeepsSession(DoTail(cfg, s, a), c)
  {
    hide DoTail, DeliverChannel;
    var s' := DoTail(cfg, s, a);
    CI.TailKeepsStore(cfg, s, a);
    CI.SameClientIds(cfg, s, a);
    if Admitted(s', c) { CI.TailOnClient(cfg, s, a, c); }
  }

  /** A session step that is not the check leaves the session admitted only if it was, and never moves its edge back. */
  lemma EdgeRises(cfg: Config, s: Cluster, a: Act)
    requires CanStream(s, a) && !a.Check? && Admitted(DoStream(cfg, s, a), a.c)
    requires HasSession(s, a.c) ==> PhaseOk(cfg, s.store, s.tailers, s.clients[a.c], SessionOf(s, a.c))
    ensures Admitted(s, a.c) && SessionOf(s, a.c).edge <= SessionOf(DoStream(cfg, s, a), a.c).edge
    ensures DoStream(cfg, s, a).clients[a.c].aggregate == s.clients[a.c].aggregate
  {
    hide TooOld, S.SelectStream, ChannelOk, SeamClosed, NextOwed, Slice;
    if a.Pump? {
      PumpSends(cfg, s.store, s.tailers, s.clients[a.c], SessionOf(s, a.c));
      PumpRises(s.store, s.clients[a.c], SessionOf(s, a.c));
    } else if a.ReplaySend? {
      var z := SessionOf(s, a.c);
      assert PageOk(s.store, s.clients[a.c], z, z.phase.rest, z.phase.short, z.phase.upto);
      NextRises(s.store, s.clients[a.c], z, z.phase.rest, z.phase.upto);
    }
  }

  lemma PumpRises(st: S.Store, c: Client, z: Session)
    requires z.phase.Pumping? && z.chan.box.queue != []
    requires SentTheSame(z, PumpOnce(z)) || SentOneMore(st, c, z, PumpOnce(z))
    ensures z.edge <= PumpOnce(z).edge
  {
  }

  lemma NextRises(st: S.Store, c: Client, z: Session, rest: seq<Envelope>, upto: nat)
    requires rest != [] && Slice(st, c.aggregate, z.edge, upto, rest)
    ensures z.edge < rest[0].pos
  {
    FirstOfSlice(st, c, z.edge, upto, rest);
  }

  /** What the check lets in while the table keeps the promise has everything above its cursor. */
  lemma CheckAdmits(cfg: Config, s: Cluster, c: nat)
    requires CanStream(s, Check(c)) && KeepsPromise(s.store)
    requires PhaseOk(cfg, s.store, s.tailers, s.clients[c], SessionOf(s, c))
    ensures KeepsSession(DoStream(cfg, s, Check(c)), c)
  {
    hide TooOld;
    assert Idle(cfg, s.clients[c], SessionOf(s, c));
    if Admitted(DoStream(cfg, s, Check(c)), c) {
      assert Whole(s.store, SessionOf(s, c).after);
    }
  }

  lemma StreamKeepsSession(cfg: Config, s: Cluster, a: Act, c: nat)
    requires CI.Inv(cfg, s) && CanStream(s, a) && KeepsSession(s, c) && (a == Check(c) ==> KeepsPromise(s.store))
    ensures KeepsSession(DoStream(cfg, s, a), c)
  {
    hide CI.Inv, DoStream, KeepsPromise, ClientOk, BasicOk, PhaseOk;
    var s' := DoStream(cfg, s, a);
    CI.StreamFrame(cfg, s, a);
    if a.c == c && Admitted(s', c) {
      if HasSession(s, c) { ClientIn(cfg, s, c); }
      if a.Check? {
        CheckAdmits(cfg, s, c);
      } else {
        EdgeRises(cfg, s, a);
      }
    }
  }

  /** A session that has lost nothing it is owed goes on so through every step but a batch that does not spare it. */
  lemma StepKeepsSession(cfg: Config, s: Cluster, a: Act, c: nat)
    requires CI.Inv(cfg, s) && CanAct(s, a) && KeepsSession(s, c) && (a == Check(c) ==> KeepsPromise(s.store))
    ensures KeepsSession(DoAct(cfg, s, a), c) <==> TrimSpares(s, a, c)
  {
    hide CI.Inv, DoTail, DoStream, CanTail, CanStream, KeepsSession, KeepsPromise, Spares, S.Do, S.Can, S.AgedRows;
    if a.Db? {
      if a.a.Trim? { BatchKeepsSession(cfg, s, a, c); } else { DbKeepsSession(cfg, s, a, c); }
    } else if CanTail(s, a) {
      TailKeepsSession(cfg, s, a, c);
    } else {
      StreamKeepsSession(cfg, s, a, c);
    }
  }

  // ---- Whole runs again ----------------------------------------------------------------------------

  lemma {:induction false} SparedRunKeeps(cfg: Config, run: seq<Cluster>, acts: seq<Act>, c: nat, i: nat)
    requires IsRun(cfg, run, acts) && i < |run|
    requires forall k: nat :: k < i ==> TrimsSafely(run[k].store, acts[k]) && TrimSpares(run[k], acts[k], c)
    ensures KeepsSession(run[i], c)
  {
    hide CI.Inv, DoAct, CanAct, Kept, KeepsPromise, TrimsSafely, TrimSpares;
    if i > 0 {
      SparedRunKeeps(cfg, run, acts, c, i - 1);
      SafeRunKeeps(cfg, run, acts, i - 1);
      KeptIsPromise(cfg, run, acts, i - 1);
      RunInv(cfg, run, acts, i - 1);
      assert Follows(cfg, run, acts, i - 1);
      StepKeepsSession(cfg, run[i - 1], acts[i - 1], c);
    }
  }

  /** A state in which nobody is owed what is gone: no cursor the check would let in, and no session it has let in. */
  ghost predicate Faithful(s: Cluster) {
    KeepsPromise(s.store) && forall c: nat :: KeepsSession(s, c)
  }

  /** A step that is no deletion batch, or one that passes both tests. */
  ghost predicate TrimsFaithfully(s: Cluster, a: Act) {
    TrimsSafely(s.store, a) && forall c: nat :: TrimSpares(s, a, c)
  }

  /**
   * The documented promise over whole runs, an explicit refusal rather than a truncated history: no state of a run
   * lets a stale cursor through or leaves an admitted session owed what is gone exactly when every deletion batch
   * passes, before deleting, a test on the table and a test against the sessions open at the time.
   */
  lemma PromiseOverRuns(cfg: Config, run: seq<Cluster>, acts: seq<Act>)
    requires IsRun(cfg, run, acts)
    ensures (forall i: nat :: i < |run| ==> Faithful(run[i]))
        <==> (forall i: nat :: i < |acts| ==> TrimsFaithfully(run[i], acts[i]))
  {
    hide CI.Inv, DoAct, CanAct, KeepsPromise, KeepsSession, TrimsSafely, TrimSpares;
    StatesKeepPromise(cfg, run, acts);
    if forall i: nat :: i < |acts| ==> TrimsFaithfully(run[i], acts[i]) {
      assert forall i: nat :: i < |acts| ==> TrimsSafely(run[i].store, acts[i]);
      forall i: nat | i < |run| ensures Faithful(run[i]) {
        forall c: nat ensures KeepsSession(run[i], c) { SparedRunKeeps(cfg, run, acts, c, i); }
      }
    }
    if forall i: nat :: i < |run| ==> Faithful(run[i]) {
      assert forall i: nat :: i < |run| ==> KeepsPromise(run[i].store);
      forall i: nat | i < |acts| ensures TrimsFaithfully(run[i], acts[i]) {
        RunInv(cfg, run, acts, i);
        assert Follows(cfg, run, acts, i);
        assert Faithful(run[i]) && Faithful(run[i + 1]);
        forall c: nat ensures TrimSpares(run[i], acts[i], c) { StepKeepsSession(cfg, run[i], acts[i], c); }
      }
    }
  }

  // ---- What accepted cursors get -------------------------------------------------------------------

  /** The check comes once in a session. */
  lemma {:induction false} NeverReopened(
    cfg: Config, run: seq<Cluster>, acts: seq<Act>, c: nat, j: nat, i: nat, after: nat)
    requires IsRun(cfg, run, acts) && j < i < |run| && acts[j] == Check(c) && OneSession(run, c, j, i, after)
    ensures HasSession(run[i], c) && !SessionOf(run[i], c).phase.Opened?
  {
    hide CI.Inv, CI.Init, DoAct, CanAct;
    assert Follows(cfg, run, acts, i - 1);
    if i - 1 > j { NeverReopened(cfg, run, acts, c, j, i - 1, after); }
    StaysChecked(cfg, run[i - 1], acts[i - 1], c);
  }

  lemma StaysChecked(cfg: Config, s: Cluster, a: Act, c: nat)
    requires CanAct(s, a) && HasSession(s, c) && HasSession(DoAct(cfg, s, a), c)
    requires a == Check(c) || !SessionOf(s, c).phase.Opened?
    ensures !SessionOf(DoAct(cfg, s, a), c).phase.Opened?
  {
    hide S.Can, S.Do, DoTail, TooOld, S.SelectStream;
    if a.Db? || CanTail(s, a) || a.c != c { OthersKeepPhase(cfg, s, a, c); }
  }

  /** From a check that keeps the promise on, a session that every batch spares has lost nothing it has yet to send. */
  lemma {:induction false} SparedSession(
    cfg: Config, run: seq<Cluster>, acts: seq<Act>, c: nat, j: nat, i: nat, after: nat)
    requires IsRun(cfg, run, acts) && j < i < |run| && acts[j] == Check(c) && OneSession(run, c, j, i, after)
    requires KeepsPromise(run[j].store)
    requires forall k: nat :: j < k < i ==> TrimSpares(run[k], acts[k], c)
    ensures KeepsSession(run[i], c)
  {
    hide CI.Inv, CI.Init, DoAct, KeepsPromise, TrimSpares, TooOld;
    RunInv(cfg, run, acts, i - 1);
    assert Follows(cfg, run, acts, i - 1);
    if i - 1 > j {
      SparedSession(cfg, run, acts, c, j, i - 1, after);
      NeverReopened(cfg, run, acts, c, j, i - 1, after);
      assert TrimSpares(run[i - 1], acts[i - 1], c);
    } else {
      CheckSpares(run[j], c);
    }
    StepKeepsSession(cfg, run[i - 1], acts[i - 1], c);
  }

  lemma CheckSpares(s: Cluster, c: nat)
    requires CanAct(s, Check(c))
    ensures KeepsSession(s, c) && TrimSpares(s, Check(c), c)
  {
  }

  lemma AdmittedReplays(cfg: Config, run: seq<Cluster>, acts: seq<Act>, c: nat, j: nat, i: nat, after: nat)
    requires IsRun(cfg, run, acts) && j < i < |run| && OneSession(run, c, j, i, after)
    requires WantsReplay(run[j].clients[c], after) && KeepsSession(run[i], c)
    ensures NothingUnsentTrimmed(run[i], c)
  {
    hide CI.Inv, DoAct, CanAct;
    SameReplayFlag(cfg, run, acts, c, j, i);
  }

  /** A check that keeps the promise and batches that spare the session serve it. */
  lemma SparedIsServed(cfg: Config, run: seq<Cluster>, acts: seq<Act>, c: nat, j: nat, i: nat, after: nat)
    requires IsRun(cfg, run, acts) && j < i < |run| && acts[j] == Check(c) && OneSession(run, c, j, i, after)
    requires WantsReplay(run[j].clients[c], after) && KeepsPromise(run[j].store)
    requires forall k: nat :: j < k < i ==> TrimSpares(run[k], acts[k], c)
    ensures HasSession(run[i], c) && Served(run, acts, c, j, i, after)
  {
    hide CI.Inv, DoAct, KeepsPromise, KeepsSession, TrimSpares, Served;
    assert Follows(cfg, run, acts, j);
    forall k: nat | j <= k <= i ensures NothingUnsentTrimmed(run[k], c) {
      if j < k {
        assert OneSession(run, c, j, k, after);
        SparedSession(cfg, run, acts, c, j, k, after);
        AdmittedReplays(cfg, run, acts, c, j, k, after);
      }
    }
    UntrimmedIsServed(cfg, run, acts, c, j, i, after);
  }

  /**
   * Refusal soundness: if the check runs while the table retains a suffix of the stream and is not empty, every
   * cursor it accepts is served, as long as no batch takes a row the session has yet to send; rows it has sent, or
   * its filter excludes, may go. (A refused one is sent nothing, which is everything up to its edge.)
   */
  lemma AcceptedCursorsAreServed(cfg: Config, run: seq<Cluster>, acts: seq<Act>, c: nat, j: nat, i: nat, after: nat)
    requires IsRun(cfg, run, acts) && j < i < |run| && acts[j] == Check(c) && OneSession(run, c, j, i, after)
    requires WantsReplay(run[j].clients[c], after)
    requires RetainsSuffix(run[j].store) && RetainsSome(run[j].store)
    requires forall k: nat :: j < k < i ==> TrimSpares(run[k], acts[k], c)
    ensures HasSession(run[i], c) && Served(run, acts, c, j, i, after)
  {
    hide CI.Inv, DoAct, CanAct, KeepsPromise, TrimSpares, Served, RetainsSuffix, RetainsSome;
    KeptIsPromise(cfg, run, acts, j);
    SparedIsServed(cfg, run, acts, c, j, i, after);
  }

  /** While every batch up to the check passes the test on the table, there is no hypothesis on the history either. */
  lemma SafeBatchesServe(cfg: Config, run: seq<Cluster>, acts: seq<Act>, c: nat, j: nat, i: nat, after: nat)
    requires IsRun(cfg, run, acts) && j < i < |run| && acts[j] == Check(c) && OneSession(run, c, j, i, after)
    requires WantsReplay(run[j].clients[c], after)
    requires forall k: nat :: k < j ==> TrimsSafely(run[k].store, acts[k])
    requires forall k: nat :: j < k < i ==> TrimSpares(run[k], acts[k], c)
    ensures HasSession(run[i], c) && Served(run, acts, c, j, i, after)
  {
    hide CI.Inv, DoAct, CanAct, Kept, KeepsPromise, TrimsSafely, TrimSpares, Served;
    SafeRunKeeps(cfg, run, acts, j);
    KeptIsPromise(cfg, run, acts, j);
    SparedIsServed(cfg, run, acts, c, j, i, after);
  }
}

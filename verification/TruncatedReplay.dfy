/**
 * A run that truncates a session already let in: the check and the replay are separate statements, and a deletion
 * batch that is harmless to every later check falls between them.
 */
module TruncatedReplay {
  import opened Model
  import opened Store
  import opened Queries
  import opened StoreTheorems
  import opened Delivery
  import opened Truncation
  import opened Witnesses
  import C = Cluster
  import CI = ClusterInvariant
  import Reader

  // ---- Runs, one step at a time --------------------------------------------------------------------

  /** A run to `s` in which every deletion batch passes the test on the table. */
  ghost predicate Ends(cfg: C.Config, run: seq<C.Cluster>, acts: seq<C.Act>, s: C.Cluster) {
    && IsRun(cfg, run, acts) && run[|acts|] == s
    && forall k: nat :: k < |acts| ==> TrimsSafely(run[k].store, acts[k])
  }

  lemma Extend(cfg: C.Config, run: seq<C.Cluster>, acts: seq<C.Act>, s: C.Cluster, a: C.Act)
    returns (run': seq<C.Cluster>, acts': seq<C.Act>)
    requires Ends(cfg, run, acts, s) && C.CanAct(s, a) && TrimsSafely(s.store, a)
    ensures Ends(cfg, run', acts', C.DoAct(cfg, s, a))
  {
    hide C.CanAct, C.DoAct, CI.Init, TrimsSafely;
    run', acts' := run + [C.DoAct(cfg, s, a)], acts + [a];
    forall k: nat | k < |acts'| ensures Follows(cfg, run', acts', k) && TrimsSafely(run'[k].store, acts'[k]) {
      if k < |acts| { assert Follows(cfg, run, acts, k); }
    }
  }

  function Quiet(st: Store, clients: map<nat, C.Client>): C.Cluster {
    C.Cluster(st, map[], clients)
  }

  /** A run of the database alone is a run of the service with no worker up. */
  lemma {:induction false} Lift(cfg: C.Config, acts: seq<Action>, st: Store, clients: map<nat, C.Client>)
    returns (run: seq<C.Cluster>, acts': seq<C.Act>)
    requires Builds(acts, st) && C.ValidConfig(cfg) && CI.Init(Quiet(Empty, clients))
    ensures Ends(cfg, run, acts', Quiet(st, clients))
  {
    hide Do, Can, CI.Init;
    if acts == [] {
      run, acts' := [Quiet(Empty, clients)], [];
    } else {
      var n := |acts| - 1;
      var before := After(acts[..n]).value;
      assert Builds(acts[..n], before);
      run, acts' := Lift(cfg, acts[..n], before, clients);
      DbAlone(cfg, before, clients, acts[n]);
      run, acts' := Extend(cfg, run, acts', Quiet(before, clients), C.Db(acts[n]));
    }
  }

  lemma DbAlone(cfg: C.Config, st: Store, clients: map<nat, C.Client>, a: Action)
    requires Can(st, a) && !a.Trim?
    ensures C.CanAct(Quiet(st, clients), C.Db(a)) && TrimsSafely(st, C.Db(a))
    ensures C.DoAct(cfg, Quiet(st, clients), C.Db(a)) == Quiet(Do(st, a), clients)
  {
    hide Do, Can;
    assert C.DoAct(cfg, Quiet(st, clients), C.Db(a)).tailers.Keys == {};
  }

  // ---- The database --------------------------------------------------------------------------------

  const THREE := map[1 := RowAt(1, 7, 0, 0, 1), 2 := RowAt(2, 8, 0, 0, 2), 3 := RowAt(3, 9, 1, 1, 3)]

  function Sent(pos: nat): Envelope
    requires pos in THREE
  {
    Envelope(pos, THREE[pos].event)
  }

  /** Positions 1 and 2 are one tick old, position 3 is new. */
  ghost predicate HoldsThree(st: Store) {
    st.clock == 1 && st.outbox == THREE && st.published == [Sent(1), Sent(2), Sent(3)]
  }

  lemma ThreePublished() returns (s: Store)
    ensures Built(s) && HoldsThree(s)
  {
    hide Built, Reachable;
    EmptyReachable();
    var s1 := OneMore(Empty, 7, 1);
    assert s1.outbox == map[1 := RowAt(1, 7, 0, 0, 1)];
    var s2 := OneMore(s1, 8, 2);
    assert s2.outbox == map[1 := RowAt(1, 7, 0, 0, 1), 2 := RowAt(2, 8, 0, 0, 2)];
    SmallSteps(s2, 1);
    s := OneMore(Later(s2), 9, 3);
  }

  lemma FirstTwo()
    ensures AgedRows(THREE, 1, 2) == [1, 2] && SafeBatch(THREE, [1, 2])
  {
    hide AgedRows;
    AgedRowsIsAgedBatch(THREE, 1, 2);
    var ids := AgedRows(THREE, 1, 2);
    assert Aged(THREE, 1, 1) && Aged(THREE, 1, 2);
    assert forall k :: 0 <= k < |ids| ==> ids[k] in ids;
    assert forall id :: Aged(THREE, 1, id) ==> id == 1 || id == 2;
    assert |ids| == 2 || (1 in ids && 2 in ids);
    assert |ids| == 2;
    assert Aged(THREE, 1, ids[0]) && Aged(THREE, 1, ids[1]) && ids[0] < ids[1];
    assert ids == [1, 2];
    assert 3 in THREE && 3 !in [1, 2];
  }

  lemma TrimTwo(st: Store)
    requires HoldsThree(st)
    ensures Can(st, Trim(0, 2)) && Do(st, Trim(0, 2)) == st.(outbox := map[3 := THREE[3]])
    ensures TrimsSafely(st, C.Db(Trim(0, 2)))
  {
    hide AgedRows, SafeBatch;
    FirstTwo();
    assert DeleteRows(THREE, [1, 2]) == map[3 := THREE[3]];
  }

  lemma FirstBelowSecond(rows: seq<Envelope>)
    ensures Rising(rows) && |rows| >= 2 ==> rows[0].pos < rows[1].pos
  {
  }

  /** The replay finds position 3 alone. */
  lemma OnlyThird(limit: nat)
    requires limit > 1
    ensures SelectStream(map[3 := THREE[3]], None, 1, limit) == [Sent(3)]
  {
    hide SelectStream;
    var outbox := map[3 := THREE[3]];
    SelectStreamIsPage(outbox, None, 1, limit);
    var rows := SelectStream(outbox, None, 1, limit);
    assert Listed(outbox, None, 1, Sent(3));
    assert forall e :: Listed(outbox, None, 1, e) ==> e == Sent(3);
    assert forall k :: 0 <= k < |rows| ==> rows[k] in rows;
    assert Rising(rows) && forall k :: 0 <= k < |rows| ==> rows[k].pos == 3;
    FirstBelowSecond(rows);
    assert |rows| < 2;
    assert rows != [];
  }

  lemma AcceptsOne(st: Store)
    requires HoldsThree(st)
    ensures !C.TooOld(st.outbox, 1)
  {
    OldestPositionFacts(st.outbox);
    assert st.outbox[1].stamp.value.pos in Positions(st.outbox);
  }

  // ---- The session ---------------------------------------------------------------------------------

  const CFG := C.Config(10, 10, 10)

  const RESUMES := C.Client(None, true, 1, Reader.Fresh(1), [], None, false)

  function WithSession(st: Store, t: C.Tailer, z: C.Session): C.Cluster {
    C.Cluster(st, map[0 := t], map[0 := RESUMES.(conn := Some(z))])
  }

  /** Worker 0 starts, and the client at cursor 1 connects to it. */
  lemma Connected(st: Store) returns (run: seq<C.Cluster>, acts: seq<C.Act>, t: C.Tailer)
    requires Built(st)
    ensures t.phase.Ready? && Ends(CFG, run, acts, WithSession(st, t, C.NewSession(CFG, RESUMES, 0)))
  {
    hide Do, Can, NewestPosition, Ends;
    var db :| Builds(db, st);
    run, acts := Lift(CFG, db, st, map[0 := RESUMES]);
    var s := Quiet(st, map[0 := RESUMES]);
    run, acts := Extend(CFG, run, acts, s, C.Start(0));
    s := C.DoAct(CFG, s, C.Start(0));
    run, acts := Extend(CFG, run, acts, s, C.Position(0));
    s := C.DoAct(CFG, s, C.Position(0));
    t := s.tailers[0];
    assert s == C.Cluster(st, map[0 := t], map[0 := RESUMES]);
    run, acts := Extend(CFG, run, acts, s, C.Open(0, 0));
    assert C.DoAct(CFG, s, C.Open(0, 0)) == WithSession(st, t, C.NewSession(CFG, RESUMES, 0));
  }

  /** The check lets cursor 1 in, and only then a sweep deletes positions 1 and 2. */
  lemma CheckedThenSwept(st: Store, t: C.Tailer, z: C.Session)
    requires HoldsThree(st) && z == C.NewSession(CFG, RESUMES, 0)
    ensures var s := WithSession(st, t, z);
            && C.CanAct(s, C.Check(0))
            && C.DoAct(CFG, s, C.Check(0)) == WithSession(st, t, z.(phase := C.Cleared))
    ensures var s, st' := WithSession(st, t, z.(phase := C.Cleared)), st.(outbox := map[3 := THREE[3]]);
            && C.CanAct(s, C.Db(Trim(0, 2))) && TrimsSafely(st, C.Db(Trim(0, 2)))
            && C.DoAct(CFG, s, C.Db(Trim(0, 2))) == WithSession(st', t, z.(phase := C.Cleared))
  {
    hide Do, Can, C.TooOld, TrimsSafely;
    AcceptsOne(st);
    TrimTwo(st);
    assert map[0 := RESUMES.(conn := Some(z))][0 := RESUMES.(conn := Some(z.(phase := C.Cleared)))]
        == map[0 := RESUMES.(conn := Some(z.(phase := C.Cleared)))];
  }

  lemma SubscribeStep(st: Store, t: C.Tailer, z: C.Session)
    requires t.phase.Ready? && z == C.NewSession(CFG, RESUMES, 0).(phase := C.Cleared)
    ensures var s := WithSession(st, t, z);
            && C.CanAct(s, C.Subscribe(0))
            && C.DoAct(CFG, s, C.Subscribe(0)) == WithSession(st, t, C.Joined(z, t.cursor).(phase := C.Replaying))
  {
    var z' := C.Joined(z, t.cursor).(phase := C.Replaying);
    assert map[0 := RESUMES.(conn := Some(z))][0 := RESUMES.(conn := Some(z'))] == map[0 := RESUMES.(conn := Some(z'))];
  }

  lemma FetchStep(st: Store, t: C.Tailer, z: C.Session)
    requires st.outbox == map[3 := THREE[3]] && Head(st.published) == 3
    requires z.phase.Replaying? && z.edge == 1
    ensures var s := WithSession(st, t, z);
            && C.CanAct(s, C.ReplayFetch(0))
            && C.DoAct(CFG, s, C.ReplayFetch(0)) == WithSession(st, t, z.(phase := C.Sending([Sent(3)], true, 3)))
  {
    hide SelectStream;
    OnlyThird(10);
    var z' := z.(phase := C.Sending([Sent(3)], true, 3));
    assert map[0 := RESUMES.(conn := Some(z))][0 := RESUMES.(conn := Some(z'))] == map[0 := RESUMES.(conn := Some(z'))];
  }

  lemma SendStep(st: Store, t: C.Tailer, z: C.Session)
    requires z.phase == C.Sending([Sent(3)], true, 3)
    ensures var s := WithSession(st, t, z);
            && C.CanAct(s, C.ReplaySend(0))
            && C.DoAct(CFG, s, C.ReplaySend(0)) == WithSession(st, t, C.PageSent(C.Send(z, Sent(3)), true))
  {
    var z' := C.PageSent(C.Send(z, Sent(3)), true);
    assert map[0 := RESUMES.(conn := Some(z))][0 := RESUMES.(conn := Some(z'))] == map[0 := RESUMES.(conn := Some(z'))];
  }

  /**
   * Every batch of this run passes the test on the table and every state of it keeps the promise, yet the client it
   * lets in at cursor 1 is sent position 3 and never position 2.
   */
  lemma SweptAfterCheck() returns (run: seq<C.Cluster>, acts: seq<C.Act>, missed: Envelope)
    ensures IsRun(CFG, run, acts)
    ensures forall k: nat :: k < |acts| ==> TrimsSafely(run[k].store, acts[k])
    ensures forall k: nat :: k < |run| ==> KeepsPromise(run[k].store)
    ensures var last := run[|acts|];
            && C.HasSession(last, 0) && C.SessionOf(last, 0).phase.Pumping?
            && C.WantsReplay(last.clients[0], C.SessionOf(last, 0).after)
            && missed in last.store.published && Wants(last.clients[0].aggregate, missed)
            && C.SessionOf(last, 0).after < missed.pos < C.SessionOf(last, 0).edge
            && missed !in C.SessionOf(last, 0).sent
  {
    hide Built, C.CanAct, C.DoAct, KeepsPromise, SafeBatch;
    var st := ThreePublished();
    var t;
    run, acts, t := Connected(st);
    var z := C.NewSession(CFG, RESUMES, 0);
    var st' := st.(outbox := map[3 := THREE[3]]);
    CheckedThenSwept(st, t, z);
    run, acts := Extend(CFG, run, acts, WithSession(st, t, z), C.Check(0));
    z := z.(phase := C.Cleared);
    run, acts := Extend(CFG, run, acts, WithSession(st, t, z), C.Db(Trim(0, 2)));
    SubscribeStep(st', t, z);
    run, acts := Extend(CFG, run, acts, WithSession(st', t, z), C.Subscribe(0));
    z := C.Joined(z, t.cursor).(phase := C.Replaying);
    FetchStep(st', t, z);
    run, acts := Extend(CFG, run, acts, WithSession(st', t, z), C.ReplayFetch(0));
    z := z.(phase := C.Sending([Sent(3)], true, 3));
    SendStep(st', t, z);
    run, acts := Extend(CFG, run, acts, WithSession(st', t, z), C.ReplaySend(0));
    z := C.PageSent(C.Send(z, Sent(3)), true);
    assert run[|acts|] == WithSession(st', t, z);
    StatesKeepPromise(CFG, run, acts);
    missed := Sent(2);
  }
}

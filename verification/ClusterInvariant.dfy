/** Every reachable state of the whole service keeps the invariants of its parts. */
module ClusterInvariant {
  import opened Model
  import opened Reader
  import opened Cluster
  import opened TailerInvariant
  import opened SessionInvariant
  import S = Store
  import SI = StoreInvariant

  ghost predicate TailersOk(cfg: Config, s: Cluster) {
    forall w :: w in s.tailers ==> TailerOk(s.store, s.tailers[w]) && WakeOk(cfg, s.store, s.tailers[w])
  }

  ghost predicate ClientsOk(cfg: Config, s: Cluster) {
    forall c :: c in s.clients ==> ClientInv(cfg, s.store, s.tailers, s.clients[c])
  }

  ghost predicate Inv(cfg: Config, s: Cluster) {
    SI.Inv(s.store) && TailersOk(cfg, s) && ClientsOk(cfg, s)
  }

  /** An empty database, no worker started, and any clients with any cursors, filters and replay flags. */
  ghost predicate Init(s: Cluster) {
    && s.store == S.Empty && s.tailers == map[]
    && forall c :: c in s.clients ==>
         var client := s.clients[c];
         client.reader == Fresh(client.initial) && client.log == [] && client.conn.None?
  }

  lemma InitInv(cfg: Config, s: Cluster)
    requires Init(s)
    ensures Inv(cfg, s)
  {
    SI.EmptyInv();
    forall c | c in s.clients ensures ClientInv(cfg, s.store, s.tailers, s.clients[c]) {
      assert Positions([]) == [];
    }
  }

  lemma GrowsReflexive(st: S.Store)
    ensures Grows(st, st)
  {
  }

  // ---- Database steps ------------------------------------------------------------------------------

  lemma DbKeepsTailers(cfg: Config, s: Cluster, a: S.Action)
    requires Inv(cfg, s) && S.Can(s.store, a)
    ensures TailersOk(cfg, DoAct(cfg, s, Db(a)))
  {
    var s' := DoAct(cfg, s, Db(a));
    StoreGrows(s.store, a);
    forall w | w in s'.tailers ensures TailerOk(s'.store, s'.tailers[w]) && WakeOk(cfg, s'.store, s'.tailers[w]) {
      var t := s.tailers[w];
      assert TailerOk(s.store, t) && WakeOk(cfg, s.store, t);
      TailerGrows(cfg, s.store, s'.store, t);
      WakeSurvivesDb(cfg, s.store, a, t);
      assert s'.tailers[w] == t || s'.tailers[w] == Notified(t);
    }
  }

  lemma DbKeepsClients(cfg: Config, s: Cluster, a: S.Action)
    requires Inv(cfg, s) && S.Can(s.store, a)
    ensures ClientsOk(cfg, DoAct(cfg, s, Db(a)))
  {
    hide SI.Inv, S.Do, S.Can, TailersOk, Grows;
    var s' := DoAct(cfg, s, Db(a));
    StoreGrows(s.store, a);
    forall c | c in s'.clients ensures ClientInv(cfg, s'.store, s'.tailers, s'.clients[c]) {
      ClientGrows(cfg, s.store, s'.store, s.tailers, s'.tailers, s.clients[c]);
    }
  }

  /** The invariants of a client look at its session only through the clauses of the session. */
  lemma SameClient(cfg: Config, st: S.Store, tailers: map<nat, Tailer>, c: Client, c': Client, z: Session)
    requires ClientOk(st, c) && BasicOk(st, c, z) && PhaseOk(cfg, st, tailers, c, z)
    requires c' == c.(conn := Some(z))
    ensures ClientInv(cfg, st, tailers, c')
  {
  }

  // ---- Tailer and hub steps ------------------------------------------------------------------------

  lemma OtherTailers(cfg: Config, s: Cluster, a: Act)
    requires CanTail(s, a)
    ensures var s' := DoTail(cfg, s, a);
            s'.store == s.store && forall w :: w in s'.tailers && w != a.w ==>
                w in s.tailers && s'.tailers[w] == s.tailers[w]
  {
    hide S.SelectStream, S.NewestPosition, AfterHandOff;
  }

  lemma TailKeepsTailers(cfg: Config, s: Cluster, a: Act)
    requires Inv(cfg, s) && CanTail(s, a)
    ensures TailersOk(cfg, DoTail(cfg, s, a))
  {
    hide DoTail, SI.Inv, ClientsOk, TailerOk, WakeOk;
    var s' := DoTail(cfg, s, a);
    TailStepKeepsTailer(cfg, s, a);
    OtherTailers(cfg, s, a);
    forall w | w in s'.tailers ensures TailerOk(s'.store, s'.tailers[w]) && WakeOk(cfg, s'.store, s'.tailers[w]) {
      if w != a.w {
        assert w in s.tailers && s'.tailers[w] == s.tailers[w];
      }
    }
  }

  predicate IsQuiet(a: Act) {
    !a.HandOff? && !a.Shutdown? && !a.Crash?
  }

  /** Other tailer steps touch only the tailer's own record, and not its cursor while it serves. */
  lemma QuietTailFrame(cfg: Config, s: Cluster, a: Act, w: nat)
    requires CanTail(s, a) && IsQuiet(a)
    ensures var s' := DoTail(cfg, s, a);
            && s'.store == s.store && s'.clients == s.clients
            && (Serving(s.tailers, w) ==> Serving(s'.tailers, w) && s'.tailers[w].cursor == s.tailers[w].cursor)
  {
    hide S.SelectStream, S.NewestPosition;
  }

  lemma QuietTailKeepsClients(cfg: Config, s: Cluster, a: Act)
    requires ClientsOk(cfg, s) && CanTail(s, a) && IsQuiet(a)
    ensures ClientsOk(cfg, DoTail(cfg, s, a))
  {
    hide DoTail;
    var s' := DoTail(cfg, s, a);
    forall c | c in s.clients ensures ClientInv(cfg, s.store, s'.tailers, s.clients[c]) {
      GrowsReflexive(s.store);
      if s.clients[c].conn.Some? { QuietTailFrame(cfg, s, a, s.clients[c].conn.value.worker); }
      ClientGrows(cfg, s.store, s.store, s.tailers, s'.tailers, s.clients[c]);
    }
    QuietTailFrame(cfg, s, a, 0);
  }

  lemma HandOffKeepsClient(cfg: Config, s: Cluster, w: nat, c: nat)
    requires CanTail(s, HandOff(w)) && Rising(s.store.published) && TailerOk(s.store, s.tailers[w])
    requires c in s.clients && ClientInv(cfg, s.store, s.tailers, s.clients[c])
    ensures var s' := DoTail(cfg, s, HandOff(w)); ClientInv(cfg, s'.store, s'.tailers, s'.clients[c])
  {
    hide ClientOk, BasicOk, PhaseOk, TailerOk;
    var s', client := DoTail(cfg, s, HandOff(w)), s.clients[c];
    if client.conn.Some? && client.conn.value.worker == w && Subscribed(client.conn.value) {
      HandOffKeepsSession(cfg, s.store, s.tailers, client, client.conn.value);
      var z' := Delivered(client.conn.value, s.tailers[w].phase.rows);
      SameClient(cfg, s.store, s'.tailers, client, s'.clients[c], z');
    } else {
      assert s'.clients[c] == client;
      GrowsReflexive(s.store);
      ClientGrows(cfg, s.store, s.store, s.tailers, s'.tailers, client);
    }
  }

  lemma ShutdownKeepsClient(cfg: Config, s: Cluster, w: nat, c: nat)
    requires CanTail(s, Shutdown(w)) && c in s.clients && ClientInv(cfg, s.store, s.tailers, s.clients[c])
    ensures var s' := DoTail(cfg, s, Shutdown(w)); ClientInv(cfg, s'.store, s'.tailers, s'.clients[c])
  {
    var s', client := DoTail(cfg, s, Shutdown(w)), s.clients[c];
    if client.conn.Some? && client.conn.value.worker == w && Subscribed(client.conn.value) {
      InterruptKeepsSession(cfg, s.store, s.tailers, client, client.conn.value);
      SameClient(cfg, s.store, s.tailers, client, s'.clients[c], Signalled(client.conn.value));
    } else {
      assert s'.clients[c] == client;
    }
  }

  lemma ClosedKeeps(cfg: Config, st: S.Store, tailers: map<nat, Tailer>, c: Client, z: Session, code: int)
    requires BasicOk(st, c, z)
    ensures BasicOk(st, c, z.(phase := Closed(code))) && PhaseOk(cfg, st, tailers, c, z.(phase := Closed(code)))
  {
  }

  lemma SeveredIs(cfg: Config, st: S.Store, tailers: map<nat, Tailer>, c: Client, z: Session)
    ensures Severed(z) == z || Severed(z) == z.(phase := Closed(ABNORMAL))
    ensures z.phase.Closed? ==> PhaseOk(cfg, st, tailers, c, z)
  {
  }

  lemma CrashKeepsClient(cfg: Config, s: Cluster, w: nat, c: nat)
    requires CanTail(s, Crash(w)) && c in s.clients && ClientInv(cfg, s.store, s.tailers, s.clients[c])
    ensures var s' := DoTail(cfg, s, Crash(w)); ClientInv(cfg, s'.store, s'.tailers, s'.clients[c])
  {
    hide ClientOk, BasicOk, PhaseOk;
    var s', client := DoTail(cfg, s, Crash(w)), s.clients[c];
    if client.conn.Some? && client.conn.value.worker == w {
      ClosedKeeps(cfg, s.store, s'.tailers, client, client.conn.value, ABNORMAL);
      SeveredIs(cfg, s.store, s'.tailers, client, client.conn.value);
      SameClient(cfg, s.store, s'.tailers, client, s'.clients[c], Severed(client.conn.value));
    } else {
      assert s'.clients[c] == client;
      GrowsReflexive(s.store);
      ClientGrows(cfg, s.store, s.store, s.tailers, s'.tailers, client);
    }
  }

  lemma TailKeepsClients(cfg: Config, s: Cluster, a: Act)
    requires Inv(cfg, s) && CanTail(s, a)
    ensures ClientsOk(cfg, DoTail(cfg, s, a))
  {
    hide DoTail, SI.Inv, ClientInv;
    if IsQuiet(a) {
      QuietTailKeepsClients(cfg, s, a);
    } else {
      var s' := DoTail(cfg, s, a);
      SameClientIds(cfg, s, a);
      assert Rising(s.store.published) by { RisingStream(s.store); }
      forall c | c in s'.clients ensures ClientInv(cfg, s'.store, s'.tailers, s'.clients[c]) {
        assert ClientInv(cfg, s.store, s.tailers, s.clients[c]);
        match a {
          case HandOff(w) => HandOffKeepsClient(cfg, s, w, c);
          case Shutdown(w) => ShutdownKeepsClient(cfg, s, w, c);
          case Crash(w) => CrashKeepsClient(cfg, s, w, c);
          case _ =>
        }
      }
    }
  }

  lemma SameClientIds(cfg: Config, s: Cluster, a: Act)
    requires CanTail(s, a)
    ensures DoTail(cfg, s, a).clients.Keys == s.clients.Keys
  {
    hide S.SelectStream, S.NewestPosition, AfterHandOff, Delivered, Signalled, Severed;
  }

  lemma RisingStream(st: S.Store)
    requires SI.Inv(st)
    ensures Rising(st.published)
  {
  }

  // ---- Session and client steps --------------------------------------------------------------------

  /** The session a step of an open session leaves behind. */
  lemma SessionStepKeeps(cfg: Config, s: Cluster, a: Act)
    requires Rising(s.store.published) && CanStream(s, a) && (a.Subscribe? || a.ReplaySend? || a.Overrun? || a.Pump?)
    requires TailersOk(cfg, s)
    requires BasicOk(s.store, s.clients[a.c], SessionOf(s, a.c))
    requires PhaseOk(cfg, s.store, s.tailers, s.clients[a.c], SessionOf(s, a.c))
    ensures var z' := DoStream(cfg, s, a).clients[a.c].conn;
            && DoStream(cfg, s, a).clients[a.c] == s.clients[a.c].(conn := z') && z'.Some?
            && BasicOk(s.store, s.clients[a.c], z'.value) && PhaseOk(cfg, s.store, s.tailers, s.clients[a.c], z'.value)
  {
    hide BasicOk, PhaseOk, TailerOk, WakeOk;
    var st, client := s.store, s.clients[a.c];
    match a {
      case Subscribe(c) => SubscribeKeeps(cfg, st, s.tailers, client, SessionOf(s, c));
      case ReplaySend(c) => ReplaySendKeeps(cfg, st, s.tailers, client, SessionOf(s, c));
      case Overrun(c) => ClosedKeeps(cfg, st, s.tailers, client, SessionOf(s, c), SLOW_CONSUMER);
      case Pump(c) => PumpKeeps(cfg, st, s.tailers, client, SessionOf(s, c));
    }
  }

  lemma ReplayFetchKeepsClient(cfg: Config, s: Cluster, c: nat)
    requires SI.Inv(s.store) && ValidConfig(cfg) && CanStream(s, ReplayFetch(c))
    requires ClientInv(cfg, s.store, s.tailers, s.clients[c])
    ensures ClientInv(cfg, s.store, s.tailers, DoStream(cfg, s, ReplayFetch(c)).clients[c])
  {
    hide SI.Inv, ClientOk, BasicOk, PhaseOk;
    var client' := DoStream(cfg, s, ReplayFetch(c)).clients[c];
    ReplayFetchKeeps(cfg, s.store, s.tailers, s.clients[c], SessionOf(s, c));
    SameClient(cfg, s.store, s.tailers, s.clients[c], client', client'.conn.value);
  }

  lemma ReceiveKeepsOwnClient(cfg: Config, s: Cluster, c: nat)
    requires Rising(s.store.published) && CanStream(s, Receive(c))
    requires ClientInv(cfg, s.store, s.tailers, s.clients[c])
    ensures ClientInv(cfg, s.store, s.tailers, DoStream(cfg, s, Receive(c)).clients[c])
  {
    hide ClientOk, BasicOk, PhaseOk;
    var st, client, z := s.store, s.clients[c], SessionOf(s, c);
    ReceiveKeepsClient(st, client, z);
    ReceiveKeepsBasic(st, client, z);
    ReceiveKeepsPhase(cfg, st, s.tailers, client, z);
    var client' := DoStream(cfg, s, Receive(c)).clients[c];
    SameClient(cfg, st, s.tailers, Received(client, z.wire[0]), client', z.(wire := z.wire[1..]));
  }

  lemma OpenKeepsClient(cfg: Config, s: Cluster, c: nat, w: nat)
    requires CanStream(s, Open(c, w)) && ClientInv(cfg, s.store, s.tailers, s.clients[c])
    ensures ClientInv(cfg, s.store, s.tailers, DoStream(cfg, s, Open(c, w)).clients[c])
  {
    hide ClientOk;
    var client, z := s.clients[c], NewSession(cfg, s.clients[c], w);
    assert BasicOk(s.store, client, z) && PhaseOk(cfg, s.store, s.tailers, client, z);
    SameClient(cfg, s.store, s.tailers, client, DoStream(cfg, s, Open(c, w)).clients[c], z);
  }

  lemma CheckKeepsClient(cfg: Config, s: Cluster, c: nat)
    requires CanStream(s, Check(c)) && ClientInv(cfg, s.store, s.tailers, s.clients[c])
    ensures ClientInv(cfg, s.store, s.tailers, DoStream(cfg, s, Check(c)).clients[c])
  {
    hide ClientOk, TooOld;
    var client, client' := s.clients[c], DoStream(cfg, s, Check(c)).clients[c];
    var z' := client'.conn.value;
    assert BasicOk(s.store, client, z') && PhaseOk(cfg, s.store, s.tailers, client, z');
    SameClient(cfg, s.store, s.tailers, client, client', z');
  }

  lemma EndKeepsClient(cfg: Config, s: Cluster, a: Act)
    requires CanStream(s, a) && (a.Hear? || a.Drop?) && ClientInv(cfg, s.store, s.tailers, s.clients[a.c])
    ensures ClientInv(cfg, s.store, s.tailers, DoStream(cfg, s, a).clients[a.c])
  {
  }

  /** The client a session step acts on. */
  lemma StreamKeepsOwnClient(cfg: Config, s: Cluster, a: Act)
    requires Rising(s.store.published) && CanStream(s, a) && !a.ReplayFetch?
    requires TailersOk(cfg, s) && ClientInv(cfg, s.store, s.tailers, s.clients[a.c])
    ensures ClientInv(cfg, s.store, s.tailers, DoStream(cfg, s, a).clients[a.c])
  {
    hide DoStream, TailersOk, ClientOk, BasicOk, PhaseOk;
    if a.Receive? {
      ReceiveKeepsOwnClient(cfg, s, a.c);
    } else if a.Open? {
      OpenKeepsClient(cfg, s, a.c, a.on);
    } else if a.Check? {
      CheckKeepsClient(cfg, s, a.c);
    } else if a.Hear? || a.Drop? {
      EndKeepsClient(cfg, s, a);
    } else {
      StreamFrame(cfg, s, a);
      SessionStepKeeps(cfg, s, a);
      var client' := DoStream(cfg, s, a).clients[a.c];
      SameClient(cfg, s.store, s.tailers, s.clients[a.c], client', client'.conn.value);
    }
  }

  lemma StreamFrame(cfg: Config, s: Cluster, a: Act)
    requires CanStream(s, a)
    ensures var s' := DoStream(cfg, s, a);
            && s'.store == s.store && s'.tailers == s.tailers && s'.clients.Keys == s.clients.Keys
            && a.c in s.clients && forall c :: c in s.clients && c != a.c ==> s'.clients[c] == s.clients[c]
  {
    hide S.SelectStream, TooOld, PumpOnce, Send, Show, NewSession, PageSent, Joined;
  }

  lemma StreamKeepsInv(cfg: Config, s: Cluster, a: Act)
    requires Inv(cfg, s) && ValidConfig(cfg) && CanStream(s, a)
    ensures Inv(cfg, DoStream(cfg, s, a))
  {
    hide DoStream, SI.Inv, ClientInv;
    StreamFrame(cfg, s, a);
    RisingStream(s.store);
    if a.ReplayFetch? {
      ReplayFetchKeepsClient(cfg, s, a.c);
    } else {
      StreamKeepsOwnClient(cfg, s, a);
    }
    var s' := DoStream(cfg, s, a);
    forall c | c in s'.clients ensures ClientInv(cfg, s'.store, s'.tailers, s'.clients[c]) {
      assert c != a.c ==> ClientInv(cfg, s.store, s.tailers, s.clients[c]);
    }
  }

  /** Every enabled step of every process keeps the invariant. */
  lemma StepKeepsInv(cfg: Config, s: Cluster, a: Act)
    requires ValidConfig(cfg) && Inv(cfg, s) && CanAct(s, a)
    ensures Inv(cfg, DoAct(cfg, s, a))
  {
    hide SI.Inv, TailersOk, ClientsOk, DoTail, DoStream, CanTail, CanStream;
    if a.Db? {
      SI.StepKeepsInv(s.store, a.a);
      DbKeepsTailers(cfg, s, a.a);
      DbKeepsClients(cfg, s, a.a);
    } else if CanTail(s, a) {
      TailKeepsTailers(cfg, s, a);
      TailKeepsClients(cfg, s, a);
      TailKeepsStore(cfg, s, a);
    } else {
      StreamKeepsInv(cfg, s, a);
    }
  }

  lemma TailKeepsStore(cfg: Config, s: Cluster, a: Act)
    requires CanTail(s, a)
    ensures DoTail(cfg, s, a).store == s.store
  {
    hide S.SelectStream, S.NewestPosition, AfterHandOff, Delivered, Signalled, Severed;
  }

  /** What a step of a worker does to an open session: nothing, a batch, the sentinel, or the end. */
  ghost predicate Touched(s: Cluster, a: Act, z: Session, z': Session) {
    || z' == z
    || (a == HandOff(z.worker) && z.worker in s.tailers && s.tailers[z.worker].phase.Fetched?
        && z' == Delivered(z, s.tailers[z.worker].phase.rows))
    || z' == Signalled(z)
    || z' == Severed(z)
  }

  lemma TailOnClient(cfg: Config, s: Cluster, a: Act, c: nat)
    requires CanTail(s, a) && c in s.clients
    ensures var s' := DoTail(cfg, s, a);
            && c in s'.clients && s'.clients[c] == s.clients[c].(conn := s'.clients[c].conn)
            && (s'.clients[c].conn.Some? <==> s.clients[c].conn.Some?)
            && (s.clients[c].conn.Some? ==> Touched(s, a, s.clients[c].conn.value, s'.clients[c].conn.value))
  {
    hide S.SelectStream, S.NewestPosition, DeliverChannel, AfterHandOff, Delivered, Signalled, Severed;
    if IsQuiet(a) { QuietTailFrame(cfg, s, a, 0); }
  }
}

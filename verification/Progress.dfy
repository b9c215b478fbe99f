/** What keeps the service moving: nobody is stuck, sessions close for a reason, and once quiet nothing is missing. */
module Progress {
  import opened Model
  import opened Ordering
  import opened Mailboxes
  import opened Cluster
  import opened TailerInvariant
  import opened SessionInvariant
  import opened Delivery
  import opened Streaming
  import CI = ClusterInvariant
  import S = Store
  import SI = StoreInvariant

  // ---- Nobody is stuck -------------------------------------------------------------------------------

  /**
   * In every state of a run each open session can take its next step: be checked, subscribe, read or send a page,
   * draw what is queued, close once it has overflowed, and deliver what it has sent or closed with.
   */
  lemma NoSessionIsStuck(cfg: Config, run: seq<Cluster>, acts: seq<Act>, c: nat, i: nat)
    requires IsRun(cfg, run, acts) && i < |run| && HasSession(run[i], c)
    ensures var s, z := run[i], SessionOf(run[i], c);
      && (z.wire != [] ==> CanAct(s, Receive(c)))
      && match z.phase
         case Opened => CanAct(s, Check(c))
         case Cleared => CanAct(s, Subscribe(c))
         case Replaying => CanAct(s, ReplayFetch(c))
         case Sending(_, _, _) => CanAct(s, ReplaySend(c))
         case Pumping(_) =>
           && (z.chan.box.queue != [] ==> CanAct(s, Pump(c)))
           && (z.chan.box.overflowed ==> CanAct(s, Overrun(c)))
         case Closed(_) => z.wire == [] ==> CanAct(s, Hear(c))
  {
    hide CI.Inv, CI.Init, DoAct, ClientOk, BasicOk, ChannelOk, SeamClosed;
    RunInv(cfg, run, acts, i);
    ClientIn(cfg, run[i], c);
  }

  /** So can each worker's tailer that has started: fetch, hand on, wake, or reconnect. */
  lemma NoTailerIsStuck(cfg: Config, s: Cluster, w: nat)
    requires Up(s, w) && (s.tailers[w].phase.Starting? ==> s.tailers[w].connected)
    ensures match s.tailers[w].phase
      case Starting => CanAct(s, Position(w))
      case Ready => if s.tailers[w].connected then CanAct(s, Fetch(w)) else CanAct(s, Reconnect(w))
      case Fetched(_) => CanAct(s, HandOff(w))
      case Waiting => CanAct(s, Timeout(w)) && (s.tailers[w].wakeup ==> CanAct(s, Wake(w)))
      case Debouncing => CanAct(s, Debounced(w))
      case Backoff => CanAct(s, Retry(w))
      case Down => true
  {
  }

  /** And anything can fail at any time: a worker, its connection, a client's connection; and start again. */
  lemma AnythingCanFail(s: Cluster, w: nat, c: nat)
    ensures Up(s, w) ==> CanAct(s, Crash(w)) && CanAct(s, Shutdown(w)) && CanAct(s, Disconnect(w))
    ensures Up(s, w) && !s.tailers[w].phase.Starting? ==> CanAct(s, Fail(w))
    ensures !Up(s, w) ==> CanAct(s, Start(w))
    ensures HasSession(s, c) ==> CanAct(s, Drop(c))
    ensures c in s.clients && s.clients[c].conn.None? && !s.clients[c].refused && Serving(s.tailers, w) ==>
      CanAct(s, Open(c, w))
  {
  }

  // ---- Why a session closes ----------------------------------------------------------------------------

  /**
   * The close code tells the reason: 4003 a stale cursor at the check, 4002 the sentinel at the head of the queue,
   * 4001 an overflow, 1006 a worker that is gone. And the sentinel closes without sending anything more.
   */
  lemma CloseCodes(cfg: Config, run: seq<Cluster>, acts: seq<Act>, c: nat, i: nat)
    requires IsRun(cfg, run, acts) && i < |acts| && HasSession(run[i], c) && HasSession(run[i + 1], c)
    requires !SessionOf(run[i], c).phase.Closed?
    ensures var z, z', a := SessionOf(run[i], c), SessionOf(run[i + 1], c), acts[i];
      && (z'.phase.Closed? ==>
            || (z'.phase.code == 4003 && a == Check(c))
            || (z'.phase.code == 4002 && a == Pump(c) && z.chan.box.queue != [] && z.chan.box.queue[0].Stop?)
            || (z'.phase.code == 4001 && a == Overrun(c) && z.chan.box.overflowed)
            || (z'.phase.code == 1006 && a == Crash(z.worker)))
      && (a == Pump(c) && z.chan.box.queue != [] && z.chan.box.queue[0].Stop? ==> z' == z.(phase := Closed(4002)))
      && (a == Overrun(c) ==> z' == z.(phase := Closed(4001)))
      && (a == Crash(z.worker) ==> z' == z.(phase := Closed(1006)))
  {
    hide S.Can, S.Do, CI.Init, DoTail, DoStream;
    assert Follows(cfg, run, acts, i);
    var s, a := run[i], acts[i];
    if !a.Db? {
      if CanTail(s, a) {
        TailCloses(cfg, s, a, c);
      } else {
        CI.StreamFrame(cfg, s, a);
        if a.c == c { OwnCloses(cfg, s, a); }
      }
    }
  }

  lemma TailCloses(cfg: Config, s: Cluster, a: Act, c: nat)
    requires CanTail(s, a) && HasSession(s, c) && !SessionOf(s, c).phase.Closed?
    ensures HasSession(DoTail(cfg, s, a), c)
    ensures var z, z' := SessionOf(s, c), SessionOf(DoTail(cfg, s, a), c);
      if a == Crash(z.worker) then z' == z.(phase := Closed(1006)) else z'.phase == z.phase
  {
    hide S.SelectStream, S.NewestPosition, AfterHandOff, DeliverChannel, Interrupt;
    if CI.IsQuiet(a) { CI.QuietTailFrame(cfg, s, a, 0); }
  }

  lemma OwnCloses(cfg: Config, s: Cluster, a: Act)
    requires CanStream(s, a) && HasSession(s, a.c) && HasSession(DoStream(cfg, s, a), a.c)
    requires !SessionOf(s, a.c).phase.Closed?
    ensures var z, z' := SessionOf(s, a.c), SessionOf(DoStream(cfg, s, a), a.c);
      && (z'.phase.Closed? ==>
            || (z'.phase.code == 4003 && a.Check?)
            || (z'.phase.code == 4002 && a.Pump? && z.chan.box.queue != [] && z.chan.box.queue[0].Stop?)
            || (z'.phase.code == 4001 && a.Overrun? && z.chan.box.overflowed))
      && (a.Pump? && z.chan.box.queue[0].Stop? ==> z' == z.(phase := Closed(4002)))
      && (a.Overrun? ==> z' == z.(phase := Closed(4001)))
  {
    hide S.SelectStream, TooOld;
  }

  /** A worker that shuts down signals every session subscribed to it, or finds its queue full and overflows it. */
  lemma ShutdownSignals(cfg: Config, run: seq<Cluster>, acts: seq<Act>, c: nat, i: nat)
    requires IsRun(cfg, run, acts) && i < |acts| && HasSession(run[i], c) && Subscribed(SessionOf(run[i], c))
    requires acts[i] == Shutdown(SessionOf(run[i], c).worker)
    ensures HasSession(run[i + 1], c)
    ensures var z, z' := SessionOf(run[i], c), SessionOf(run[i + 1], c);
      var box, box' := z.chan.box, z'.chan.box;
      && z'.phase == z.phase && z'.sent == z.sent
      && if box.capacity == 0 || |box.queue| < box.capacity
         then box'.queue == box.queue + [Stop] && box'.overflowed == box.overflowed
         else box'.queue == box.queue && box'.overflowed
  {
    hide S.Can, S.Do, CI.Init;
    assert Follows(cfg, run, acts, i);
  }

  // ---- Once all is quiet -------------------------------------------------------------------------------

  /** Between where a client is and the tailer of a drained session lie only trimmed events. */
  lemma DrainedLeavesNothing(cfg: Config, s: Cluster, c: nat, e: Envelope)
    requires CI.Inv(cfg, s) && HasSession(s, c) && s.clients[c].replay && s.clients[c].reader.cursor > 0
    requires var z := SessionOf(s, c);
      z.phase.Pumping? && z.chan.box.queue == [] && !z.chan.box.overflowed && z.wire == []
    requires SessionOf(s, c).worker in s.tailers
    requires e in s.store.published && Wants(s.clients[c].aggregate, e)
    requires s.clients[c].reader.cursor < e.pos <= s.tailers[SessionOf(s, c).worker].cursor
    ensures Trimmed(s.store, e)
  {
    ClientIn(cfg, s, c);
    var client, z := s.clients[c], SessionOf(s, c);
    assert BasicOk(s.store, client, z) && PhaseOk(cfg, s.store, s.tailers, client, z);
    assert ClientOk(s.store, client);
    assert z.floor <= client.reader.cursor;
    assert Carried(z.chan.box.queue) == [];
    if e.pos <= z.edge {
      assert Complete(s.store, client.aggregate, Max(client.reader.cursor, z.floor), z.edge, z.wire);
    } else if e.pos <= z.chan.joined {
      assert Complete(s.store, client.aggregate, z.edge, z.chan.joined, []);
    } else {
      assert Complete(s.store, client.aggregate, Max(z.edge, z.chan.joined), z.chan.reach, Carried(z.chan.box.queue));
    }
  }

  /**
   * Nothing is held back: when a client's session pumps with its queue drained and nothing on the wire, and its
   * worker's tailer has read the whole stream, the client has processed every event ever published that it wants
   * above its first cursor, provided no event it was still owed was trimmed.
   */
  lemma QuietMeansComplete(cfg: Config, run: seq<Cluster>, acts: seq<Act>, c: nat, i: nat)
    requires IsRun(cfg, run, acts) && i < |run| && c in run[0].clients && run[0].clients[c].replay
    requires forall k: nat :: k <= i && c in run[k].clients ==> NothingOwedTrimmed(run[k], c)
    requires HasSession(run[i], c) && run[i].clients[c].reader.cursor > 0
    requires var z := SessionOf(run[i], c);
      z.phase.Pumping? && z.chan.box.queue == [] && !z.chan.box.overflowed && z.wire == []
    requires SessionOf(run[i], c).worker in run[i].tailers
    requires run[i].tailers[SessionOf(run[i], c).worker].cursor == Head(run[i].store.published)
    ensures run[i].clients[c].log
         == Above(run[i].store.published, run[i].clients[c].aggregate, Base(run[i].clients[c]))
  {
    hide CI.Inv, CanAct, DoAct, CI.Init, NothingOwedTrimmed, Base;
    LogExactRun(cfg, run, acts, c, i);
    RunInv(cfg, run, acts, i);
    RisingIn(cfg, run[i]);
    ClientIn(cfg, run[i], c);
    OwedUnfold(run[i], c);
    var client, st := run[i].clients[c], run[i].store;
    forall e | e in st.published && Wants(client.aggregate, e) && Base(client) < e.pos ensures e in client.log {
      HeadIsTop(st, e);
      if client.reader.cursor < e.pos { DrainedLeavesNothing(cfg, run[i], c, e); }
    }
    LogIsAbove(st, client);
  }

  lemma LogIsAbove(st: S.Store, c: Client)
    requires Rising(st.published) && Sound(st, c.aggregate, Base(c), c.reader.cursor, c.log)
    requires forall e :: e in st.published && Wants(c.aggregate, e) && Base(c) < e.pos ==> e in c.log
    ensures c.log == Above(st.published, c.aggregate, Base(c))
  {
    hide Base;
    var key := (e: Envelope) => e.pos;
    FilterAscending(st.published, (e: Envelope) => Wants(c.aggregate, e) && Base(c) < e.pos, key);
    AscendingUnique(c.log, Above(st.published, c.aggregate, Base(c)), key);
  }
}

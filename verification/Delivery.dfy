/** The delivery guarantees, over whole runs of the service. */
module Delivery {
  import opened Model
  import opened Ordering
  import opened Reader
  import opened Cluster
  import opened TailerInvariant
  import opened SessionInvariant
  import CI = ClusterInvariant
  import S = Store
  import SI = StoreInvariant

  /** States and steps of a run, from an initial state, every step enabled. */
  ghost predicate IsRun(cfg: Config, run: seq<Cluster>, acts: seq<Act>) {
    && ValidConfig(cfg) && |run| == |acts| + 1 && CI.Init(run[0])
    && (forall i: nat :: i < |acts| ==> Follows(cfg, run, acts, i))
  }

  ghost predicate Follows(cfg: Config, run: seq<Cluster>, acts: seq<Act>, i: nat)
    requires |run| == |acts| + 1 && i < |acts|
  {
    CanAct(run[i], acts[i]) && run[i + 1] == DoAct(cfg, run[i], acts[i])
  }

  lemma {:induction false} RunInv(cfg: Config, run: seq<Cluster>, acts: seq<Act>, i: nat)
    requires IsRun(cfg, run, acts) && i < |run|
    ensures CI.Inv(cfg, run[i])
  {
    hide CI.Inv, CanAct, DoAct, CI.Init;
    if i == 0 {
      CI.InitInv(cfg, run[0]);
    } else {
      RunInv(cfg, run, acts, i - 1);
      assert Follows(cfg, run, acts, i - 1);
      CI.StepKeepsInv(cfg, run[i - 1], acts[i - 1]);
    }
  }

  /** The published events a filter wants with positions in (lo, hi], in stream order. */
  function SliceOf(h: seq<Envelope>, aggregate: Option<ItemId>, lo: nat, hi: nat): seq<Envelope> {
    Filter(h, (e: Envelope) => Wants(aggregate, e) && lo < e.pos <= hi)
  }

  lemma SliceIs(h: seq<Envelope>, aggregate: Option<ItemId>, lo: nat, hi: nat, e: Envelope)
    ensures e in SliceOf(h, aggregate, lo, hi) <==>
      e in h && (aggregate.None? || aggregate.value == e.event.aggregate) && lo < e.pos <= hi
  {
  }

  /** Everything wanted in (lo, hi] is in `out`, without exception. */
  ghost predicate Exact(st: S.Store, aggregate: Option<ItemId>, lo: nat, hi: nat, out: seq<Envelope>) {
    forall e :: e in st.published && Wants(aggregate, e) && lo < e.pos <= hi ==> e in out
  }

  lemma ExactIsSlice(st: S.Store, aggregate: Option<ItemId>, lo: nat, hi: nat, out: seq<Envelope>)
    requires Rising(st.published)
    requires Sound(st, aggregate, lo, hi, out) && Exact(st, aggregate, lo, hi, out)
    ensures out == SliceOf(st.published, aggregate, lo, hi)
  {
    var key := (e: Envelope) => e.pos;
    var p := (e: Envelope) => Wants(aggregate, e) && lo < e.pos <= hi;
    FilterAscending(st.published, p, key);
    AscendingUnique(out, Filter(st.published, p), key);
  }

  lemma ExactGrows(st: S.Store, st': S.Store, aggregate: Option<ItemId>, lo: nat, hi: nat, out: seq<Envelope>)
    requires Grows(st, st') && Exact(st, aggregate, lo, hi, out)
    requires hi <= Head(st.published) || hi <= lo
    ensures Exact(st', aggregate, lo, hi, out)
  {
  }

  lemma RisingIn(cfg: Config, s: Cluster)
    requires CI.Inv(cfg, s)
    ensures Rising(s.store.published)
  {
    CI.RisingStream(s.store);
  }

  lemma ClientIn(cfg: Config, s: Cluster, c: nat)
    requires CI.Inv(cfg, s) && c in s.clients
    ensures ClientInv(cfg, s.store, s.tailers, s.clients[c])
  {
  }

  lemma TailerIn(cfg: Config, s: Cluster, w: nat)
    requires CI.Inv(cfg, s) && w in s.tailers
    ensures TailerOk(s.store, s.tailers[w]) && WakeOk(cfg, s.store, s.tailers[w])
  {
  }

  /** What a step does to the database. */
  lemma StoreMoves(cfg: Config, s: Cluster, a: Act)
    requires CI.Inv(cfg, s) && CanAct(s, a)
    ensures Grows(s.store, DoAct(cfg, s, a).store)
    ensures !a.Db? ==> DoAct(cfg, s, a).store == s.store
  {
    hide SI.Inv, CI.TailersOk, CI.ClientsOk, S.Can, S.Do, Grows;
    if a.Db? {
      StoreGrows(s.store, a.a);
    } else {
      CI.GrowsReflexive(s.store);
      if CanTail(s, a) { CI.TailKeepsStore(cfg, s, a); } else { CI.StreamFrame(cfg, s, a); }
    }
  }

  // ---- Exactly once ------------------------------------------------------------------------------

  lemma OwnClientMoves(cfg: Config, s: Cluster, a: Act)
    requires CanStream(s, a)
    ensures a.c in s.clients && a.c in DoStream(cfg, s, a).clients
    ensures var c, c' := s.clients[a.c], DoStream(cfg, s, a).clients[a.c];
            && c'.aggregate == c.aggregate && c'.replay == c.replay && c'.initial == c.initial
            && if a.Receive? then
                 && c.conn.Some? && c.conn.value.wire != []
                 && c'.log == Received(c, c.conn.value.wire[0]).log
                 && c'.reader == Received(c, c.conn.value.wire[0]).reader
               else c'.log == c.log && c'.reader == c.reader
  {
    hide S.SelectStream, TooOld, PumpOnce, Send, Show, NewSession, PageSent, Joined;
  }

  /** The client keeps its filter, its flags and its start, and only `Receive` touches its reader and log. */
  lemma ClientMoves(cfg: Config, s: Cluster, a: Act, c: nat)
    requires CanAct(s, a) && c in s.clients
    ensures var s' := DoAct(cfg, s, a);
            && c in s'.clients
            && s'.clients[c].aggregate == s.clients[c].aggregate && s'.clients[c].replay == s.clients[c].replay
            && s'.clients[c].initial == s.clients[c].initial
            && (a != Receive(c) ==>
                  s'.clients[c].log == s.clients[c].log && s'.clients[c].reader == s.clients[c].reader)
            && (a == Receive(c) ==>
                  && s.clients[c].conn.Some? && s.clients[c].conn.value.wire != []
                  && var e := s.clients[c].conn.value.wire[0];
                  && s'.clients[c].log == Received(s.clients[c], e).log
                  && s'.clients[c].reader == Received(s.clients[c], e).reader)
  {
    hide S.Can, S.Do, DoTail, DoStream, Received;
    if !a.Db? {
      if CanTail(s, a) {
        CI.TailOnClient(cfg, s, a, c);
      } else {
        CI.StreamFrame(cfg, s, a);
        if a.c == c { OwnClientMoves(cfg, s, a); }
      }
    }
  }

  /** No event the client is still owed has been trimmed: none it wants above a cursor greater than 0. */
  ghost predicate NothingOwedTrimmed(s: Cluster, c: nat)
    requires c in s.clients
  {
    var client := s.clients[c];
    client.reader.cursor > 0 ==>
      forall e :: e in s.store.published && Wants(client.aggregate, e) && client.reader.cursor < e.pos ==>
          !Trimmed(s.store, e)
  }

  ghost predicate LogExact(st: S.Store, c: Client) {
    Exact(st, c.aggregate, Base(c), c.reader.cursor, c.log)
  }

  /** Between a client's cursor and the next message on its wire lie only trimmed events. */
  lemma MissedWasTrimmed(st: S.Store, c: Client, z: Session, d: Envelope)
    requires ClientOk(st, c) && BasicOk(st, c, z) && z.wire != [] && c.replay && c.reader.cursor > 0
    requires d in st.published && Wants(c.aggregate, d) && c.reader.cursor < d.pos < z.wire[0].pos
    ensures Trimmed(st, d)
  {
    assert z.floor <= c.reader.cursor;
    assert z.wire[0] in z.wire;
    assert forall i :: 0 <= i < |z.wire| ==> z.wire[0].pos <= z.wire[i].pos;
  }

  /** An event the client should have processed by the next message: that one, an earlier one, or a trimmed one. */
  lemma DueByNext(st: S.Store, c: Client, z: Session, d: Envelope)
    requires Rising(st.published) && ClientOk(st, c) && BasicOk(st, c, z) && z.wire != [] && c.replay
    requires d in st.published && Wants(c.aggregate, d)
    requires Base(Received(c, z.wire[0])) < d.pos <= z.wire[0].pos
    ensures d == z.wire[0] || Base(c) < d.pos <= c.reader.cursor || (Trimmed(st, d) && c.reader.cursor > 0)
  {
    hide ClientOk, BasicOk;
    var e := z.wire[0];
    WireAboveCursor(st, c, z);
    WireIsPublished(st, c, z);
    SamePosition(st, d, e);
    BaseStays(st, c, e);
    if d != e && c.reader.cursor < d.pos && c.reader.cursor > 0 {
      MissedWasTrimmed(st, c, z, d);
    }
  }

  lemma WireIsPublished(st: S.Store, c: Client, z: Session)
    requires BasicOk(st, c, z) && z.wire != []
    ensures z.wire[0] in st.published
  {
    assert z.wire[0] in z.wire;
  }

  /** The base is settled by the first event, or by a start above 0. */
  lemma BaseStays(st: S.Store, c: Client, e: Envelope)
    requires ClientOk(st, c) && c.reader.cursor < e.pos
    ensures c.log != [] || c.initial > 0 ==> Base(Received(c, e)) == Base(c) && c.reader.cursor > 0
    ensures c.log == [] && c.initial == 0 ==> Base(Received(c, e)) == e.pos - 1
    ensures Received(c, e).log == c.log + [e] && Received(c, e).reader.cursor == e.pos
  {
    if c.log != [] {
      assert (c.log + [e])[0] == c.log[0];
      assert c.log[0] in c.log && c.log[|c.log| - 1] in c.log;
    }
  }

  lemma ReceiveKeepsExact(st: S.Store, c: Client, z: Session)
    requires Rising(st.published) && ClientOk(st, c) && BasicOk(st, c, z) && z.wire != [] && c.replay
    requires LogExact(st, c)
    requires c.reader.cursor > 0 ==>
      forall d :: d in st.published && Wants(c.aggregate, d) && c.reader.cursor < d.pos ==> !Trimmed(st, d)
    ensures LogExact(st, Received(c, z.wire[0]))
  {
    hide ClientOk, BasicOk;
    var e := z.wire[0];
    WireAboveCursor(st, c, z);
    BaseStays(st, c, e);
    var c' := Received(c, e);
    forall d | d in st.published && Wants(c.aggregate, d) && Base(c') < d.pos <= e.pos ensures d in c'.log {
      DueByNext(st, c, z, d);
    }
  }

  lemma LogExactStep(cfg: Config, s: Cluster, a: Act, c: nat)
    requires CI.Inv(cfg, s) && CanAct(s, a) && c in s.clients && s.clients[c].replay
    requires LogExact(s.store, s.clients[c]) && NothingOwedTrimmed(s, c)
    ensures c in DoAct(cfg, s, a).clients && LogExact(DoAct(cfg, s, a).store, DoAct(cfg, s, a).clients[c])
  {
    hide CI.Inv, CanAct, DoAct, Grows, ClientOk, BasicOk, PhaseOk, NothingOwedTrimmed;
    var s' := DoAct(cfg, s, a);
    ClientMoves(cfg, s, a, c);
    StoreMoves(cfg, s, a);
    ClientIn(cfg, s, c);
    RisingIn(cfg, s);
    if a == Receive(c) {
      ReceiveEnabled(s, c);
      OwedUnfold(s, c);
      ReceiveKeepsExact(s.store, s.clients[c], s.clients[c].conn.value);
    } else {
      CursorBelowHead(s.store, s.clients[c]);
      var client := s.clients[c];
      ExactGrows(s.store, s'.store, client.aggregate, Base(client), client.reader.cursor, client.log);
    }
  }

  lemma OwedUnfold(s: Cluster, c: nat)
    requires c in s.clients && NothingOwedTrimmed(s, c)
    ensures s.clients[c].reader.cursor > 0 ==>
      forall d :: d in s.store.published && Wants(s.clients[c].aggregate, d) && s.clients[c].reader.cursor < d.pos
        ==> !Trimmed(s.store, d)
  {
  }

  lemma ReceiveEnabled(s: Cluster, c: nat)
    requires CanAct(s, Receive(c))
    ensures HasSession(s, c) && s.clients[c].conn.value.wire != []
  {
  }

  lemma CursorBelowHead(st: S.Store, c: Client)
    requires ClientOk(st, c) && Rising(st.published)
    ensures c.reader.cursor <= Head(st.published) || c.reader.cursor == Base(c)
  {
    if c.log != [] {
      assert c.log[|c.log| - 1] in c.log;
      HeadIsTop(st, c.log[|c.log| - 1]);
    }
  }

  lemma {:induction false} LogExactRun(cfg: Config, run: seq<Cluster>, acts: seq<Act>, c: nat, i: nat)
    requires IsRun(cfg, run, acts) && i < |run| && c in run[0].clients && run[0].clients[c].replay
    requires forall k: nat :: k < i && c in run[k].clients ==> NothingOwedTrimmed(run[k], c)
    ensures c in run[i].clients && run[i].clients[c].replay && LogExact(run[i].store, run[i].clients[c])
  {
    hide CI.Inv, CanAct, DoAct, NothingOwedTrimmed, LogExact, ClientInv;
    if i == 0 {
      FreshLogExact(run[0], c);
    } else {
      LogExactRun(cfg, run, acts, c, i - 1);
      RunInv(cfg, run, acts, i - 1);
      assert Follows(cfg, run, acts, i - 1);
      LogExactStep(cfg, run[i - 1], acts[i - 1], c);
      ClientMoves(cfg, run[i - 1], acts[i - 1], c);
    }
  }

  lemma FreshLogExact(s: Cluster, c: nat)
    requires CI.Init(s) && c in s.clients
    ensures LogExact(s.store, s.clients[c])
  {
  }

  /** A client keeps its filter and its start. */
  lemma {:induction false} SameClientRun(cfg: Config, run: seq<Cluster>, acts: seq<Act>, c: nat, i: nat)
    requires IsRun(cfg, run, acts) && i < |run| && c in run[0].clients
    ensures c in run[i].clients
    ensures run[i].clients[c].initial == run[0].clients[c].initial
    ensures run[i].clients[c].aggregate == run[0].clients[c].aggregate
  {
    hide CI.Inv, CI.Init, CanAct, DoAct;
    if i > 0 {
      SameClientRun(cfg, run, acts, c, i - 1);
      assert Follows(cfg, run, acts, i - 1);
      ClientMoves(cfg, run[i - 1], acts[i - 1], c);
    }
  }

  /**
   * Exactly once: from its first cursor greater than 0, across replays, overflows, shutdowns, crashes and
   * reconnects to any worker, what a client has processed is exactly the published events its filter wants up
   * to its cursor, in stream order, provided no event it is still owed is trimmed.
   */
  lemma ExactlyOnce(cfg: Config, run: seq<Cluster>, acts: seq<Act>, c: nat, i: nat)
    requires IsRun(cfg, run, acts) && i < |run| && c in run[0].clients && run[0].clients[c].replay
    requires forall k: nat :: k < i && c in run[k].clients ==> NothingOwedTrimmed(run[k], c)
    ensures c in run[i].clients
    ensures var client := run[i].clients[c];
            && client.log == SliceOf(run[i].store.published, client.aggregate, Base(client), client.reader.cursor)
            && client.initial == run[0].clients[c].initial && client.aggregate == run[0].clients[c].aggregate
            && (client.initial > 0 ==> Base(client) == client.initial)
            && (client.initial == 0 && client.log != [] ==> Base(client) == client.log[0].pos - 1)
            && client.reader.cursor == (if client.log == [] then client.initial else client.log[|client.log| - 1].pos)
  {
    hide CI.Inv, CanAct, DoAct, NothingOwedTrimmed;
    SameClientRun(cfg, run, acts, c, i);
    LogExactRun(cfg, run, acts, c, i);
    RunInv(cfg, run, acts, i);
    RisingIn(cfg, run[i]);
    ClientIn(cfg, run[i], c);
    var client := run[i].clients[c];
    ExactIsSlice(run[i].store, client.aggregate, Base(client), client.reader.cursor, client.log);
  }

  // ---- What a log can miss -------------------------------------------------------------------------

  lemma ReceiveKeepsComplete(st: S.Store, c: Client, z: Session)
    requires Rising(st.published) && ClientOk(st, c) && BasicOk(st, c, z) && z.wire != [] && c.replay
    requires Complete(st, c.aggregate, Base(c), c.reader.cursor, c.log)
    ensures var c' := Received(c, z.wire[0]); Complete(st, c'.aggregate, Base(c'), c'.reader.cursor, c'.log)
  {
    hide ClientOk, BasicOk;
    var e := z.wire[0];
    WireAboveCursor(st, c, z);
    BaseStays(st, c, e);
    var c' := Received(c, e);
    forall d | d in st.published && Wants(c.aggregate, d) && Base(c') < d.pos <= e.pos
      ensures d in c'.log || Trimmed(st, d)
    {
      DueByNext(st, c, z, d);
    }
  }

  lemma {:induction false} LogCompleteRun(cfg: Config, run: seq<Cluster>, acts: seq<Act>, c: nat, i: nat)
    requires IsRun(cfg, run, acts) && i < |run| && c in run[0].clients && run[0].clients[c].replay
    ensures c in run[i].clients && run[i].clients[c].replay
    ensures var client := run[i].clients[c];
            Complete(run[i].store, client.aggregate, Base(client), client.reader.cursor, client.log)
  {
    hide CI.Inv, CanAct, DoAct, ClientInv;
    if i > 0 {
      LogCompleteRun(cfg, run, acts, c, i - 1);
      RunInv(cfg, run, acts, i - 1);
      assert Follows(cfg, run, acts, i - 1);
      LogCompleteStep(cfg, run[i - 1], acts[i - 1], c);
    }
  }

  lemma LogCompleteStep(cfg: Config, s: Cluster, a: Act, c: nat)
    requires CI.Inv(cfg, s) && CanAct(s, a) && c in s.clients && s.clients[c].replay
    requires Complete(s.store, s.clients[c].aggregate, Base(s.clients[c]), s.clients[c].reader.cursor, s.clients[c].log)
    ensures c in DoAct(cfg, s, a).clients && DoAct(cfg, s, a).clients[c].replay
    ensures var s' := DoAct(cfg, s, a);
            var c' := s'.clients[c];
            Complete(s'.store, c'.aggregate, Base(c'), c'.reader.cursor, c'.log)
  {
    hide CI.Inv, CanAct, DoAct, Grows, ClientOk, BasicOk, PhaseOk, Complete;
    var s' := DoAct(cfg, s, a);
    ClientMoves(cfg, s, a, c);
    StoreMoves(cfg, s, a);
    ClientIn(cfg, s, c);
    RisingIn(cfg, s);
    if a == Receive(c) {
      ReceiveEnabled(s, c);
      ReceiveKeepsComplete(s.store, s.clients[c], s.clients[c].conn.value);
    } else {
      CursorBelowHead(s.store, s.clients[c]);
      var client := s.clients[c];
      SliceGrows(s.store, s'.store, client.aggregate, Base(client), client.reader.cursor, client.log);
    }
  }

  /**
   * With no assumption about retention: a replaying client processes only wanted published events, in stream
   * order and once each, sees no duplicate, and can miss only events whose rows retention has deleted.
   */
  lemma LogMissesOnlyTrimmed(cfg: Config, run: seq<Cluster>, acts: seq<Act>, c: nat, i: nat, e: Envelope)
    requires IsRun(cfg, run, acts) && i < |run| && c in run[0].clients && run[0].clients[c].replay
    ensures c in run[i].clients
    ensures var client := run[i].clients[c];
            && Rising(client.log) && client.reader.duplicates == 0
            && (e in client.log ==> e in run[i].store.published && Wants(client.aggregate, e)
                                    && Base(client) < e.pos <= client.reader.cursor)
            && (e in run[i].store.published && Wants(client.aggregate, e)
                && Base(client) < e.pos <= client.reader.cursor
                ==> e in client.log || Trimmed(run[i].store, e))
  {
    hide CI.Inv, CanAct, DoAct;
    LogCompleteRun(cfg, run, acts, c, i);
    RunInv(cfg, run, acts, i);
    ClientIn(cfg, run[i], c);
  }

  // ---- Gap reports ---------------------------------------------------------------------------------

  /**
   * In such a run the gaps a listener reports hold no event it wanted: each is a hole left by a rolled-back
   * publisher, or events its filter excludes.
   */
  lemma ReportedGapsAreHoles(cfg: Config, run: seq<Cluster>, acts: seq<Act>, c: nat, i: nat, e: Envelope)
    requires IsRun(cfg, run, acts) && i < |run| && c in run[0].clients && run[0].clients[c].replay
    requires forall k: nat :: k < i && c in run[k].clients ==> NothingOwedTrimmed(run[k], c)
    requires e in run[i].store.published
    ensures c in run[i].clients
    ensures InSomeGap(run[i].clients[c].reader.gaps, e.pos) ==> !Wants(run[i].clients[c].aggregate, e)
  {
    hide CI.Inv, CanAct, DoAct, NothingOwedTrimmed;
    LogExactRun(cfg, run, acts, c, i);
    RunInv(cfg, run, acts, i);
    ClientIn(cfg, run[i], c);
    var client := run[i].clients[c];
    if Wants(client.aggregate, e) { GapsMissTheLog(client, run[i].store, e); }
  }

  lemma GapsMissTheLog(c: Client, st: S.Store, e: Envelope)
    requires ClientOk(st, c) && LogExact(st, c) && e in st.published && Wants(c.aggregate, e)
    ensures !InSomeGap(c.reader.gaps, e.pos)
  {
    hide ClientOk, LogExact, ShowAll, Accepted, InSomeGap;
    var ps := Positions(c.log);
    LogAscends(st, c);
    AscendingAllAccepted(c.initial, ps);
    if ps != [] && ps[0] < e.pos < ps[|ps| - 1] { LogSpans(st, c, e); }
    GapsMissAccepted(c.initial, ps, e.pos);
  }

  lemma LogAscends(st: S.Store, c: Client)
    requires ClientOk(st, c)
    ensures AscendsWithin(Positions(c.log), c.initial, Top(Positions(c.log)))
    ensures c.reader == ShowAll(Fresh(c.initial), Positions(c.log))
  {
    hide ShowAll;
    forall k | 0 <= k < |c.log| ensures c.initial < c.log[k].pos {
      assert c.log[k] in c.log && (Base(c) >= c.initial || c.initial == 0);
    }
  }

  lemma LogSpans(st: S.Store, c: Client, e: Envelope)
    requires ClientOk(st, c) && LogExact(st, c) && e in st.published && Wants(c.aggregate, e)
    requires c.log != [] && c.log[0].pos < e.pos < c.log[|c.log| - 1].pos
    ensures e.pos in Positions(c.log)
  {
    assert c.log[0] in c.log && c.log[|c.log| - 1] in c.log;
    assert e in c.log;
    var k :| 0 <= k < |c.log| && c.log[k] == e;
    assert Positions(c.log)[k] == e.pos;
  }
}

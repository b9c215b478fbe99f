/** What sessions send, what tailers hand on and what hubs accept, over whole runs. */
module Streaming {
  import opened Model
  import opened Ordering
  import opened Reader
  import opened Cluster
  import opened TailerInvariant
  import opened SessionInvariant
  import opened Delivery
  import CI = ClusterInvariant
  import S = Store
  import SI = StoreInvariant

  // ---- The seam between replay and live --------------------------------------------------------------

  /** Nothing a subscribed session has yet to send has been trimmed. */
  ghost predicate NothingUnsentTrimmed(s: Cluster, c: nat) {
    HasSession(s, c) && Subscribed(SessionOf(s, c)) ==>
      forall e :: e in s.store.published && Wants(s.clients[c].aggregate, e) && SessionOf(s, c).edge < e.pos ==>
          !Trimmed(s.store, e)
  }

  ghost predicate SentExact(s: Cluster, c: nat) {
    HasSession(s, c) ==>
      Exact(s.store, s.clients[c].aggregate, SessionOf(s, c).floor, SessionOf(s, c).edge, SessionOf(s, c).sent)
  }

  /** `z'` has sent one more event than `z`, the next one owed. */
  ghost predicate SentOneMore(st: S.Store, c: Client, z: Session, z': Session) {
    && z'.sent != [] && z'.floor == z.floor
    && var e := z'.sent[|z'.sent| - 1];
       z'.sent == z.sent + [e] && z'.edge == e.pos && NextOwed(st, c, z.edge, e)
  }

  ghost predicate SentTheSame(z: Session, z': Session) {
    z'.floor == z.floor && z'.edge == z.edge && z'.sent == z.sent
  }

  lemma PumpSends(cfg: Config, st: S.Store, tailers: map<nat, Tailer>, c: Client, z: Session)
    requires PhaseOk(cfg, st, tailers, c, z) && z.phase.Pumping? && z.chan.box.queue != []
    ensures SentTheSame(z, PumpOnce(z)) || SentOneMore(st, c, z, PumpOnce(z))
  {
    var box := z.chan.box;
    if box.queue[0].Carry? && z.phase.skip < box.queue[0].e.pos {
      HeadIsNextOwed(cfg, st, tailers, c, z);
    }
  }

  lemma ReplaySends(st: S.Store, c: Client, z: Session)
    requires z.phase.Sending? && PageOk(st, c, z, z.phase.rest, z.phase.short, z.phase.upto)
    ensures SentOneMore(st, c, z, Send(z, z.phase.rest[0]))
  {
    FirstOfSlice(st, c, z.edge, z.phase.upto, z.phase.rest);
  }

  /** Steps of the database, of tailers and of other clients send nothing on this session. */
  lemma OthersSendNothing(cfg: Config, s: Cluster, a: Act, c: nat)
    requires CanAct(s, a) && HasSession(DoAct(cfg, s, a), c)
    requires a.Db? || CanTail(s, a) || (CanStream(s, a) && a.c != c)
    ensures HasSession(s, c) && SentTheSame(SessionOf(s, c), SessionOf(DoAct(cfg, s, a), c))
  {
    hide S.Can, S.Do, DoTail, DoStream, DeliverChannel;
    if !a.Db? {
      if CanTail(s, a) {
        TailKnowsClient(cfg, s, a, c);
        CI.TailOnClient(cfg, s, a, c);
      } else {
        CI.StreamFrame(cfg, s, a);
      }
    }
  }

  /** A step leaves what a session has sent as it was, adds the next event owed, or starts from nothing. */
  ghost predicate Moves(s: Cluster, s': Cluster, c: nat)
    requires HasSession(s', c)
  {
    var z' := SessionOf(s', c);
    || (z'.sent == [] && z'.floor == z'.edge)
    || (HasSession(s, c) && SentTheSame(SessionOf(s, c), z'))
    || (HasSession(s, c) && Subscribed(SessionOf(s, c)) && s'.store == s.store
        && SentOneMore(s.store, s.clients[c], SessionOf(s, c), z'))
  }

  lemma SendingMoves(cfg: Config, s: Cluster, a: Act, c: nat)
    requires (a == Pump(c) || a == ReplaySend(c)) && CanStream(s, a)
    requires PhaseOk(cfg, s.store, s.tailers, s.clients[c], SessionOf(s, c))
    ensures HasSession(DoStream(cfg, s, a), c) && Moves(s, DoStream(cfg, s, a), c)
  {
    hide ChannelOk, SeamClosed, NextOwed;
    var z := SessionOf(s, c);
    if a.Pump? {
      PumpSends(cfg, s.store, s.tailers, s.clients[c], z);
    } else {
      assert PageOk(s.store, s.clients[c], z, z.phase.rest, z.phase.short, z.phase.upto);
      ReplaySends(s.store, s.clients[c], z);
    }
  }

  lemma OwnMoves(cfg: Config, s: Cluster, a: Act)
    requires CanStream(s, a) && HasSession(DoStream(cfg, s, a), a.c)
    requires HasSession(s, a.c) ==> PhaseOk(cfg, s.store, s.tailers, s.clients[a.c], SessionOf(s, a.c))
    ensures Moves(s, DoStream(cfg, s, a), a.c)
  {
    hide ChannelOk, SeamClosed, PageOk, NextOwed, TooOld;
    if a.Pump? || a.ReplaySend? {
      SendingMoves(cfg, s, a, a.c);
    }
  }

  lemma SessionMoves(cfg: Config, s: Cluster, a: Act, c: nat)
    requires CI.Inv(cfg, s) && CanAct(s, a) && HasSession(DoAct(cfg, s, a), c)
    ensures Moves(s, DoAct(cfg, s, a), c)
  {
    hide CI.Inv, ClientOk, BasicOk, PhaseOk, DoStream, DoTail, S.Do, S.Can;
    if a.Db? || CanTail(s, a) || a.c != c {
      OthersSendNothing(cfg, s, a, c);
    } else {
      if HasSession(s, c) { ClientIn(cfg, s, c); }
      OwnMoves(cfg, s, a);
    }
  }

  lemma SentExactStep(cfg: Config, s: Cluster, a: Act, c: nat)
    requires CI.Inv(cfg, s) && CanAct(s, a) && c in s.clients && SentExact(s, c) && NothingUnsentTrimmed(s, c)
    ensures c in DoAct(cfg, s, a).clients && SentExact(DoAct(cfg, s, a), c)
  {
    hide CI.Inv, CanAct, DoAct, Grows, ClientOk, PhaseOk;
    var s' := DoAct(cfg, s, a);
    StoreMoves(cfg, s, a);
    ClientMoves(cfg, s, a, c);
    if HasSession(s', c) {
      SessionMoves(cfg, s, a, c);
      var z' := SessionOf(s', c);
      if HasSession(s, c) {
        var z, client := SessionOf(s, c), s.clients[c];
        ClientIn(cfg, s, c);
        RisingIn(cfg, s);
        if SentTheSame(z, z') {
          ExactGrows(s.store, s'.store, client.aggregate, z.floor, z.edge, z.sent);
        } else if z'.sent != [] || z'.floor != z'.edge {
          OneMoreIsExact(s.store, client, z, z');
        }
      }
    }
  }

  lemma OneMoreIsExact(st: S.Store, c: Client, z: Session, z': Session)
    requires Rising(st.published) && SentOneMore(st, c, z, z')
    requires Exact(st, c.aggregate, z.floor, z.edge, z.sent)
    requires forall e :: e in st.published && Wants(c.aggregate, e) && z.edge < e.pos ==> !Trimmed(st, e)
    ensures Exact(st, c.aggregate, z'.floor, z'.edge, z'.sent)
  {
    var e := z'.sent[|z'.sent| - 1];
    forall d | d in st.published && Wants(c.aggregate, d) && z.floor < d.pos <= e.pos ensures d in z'.sent {
      SamePosition(st, d, e);
    }
  }

  lemma {:induction false} SentExactRun(cfg: Config, run: seq<Cluster>, acts: seq<Act>, c: nat, j: nat, i: nat)
    requires IsRun(cfg, run, acts) && j <= i < |run| && HasSession(run[j], c) && SessionOf(run[j], c).phase.Opened?
    requires forall k: nat :: j <= k < i ==> NothingUnsentTrimmed(run[k], c)
    ensures c in run[i].clients && SentExact(run[i], c)
  {
    hide CI.Inv, CanAct, DoAct, NothingUnsentTrimmed, ClientOk, BasicOk;
    RunInv(cfg, run, acts, j);
    if i == j {
      ClientIn(cfg, run[j], c);
    } else {
      SentExactRun(cfg, run, acts, c, j, i - 1);
      RunInv(cfg, run, acts, i - 1);
      assert Follows(cfg, run, acts, i - 1);
      SentExactStep(cfg, run[i - 1], acts[i - 1], c);
    }
  }

  /** Every published event a filter wants above a position. */
  function Above(h: seq<Envelope>, aggregate: Option<ItemId>, lo: nat): seq<Envelope> {
    Filter(h, (e: Envelope) => Wants(aggregate, e) && lo < e.pos)
  }

  lemma SliceIsPrefix(h: seq<Envelope>, aggregate: Option<ItemId>, lo: nat, hi: nat)
    requires Rising(h)
    ensures SliceOf(h, aggregate, lo, hi) <= Above(h, aggregate, lo)
  {
    var key := (e: Envelope) => e.pos;
    FilterAscending(h, (e: Envelope) => Wants(aggregate, e) && lo < e.pos <= hi, key);
    FilterAscending(h, (e: Envelope) => Wants(aggregate, e) && lo < e.pos, key);
    DownwardClosedIsPrefix(SliceOf(h, aggregate, lo, hi), Above(h, aggregate, lo), key);
  }

  /**
   * The seam: what a session sends, replay pages and live events together, is a prefix of everything published
   * that its filter wants above last_event_id, with no gap and no duplicate at the boundary, whatever
   * publishers, tailers, overflows and shutdowns do between its steps, provided nothing it has yet to send is
   * trimmed. (A session that does not replay starts from where the tailer was when it joined.)
   */
  lemma ReplayMeetsLive(cfg: Config, run: seq<Cluster>, acts: seq<Act>, c: nat, j: nat, i: nat)
    requires IsRun(cfg, run, acts) && j <= i < |run| && HasSession(run[j], c) && SessionOf(run[j], c).phase.Opened?
    requires forall k: nat :: j <= k < i ==> NothingUnsentTrimmed(run[k], c)
    requires HasSession(run[i], c)
    ensures var client, z, h := run[i].clients[c], SessionOf(run[i], c), run[i].store.published;
            && z.sent == SliceOf(h, client.aggregate, z.floor, z.edge)
            && z.sent <= Above(h, client.aggregate, z.floor)
            && (WantsReplay(client, z.after) ==> z.floor == z.after)
  {
    hide CI.Inv, CanAct, DoAct, NothingUnsentTrimmed, ClientOk, PhaseOk;
    SentExactRun(cfg, run, acts, c, j, i);
    RunInv(cfg, run, acts, i);
    RisingIn(cfg, run[i]);
    ClientIn(cfg, run[i], c);
    var client, z := run[i].clients[c], SessionOf(run[i], c);
    ExactIsSlice(run[i].store, client.aggregate, z.floor, z.edge, z.sent);
    SliceIsPrefix(run[i].store.published, client.aggregate, z.floor, z.edge);
  }

  // ---- Tailers -----------------------------------------------------------------------------------

  /** While worker `w` serves, no row has been trimmed that its tailer has yet to read. */
  ghost predicate NothingUnreadTrimmed(s: Cluster, w: nat) {
    Serving(s.tailers, w) ==>
      forall e :: e in s.store.published && s.tailers[w].cursor < e.pos ==> !Trimmed(s.store, e)
  }

  ghost predicate HandedExact(st: S.Store, t: Tailer) {
    Exact(st, None, t.origin, t.cursor, t.handed)
  }

  lemma HandOffIsExact(cfg: Config, st: S.Store, t: Tailer)
    requires TailerOk(st, t) && t.phase.Fetched? && HandedExact(st, t)
    requires forall e :: e in st.published && t.cursor < e.pos ==> !Trimmed(st, e)
    ensures HandedExact(st, AfterHandOff(cfg, t))
  {
    var rows := t.phase.rows;
    if rows != [] {
      assert rows[|rows| - 1] in rows;
    }
  }

  predicate SameHanded(t: Tailer, t': Tailer) {
    t'.handed == t.handed && t'.origin == t.origin && t'.cursor == t.cursor
  }

  lemma HandedExactTailer(cfg: Config, s: Cluster, a: Act, w: nat)
    requires CI.Inv(cfg, s) && CanAct(s, a) && NothingUnreadTrimmed(s, w) && w in DoAct(cfg, s, a).tailers
    requires w in s.tailers ==> HandedExact(s.store, s.tailers[w])
    ensures HandedExact(DoAct(cfg, s, a).store, DoAct(cfg, s, a).tailers[w])
  {
    hide CI.Inv, S.Do, S.Can, TailerOk, WakeOk, HandedExact, NothingUnreadTrimmed, Grows;
    var s' := DoAct(cfg, s, a);
    StoreMoves(cfg, s, a);
    TailerMoves(cfg, s, a, w);
    if a == HandOff(w) {
      TailerIn(cfg, s, w);
      assert Serving(s.tailers, w);
      UnreadAt(s, w);
      HandOffIsExact(cfg, s.store, s.tailers[w]);
    } else if w in s.tailers && SameHanded(s.tailers[w], s'.tailers[w]) {
      TailerIn(cfg, s, w);
      HandedGrows(s.store, s'.store, s.tailers[w], s'.tailers[w]);
    } else {
      FreshTailer(cfg, s, a, w);
    }
  }

  lemma UnreadAt(s: Cluster, w: nat)
    requires NothingUnreadTrimmed(s, w) && Serving(s.tailers, w)
    ensures forall e :: e in s.store.published && s.tailers[w].cursor < e.pos ==> !Trimmed(s.store, e)
  {
  }

  lemma HandedGrows(st: S.Store, st': S.Store, t: Tailer, t': Tailer)
    requires Grows(st, st') && HandedExact(st, t) && TailerOk(st, t)
    requires SameHanded(t, t')
    ensures HandedExact(st', t')
  {
    ExactGrows(st, st', None, t.origin, t.cursor, t.handed);
  }

  /** A tailer moves on only by handing off its batch, or starts over with nothing handed. */
  lemma TailerMoves(cfg: Config, s: Cluster, a: Act, w: nat)
    requires CanAct(s, a) && w in DoAct(cfg, s, a).tailers
    ensures var t' := DoAct(cfg, s, a).tailers[w];
            if a == HandOff(w) then
              w in s.tailers && s.tailers[w].phase.Fetched? && t' == AfterHandOff(cfg, s.tailers[w])
            else (w in s.tailers && SameHanded(s.tailers[w], t')) || t'.origin == t'.cursor
  {
    hide S.Do, S.Can, DoStream, S.SelectStream, S.NewestPosition, AfterHandOff;
    if !a.Db? && !CanTail(s, a) { CI.StreamFrame(cfg, s, a); }
  }

  lemma FreshTailer(cfg: Config, s: Cluster, a: Act, w: nat)
    requires CanAct(s, a) && w in DoAct(cfg, s, a).tailers
    requires DoAct(cfg, s, a).tailers[w].origin == DoAct(cfg, s, a).tailers[w].cursor
    ensures HandedExact(DoAct(cfg, s, a).store, DoAct(cfg, s, a).tailers[w])
  {
  }

  lemma {:induction false} HandedExactRun(cfg: Config, run: seq<Cluster>, acts: seq<Act>, i: nat, w: nat)
    requires IsRun(cfg, run, acts) && i < |run|
    requires forall k: nat :: k < i ==> NothingUnreadTrimmed(run[k], w)
    ensures w in run[i].tailers ==> HandedExact(run[i].store, run[i].tailers[w])
  {
    hide CI.Inv, CanAct, DoAct, NothingUnreadTrimmed, HandedExact;
    if i > 0 {
      HandedExactRun(cfg, run, acts, i - 1, w);
      RunInv(cfg, run, acts, i - 1);
      assert Follows(cfg, run, acts, i - 1);
      if w in run[i].tailers { HandedExactTailer(cfg, run[i - 1], acts[i - 1], w); }
    }
  }

  /**
   * Tailer completeness: what a tailer has handed to its hub is exactly what was published from its starting
   * cursor up to its current one, in order and once each, provided no row is trimmed before it is read.
   */
  lemma TailerCompleteness(cfg: Config, run: seq<Cluster>, acts: seq<Act>, i: nat, w: nat)
    requires IsRun(cfg, run, acts) && i < |run| && w in run[i].tailers
    requires forall k: nat :: k < i ==> NothingUnreadTrimmed(run[k], w)
    ensures var t := run[i].tailers[w]; t.handed == SliceOf(run[i].store.published, None, t.origin, t.cursor)
  {
    hide CI.Inv, CanAct, DoAct, NothingUnreadTrimmed;
    HandedExactRun(cfg, run, acts, i, w);
    RunInv(cfg, run, acts, i);
    RisingIn(cfg, run[i]);
    TailerIn(cfg, run[i], w);
    ExactIsSlice(run[i].store, None, run[i].tailers[w].origin, run[i].tailers[w].cursor, run[i].tailers[w].handed);
  }

  /** A cursor over stream positions is safe: whatever is published later lands above every tailer's cursor. */
  lemma NothingLandsBelowACursor(cfg: Config, run: seq<Cluster>, acts: seq<Act>, i: nat, w: nat, e: Envelope)
    requires IsRun(cfg, run, acts) && i < |acts| && w in run[i].tailers
    requires e in run[i + 1].store.published && e !in run[i].store.published
    ensures run[i].tailers[w].cursor < e.pos
  {
    hide CI.Inv, CanAct, DoAct;
    RunInv(cfg, run, acts, i);
    assert Follows(cfg, run, acts, i);
    StoreMoves(cfg, run[i], acts[i]);
    TailerIn(cfg, run[i], w);
  }

  /**
   * No lost wakeup: a connected tailer that waits with its flag clear and no notification on the way to it has
   * read every published row the table holds; if nothing above its cursor was trimmed, everything ever published.
   */
  lemma NoLostWakeup(cfg: Config, run: seq<Cluster>, acts: seq<Act>, i: nat, w: nat)
    requires IsRun(cfg, run, acts) && i < |run| && w in run[i].tailers
    requires run[i].tailers[w].phase.Waiting? && Quiet(run[i].tailers[w])
    ensures var s, t := run[i], run[i].tailers[w];
            && (forall id :: id in s.store.outbox && s.store.outbox[id].stamp.Some? ==>
                  s.store.outbox[id].stamp.value.pos <= t.cursor)
            && ((forall e :: e in s.store.published && t.cursor < e.pos ==> !Trimmed(s.store, e))
                ==> t.cursor == Head(s.store.published))
  {
    hide CanAct, DoAct;
    RunInv(cfg, run, acts, i);
    TailerIn(cfg, run[i], w);
    assert SI.TableOk(run[i].store);
    SettledAtHead(run[i].store, run[i].tailers[w].cursor);
  }

  lemma SettledAtHead(st: S.Store, pos: nat)
    requires SI.TableOk(st) && Settled(st, pos) && pos <= Head(st.published)
    ensures (forall e :: e in st.published && pos < e.pos ==> !Trimmed(st, e)) ==> pos == Head(st.published)
  {
    if st.published != [] {
      var e := st.published[|st.published| - 1];
      assert e in st.published;
      assert pos < e.pos ==> Trimmed(st, e);
    }
  }

  // ---- One order for all workers -------------------------------------------------------------------

  ghost predicate AcceptedExact(s: Cluster, c: nat) {
    HasSession(s, c) && Subscribed(SessionOf(s, c)) ==>
      var ch := SessionOf(s, c).chan;
      Exact(s.store, s.clients[c].aggregate, ch.joined, ch.reach, ch.accepted)
  }

  lemma {:induction false} AcceptedGrows(ch: Channel, rows: seq<Envelope>)
    ensures ch.accepted <= DeliverChannel(ch, rows).accepted
    ensures ch.box.overflowed ==> DeliverChannel(ch, rows) == ch
  {
    if rows != [] {
      AcceptedGrows(ch, rows[..|rows| - 1]);
    }
  }

  lemma HandOffAcceptsAll(cfg: Config, st: S.Store, c: Client, z: Session, t: Tailer)
    requires Rising(st.published) && ChannelOk(cfg, st, c.aggregate, z.chan, z.edge)
    requires z.chan.reach <= t.cursor && (!z.chan.box.overflowed ==> z.chan.reach == t.cursor)
    requires TailerOk(st, t) && t.phase.Fetched?
    requires Exact(st, c.aggregate, z.chan.joined, z.chan.reach, z.chan.accepted)
    requires forall e :: e in st.published && t.cursor < e.pos ==> !Trimmed(st, e)
    ensures var ch' := DeliverChannel(z.chan, t.phase.rows);
            Exact(st, c.aggregate, ch'.joined, ch'.reach, ch'.accepted)
  {
    hide TailerOk;
    var ch' := DeliverChannel(z.chan, t.phase.rows);
    HandOffKeepsChannel(cfg, st, c, z, t);
    AcceptedGrows(z.chan, t.phase.rows);
    assert Complete(st, c.aggregate, ch'.joined, ch'.reach, ch'.accepted);
    forall e | e in st.published && Wants(c.aggregate, e) && ch'.joined < e.pos <= ch'.reach ensures e in ch'.accepted {
      assert e.pos <= z.chan.reach ==> e in z.chan.accepted;
    }
  }

  /** A channel keeps all but its queue, takes its worker's batch, or starts where it joins with nothing accepted. */
  ghost predicate ChannelMoved(s: Cluster, a: Act, z: Session, z': Session) {
    && Subscribed(z) && z'.worker == z.worker
    && (z'.chan == z.chan.(box := z'.chan.box)
       || (a == HandOff(z.worker) && z.worker in s.tailers && s.tailers[z.worker].phase.Fetched?
           && z'.chan == DeliverChannel(z.chan, s.tailers[z.worker].phase.rows)))
  }

  lemma OwnChannelMoves(cfg: Config, s: Cluster, a: Act)
    requires CanStream(s, a) && HasSession(DoStream(cfg, s, a), a.c) && Subscribed(SessionOf(DoStream(cfg, s, a), a.c))
    ensures var z' := SessionOf(DoStream(cfg, s, a), a.c);
            if a.Subscribe? then z'.chan.joined == z'.chan.reach
            else HasSession(s, a.c) && ChannelMoved(s, a, SessionOf(s, a.c), z')
  {
    hide S.SelectStream, TooOld, Show;
  }

  lemma ChannelMoves(cfg: Config, s: Cluster, a: Act, c: nat)
    requires CanAct(s, a) && HasSession(DoAct(cfg, s, a), c) && Subscribed(SessionOf(DoAct(cfg, s, a), c))
    ensures var z' := SessionOf(DoAct(cfg, s, a), c);
            || (a == Subscribe(c) && z'.chan.joined == z'.chan.reach)
            || (HasSession(s, c) && ChannelMoved(s, a, SessionOf(s, c), z'))
  {
    hide S.Do, S.Can, DoStream, DoTail, DeliverChannel;
    if !a.Db? {
      if CanTail(s, a) {
        TailKnowsClient(cfg, s, a, c);
        CI.TailOnClient(cfg, s, a, c);
      } else {
        CI.StreamFrame(cfg, s, a);
        if a.c == c { OwnChannelMoves(cfg, s, a); }
      }
    }
  }

  lemma TailKnowsClient(cfg: Config, s: Cluster, a: Act, c: nat)
    requires CanTail(s, a) && c in DoTail(cfg, s, a).clients
    ensures c in s.clients
  {
    CI.SameClientIds(cfg, s, a);
  }

  lemma AcceptedExactStep(cfg: Config, s: Cluster, a: Act, c: nat)
    requires CI.Inv(cfg, s) && CanAct(s, a) && c in s.clients && AcceptedExact(s, c)
    requires HasSession(s, c) ==> NothingUnreadTrimmed(s, SessionOf(s, c).worker)
    ensures c in DoAct(cfg, s, a).clients && AcceptedExact(DoAct(cfg, s, a), c)
  {
    hide CI.Inv, CanAct, DoAct, Grows, ClientOk, BasicOk, NothingUnreadTrimmed, DeliverChannel;
    var s' := DoAct(cfg, s, a);
    StoreMoves(cfg, s, a);
    ClientMoves(cfg, s, a, c);
    if HasSession(s', c) && Subscribed(SessionOf(s', c)) {
      ChannelMoves(cfg, s, a, c);
      if HasSession(s, c) && Subscribed(SessionOf(s, c)) {
        ClientIn(cfg, s, c);
        RisingIn(cfg, s);
        var z := SessionOf(s, c);
        assert PhaseOk(cfg, s.store, s.tailers, s.clients[c], z) && Live(cfg, s.store, s.tailers, s.clients[c], z);
        if a == HandOff(z.worker) && s.tailers[z.worker].phase.Fetched? {
          TailerIn(cfg, s, z.worker);
          UnreadAt(s, z.worker);
          HandOffAcceptsAll(cfg, s.store, s.clients[c], z, s.tailers[z.worker]);
        }
        ExactGrows(s.store, s'.store, s.clients[c].aggregate, z.chan.joined, z.chan.reach, z.chan.accepted);
      }
    }
  }

  /** From state `j` up to state `i`, no row is trimmed that the tailer of session `c`'s worker has yet to read. */
  ghost predicate WorkerReadsAll(run: seq<Cluster>, c: nat, j: nat, i: nat)
    requires i <= |run|
  {
    forall k: nat :: j <= k < i && HasSession(run[k], c) ==>
      NothingUnreadTrimmed(run[k], SessionOf(run[k], c).worker)
  }

  lemma {:induction false} AcceptedExactRun(cfg: Config, run: seq<Cluster>, acts: seq<Act>, c: nat, j: nat, i: nat)
    requires IsRun(cfg, run, acts) && j <= i < |run| && HasSession(run[j], c) && SessionOf(run[j], c).phase.Opened?
    requires WorkerReadsAll(run, c, j, i)
    ensures c in run[i].clients && AcceptedExact(run[i], c)
  {
    hide CI.Inv, CanAct, DoAct, NothingUnreadTrimmed;
    if i > j {
      AcceptedExactRun(cfg, run, acts, c, j, i - 1);
      RunInv(cfg, run, acts, i - 1);
      assert Follows(cfg, run, acts, i - 1);
      AcceptedExactStep(cfg, run[i - 1], acts[i - 1], c);
    }
  }

  /** The part of a sequence with positions in (lo, hi]. */
  function Within(s: seq<Envelope>, lo: nat, hi: nat): seq<Envelope> {
    Filter(s, (e: Envelope) => lo < e.pos <= hi)
  }

  /**
   * What a hub accepts for a session is a contiguous slice of what its filter wants of the published stream,
   * overflowed or not: everything from where it joined to where it reaches.
   */
  lemma AcceptedIsSlice(cfg: Config, run: seq<Cluster>, acts: seq<Act>, c: nat, j: nat, i: nat)
    requires IsRun(cfg, run, acts) && j <= i < |run| && HasSession(run[j], c) && SessionOf(run[j], c).phase.Opened?
    requires WorkerReadsAll(run, c, j, i)
    requires HasSession(run[i], c) && Subscribed(SessionOf(run[i], c))
    ensures var ch := SessionOf(run[i], c).chan;
            && ch.accepted == SliceOf(run[i].store.published, run[i].clients[c].aggregate, ch.joined, ch.reach)
            && SessionOf(run[i], c).worker in run[i].tailers
            && (!ch.box.overflowed ==> ch.reach == run[i].tailers[SessionOf(run[i], c).worker].cursor)
  {
    hide CI.Inv, CanAct, DoAct, NothingUnreadTrimmed, ClientOk, BasicOk;
    AcceptedExactRun(cfg, run, acts, c, j, i);
    RunInv(cfg, run, acts, i);
    RisingIn(cfg, run[i]);
    ClientIn(cfg, run[i], c);
    var z := SessionOf(run[i], c);
    assert Live(cfg, run[i].store, run[i].tailers, run[i].clients[c], z);
    ExactIsSlice(run[i].store, run[i].clients[c].aggregate, z.chan.joined, z.chan.reach, z.chan.accepted);
  }

  lemma SlicesAgree(h: seq<Envelope>, aggregate: Option<ItemId>, lo: nat, hi: nat, from: nat, to: nat)
    requires Rising(h) && from <= lo && hi <= to
    ensures Within(SliceOf(h, aggregate, from, to), lo, hi) == SliceOf(h, aggregate, lo, hi)
  {
    var key := (e: Envelope) => e.pos;
    FilterAscending(h, (e: Envelope) => Wants(aggregate, e) && from < e.pos <= to, key);
    FilterAscending(h, (e: Envelope) => Wants(aggregate, e) && lo < e.pos <= hi, key);
    FilterAscending(SliceOf(h, aggregate, from, to), (e: Envelope) => lo < e.pos <= hi, key);
    AscendingUnique(Within(SliceOf(h, aggregate, from, to), lo, hi), SliceOf(h, aggregate, lo, hi), key);
  }

  /** Over a run the stream only grows, and only above its head. */
  lemma {:induction false} StreamGrows(cfg: Config, run: seq<Cluster>, acts: seq<Act>, k: nat, i: nat)
    requires IsRun(cfg, run, acts) && k <= i < |run|
    ensures var h, h' := run[k].store.published, run[i].store.published;
            && Head(h) <= Head(h')
            && (forall e :: e in h ==> e in h')
            && (forall e :: e in h' && e !in h ==> Head(h) < e.pos)
  {
    hide CI.Inv, DoAct, CanAct;
    if i > k {
      StreamGrows(cfg, run, acts, k, i - 1);
      RunInv(cfg, run, acts, i - 1);
      assert Follows(cfg, run, acts, i - 1);
      StoreMoves(cfg, run[i - 1], acts[i - 1]);
    }
  }

  lemma SliceStays(h: seq<Envelope>, h': seq<Envelope>, aggregate: Option<ItemId>, lo: nat, hi: nat)
    requires Rising(h) && Rising(h') && hi <= Head(h)
    requires (forall e :: e in h ==> e in h') && forall e :: e in h' && e !in h ==> Head(h) < e.pos
    ensures SliceOf(h', aggregate, lo, hi) == SliceOf(h, aggregate, lo, hi)
  {
    var key := (e: Envelope) => e.pos;
    var p := (e: Envelope) => Wants(aggregate, e) && lo < e.pos <= hi;
    FilterAscending(h, p, key);
    FilterAscending(h', p, key);
    AscendingUnique(Filter(h, p), Filter(h', p), key);
  }

  /** What a session has accepted by state `i`, as a slice of the stream of any later state. */
  lemma AcceptedAsOf(cfg: Config, run: seq<Cluster>, acts: seq<Act>, c: nat, j: nat, i: nat, n: nat)
    requires IsRun(cfg, run, acts) && j <= i <= n < |run| && HasSession(run[j], c) && SessionOf(run[j], c).phase.Opened?
    requires WorkerReadsAll(run, c, j, i)
    requires HasSession(run[i], c) && Subscribed(SessionOf(run[i], c))
    ensures var ch := SessionOf(run[i], c).chan;
            ch.accepted == SliceOf(run[n].store.published, run[i].clients[c].aggregate, ch.joined, ch.reach)
  {
    hide CI.Inv, CanAct, DoAct, NothingUnreadTrimmed, ClientOk, BasicOk;
    AcceptedIsSlice(cfg, run, acts, c, j, i);
    RunInv(cfg, run, acts, i);
    RunInv(cfg, run, acts, n);
    RisingIn(cfg, run[i]);
    RisingIn(cfg, run[n]);
    ClientIn(cfg, run[i], c);
    var z := SessionOf(run[i], c);
    assert Live(cfg, run[i].store, run[i].tailers, run[i].clients[c], z);
    StreamGrows(cfg, run, acts, i, n);
    SliceStays(
      run[i].store.published, run[n].store.published, run[i].clients[c].aggregate, z.chan.joined, z.chan.reach);
  }

  /**
   * One total order: two sessions with the same filter, on any two workers and at any two times, have accepted the
   * same events in the same order wherever their ranges overlap.
   */
  lemma OneOrderForAll(cfg: Config, run: seq<Cluster>, acts: seq<Act>, c: nat, j: nat, i: nat, d: nat, k: nat, m: nat)
    requires IsRun(cfg, run, acts) && j <= i < |run| && k <= m < |run|
    requires HasSession(run[j], c) && SessionOf(run[j], c).phase.Opened?
    requires HasSession(run[k], d) && SessionOf(run[k], d).phase.Opened?
    requires WorkerReadsAll(run, c, j, i)
    requires WorkerReadsAll(run, d, k, m)
    requires HasSession(run[i], c) && Subscribed(SessionOf(run[i], c))
    requires HasSession(run[m], d) && Subscribed(SessionOf(run[m], d))
    requires run[i].clients[c].aggregate == run[m].clients[d].aggregate
    ensures var a, b := SessionOf(run[i], c).chan, SessionOf(run[m], d).chan;
            var lo := Max(a.joined, b.joined);
            var hi := if a.reach < b.reach then a.reach else b.reach;
            Within(a.accepted, lo, hi) == Within(b.accepted, lo, hi)
  {
    hide CI.Inv, CanAct, DoAct, NothingUnreadTrimmed;
    var last := Max(i, m);
    AcceptedAsOf(cfg, run, acts, c, j, i, last);
    AcceptedAsOf(cfg, run, acts, d, k, m, last);
    RunInv(cfg, run, acts, last);
    RisingIn(cfg, run[last]);
    var a, b := SessionOf(run[i], c).chan, SessionOf(run[m], d).chan;
    var h, aggregate := run[last].store.published, run[i].clients[c].aggregate;
    var lo := Max(a.joined, b.joined);
    var hi := if a.reach < b.reach then a.reach else b.reach;
    SlicesAgree(h, aggregate, lo, hi, a.joined, a.reach);
    SlicesAgree(h, aggregate, lo, hi, b.joined, b.reach);
  }
}

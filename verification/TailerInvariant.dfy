/**
 * Slices of the published history, and what every tailer keeps of them.
 *
 * The completeness clauses need no assumption about retention: whatever ought to be somewhere is there, or its
 * row has been trimmed. `Delivery` turns them into exact statements for runs that trim nothing still owed.
 */
module TailerInvariant {
  import opened Model
  import opened Cluster
  import S = Store
  import Q = Queries
  import SI = StoreInvariant
  import ST = StoreTheorems

  // ---- Slices of the published history -----------------------------------------------------------

  /** The row of a published event has been deleted by retention. */
  ghost predicate Trimmed(st: S.Store, e: Envelope) {
    e.event.id !in st.outbox
  }

  /** Only wanted published events with positions in (lo, hi], in stream order. */
  ghost predicate Sound(st: S.Store, aggregate: Option<ItemId>, lo: nat, hi: nat, out: seq<Envelope>) {
    && Rising(out)
    && (forall e :: e in out ==> e in st.published && Wants(aggregate, e) && lo < e.pos <= hi)
  }

  /** All of them, but for those whose rows have been trimmed. */
  ghost predicate Complete(st: S.Store, aggregate: Option<ItemId>, lo: nat, hi: nat, out: seq<Envelope>) {
    forall e :: e in st.published && Wants(aggregate, e) && lo < e.pos <= hi ==> e in out || Trimmed(st, e)
  }

  ghost predicate Slice(st: S.Store, aggregate: Option<ItemId>, lo: nat, hi: nat, out: seq<Envelope>) {
    Sound(st, aggregate, lo, hi, out) && Complete(st, aggregate, lo, hi, out)
  }

  function Max(a: nat, b: nat): nat {
    if a < b then b else a
  }

  // ---- The database underneath -------------------------------------------------------------------

  /** What a database step can do to the stream: append above everything, and trim for good. */
  ghost predicate Grows(st: S.Store, st': S.Store) {
    && (forall e :: e in st.published ==> e in st'.published)
    && (forall e :: e in st'.published && e !in st.published ==> Head(st.published) < e.pos)
    && Head(st.published) <= Head(st'.published)
    && (forall e :: e in st.published && Trimmed(st, e) ==> Trimmed(st', e))
  }

  lemma TrimmedForGood(st: S.Store, a: S.Action, e: Envelope)
    requires SI.Inv(st) && S.Can(st, a)
    requires e in st.published && Trimmed(st, e)
    ensures Trimmed(S.Do(st, a), e)
  {
    if a.WCommit? {
      assert SI.WriterOk(st, st.writers[a.w]);
      assert e.event in st.committed;
    } else if a.Trim? {
    } else if S.CanWrite(st, a) {
      assert S.Do(st, a) == S.DoWrite(st, a);
    } else if a.PCommit? {
      assert S.Do(st, a).outbox.Keys == st.outbox.Keys;
    } else if S.CanPublish(st, a) {
      SI.PublisherStepFrame(st, a);
    }
  }

  lemma HeadIsTop(st: S.Store, e: Envelope)
    requires Rising(st.published) && e in st.published
    ensures e.pos <= Head(st.published)
  {
    var i :| 0 <= i < |st.published| && st.published[i] == e;
  }

  lemma ExtensionGrows(st: S.Store, st': S.Store)
    requires ST.Extends(st, st') && Rising(st'.published)
    requires forall e :: e in st.published && Trimmed(st, e) ==> Trimmed(st', e)
    ensures Grows(st, st')
  {
    var n := |st.published|;
    var tail := st'.published[n..];
    assert st'.published == st.published + tail;
    assert forall e :: e in st'.published <==> e in st.published || e in tail;
    if n > 0 {
      assert st.published[n - 1] == st'.published[n - 1];
      assert st'.published[n - 1] in st'.published;
      HeadIsTop(st', st'.published[n - 1]);
    }
  }

  lemma StoreGrows(st: S.Store, a: S.Action)
    requires SI.Inv(st) && S.Can(st, a)
    ensures Grows(st, S.Do(st, a)) && SI.Inv(S.Do(st, a))
  {
    ST.StreamStep(st, a);
    SI.StepKeepsInv(st, a);
    forall e | e in st.published && Trimmed(st, e) ensures Trimmed(S.Do(st, a), e) {
      TrimmedForGood(st, a, e);
    }
    ExtensionGrows(st, S.Do(st, a));
  }

  lemma SliceGrows(st: S.Store, st': S.Store, aggregate: Option<ItemId>, lo: nat, hi: nat, out: seq<Envelope>)
    requires Grows(st, st') && Complete(st, aggregate, lo, hi, out)
    requires hi <= Head(st.published) || hi <= lo
    ensures Complete(st', aggregate, lo, hi, out)
  {
  }

  /** No row in the table lies above `pos`. */
  ghost predicate Settled(st: S.Store, pos: nat) {
    forall id :: id in st.outbox && st.outbox[id].stamp.Some? ==> st.outbox[id].stamp.value.pos <= pos
  }

  lemma RisingBelowHead(rows: seq<Envelope>, e: Envelope)
    requires Rising(rows) && e in rows
    ensures e.pos <= Head(rows)
  {
    var i :| 0 <= i < |rows| && rows[i] == e;
  }

  lemma ListedIsPublished(st: S.Store, aggregate: Option<ItemId>, after: nat, e: Envelope)
    requires SI.TableOk(st) && SI.StreamOk(st)
    ensures Q.Listed(st.outbox, aggregate, after, e)
      ==> e in st.published && Wants(aggregate, e) && after < e.pos <= Head(st.published)
    ensures e in st.published && Wants(aggregate, e) && after < e.pos && !Trimmed(st, e)
      ==> Q.Listed(st.outbox, aggregate, after, e)
  {
    if Q.Listed(st.outbox, aggregate, after, e) {
      assert e in st.published;
      HeadIsTop(st, e);
    }
  }

  /** A page of the stream query is a slice of the history, up to its last row or, when short, up to the end. */
  lemma PageIsSlice(st: S.Store, aggregate: Option<ItemId>, after: nat, limit: nat)
    requires SI.TableOk(st) && SI.StreamOk(st)
    ensures var rows := S.SelectStream(st.outbox, aggregate, after, limit);
            && Slice(st, aggregate, after, Head(rows), rows)
            && Head(rows) <= Head(st.published)
            && (|rows| < limit ==> Slice(st, aggregate, after, Head(st.published), rows))
  {
    var rows := S.SelectStream(st.outbox, aggregate, after, limit);
    PositionsDistinct(st);
    Q.SelectStreamIsPage(st.outbox, aggregate, after, limit);
    forall e: Envelope {
      ListedIsPublished(st, aggregate, after, e);
    }
    forall e | e in rows ensures e.pos <= Head(rows) {
      RisingBelowHead(rows, e);
    }
    if rows != [] {
      assert rows[|rows| - 1] in rows;
    }
  }

  /** After a short page nothing in the table is left to read. */
  lemma ShortPageSettles(st: S.Store, after: nat, limit: nat)
    requires SI.TableOk(st) && SI.StreamOk(st)
    ensures var rows := S.SelectStream(st.outbox, None, after, limit);
            |rows| < limit ==> Settled(st, Max(after, Head(rows)))
  {
    var rows := S.SelectStream(st.outbox, None, after, limit);
    PositionsDistinct(st);
    Q.SelectStreamIsPage(st.outbox, None, after, limit);
    forall id | |rows| < limit && id in st.outbox && st.outbox[id].stamp.Some?
      ensures st.outbox[id].stamp.value.pos <= Max(after, Head(rows))
    {
      var e := Envelope(st.outbox[id].stamp.value.pos, st.outbox[id].event);
      if after < e.pos {
        assert Q.Listed(st.outbox, None, after, e);
        RisingBelowHead(rows, e);
      }
    }
  }

  lemma PositionsDistinct(st: S.Store)
    requires SI.TableOk(st) && SI.StreamOk(st)
    ensures Q.DistinctPositions(st.outbox)
  {
    forall i, j | i in st.outbox && j in st.outbox && i != j && st.outbox[i].stamp.Some? && st.outbox[j].stamp.Some?
      ensures st.outbox[i].stamp.value.pos != st.outbox[j].stamp.value.pos
    {
      var d := Envelope(st.outbox[i].stamp.value.pos, st.outbox[i].event);
      var e := Envelope(st.outbox[j].stamp.value.pos, st.outbox[j].event);
      assert d in st.published && e in st.published && d != e;
    }
  }

  lemma NewestIsOld(st: S.Store)
    requires SI.TableOk(st) && SI.StreamOk(st)
    ensures S.NewestPosition(st.outbox) <= Head(st.published)
  {
    Q.NewestPositionFacts(st.outbox);
    var m := S.NewestPosition(st.outbox);
    if m != 0 {
      var id :| id in st.outbox && st.outbox[id].stamp.Some? && st.outbox[id].stamp.value.pos == m;
      HeadIsTop(st, Envelope(m, st.outbox[id].event));
    }
  }

  // ---- Tailers -----------------------------------------------------------------------------------

  /** What a tailer has handed to its hub is the slice from its origin to its cursor; a fetched batch is the next. */
  ghost predicate TailerOk(st: S.Store, t: Tailer) {
    && t.origin <= t.cursor <= Head(st.published)
    && Slice(st, None, t.origin, t.cursor, t.handed)
    && (t.phase.Fetched? ==>
          && Slice(st, None, t.cursor, Head(t.phase.rows), t.phase.rows)
          && Head(t.phase.rows) <= Head(st.published))
    && (t.phase.Down? ==> !t.connected)
    && (t.phase.Starting? ==> t.handed == [])
  }

  /** Connected, nothing in flight, flag clear: only a poll timeout would wake it. */
  predicate Quiet(t: Tailer) {
    t.connected && !t.wakeup && t.notices == 0
  }

  ghost predicate WakeOk(cfg: Config, st: S.Store, t: Tailer) {
    Quiet(t) ==>
      && (t.phase.Waiting? ==> Settled(st, t.cursor))
      && (t.phase.Fetched? && |t.phase.rows| < cfg.tailBatch ==> Settled(st, Max(t.cursor, Head(t.phase.rows))))
  }

  lemma SliceJoin(
    st: S.Store, aggregate: Option<ItemId>, lo: nat, mid: nat, hi: nat, a: seq<Envelope>, b: seq<Envelope>)
    requires Slice(st, aggregate, lo, mid, a) && Slice(st, aggregate, mid, hi, b) && lo <= mid <= hi
    ensures Slice(st, aggregate, lo, hi, a + b)
  {
    assert forall i :: 0 <= i < |a| ==> a[i] in a;
    assert forall i :: 0 <= i < |b| ==> b[i] in b;
  }

  lemma TailerGrows(cfg: Config, st: S.Store, st': S.Store, t: Tailer)
    requires Grows(st, st') && TailerOk(st, t)
    ensures TailerOk(st', t)
  {
    SliceGrows(st, st', None, t.origin, t.cursor, t.handed);
    if t.phase.Fetched? {
      SliceGrows(st, st', None, t.cursor, Head(t.phase.rows), t.phase.rows);
    }
  }

  /** Everything but a publisher's commit leaves a settled stream settled. */
  lemma SettledStays(st: S.Store, a: S.Action, pos: nat)
    requires SI.Inv(st) && S.Can(st, a) && !a.PCommit? && Settled(st, pos)
    ensures Settled(S.Do(st, a), pos)
  {
    hide SI.WriteInv, SI.TableOk, SI.StreamOk, SI.BlocksOk;
    hide S.ClaimRows, S.LockedRows, S.MarkRows, S.BlockEvents, S.AgedRows;
    if a.WCommit? {
    } else if a.Trim? {
    } else if S.CanWrite(st, a) {
      assert S.Do(st, a) == S.DoWrite(st, a);
    } else if S.CanPublish(st, a) {
      SI.PublisherStepFrame(st, a);
    }
  }

  lemma WakeSurvivesDb(cfg: Config, st: S.Store, a: S.Action, t: Tailer)
    requires SI.Inv(st) && S.Can(st, a) && WakeOk(cfg, st, t)
    ensures WakeOk(cfg, S.Do(st, a), if a.PCommit? then Notified(t) else t)
  {
    if !a.PCommit? && Quiet(t) {
      if t.phase.Waiting? { SettledStays(st, a, t.cursor); }
      if t.phase.Fetched? && |t.phase.rows| < cfg.tailBatch { SettledStays(st, a, Max(t.cursor, Head(t.phase.rows))); }
    }
  }

  lemma HandOffKeepsTailer(cfg: Config, st: S.Store, t: Tailer)
    requires TailerOk(st, t) && WakeOk(cfg, st, t) && t.phase.Fetched?
    ensures TailerOk(st, AfterHandOff(cfg, t)) && WakeOk(cfg, st, AfterHandOff(cfg, t))
  {
    var rows := t.phase.rows;
    if rows != [] {
      assert rows[|rows| - 1] in rows;
      SliceJoin(st, None, t.origin, t.cursor, Head(rows), t.handed, rows);
    }
  }

  lemma FetchKeepsTailer(cfg: Config, s: Cluster, w: nat)
    requires CanTail(s, Fetch(w)) && SI.Inv(s.store) && TailerOk(s.store, s.tailers[w])
    ensures var t := DoTail(cfg, s, Fetch(w)).tailers[w]; TailerOk(s.store, t) && WakeOk(cfg, s.store, t)
  {
    PageIsSlice(s.store, None, s.tailers[w].cursor, cfg.tailBatch);
    ShortPageSettles(s.store, s.tailers[w].cursor, cfg.tailBatch);
  }

  lemma PositionKeepsTailer(cfg: Config, s: Cluster, w: nat)
    requires CanTail(s, Position(w)) && SI.Inv(s.store) && TailerOk(s.store, s.tailers[w])
    ensures var t := DoTail(cfg, s, Position(w)).tailers[w]; TailerOk(s.store, t) && WakeOk(cfg, s.store, t)
  {
    NewestIsOld(s.store);
  }

  /** The record a tailer step leaves for its own worker. */
  lemma TailStepKeepsTailer(cfg: Config, s: Cluster, a: Act)
    requires CanTail(s, a) && SI.Inv(s.store)
    requires a.w in s.tailers ==> TailerOk(s.store, s.tailers[a.w]) && WakeOk(cfg, s.store, s.tailers[a.w])
    ensures var t := DoTail(cfg, s, a).tailers[a.w]; TailerOk(s.store, t) && WakeOk(cfg, s.store, t)
  {
    match a {
      case Position(w) => PositionKeepsTailer(cfg, s, w);
      case Fetch(w) => FetchKeepsTailer(cfg, s, w);
      case HandOff(w) => HandOffKeepsTailer(cfg, s.store, s.tailers[w]);
      case _ =>
    }
  }
}

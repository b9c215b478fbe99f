/** What one client sees of one entity: the two orders, stream and entity, put together. */
module History {
  import opened Model
  import opened Ordering
  import opened Cluster
  import opened SessionInvariant
  import opened Delivery
  import L = EventLog
  import CI = ClusterInvariant
  import S = Store
  import ST = StoreTheorems

  /** The database of a run is one the database machine reaches by itself. */
  lemma {:induction false} StoreReachable(cfg: Config, run: seq<Cluster>, acts: seq<Act>, i: nat)
    requires IsRun(cfg, run, acts) && i < |run|
    ensures ST.Reachable(run[i].store)
  {
    hide CI.Inv, CanAct, DoAct, ST.Reachable;
    if i == 0 {
      EmptyReachable();
    } else {
      StoreReachable(cfg, run, acts, i - 1);
      RunInv(cfg, run, acts, i - 1);
      assert Follows(cfg, run, acts, i - 1);
      StepReachable(cfg, run[i - 1], acts[i - 1]);
    }
  }

  lemma EmptyReachable()
    ensures ST.Reachable(S.Empty)
  {
    assert ST.After([]) == Some(S.Empty);
  }

  lemma StepReachable(cfg: Config, s: Cluster, a: Act)
    requires CI.Inv(cfg, s) && CanAct(s, a) && ST.Reachable(s.store)
    ensures ST.Reachable(DoAct(cfg, s, a).store)
  {
    hide CI.Inv, S.Can, S.Do, DoTail, DoStream;
    if a.Db? {
      var db :| ST.After(db) == Some(s.store);
      assert (db + [a.a])[..|db|] == db;
      assert ST.After(db + [a.a]) == Some(S.Do(s.store, a.a));
    } else {
      StoreMoves(cfg, s, a);
    }
  }

  // ---- A slice of the stream, one entity at a time ---------------------------------------------------

  lemma EventsConcat(a: seq<Envelope>, b: seq<Envelope>)
    ensures ST.Events(a + b) == ST.Events(a) + ST.Events(b)
  {
  }

  /** The first position above `lo`. */
  lemma {:induction false} Cut(h: seq<Envelope>, lo: nat) returns (n: nat)
    requires Rising(h)
    ensures n <= |h|
    ensures forall k :: 0 <= k < n ==> h[k].pos <= lo
    ensures forall k :: n <= k < |h| ==> lo < h[k].pos
  {
    if h == [] {
      n := 0;
    } else if h[|h| - 1].pos <= lo {
      n := |h|;
    } else {
      n := Cut(h[..|h| - 1], lo);
    }
  }

  /** One entity's part of a stretch of the stream. */
  function Part(h: seq<Envelope>, x: ItemId): seq<Event> {
    L.Project(ST.Events(h), x)
  }

  lemma PartSnoc(h: seq<Envelope>, e: Envelope, x: ItemId)
    ensures Part(h + [e], x) == if e.event.aggregate == x then Part(h, x) + [e.event] else Part(h, x)
  {
    L.ProjectSnoc(ST.Events(h), e.event, x);
    assert ST.Events(h + [e]) == ST.Events(h) + [e.event];
    assert Part(h, x) + [] == Part(h, x);
  }

  lemma SliceSnoc(h: seq<Envelope>, e: Envelope, aggregate: Option<ItemId>, lo: nat, hi: nat)
    ensures SliceOf(h + [e], aggregate, lo, hi)
         == if Wants(aggregate, e) && lo < e.pos <= hi then SliceOf(h, aggregate, lo, hi) + [e]
            else SliceOf(h, aggregate, lo, hi)
  {
    FilterSnoc(h, e, (e: Envelope) => Wants(aggregate, e) && lo < e.pos <= hi);
    assert SliceOf(h, aggregate, lo, hi) + [] == SliceOf(h, aggregate, lo, hi);
  }

  /** Where every position is in range, selecting what a filter wants loses nothing of an entity that it wants. */
  lemma {:induction false} InRange(h: seq<Envelope>, aggregate: Option<ItemId>, lo: nat, hi: nat, x: ItemId)
    requires forall k :: 0 <= k < |h| ==> lo < h[k].pos <= hi
    requires aggregate.None? || aggregate.value == x
    ensures Part(SliceOf(h, aggregate, lo, hi), x) == Part(h, x)
  {
    hide Part, SliceOf;
    if h == [] {
      OutOfRange(h, aggregate, lo, hi);
    } else {
      var init, e := h[..|h| - 1], h[|h| - 1];
      InRange(init, aggregate, lo, hi, x);
      assert h == init + [e];
      SliceSnoc(init, e, aggregate, lo, hi);
      PartSnoc(init, e, x);
      PartSnoc(SliceOf(init, aggregate, lo, hi), e, x);
    }
  }

  lemma {:induction false} OutOfRange(h: seq<Envelope>, aggregate: Option<ItemId>, lo: nat, hi: nat)
    requires forall k :: 0 <= k < |h| ==> h[k].pos <= lo || hi < h[k].pos
    ensures SliceOf(h, aggregate, lo, hi) == []
  {
    if h != [] { OutOfRange(h[..|h| - 1], aggregate, lo, hi); }
  }

  lemma SliceConcat(a: seq<Envelope>, b: seq<Envelope>, aggregate: Option<ItemId>, lo: nat, hi: nat)
    ensures SliceOf(a + b, aggregate, lo, hi) == SliceOf(a, aggregate, lo, hi) + SliceOf(b, aggregate, lo, hi)
  {
    FilterConcat(a, b, (e: Envelope) => Wants(aggregate, e) && lo < e.pos <= hi);
  }

  lemma PartConcat(a: seq<Envelope>, b: seq<Envelope>, x: ItemId)
    ensures Part(a + b, x) == Part(a, x) + Part(b, x)
  {
    EventsConcat(a, b);
    FilterConcat(ST.Events(a), ST.Events(b), (e: Event) => e.aggregate == x);
  }

  /** A slice of the stream holds a contiguous block of each entity's events. */
  lemma SliceIsBlock(h: seq<Envelope>, aggregate: Option<ItemId>, lo: nat, hi: nat, x: ItemId)
    returns (from: nat, to: nat)
    requires Rising(h) && lo <= hi && (aggregate.None? || aggregate.value == x)
    ensures from <= to <= |Part(h, x)| && Part(SliceOf(h, aggregate, lo, hi), x) == Part(h, x)[from..to]
  {
    hide SliceOf, Part;
    var m := Cut(h, lo);
    var a, rest := h[..m], h[m..];
    var n := Cut(rest, hi);
    var b, c := rest[..n], rest[n..];
    assert h == a + rest && rest == b + c;
    OutOfRange(a, aggregate, lo, hi);
    OutOfRange(c, aggregate, lo, hi);
    InRange(b, aggregate, lo, hi, x);
    SliceConcat(a, rest, aggregate, lo, hi);
    SliceConcat(b, c, aggregate, lo, hi);
    PartConcat(a, rest, x);
    PartConcat(b, c, x);
    from := |Part(a, x)|;
    to := from + |Part(b, x)|;
    assert [] + (SliceOf(b, aggregate, lo, hi) + []) == SliceOf(b, aggregate, lo, hi);
    assert (Part(a, x) + (Part(b, x) + Part(c, x)))[from..to] == Part(b, x);
  }

  // ---- One client, one entity ------------------------------------------------------------------------

  lemma BaseBelowCursor(cfg: Config, s: Cluster, c: nat)
    requires CI.Inv(cfg, s) && c in s.clients
    ensures Base(s.clients[c]) <= s.clients[c].reader.cursor
  {
    ClientIn(cfg, s, c);
    var client := s.clients[c];
    if client.log != [] { assert client.log[0] in client.log; }
  }

  /**
   * While no event it is still owed is trimmed, a client sees of each entity that its filter wants a contiguous
   * block of the entity's committed history: consecutive versions, in write order, starting and ending as the
   * history does if it reaches that far.
   */
  lemma EntityHistory(cfg: Config, run: seq<Cluster>, acts: seq<Act>, c: nat, i: nat, x: ItemId)
    returns (from: nat, to: nat)
    requires IsRun(cfg, run, acts) && i < |run| && c in run[0].clients && run[0].clients[c].replay
    requires forall k: nat :: k < i && c in run[k].clients ==> NothingOwedTrimmed(run[k], c)
    requires c in run[i].clients ==> run[i].clients[c].aggregate.None? || run[i].clients[c].aggregate.value == x
    ensures c in run[i].clients && from <= to <= |L.Project(run[i].store.committed, x)|
    ensures var seen := Part(run[i].clients[c].log, x);
            && seen == L.Project(run[i].store.committed, x)[from..to]
            && forall k :: 0 <= k < |seen| ==>
                 && (seen[k].kind.Created? <==> from + k == 0)
                 && (seen[k].kind.Deleted? ==> k == |seen| - 1)
                 && seen[k].payload.version == if seen[k].kind.Deleted? then from + k else from + k + 1
  {
    hide CI.Inv, CanAct, DoAct, NothingOwedTrimmed, ST.Reachable, SliceOf, Base, L.Project, ST.Events;
    ExactlyOnce(cfg, run, acts, c, i);
    RunInv(cfg, run, acts, i);
    RisingIn(cfg, run[i]);
    BaseBelowCursor(cfg, run[i], c);
    StoreReachable(cfg, run, acts, i);
    var client, st := run[i].clients[c], run[i].store;
    from, to := SliceIsBlock(st.published, client.aggregate, Base(client), client.reader.cursor, x);
    ST.PerEntityOrder(st, x);
    ST.EventLogGrammar(st, x);
    var whole := L.Project(st.committed, x);
    assert Part(st.published, x)[from..to] == whole[from..to];
    assert forall k :: 0 <= k < to - from ==> whole[from..to][k] == whole[from + k];
  }
}

/** The tailer's own code: it reads batches above its cursor and hands each to its hub. */
module Tailer {
  import opened Model
  import opened Store
  import opened Queries
  import opened Mailboxes
  import opened Paging
  import opened Hub
  import Cluster

  class OutboxTailer {
    const batchSize: nat
    const debounce: nat
    const hub: StreamHub
    var stopping: bool
    var wakeup: bool
    var cursor: nat
    var deliveredTotal: nat

    constructor (batchSize: nat, debounce: nat, hub: StreamHub)
      ensures this.batchSize == batchSize && this.debounce == debounce && this.hub == hub
      ensures !stopping && !wakeup && cursor == 0 && deliveredTotal == 0
    {
      this.batchSize, this.debounce, this.hub := batchSize, debounce, hub;
      stopping, wakeup, cursor, deliveredTotal := false, false, 0, 0;
    }

    /** Starts at the newest position: nothing in the table is above it, everything published later is. */
    method Start(outbox: Outbox)
      modifies this`cursor, this`stopping
      ensures !stopping && cursor == NewestPosition(outbox)
      ensures StreamAfter(outbox, None, cursor) == []
    {
      stopping := false;
      cursor := NewestPosition(outbox);
      NothingAboveNewest(outbox);
    }

    method OnNotify()
      modifies this`wakeup
      ensures wakeup
    {
      wakeup := true;
    }

    /**
     * `arrives` says that a notification comes before the poll timeout, `again` that one comes during the debounce.
     * Either way of waking spends the flag, but a notification that comes after that is kept for the next wait.
     */
    method WaitForSignal(arrives: bool, again: bool) returns (woken: bool)
      modifies this`wakeup
      ensures woken <==> old(wakeup) || arrives
      ensures wakeup <==> woken && debounce > 0 && again
    {
      if !wakeup && arrives {
        OnNotify();
      }
      woken := wakeup;
      wakeup := false;
      if woken && debounce > 0 {
        if again {
          OnNotify();
        }
      }
    }

    /**
     * One fetch and hand-off: the cursor moves to the last row and every subscriber is offered the rows, with
     * nothing in between.
     */
    method DeliverBatch(outbox: Outbox) returns (count: nat)
      requires hub.Valid()
      modifies this`cursor, this`deliveredTotal, hub.subscribers.Values
      ensures hub.Valid()
      ensures var rows := SelectStream(outbox, None, old(cursor), batchSize);
        && count == |rows| && cursor == Next(old(cursor), rows)
        && deliveredTotal == old(deliveredTotal) + count
        && forall i :: i in hub.subscribers ==>
            hub.subscribers[i].State() == Deliver(old(hub.subscribers[i].State()), rows)
    {
      hide SelectStream, Deliver;
      var rows := SelectStream(outbox, None, cursor, batchSize);
      forall m: Mailbox ensures Deliver(m, []) == m { NothingDelivered(m); }
      if rows == [] {
        return 0;
      }
      cursor := rows[|rows| - 1].pos;
      hub.Publish(rows);
      deliveredTotal := deliveredTotal + |rows|;
      return |rows|;
    }

    /**
     * Batching is invisible: on a table that does not change meanwhile, draining in batches of any size delivers
     * to every subscriber what one unbounded read would, and leaves nothing above the cursor.
     */
    method Drain(outbox: Outbox) returns (total: nat)
      requires hub.Valid() && batchSize >= 1 && Keyed(outbox) && DistinctPositions(outbox)
      modifies this`cursor, this`deliveredTotal, hub.subscribers.Values
      ensures hub.Valid()
      ensures stopping ==> total == 0 && cursor == old(cursor)
      ensures !stopping ==>
        var rows := StreamAfter(outbox, None, old(cursor));
        && total == |rows| && cursor == Next(old(cursor), rows) && StreamAfter(outbox, None, cursor) == []
        && forall i :: i in hub.subscribers ==>
            hub.subscribers[i].State() == Deliver(old(hub.subscribers[i].State()), rows)
      ensures deliveredTotal == old(deliveredTotal) + total
    {
      hide SelectStream, StreamAfter, Deliver, Keyed, DistinctPositions;
      ghost var start, given := cursor, [];
      forall m: Mailbox ensures Deliver(m, []) == m { NothingDelivered(m); }
      total := 0;
      while !stopping
        invariant hub.Valid() && total == |given| && deliveredTotal == old(deliveredTotal) + total
        invariant stopping ==> given == [] && cursor == start
        invariant cursor == Next(start, given)
        invariant StreamAfter(outbox, None, start) == given + StreamAfter(outbox, None, cursor)
        invariant forall i :: i in hub.subscribers ==>
          hub.subscribers[i].State() == Deliver(old(hub.subscribers[i].State()), given)
        decreases |StreamAfter(outbox, None, cursor)|
      {
        ghost var page := SelectStream(outbox, None, cursor, batchSize);
        PageThenRest(outbox, None, cursor, batchSize);
        forall m: Mailbox ensures Deliver(Deliver(m, given), page) == Deliver(m, given + page) {
          DeliverConcat(m, given, page);
        }
        assert (given + page) + StreamAfter(outbox, None, Next(cursor, page))
            == given + (page + StreamAfter(outbox, None, Next(cursor, page)));
        given := given + page;
        var delivered := DeliverBatch(outbox);
        total := total + delivered;
        if delivered < batchSize {
          break;
        }
      }
      assert given + [] == given;
    }
  }

  lemma {:induction false} DeliverConcat(m: Mailbox, a: seq<Envelope>, b: seq<Envelope>)
    ensures Deliver(Deliver(m, a), b) == Deliver(m, a + b)
  {
    if b == [] {
      assert a + b == a;
    } else {
      DeliverConcat(m, a, b[..|b| - 1]);
      assert (a + b)[..|a + b| - 1] == a + b[..|b| - 1];
    }
  }

  lemma NothingDelivered(m: Mailbox)
    ensures Deliver(m, []) == m
  {
  }

  lemma NothingAboveNewest(outbox: Outbox)
    ensures StreamAfter(outbox, None, NewestPosition(outbox)) == []
  {
    NewestPositionFacts(outbox);
    forall id | id in outbox && outbox[id].stamp.Some? ensures outbox[id].stamp.value.pos <= NewestPosition(outbox) {
      assert outbox[id].stamp.value.pos in Positions(outbox);
    }
    assert StreamIds(outbox, None, NewestPosition(outbox)) == {};
  }

  // ---- The same batch as two steps of the service ----------------------------------------------------

  lemma {:induction false} ChannelsAreMailboxes(ch: Cluster.Channel, rows: seq<Envelope>)
    ensures Cluster.DeliverChannel(ch, rows).box == Deliver(ch.box, rows)
  {
    if rows != [] { ChannelsAreMailboxes(ch, rows[..|rows| - 1]); }
  }

  /**
   * The machine's `Fetch` and `HandOff`, with nothing of this worker in between, do to the cursor and to every
   * subscribed session what `DeliverBatch` does, and keep draining exactly while batches come back full.
   */
  lemma BatchIsFetchThenHandOff(cfg: Cluster.Config, s: Cluster.Cluster, w: nat, c: nat)
    requires Cluster.ValidConfig(cfg) && Cluster.CanAct(s, Cluster.Fetch(w))
    requires Cluster.HasSession(s, c) && Cluster.SessionOf(s, c).worker == w
    requires Cluster.Subscribed(Cluster.SessionOf(s, c))
    ensures var fetched := Cluster.DoAct(cfg, s, Cluster.Fetch(w));
            && Cluster.CanAct(fetched, Cluster.HandOff(w))
            && var s' := Cluster.DoAct(cfg, fetched, Cluster.HandOff(w));
            var rows := SelectStream(s.store.outbox, None, s.tailers[w].cursor, cfg.tailBatch);
            && s'.tailers[w].cursor == Next(s.tailers[w].cursor, rows)
            && (s'.tailers[w].phase.Ready? <==> |rows| == cfg.tailBatch)
            && Cluster.HasSession(s', c)
            && Cluster.SessionOf(s', c).chan.box == Deliver(Cluster.SessionOf(s, c).chan.box, rows)
  {
    hide SelectStream;
    var rows := SelectStream(s.store.outbox, None, s.tailers[w].cursor, cfg.tailBatch);
    ChannelsAreMailboxes(Cluster.SessionOf(s, c).chan, rows);
    AtMostLimit(s.store.outbox, s.tailers[w].cursor, cfg.tailBatch);
    var t := s.tailers[w];
    var fetched := Cluster.DoAct(cfg, s, Cluster.Fetch(w));
    assert fetched == Cluster.SetTailer(s, w, t.(phase := Cluster.Fetched(rows)));
    var s' := Cluster.DoAct(cfg, fetched, Cluster.HandOff(w));
    assert s'.tailers[w] == Cluster.AfterHandOff(cfg, fetched.tailers[w]);
    assert Cluster.SessionOf(s', c) == Cluster.Delivered(Cluster.SessionOf(s, c), rows);
  }

  lemma AtMostLimit(outbox: Outbox, after: nat, limit: nat)
    ensures |SelectStream(outbox, None, after, limit)| <= limit
  {
  }
}

/** What the SQL selections return, stated without saying how the rows are sorted. */
module Queries {
  import opened Model
  import opened Ordering
  import opened Store

  ghost predicate Keyed(outbox: Outbox) {
    forall id :: id in outbox ==> outbox[id].event.id == id
  }

  /** The unique index on stream_seq. */
  ghost predicate DistinctPositions(outbox: Outbox) {
    forall i, j :: i in outbox && j in outbox && i != j && outbox[i].stamp.Some? && outbox[j].stamp.Some?
      ==> outbox[i].stamp.value.pos != outbox[j].stamp.value.pos
  }

  /** The envelope of a published row that is still in the table. */
  ghost predicate InTable(outbox: Outbox, e: Envelope) {
    && e.event.id in outbox
    && outbox[e.event.id].event == e.event
    && outbox[e.event.id].stamp.Some?
    && outbox[e.event.id].stamp.value.pos == e.pos
  }

  ghost predicate Listed(outbox: Outbox, aggregate: Option<ItemId>, after: nat, e: Envelope) {
    InTable(outbox, e) && after < e.pos && Wants(aggregate, e)
  }

  /** `rows` is the first `limit` published rows above `after` that the filter admits, in stream order. */
  ghost predicate IsPage(outbox: Outbox, aggregate: Option<ItemId>, after: nat, limit: nat, rows: seq<Envelope>) {
    && Rising(rows)
    && |rows| <= limit
    && (forall e :: e in rows ==> Listed(outbox, aggregate, after, e))
    && (forall e :: Listed(outbox, aggregate, after, e) && (|rows| < limit || (rows != [] && e.pos <= Head(rows)))
          ==> e in rows)
  }

  lemma SelectStreamRises(outbox: Outbox, aggregate: Option<ItemId>, after: nat, limit: nat)
    requires DistinctPositions(outbox)
    ensures Rising(SelectStream(outbox, aggregate, after, limit))
  {
    var page := FirstBy(StreamIds(outbox, aggregate, after), ByPosition(outbox), limit);
    forall i, j | 0 <= i < j < |page| ensures PosOf(outbox, page[i]) < PosOf(outbox, page[j]) {
      assert Before(ByPosition(outbox), page[i], page[j]);
      assert page[i] in page && page[j] in page;
    }
  }

  lemma SelectStreamListed(outbox: Outbox, aggregate: Option<ItemId>, after: nat, limit: nat, e: Envelope)
    requires Keyed(outbox)
    requires e in SelectStream(outbox, aggregate, after, limit)
    ensures Listed(outbox, aggregate, after, e)
  {
    var page := FirstBy(StreamIds(outbox, aggregate, after), ByPosition(outbox), limit);
    var rows := SelectStream(outbox, aggregate, after, limit);
    var k :| 0 <= k < |rows| && rows[k] == e;
    assert page[k] in page && page[k] in StreamIds(outbox, aggregate, after);
  }

  lemma SelectStreamTakes(outbox: Outbox, aggregate: Option<ItemId>, after: nat, limit: nat, e: Envelope)
    requires Keyed(outbox) && DistinctPositions(outbox)
    requires Listed(outbox, aggregate, after, e)
    requires var rows := SelectStream(outbox, aggregate, after, limit);
             |rows| < limit || (rows != [] && e.pos <= Head(rows))
    ensures e in SelectStream(outbox, aggregate, after, limit)
  {
    var ids := StreamIds(outbox, aggregate, after);
    var page := FirstBy(ids, ByPosition(outbox), limit);
    var rows := SelectStream(outbox, aggregate, after, limit);
    var id := e.event.id;
    assert id in ids;
    if |rows| == limit {
      var last := page[|page| - 1];
      assert last in page && last in ids;
      assert id != last ==> PosOf(outbox, id) != PosOf(outbox, last);
      assert Before(ByPosition(outbox), id, last);
    }
    var k :| 0 <= k < |page| && page[k] == id;
    assert rows[k] == e;
  }

  lemma SelectStreamIsPage(outbox: Outbox, aggregate: Option<ItemId>, after: nat, limit: nat)
    requires Keyed(outbox) && DistinctPositions(outbox)
    ensures IsPage(outbox, aggregate, after, limit, SelectStream(outbox, aggregate, after, limit))
  {
    var rows := SelectStream(outbox, aggregate, after, limit);
    SelectStreamRises(outbox, aggregate, after, limit);
    forall e | e in rows ensures Listed(outbox, aggregate, after, e) {
      SelectStreamListed(outbox, aggregate, after, limit, e);
    }
    forall e | Listed(outbox, aggregate, after, e) && (|rows| < limit || (rows != [] && e.pos <= Head(rows)))
      ensures e in rows
    {
      SelectStreamTakes(outbox, aggregate, after, limit, e);
    }
  }

  /** `ids` is the first `limit` queued rows nobody else has locked, in id order. */
  ghost predicate IsClaim(outbox: Outbox, locked: set<nat>, limit: nat, ids: seq<nat>) {
    && (forall i, j :: 0 <= i < j < |ids| ==> ids[i] < ids[j])
    && |ids| <= limit
    && (forall id :: id in ids ==> Queued(outbox, id) && id !in locked)
    && (forall id :: Queued(outbox, id) && id !in locked && (|ids| < limit || (ids != [] && id <= ids[|ids| - 1]))
          ==> id in ids)
  }

  lemma ClaimRowsIsClaim(outbox: Outbox, locked: set<nat>, limit: nat)
    ensures IsClaim(outbox, locked, limit, ClaimRows(outbox, locked, limit))
  {
    var ids := ClaimRows(outbox, locked, limit);
    assert forall i, j :: 0 <= i < j < |ids| ==> Before(ById, ids[i], ids[j]);
    forall id | Queued(outbox, id) && id !in locked && ids != [] && id <= ids[|ids| - 1] ensures id in ids {
      assert Before(ById, id, ids[|ids| - 1]);
    }
  }

  ghost predicate Aged(outbox: Outbox, cutoff: Time, id: nat) {
    id in outbox && outbox[id].stamp.Some? && outbox[id].stamp.value.at < cutoff
  }

  /** `ids` is the first `limit` published rows older than the cutoff, in id order. */
  ghost predicate IsAgedBatch(outbox: Outbox, cutoff: Time, limit: nat, ids: seq<nat>) {
    && (forall i, j :: 0 <= i < j < |ids| ==> ids[i] < ids[j])
    && |ids| <= limit
    && (forall id :: id in ids ==> Aged(outbox, cutoff, id))
    && (forall id :: Aged(outbox, cutoff, id) && (|ids| < limit || (ids != [] && id <= ids[|ids| - 1])) ==> id in ids)
  }

  lemma AgedRowsIsAgedBatch(outbox: Outbox, cutoff: Time, limit: nat)
    ensures IsAgedBatch(outbox, cutoff, limit, AgedRows(outbox, cutoff, limit))
  {
    var ids := AgedRows(outbox, cutoff, limit);
    assert forall i, j :: 0 <= i < j < |ids| ==> Before(ById, ids[i], ids[j]);
    forall id | Aged(outbox, cutoff, id) && ids != [] && id <= ids[|ids| - 1] ensures id in ids {
      assert Before(ById, id, ids[|ids| - 1]);
    }
  }

  lemma OldestPositionFacts(outbox: Outbox)
    ensures var m := OldestPosition(outbox);
            && (m.None? <==> forall id :: id in outbox ==> outbox[id].stamp.None?)
            && (m.Some? ==> m.value in Positions(outbox) && forall p :: p in Positions(outbox) ==> m.value <= p)
  {
    var ps := OrderBy(Positions(outbox), ById);
    if ps == [] {
      assert forall id :: id in outbox && outbox[id].stamp.Some? ==> outbox[id].stamp.value.pos in Positions(outbox);
      assert forall p :: p in Positions(outbox) ==> p in ps;
    } else {
      assert ps[0] in ps;
      forall p | p in Positions(outbox) ensures ps[0] <= p {
        var k :| 0 <= k < |ps| && ps[k] == p;
        if k > 0 { assert Before(ById, ps[0], ps[k]); }
      }
    }
  }

  lemma NewestPositionFacts(outbox: Outbox)
    ensures var m := NewestPosition(outbox);
            && (m == 0 || m in Positions(outbox))
            && (forall p :: p in Positions(outbox) ==> p <= m)
  {
    var ps := OrderBy(Positions(outbox), ById);
    if ps != [] {
      assert ps[|ps| - 1] in ps;
    }
    forall p | p in Positions(outbox) ensures p <= NewestPosition(outbox) {
      var k :| 0 <= k < |ps| && ps[k] == p;
      if k < |ps| - 1 { assert Before(ById, ps[k], ps[|ps| - 1]); }
    }
  }
}

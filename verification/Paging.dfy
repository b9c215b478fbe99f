/** Reading the stream page by page on one snapshot is the same as reading it at once. */
module Paging {
  import opened Model
  import opened Ordering
  import opened Store
  import opened Queries

  /** The unbounded ordered read: every published row above `after` that the filter admits. */
  function StreamAfter(outbox: Outbox, aggregate: Option<ItemId>, after: nat): seq<Envelope> {
    SelectStream(outbox, aggregate, after, |outbox| + 1)
  }

  lemma StreamAfterIsAll(outbox: Outbox, aggregate: Option<ItemId>, after: nat)
    requires Keyed(outbox) && DistinctPositions(outbox)
    ensures Rising(StreamAfter(outbox, aggregate, after))
    ensures forall e :: e in StreamAfter(outbox, aggregate, after) <==> Listed(outbox, aggregate, after, e)
  {
    var ids := StreamIds(outbox, aggregate, after);
    Subset(ids, outbox.Keys);
    SelectStreamIsPage(outbox, aggregate, after, |outbox| + 1);
  }

  lemma {:induction false} Subset(a: set<nat>, b: set<nat>)
    requires a <= b
    ensures |a| <= |b|
  {
    if a != {} {
      var x :| x in a;
      Subset(a - {x}, b - {x});
    }
  }

  /** The position a reader holds after a page. */
  function Next(after: nat, page: seq<Envelope>): nat {
    if page == [] then after else page[|page| - 1].pos
  }

  /** A page followed by everything after its last position is everything; a short page is everything. */
  lemma PageThenRest(outbox: Outbox, aggregate: Option<ItemId>, after: nat, limit: nat)
    requires Keyed(outbox) && DistinctPositions(outbox) && limit >= 1
    ensures var page := SelectStream(outbox, aggregate, after, limit);
            && StreamAfter(outbox, aggregate, after) == page + StreamAfter(outbox, aggregate, Next(after, page))
            && (|page| < limit ==> StreamAfter(outbox, aggregate, Next(after, page)) == [])
  {
    hide SelectStream, StreamAfter;
    var page := SelectStream(outbox, aggregate, after, limit);
    var next := Next(after, page);
    var rest := StreamAfter(outbox, aggregate, next);
    SelectStreamIsPage(outbox, aggregate, after, limit);
    StreamAfterIsAll(outbox, aggregate, after);
    StreamAfterIsAll(outbox, aggregate, next);
    forall e ensures e in StreamAfter(outbox, aggregate, after) <==> e in page + rest {
      PageOrRest(outbox, aggregate, after, limit, page, e);
    }
    PageBelowRest(outbox, aggregate, after, limit, page, rest);
    AscendingUnique(StreamAfter(outbox, aggregate, after), page + rest, (e: Envelope) => e.pos);
    if |page| < limit {
      ShortPageIsLast(outbox, aggregate, after, limit, page);
    }
  }

  lemma PageOrRest(outbox: Outbox, aggregate: Option<ItemId>, after: nat, limit: nat, page: seq<Envelope>, e: Envelope)
    requires IsPage(outbox, aggregate, after, limit, page) && limit >= 1
    ensures Listed(outbox, aggregate, after, e) <==> e in page || Listed(outbox, aggregate, Next(after, page), e)
  {
    if page != [] {
      var last := page[|page| - 1];
      assert last in page;
      assert Listed(outbox, aggregate, after, last);
    }
  }

  lemma PageBelowRest(
    outbox: Outbox, aggregate: Option<ItemId>, after: nat, limit: nat, page: seq<Envelope>, rest: seq<Envelope>)
    requires IsPage(outbox, aggregate, after, limit, page) && Rising(rest)
    requires forall e :: e in rest ==> Listed(outbox, aggregate, Next(after, page), e)
    ensures Rising(page + rest)
  {
    forall i, j | 0 <= i < |page| && 0 <= j < |rest| ensures page[i].pos < rest[j].pos {
      assert rest[j] in rest;
    }
  }

  lemma ShortPageIsLast(outbox: Outbox, aggregate: Option<ItemId>, after: nat, limit: nat, page: seq<Envelope>)
    requires Keyed(outbox) && DistinctPositions(outbox)
    requires IsPage(outbox, aggregate, after, limit, page) && |page| < limit
    ensures StreamAfter(outbox, aggregate, Next(after, page)) == []
  {
    hide StreamAfter;
    var rest := StreamAfter(outbox, aggregate, Next(after, page));
    StreamAfterIsAll(outbox, aggregate, Next(after, page));
    assert rest != [] ==> rest[0] in rest;
    forall e ensures e !in rest {
      PageOrRest(outbox, aggregate, after, limit, page, e);
      if e in page {
        var i :| 0 <= i < |page| && page[i] == e;
        assert e.pos <= Next(after, page);
      }
    }
  }
}

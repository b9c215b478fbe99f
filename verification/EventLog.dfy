/** What the events of one entity must look like, and the table a consumer rebuilds from them. */
module EventLog {
  import opened Model
  import opened Ordering

  /** The events of one entity, in log order. */
  function Project(log: seq<Event>, x: ItemId): seq<Event> {
    Filter(log, (e: Event) => e.aggregate == x)
  }

  lemma ProjectSnoc(log: seq<Event>, e: Event, x: ItemId)
    ensures Project(log + [e], x) == Project(log, x) + (if e.aggregate == x then [e] else [])
  {
    FilterSnoc(log, e, (e: Event) => e.aggregate == x);
  }

  lemma {:induction false} ProjectEmpty(log: seq<Event>, x: ItemId)
    requires forall c :: c in log ==> c.aggregate != x
    ensures Project(log, x) == []
  {
    if log != [] {
      ProjectEmpty(log[..|log| - 1], x);
    }
  }

  /** The k-th event of an entity is a legal successor of the one before it. */
  ghost predicate Follows(p: seq<Event>, k: nat)
    requires k < |p|
  {
    if k == 0 then p[0].kind.Created? && p[0].payload.version == 1
    else
      && !p[k - 1].kind.Deleted?
      && match p[k].kind {
        case Created => false
        case Updated =>
          && p[k].payload.version == p[k - 1].payload.version + 1
          && p[k].payload.createdAt == p[k - 1].payload.createdAt
        case Deleted => p[k].payload == p[k - 1].payload
      }
  }

  ghost predicate Grammar(p: seq<Event>) {
    forall k: nat :: k < |p| ==> Follows(p, k)
  }

  lemma GrammarSnoc(p: seq<Event>, e: Event)
    requires Grammar(p) && Follows(p + [e], |p|)
    ensures Grammar(p + [e])
  {
    forall k: nat | k < |p + [e]| ensures Follows(p + [e], k) {
      assert k < |p| ==> Follows(p, k);
    }
  }

  /** The grammar spelled out: created v1, updated v2 .. vn, then perhaps deleted at vn, and nothing after. */
  lemma {:induction false} GrammarShape(p: seq<Event>, k: nat)
    requires Grammar(p) && k < |p|
    ensures p[k].kind.Created? <==> k == 0
    ensures p[k].kind.Deleted? ==> k == |p| - 1 && k > 0
    ensures p[k].payload.version == if p[k].kind.Deleted? then k else k + 1
  {
    assert Follows(p, k);
    if k > 0 {
      GrammarShape(p, k - 1);
    }
    if k + 1 < |p| {
      assert Follows(p, k + 1);
    }
  }

  /** An entity's state after its events: nothing before creation and after deletion, else the last snapshot. */
  function Current(p: seq<Event>): Option<Item> {
    if p == [] || p[|p| - 1].kind.Deleted? then None else Some(p[|p| - 1].payload)
  }

  function Lookup(view: map<ItemId, Item>, x: ItemId): Option<Item> {
    if x in view then Some(view[x]) else None
  }

  /** A consumer's rule: put the snapshot on created and updated, remove on deleted. */
  function Absorb(view: map<ItemId, Item>, e: Event): map<ItemId, Item> {
    if e.kind.Deleted? then view - {e.aggregate} else view[e.aggregate := e.payload]
  }

  function View(log: seq<Event>): map<ItemId, Item> {
    if log == [] then map[] else Absorb(View(log[..|log| - 1]), log[|log| - 1])
  }

  /** Folding the whole log leaves each entity at its own last event, whatever the interleaving. */
  lemma {:induction false} ViewIsLatest(log: seq<Event>, x: ItemId)
    ensures Lookup(View(log), x) == Current(Project(log, x))
  {
    if log != [] {
      var init, last := log[..|log| - 1], log[|log| - 1];
      ViewIsLatest(init, x);
      assert log == init + [last];
      ProjectSnoc(init, last, x);
    }
  }
}

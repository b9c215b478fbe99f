/** Sequences in ascending key order, and the ordered selections SQL builds from unordered rows. */
module Ordering {

  ghost predicate Ascending<T>(s: seq<T>, key: T -> int) {
    forall i, j :: 0 <= i < j < |s| ==> key(s[i]) < key(s[j])
  }

  /** The elements satisfying `p`, in their original order. */
  function Filter<T(!new)>(s: seq<T>, p: T -> bool): (r: seq<T>)
    ensures forall x :: x in r <==> x in s && p(x)
  {
    if s == [] then []
    else
      var last := s[|s| - 1];
      assert forall x :: x in s <==> x in s[..|s| - 1] || x == last by {
        assert s == s[..|s| - 1] + [last];
      }
      Filter(s[..|s| - 1], p) + (if p(last) then [last] else [])
  }

  lemma FilterSnoc<T(!new)>(s: seq<T>, x: T, p: T -> bool)
    ensures Filter(s + [x], p) == Filter(s, p) + (if p(x) then [x] else [])
  {
    assert (s + [x])[..|s + [x]| - 1] == s;
  }

  lemma {:induction false} FilterConcat<T(!new)>(a: seq<T>, b: seq<T>, p: T -> bool)
    ensures Filter(a + b, p) == Filter(a, p) + Filter(b, p)
  {
    if b == [] {
      assert a + b == a;
    } else {
      var b', x := b[..|b| - 1], b[|b| - 1];
      var tail := if p(x) then [x] else [];
      assert b == b' + [x];
      FilterSnoc(b', x, p);
      assert a + b == (a + b') + [x];
      FilterSnoc(a + b', x, p);
      FilterConcat(a, b', p);
      assert Filter(a, p) + (Filter(b', p) + tail) == (Filter(a, p) + Filter(b', p)) + tail;
    }
  }

  lemma {:induction false} FilterPrefix<T(!new)>(a: seq<T>, b: seq<T>, p: T -> bool)
    requires a <= b
    ensures Filter(a, p) <= Filter(b, p)
  {
    if a == b {
    } else {
      assert b == b[..|b| - 1] + [b[|b| - 1]];
      FilterPrefix(a, b[..|b| - 1], p);
    }
  }

  /** Elements that `p` selects and that ascend among themselves stay ascending. */
  lemma {:induction false} FilterAscending<T(!new)>(s: seq<T>, p: T -> bool, key: T -> int)
    requires forall i, j :: 0 <= i < j < |s| && p(s[i]) && p(s[j]) ==> key(s[i]) < key(s[j])
    ensures Ascending(Filter(s, p), key)
  {
    if s != [] {
      var n := |s| - 1;
      FilterAscending(s[..n], p, key);
      forall x | x in Filter(s[..n], p) && p(s[n]) ensures key(x) < key(s[n]) {
        var i :| 0 <= i < n && s[..n][i] == x;
        assert s[i] == x;
      }
    }
  }

  /** The first `n` members of `a` and `b` agree. */
  lemma {:induction false} DownwardClosedAgrees<T(!new)>(a: seq<T>, b: seq<T>, key: T -> int, n: nat)
    requires Ascending(a, key) && Ascending(b, key)
    requires forall x :: x in a ==> x in b
    requires forall x, y :: x in a && y in b && key(y) < key(x) ==> y in a
    requires n <= |a|
    ensures n <= |b| && forall i :: 0 <= i < n ==> a[i] == b[i]
  {
    if n > 0 {
      DownwardClosedAgrees(a, b, key, n - 1);
      var x := a[n - 1];
      assert x in a;
      var k :| 0 <= k < |b| && b[k] == x;
      if k < n - 1 {
        assert false;
      }
      if n - 1 < k {
        assert b[n - 1] in a;
        var m :| 0 <= m < |a| && a[m] == b[n - 1];
        assert false;
      }
    }
  }

  /** An ascending sequence drawn from an ascending one, with nothing missing below its members, is a prefix. */
  lemma DownwardClosedIsPrefix<T(!new)>(a: seq<T>, b: seq<T>, key: T -> int)
    requires Ascending(a, key) && Ascending(b, key)
    requires forall x :: x in a ==> x in b
    requires forall x, y :: x in a && y in b && key(y) < key(x) ==> y in a
    ensures a <= b
  {
    DownwardClosedAgrees(a, b, key, |a|);
  }

  /** Ascending sequences with the same members are the same sequence. */
  lemma AscendingUnique<T(!new)>(a: seq<T>, b: seq<T>, key: T -> int)
    requires Ascending(a, key) && Ascending(b, key)
    requires forall x :: x in a <==> x in b
    ensures a == b
  {
    DownwardClosedIsPrefix(a, b, key);
    DownwardClosedIsPrefix(b, a, key);
  }

  function SetOf(ids: seq<nat>): set<nat> {
    set id | id in ids
  }

  lemma {:induction false} AscendingSetSize(ids: seq<nat>)
    requires forall i, j :: 0 <= i < j < |ids| ==> ids[i] < ids[j]
    ensures |SetOf(ids)| == |ids|
  {
    if ids != [] {
      var init, last := ids[..|ids| - 1], ids[|ids| - 1];
      AscendingSetSize(init);
      assert ids == init + [last] && last !in init;
      assert SetOf(ids) == SetOf(init) + {last};
    }
  }

  /** ORDER BY key, id: the order of two row ids. */
  predicate Before(key: nat -> int, i: nat, j: nat) {
    key(i) < key(j) || (key(i) == key(j) && i <= j)
  }

  lemma BeforeTransitive(key: nat -> int, i: nat, j: nat, k: nat)
    ensures Before(key, i, j) && Before(key, j, k) ==> Before(key, i, k)
    ensures Before(key, i, j) || Before(key, j, i)
  {
  }

  lemma {:induction false} FirstExists(ids: set<nat>, key: nat -> int)
    requires ids != {}
    ensures exists i :: i in ids && forall j :: j in ids ==> Before(key, i, j)
    decreases ids
  {
    var x :| x in ids;
    if y :| y in ids && !Before(key, x, y) {
      var rest := ids - {x};
      BeforeTransitive(key, x, x, x);
      assert y in rest;
      FirstExists(rest, key);
      var f :| f in rest && forall j :: j in rest ==> Before(key, f, j);
      BeforeTransitive(key, f, y, x);
      forall j | j in ids ensures Before(key, f, j) {
        assert j == x || j in rest;
      }
    }
  }

  /** The row ids in the order of `ORDER BY key`, ties broken by id. */
  function OrderBy(ids: set<nat>, key: nat -> int): (r: seq<nat>)
    ensures |r| == |ids|
    ensures forall i :: i in r <==> i in ids
    ensures forall i, j :: 0 <= i < j < |r| ==> r[i] != r[j] && Before(key, r[i], r[j])
    decreases ids
  {
    if ids == {} then []
    else
      FirstExists(ids, key);
      var first :| first in ids && forall j :: j in ids ==> Before(key, first, j);
      [first] + OrderBy(ids - {first}, key)
  }

  const ById: nat -> int := (id: nat) => id

  /** ORDER BY key LIMIT n: every row that sorts at or before the last one taken is taken. */
  function FirstBy(ids: set<nat>, key: nat -> int, limit: nat): (r: seq<nat>)
    ensures |r| <= limit
    ensures forall i :: i in r ==> i in ids
    ensures forall i, j :: 0 <= i < j < |r| ==> r[i] != r[j] && Before(key, r[i], r[j])
    ensures |r| < limit ==> forall i :: i in ids ==> i in r
    ensures forall i :: i in ids && r != [] && Before(key, i, r[|r| - 1]) ==> i in r
  {
    var all := OrderBy(ids, key);
    if |all| <= limit then all
    else
      assert forall k :: 0 <= k < limit ==> all[k] in all;
      assert forall i :: i in ids && limit > 0 && Before(key, i, all[limit - 1]) ==> i in all[..limit] by {
        forall i | i in ids && limit > 0 && Before(key, i, all[limit - 1]) ensures i in all[..limit] {
          var k :| 0 <= k < |all| && all[k] == i;
          assert k < limit;
          assert all[..limit][k] == i;
        }
      }
      all[..limit]
  }
}

/** The client rule: keep a cursor, drop what is at or below it, and note the numbers that never arrived. */
module Reader {

  /** A run of missing positions, both ends included. */
  datatype Gap = Gap(first: nat, last: nat)

  /** The state of a listener. */
  datatype Reader = Reader(cursor: nat, received: nat, duplicates: nat, gaps: seq<Gap>)

  function Fresh(cursor: nat): Reader {
    Reader(cursor, 0, 0, [])
  }

  function Show(r: Reader, pos: nat): Reader {
    if pos <= r.cursor then r.(duplicates := r.duplicates + 1)
    else
      var gaps := if pos > r.cursor + 1 && r.received > 0 then r.gaps + [Gap(r.cursor + 1, pos - 1)] else r.gaps;
      Reader(pos, r.received + 1, r.duplicates, gaps)
  }

  function ShowAll(r: Reader, positions: seq<nat>): Reader {
    if positions == [] then r else Show(ShowAll(r, positions[..|positions| - 1]), positions[|positions| - 1])
  }

  /** The positions a reader accepts, in order. */
  function Accepted(start: nat, positions: seq<nat>): seq<nat> {
    if positions == [] then []
    else
      var init, last := positions[..|positions| - 1], positions[|positions| - 1];
      Accepted(start, init) + (if last > ShowAll(Fresh(start), init).cursor then [last] else [])
  }

  /** `pos` exceeds the start and everything before it. */
  ghost predicate IsRunningMax(start: nat, positions: seq<nat>, k: nat)
    requires k < |positions|
  {
    start < positions[k] && forall i :: 0 <= i < k ==> positions[i] < positions[k]
  }

  /** The cursor is the largest of the start and the positions seen. */
  lemma {:induction false} CursorIsMax(start: nat, positions: seq<nat>)
    ensures var c := ShowAll(Fresh(start), positions).cursor;
            && start <= c && (forall i :: 0 <= i < |positions| ==> positions[i] <= c)
            && (c == start || c in positions)
  {
    if positions != [] {
      CursorIsMax(start, positions[..|positions| - 1]);
    }
  }

  /** Every member lies in (low, high] and they ascend. */
  ghost predicate AscendsWithin(a: seq<nat>, low: nat, high: nat) {
    && (forall i, j :: 0 <= i < j < |a| ==> a[i] < a[j])
    && (forall i :: 0 <= i < |a| ==> low < a[i] <= high)
  }

  lemma {:induction false} AcceptedAscend(start: nat, positions: seq<nat>)
    ensures AscendsWithin(Accepted(start, positions), start, ShowAll(Fresh(start), positions).cursor)
  {
    if positions != [] {
      var init, last := positions[..|positions| - 1], positions[|positions| - 1];
      AcceptedAscend(start, init);
      CursorIsMax(start, init);
      var a, c := Accepted(start, init), ShowAll(Fresh(start), init).cursor;
      assert AscendsWithin(a, start, c);
      if last > c {
        assert AscendsWithin(a + [last], start, last);
      } else {
        assert a + [] == a;
      }
    }
  }

  lemma {:induction false} AcceptedIsMax(start: nat, positions: seq<nat>, q: nat) returns (k: nat)
    requires q in Accepted(start, positions)
    ensures k < |positions| && positions[k] == q && IsRunningMax(start, positions, k)
  {
    var n := |positions| - 1;
    if q in Accepted(start, positions[..n]) {
      k := AcceptedIsMax(start, positions[..n], q);
    } else {
      CursorIsMax(start, positions[..n]);
      assert forall i :: 0 <= i < n ==> positions[..n][i] == positions[i];
      k := n;
    }
  }

  lemma {:induction false} MaxIsAccepted(start: nat, positions: seq<nat>, k: nat)
    requires k < |positions| && IsRunningMax(start, positions, k)
    ensures positions[k] in Accepted(start, positions)
    decreases |positions|
  {
    var n := |positions| - 1;
    if k < n {
      MaxIsAccepted(start, positions[..n], k);
    } else {
      CursorIsMax(start, positions[..n]);
    }
  }

  /** A message is accepted exactly when it is a strict running maximum above the start cursor. */
  lemma AcceptsRunningMaxima(start: nat, positions: seq<nat>, q: nat)
    ensures q in Accepted(start, positions) <==>
              exists k: nat :: k < |positions| && positions[k] == q && IsRunningMax(start, positions, k)
  {
    if q in Accepted(start, positions) {
      var k := AcceptedIsMax(start, positions, q);
    }
    if k: nat :| k < |positions| && positions[k] == q && IsRunningMax(start, positions, k) {
      MaxIsAccepted(start, positions, k);
    }
  }

  /** Each message is counted once, as received or as a duplicate. */
  lemma {:induction false} EveryMessageCounted(start: nat, positions: seq<nat>)
    ensures var r := ShowAll(Fresh(start), positions);
            r.received + r.duplicates == |positions| && r.received == |Accepted(start, positions)|
            && (r.received > 0 ==> r.cursor == Accepted(start, positions)[r.received - 1])
            && (r.received == 0 ==> r.cursor == start)
  {
    if positions != [] {
      EveryMessageCounted(start, positions[..|positions| - 1]);
    }
  }

  lemma AcceptedSnoc(start: nat, init: seq<nat>, last: nat)
    ensures Accepted(start, []) == []
    ensures Accepted(start, init + [last])
      == if last > ShowAll(Fresh(start), init).cursor then Accepted(start, init) + [last] else Accepted(start, init)
  {
    assert (init + [last])[..|init|] == init;
  }

  /** Positions that ascend from the start are all accepted. */
  lemma {:induction false} AscendingAllAccepted(start: nat, positions: seq<nat>)
    requires AscendsWithin(positions, start, Top(positions))
    ensures Accepted(start, positions) == positions
  {
    hide ShowAll, Accepted;
    AcceptedSnoc(start, [], 0);
    if positions != [] {
      var init, last := positions[..|positions| - 1], positions[|positions| - 1];
      assert AscendsWithin(init, start, Top(init));
      AscendingAllAccepted(start, init);
      CursorIsMax(start, init);
      AcceptedSnoc(start, init, last);
      assert init + [last] == positions;
    }
  }

  function Top(positions: seq<nat>): nat {
    if positions == [] then 0 else positions[|positions| - 1]
  }

  ghost predicate InGap(g: Gap, q: int) {
    g.first <= q <= g.last
  }

  ghost predicate InSomeGap(gaps: seq<Gap>, q: int) {
    exists g :: g in gaps && InGap(g, q)
  }

  function Width(gaps: seq<Gap>): int {
    if gaps == [] then 0
    else Width(gaps[..|gaps| - 1]) + gaps[|gaps| - 1].last - gaps[|gaps| - 1].first + 1
  }

  /** The load test's closed form over the accepted positions. */
  function ClosedFormGaps(seqs: seq<nat>): int {
    if |seqs| < 2 then 0 else seqs[|seqs| - 1] - seqs[0] + 1 - |seqs|
  }

  /** Nonempty, disjoint, ascending intervals, all below `top`. */
  ghost predicate Separate(gaps: seq<Gap>, top: nat) {
    && (forall i :: 0 <= i < |gaps| ==> gaps[i].first <= gaps[i].last < top)
    && (forall i, j :: 0 <= i < j < |gaps| ==> gaps[i].last < gaps[j].first)
  }

  /** The intervals cover exactly the numbers strictly inside `a` that `a` misses. */
  ghost predicate Covers(gaps: seq<Gap>, a: seq<nat>) {
    forall q :: InSomeGap(gaps, q) <==> a != [] && a[0] < q < a[|a| - 1] && q !in a
  }

  /**
   * The recorded gaps are nonempty, disjoint and ascending, together they are exactly the numbers between the
   * first and the last accepted position that were not accepted, and their total width is the closed form.
   */
  lemma {:induction false} GapAccounting(start: nat, positions: seq<nat>)
    ensures var r, a := ShowAll(Fresh(start), positions), Accepted(start, positions);
            Separate(r.gaps, r.cursor) && Covers(r.gaps, a) && Width(r.gaps) == ClosedFormGaps(a)
  {
    if positions != [] {
      var n := |positions| - 1;
      var init, last := positions[..n], positions[n];
      GapAccounting(start, init);
      EveryMessageCounted(start, init);
      AcceptedAscend(start, init);
      var r, a := ShowAll(Fresh(start), init), Accepted(start, init);
      if last > r.cursor {
        GapStep(r, a, last);
      }
    }
  }

  /** No gap holds a number that was accepted, or that lies outside what was accepted. */
  lemma GapsMissAccepted(start: nat, positions: seq<nat>, q: nat)
    requires var a := Accepted(start, positions); q in a || a == [] || q <= a[0] || a[|a| - 1] <= q
    ensures !InSomeGap(ShowAll(Fresh(start), positions).gaps, q)
  {
    hide ShowAll, Accepted, Width, Separate, InSomeGap;
    GapAccounting(start, positions);
  }

  /** One more accepted position. */
  lemma GapStep(r: Reader, a: seq<nat>, last: nat)
    requires Separate(r.gaps, r.cursor) && Covers(r.gaps, a) && Width(r.gaps) == ClosedFormGaps(a)
    requires r.received == |a| && (a != [] ==> r.cursor == a[|a| - 1])
    requires forall i, j :: 0 <= i < j < |a| ==> a[i] < a[j]
    requires r.cursor < last
    ensures var r', a' := Show(r, last), a + [last];
            Separate(r'.gaps, last) && Covers(r'.gaps, a') && Width(r'.gaps) == ClosedFormGaps(a')
  {
    SeparateStep(r, a, last);
    forall q ensures InSomeGap(Show(r, last).gaps, q) <==> (a + [last])[0] < q < last && q !in a + [last] {
      CoverStep(r, a, last, q);
    }
  }

  lemma WidthSnoc(gaps: seq<Gap>, g: Gap)
    ensures Width(gaps + [g]) == Width(gaps) + g.last - g.first + 1
  {
    assert (gaps + [g])[..|gaps|] == gaps;
  }

  lemma SeparateSnoc(gaps: seq<Gap>, g: Gap, cursor: nat, top: nat)
    requires Separate(gaps, cursor) && cursor < g.first <= g.last < top
    ensures Separate(gaps + [g], top)
  {
  }

  lemma SeparateStep(r: Reader, a: seq<nat>, last: nat)
    requires Separate(r.gaps, r.cursor) && Width(r.gaps) == ClosedFormGaps(a)
    requires r.received == |a| && (a != [] ==> r.cursor == a[|a| - 1])
    requires r.cursor < last
    ensures Separate(Show(r, last).gaps, last) && Width(Show(r, last).gaps) == ClosedFormGaps(a + [last])
  {
    hide Width;
    if last > r.cursor + 1 && r.received > 0 {
      var g := Gap(r.cursor + 1, last - 1);
      WidthSnoc(r.gaps, g);
      SeparateSnoc(r.gaps, g, r.cursor, last);
    }
  }

  lemma CoverStep(r: Reader, a: seq<nat>, last: nat, q: int)
    requires Separate(r.gaps, r.cursor) && Covers(r.gaps, a)
    requires r.received == |a| && (a != [] ==> r.cursor == a[|a| - 1])
    requires forall i, j :: 0 <= i < j < |a| ==> a[i] < a[j]
    requires r.cursor < last
    ensures InSomeGap(Show(r, last).gaps, q) <==> (a + [last])[0] < q < last && q !in a + [last]
  {
    var g' := Gap(r.cursor + 1, if last > 0 then last - 1 else 0);
    var gaps' := Show(r, last).gaps;
    assert InSomeGap(r.gaps, q) <==> a != [] && a[0] < q < a[|a| - 1] && q !in a;
    assert forall g :: g in gaps' <==> g in r.gaps || (|gaps'| > |r.gaps| && g == g');
    if a != [] && r.cursor < q < last {
      assert g' in gaps' && InGap(g', q);
      assert forall i :: 0 <= i < |a| ==> a[i] <= r.cursor;
    }
    if InSomeGap(gaps', q) {
      var g :| g in gaps' && InGap(g, q);
      if g in r.gaps {
        assert InSomeGap(r.gaps, q);
      }
    }
    if InSomeGap(r.gaps, q) {
      var g :| g in r.gaps && InGap(g, q);
      assert g in gaps';
    }
  }
}

/**
 Time windows over a chronologically ordered table, cut on kickoff instants, and the guard
 the training path runs on them.
 */
module TemporalWindows {
  import opened Reals

  type Instant = int

  datatype Result<T> = Ok(value: T) | Error(error: Failure)

  /** The two `ValueError`s, and the `IndexError` of cutting an empty table. */
  datatype Failure = Unordered | BadCuts | NoInstants

  ghost predicate Ordered(k: seq<Instant>) {
    forall i, j :: 0 <= i < j < |k| ==> k[i] <= k[j]
  }

  predicate Adjacent(k: seq<Instant>, i: nat)
    requires i + 1 < |k|
  {
    k[i] <= k[i + 1]
  }

  /** The comparison of each kickoff with the next. */
  predicate AdjacentOrdered(k: seq<Instant>) {
    forall i {:trigger Adjacent(k, i)} :: 0 <= i < |k| - 1 ==> Adjacent(k, i)
  }

  lemma {:induction false} AdjacentSuffices(k: seq<Instant>, i: nat, j: nat)
    requires AdjacentOrdered(k) && i <= j < |k|
    ensures k[i] <= k[j]
    decreases j
  {
    if i < j {
      AdjacentSuffices(k, i, j - 1);
      assert Adjacent(k, j - 1);
    }
  }

  lemma {:induction false} AdjacentIsOrdered(k: seq<Instant>)
    ensures AdjacentOrdered(k) <==> Ordered(k)
  {
    if AdjacentOrdered(k) {
      forall i, j | 0 <= i < j < |k| ensures k[i] <= k[j] { AdjacentSuffices(k, i, j); }
    } else {
      var i :| 0 <= i < |k| - 1 && !Adjacent(k, i);
    }
  }

  /** Strictly increasing fractions in (0, 1). */
  predicate GoodCuts(cuts: seq<real>) {
    (forall c :: c in cuts ==> 0.0 < c < 1.0) && (forall a, b :: 0 <= a < b < |cuts| ==> cuts[a] < cuts[b])
  }

  /** The distinct instants, ascending (for ordered kickoffs). */
  function Instants(k: seq<Instant>): seq<Instant> {
    if k == [] then []
    else
      var rest := Instants(k[1..]);
      if rest != [] && rest[0] == k[0] then rest else [k[0]] + rest
  }

  lemma {:induction false} InstantsAre(k: seq<Instant>)
    requires Ordered(k)
    ensures forall i, j :: 0 <= i < j < |Instants(k)| ==> Instants(k)[i] < Instants(k)[j]
    ensures forall x :: x in Instants(k) <==> x in k
    ensures k != [] ==> Instants(k) != [] && Instants(k)[0] == k[0]
  {
    if k != [] {
      InstantsAre(k[1..]);
      var rest := Instants(k[1..]);
      if rest != [] {
        assert rest[0] in k[1..];
        assert k[0] <= rest[0];
      }
      assert forall x :: x in k <==> x == k[0] || x in k[1..];
    }
  }

  function CutAt(n: nat, c: real): int
    requires n > 0
  {
    var p := (n as real * c).Floor;
    if p < n - 1 then p else n - 1
  }

  lemma CutInRange(n: nat, c: real, d: real)
    requires n > 0 && 0.0 < c <= d < 1.0
    ensures 0 <= CutAt(n, c) <= CutAt(n, d) < n
  {
    Scaled(n as real, c, d);
    FloorMonotone(n as real * c, n as real * d);
  }

  lemma FloorMonotone(x: real, y: real)
    requires 0.0 <= x <= y
    ensures 0 <= x.Floor <= y.Floor
  {
    assert x.Floor as real <= x && y < y.Floor as real + 1.0;
  }

  lemma Scaled(x: real, c: real, d: real)
    requires x > 0.0 && 0.0 < c <= d
    ensures 0.0 < x * c <= x * d
  {
    assert x * d - x * c == x * (d - c);
    NonNegative(x, d - c);
  }

  function Boundaries(instants: seq<Instant>, cuts: seq<real>): (b: seq<Instant>)
    requires GoodCuts(cuts) && (instants == [] ==> cuts == [])
    ensures |b| == |cuts|
  {
    seq(|cuts|, a requires 0 <= a < |cuts| =>
      (assert cuts[a] in cuts;
       CutInRange(|instants|, cuts[a], cuts[a]);
       instants[CutAt(|instants|, cuts[a])]))
  }

  lemma {:induction false} BoundariesAscend(instants: seq<Instant>, cuts: seq<real>)
    requires GoodCuts(cuts) && instants != []
    requires forall i, j :: 0 <= i < j < |instants| ==> instants[i] < instants[j]
    ensures Ordered(Boundaries(instants, cuts))
  {
    var b := Boundaries(instants, cuts);
    forall i, j | 0 <= i < j < |b| ensures b[i] <= b[j] {
      assert cuts[i] in cuts && cuts[j] in cuts;
      CutInRange(|instants|, cuts[i], cuts[j]);
    }
  }

  /** How many boundaries are at or before `x`: `bisect_right` on an ordered list. */
  function BisectRight(b: seq<Instant>, x: Instant): (r: nat)
    ensures r <= |b|
  {
    if b == [] || x < b[0] then 0 else 1 + BisectRight(b[1..], x)
  }

  lemma {:induction false} BisectRightIs(b: seq<Instant>, x: Instant)
    requires Ordered(b)
    ensures forall i :: 0 <= i < |b| ==> (b[i] <= x <==> i < BisectRight(b, x))
  {
    if b != [] && x >= b[0] {
      BisectRightIs(b[1..], x);
      forall i | 0 <= i < |b| ensures b[i] <= x <==> i < BisectRight(b, x) {
        if i > 0 { assert b[i] == b[1..][i - 1]; }
      }
    }
  }

  lemma {:induction false} BisectRightMonotone(b: seq<Instant>, x: Instant, y: Instant)
    requires x <= y
    ensures BisectRight(b, x) <= BisectRight(b, y)
  {
    if b != [] { BisectRightMonotone(b[1..], x, y); }
  }

  /** The rows among the first `n` that fall into window `w`. */
  function RowsIn(k: seq<Instant>, b: seq<Instant>, w: nat, n: nat): seq<nat>
    requires n <= |k|
  {
    if n == 0 then [] else RowsIn(k, b, w, n - 1) + if BisectRight(b, k[n - 1]) == w then [n - 1] else []
  }

  /** Split row indices into `|cuts| + 1` windows. */
  function Windows(k: seq<Instant>, cuts: seq<real>): Result<seq<seq<nat>>> {
    if !AdjacentOrdered(k) then Error(Unordered)
    else if !GoodCuts(cuts) then Error(BadCuts)
    else if k == [] && cuts != [] then Error(NoInstants)
    else Ok(Cut(k, cuts))
  }

  lemma {:induction false} SomeInstant(k: seq<Instant>)
    ensures k != [] ==> Instants(k) != []
  {}

  function Cut(k: seq<Instant>, cuts: seq<real>): (w: seq<seq<nat>>)
    requires GoodCuts(cuts) && (k == [] ==> cuts == [])
    ensures |w| == |cuts| + 1
  {
    SomeInstant(k);
    var b := Boundaries(Instants(k), cuts);
    seq(|cuts| + 1, w requires w >= 0 => RowsIn(k, b, w, |k|))
  }

  // ---- what the windows are ---------------------------------------------------------------------

  /** The window a row falls into. */
  function WindowOf(k: seq<Instant>, cuts: seq<real>, i: nat): (w: nat)
    requires GoodCuts(cuts) && i < |k|
    ensures w <= |cuts|
  {
    SomeInstant(k);
    BisectRight(Boundaries(Instants(k), cuts), k[i])
  }

  lemma {:induction false} RowsInHas(k: seq<Instant>, b: seq<Instant>, w: nat, n: nat)
    requires n <= |k|
    ensures forall i :: i in RowsIn(k, b, w, n) <==> 0 <= i < n && BisectRight(b, k[i]) == w
    ensures forall p, q :: 0 <= p < q < |RowsIn(k, b, w, n)| ==> RowsIn(k, b, w, n)[p] < RowsIn(k, b, w, n)[q]
  {
    if n > 0 {
      RowsInHas(k, b, w, n - 1);
      var r := RowsIn(k, b, w, n - 1);
      assert forall p :: 0 <= p < |r| ==> r[p] in r;
    }
  }

  /** Strictly ascending. */
  ghost predicate Ascending(s: seq<nat>) {
    forall p, q :: 0 <= p < q < |s| ==> s[p] < s[q]
  }

  /** The windows partition the rows: window `w` lists, in order, exactly the rows of window `w`. */
  lemma {:induction false} WindowsPartition(k: seq<Instant>, cuts: seq<real>, w: nat)
    requires Windows(k, cuts).Ok? && w <= |cuts|
    ensures |Windows(k, cuts).value| == |cuts| + 1 && Ascending(Windows(k, cuts).value[w])
    ensures forall i :: i in Windows(k, cuts).value[w] <==> 0 <= i < |k| && WindowOf(k, cuts, i) == w
  {
    SomeInstant(k);
    RowsInHas(k, Boundaries(Instants(k), cuts), w, |k|);
  }

  /** Every row of a later window kicks off strictly after every row of an earlier one, so no two rows
      of one instant are in different windows, and no row in two. */
  lemma {:induction false} WindowsAreOrdered(k: seq<Instant>, cuts: seq<real>, i: nat, j: nat)
    requires GoodCuts(cuts) && i < |k| && j < |k|
    ensures WindowOf(k, cuts, i) < WindowOf(k, cuts, j) ==> k[i] < k[j]
    ensures k[i] == k[j] ==> WindowOf(k, cuts, i) == WindowOf(k, cuts, j)
  {
    SomeInstant(k);
    if k[j] <= k[i] { BisectRightMonotone(Boundaries(Instants(k), cuts), k[j], k[i]); }
  }

  lemma {:induction false} BoundaryByRank(instants: seq<Instant>, cuts: seq<real>, rank: nat, a: nat)
    requires GoodCuts(cuts) && a < |cuts| && rank < |instants| && forall i, j :: 0 <= i < j < |instants| ==>
      instants[i] < instants[j]
    ensures Boundaries(instants, cuts)[a] <= instants[rank] <==> CutAt(|instants|, cuts[a]) <= rank
  {
    assert cuts[a] in cuts;
    CutInRange(|instants|, cuts[a], cuts[a]);
  }

  /** A row's window by the rank of its instant: it is past cut `a` exactly when the fraction `cuts[a]` of the distinct
      instants lies at or before it. */
  lemma {:induction false} WindowByRank(k: seq<Instant>, cuts: seq<real>, i: nat, rank: nat, a: nat)
    requires Windows(k, cuts).Ok? && i < |k| && a < |cuts| && rank < |Instants(k)| && Instants(k)[rank] == k[i]
    ensures a < WindowOf(k, cuts, i) <==> CutAt(|Instants(k)|, cuts[a]) <= rank
  {
    hide Cut, CutAt, BisectRight, Instants, AdjacentOrdered;
    AdjacentIsOrdered(k);
    InstantsAre(k);
    BoundaryByRank(Instants(k), cuts, rank, a);
    BoundariesAscend(Instants(k), cuts);
    BisectRightIs(Boundaries(Instants(k), cuts), k[i]);
  }

  // ---- the guard --------------------------------------------------------------------------------

  /** Rows of a later window are other rows, and kick off strictly later. */
  ghost predicate StrictlyLater(k: seq<Instant>, early: seq<nat>, late: seq<nat>) {
    forall i, j :: i in early && j in late ==> i < |k| && j < |k| && i != j && k[i] < k[j]
  }

  ghost predicate InTable(k: seq<Instant>, windows: seq<seq<nat>>) {
    forall w, i :: 0 <= w < |windows| && i in windows[w] ==> i < |k|
  }

  ghost predicate OrderedDisjoint(k: seq<Instant>, windows: seq<seq<nat>>) {
    forall a, b :: 0 <= a < b < |windows| ==> StrictlyLater(k, windows[a], windows[b])
  }

  datatype Complaint = Fine | Overlap | StartsTooEarly

  method First(k: seq<Instant>, window: seq<nat>) returns (first: Instant)
    requires window != [] && forall i :: i in window ==> i < |k|
    ensures (exists i :: i in window && k[i] == first) && forall i :: i in window ==> first <= k[i]
  {
    assert forall p :: 0 <= p < |window| ==> window[p] in window;
    first := k[window[0]];
    for n := 1 to |window|
      invariant exists i :: i in window && k[i] == first
      invariant forall p :: 0 <= p < n ==> first <= k[window[p]]
    {
      if k[window[n]] < first { first := k[window[n]]; assert window[n] in window; }
    }
  }

  method Last(k: seq<Instant>, window: seq<nat>) returns (last: Instant)
    requires window != [] && forall i :: i in window ==> i < |k|
    ensures (exists i :: i in window && k[i] == last) && forall i :: i in window ==> k[i] <= last
  {
    assert forall p :: 0 <= p < |window| ==> window[p] in window;
    last := k[window[0]];
    for n := 1 to |window|
      invariant exists i :: i in window && k[i] == last
      invariant forall p :: 0 <= p < n ==> k[window[p]] <= last
    {
      if k[window[n]] > last { last := k[window[n]]; assert window[n] in window; }
    }
  }

  /** What the loop of the guard knows after `n` windows. */
  ghost predicate Checked(k: seq<Instant>, windows: seq<seq<nat>>, n: nat, seen: set<nat>, some: bool, last: Instant)
    requires InTable(k, windows) && n <= |windows|
  {
    && OrderedDisjoint(k, windows[..n])
    && (forall i :: i in seen <==> exists w :: 0 <= w < n && i in windows[w])
    && (some <==> exists i :: i in seen)
    && (forall i :: i in seen ==> k[i] <= last)
    && (some ==> exists i :: i in seen && k[i] == last)
  }

  function Rows(window: seq<nat>): set<nat> { set i | i in window }

  lemma {:induction false} OverlapFound(k: seq<Instant>, windows: seq<seq<nat>>, n: nat, seen: set<nat>, some: bool,
                                        last: Instant)
    requires InTable(k, windows) && n < |windows| && Checked(k, windows, n, seen, some, last)
      && Rows(windows[n]) * seen != {}
    ensures exists a, b, i :: 0 <= a < b < |windows| && i in windows[a] && i in windows[b]
    ensures !OrderedDisjoint(k, windows)
  {
    var i :| i in Rows(windows[n]) * seen;
    var a :| 0 <= a < n && i in windows[a];
    assert i in windows[n];
    assert !StrictlyLater(k, windows[a], windows[n]);
  }

  lemma {:induction false} EarlyFound(k: seq<Instant>, windows: seq<seq<nat>>, n: nat, seen: set<nat>, last: Instant,
                                      first: Instant)
    requires InTable(k, windows) && n < |windows| && Checked(k, windows, n, seen, true, last)
    requires (exists j :: j in windows[n] && k[j] == first) && first <= last
    ensures !OrderedDisjoint(k, windows)
  {
    var j :| j in windows[n] && k[j] == first;
    var i :| i in seen && k[i] == last;
    var a :| 0 <= a < n && i in windows[a];
    assert !StrictlyLater(k, windows[a], windows[n]);
  }

  lemma {:induction false} SeenOneMore(windows: seq<seq<nat>>, n: nat, seen: set<nat>)
    requires n < |windows| && forall i :: i in seen <==> exists w :: 0 <= w < n && i in windows[w]
    ensures forall i :: i in seen + Rows(windows[n]) <==> exists w :: 0 <= w < n + 1 && i in windows[w]
  {
    forall i | i in seen + Rows(windows[n]) ensures exists w :: 0 <= w < n + 1 && i in windows[w] {
      if i in seen { var w :| 0 <= w < n && i in windows[w]; assert 0 <= w < n + 1; }
      else { assert i in windows[n]; }
    }
  }

  lemma {:induction false} OrderedOneMore(k: seq<Instant>, windows: seq<seq<nat>>, n: nat)
    requires InTable(k, windows) && n < |windows| && OrderedDisjoint(k, windows[..n])
    requires forall a :: 0 <= a < n ==> StrictlyLater(k, windows[a], windows[n])
    ensures OrderedDisjoint(k, windows[..n + 1])
  {
    forall a, b | 0 <= a < b < n + 1 ensures StrictlyLater(k, windows[a], windows[b]) {
      if b < n { assert StrictlyLater(k, windows[..n][a], windows[..n][b]); }
    }
  }

  lemma {:induction false} OneMoreChecked(k: seq<Instant>, windows: seq<seq<nat>>, n: nat, seen: set<nat>, some: bool,
                                          before: Instant,
                                          first: Instant, last: Instant)
    requires InTable(k, windows) && n < |windows| && Checked(k, windows, n, seen, some, before)
    requires windows[n] != [] && (some ==> first > before)
    requires forall i :: i in windows[n] ==> first <= k[i] <= last
    requires exists i :: i in windows[n] && k[i] == last
    ensures Checked(k, windows, n + 1, seen + Rows(windows[n]), true, last)
  {
    SeenOneMore(windows, n, seen);
    forall a | 0 <= a < n ensures StrictlyLater(k, windows[a], windows[n]) {
      forall i, j | i in windows[a] && j in windows[n] ensures i != j && k[i] < k[j] { assert i in seen; }
    }
    OrderedOneMore(k, windows, n);
    assert windows[n][0] in windows[n];
  }

  lemma {:induction false} EmptyChecked(k: seq<Instant>, windows: seq<seq<nat>>, n: nat, seen: set<nat>, some: bool,
                                        last: Instant)
    requires InTable(k, windows) && n < |windows| && Checked(k, windows, n, seen, some, last) && windows[n] == []
    ensures Checked(k, windows, n + 1, seen + Rows(windows[n]), some, last)
  {
    SeenOneMore(windows, n, seen);
    OrderedOneMore(k, windows, n);
    assert seen + Rows(windows[n]) == seen;
  }

  /** `assert_ordered_disjoint`: complains exactly when some window does not lie strictly after all earlier ones. */
  method AssertOrderedDisjoint(k: seq<Instant>, windows: seq<seq<nat>>) returns (c: Complaint)
    requires InTable(k, windows)
    ensures c == Fine <==> OrderedDisjoint(k, windows)
    ensures c == Overlap ==> exists a, b, i :: 0 <= a < b < |windows| && i in windows[a] && i in windows[b]
  {
    var seen: set<nat> := {};
    var some, previousLast := false, 0;
    for n := 0 to |windows|
      invariant Checked(k, windows, n, seen, some, previousLast)
    {
      var window := windows[n];
      var rows := Rows(window);
      if rows * seen != {} {
        OverlapFound(k, windows, n, seen, some, previousLast);
        return Overlap;
      }
      ghost var before := seen;
      seen := seen + rows;
      if |window| != 0 {
        var first := First(k, window);
        if some && !(first > previousLast) {
          EarlyFound(k, windows, n, before, previousLast, first);
          return StartsTooEarly;
        }
        var last := Last(k, window);
        OneMoreChecked(k, windows, n, before, some, previousLast, first, last);
        some, previousLast := true, last;
      } else {
        EmptyChecked(k, windows, n, before, some, previousLast);
      }
    }
    assert windows[..|windows|] == windows;
    return Fine;
  }
}

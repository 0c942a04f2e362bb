/**
 Market-implied probabilities by Shin's method, over exact reals. `sqrt` stands for the square
 root, of which only its defining property is used.
 */
module Shin {
  import opened Options
  import opened Reals
  import opened Sums

  ghost predicate IsSqrt(sqrt: real -> real) {
    forall x :: x >= 0.0 ==> sqrt(x) >= 0.0 && sqrt(x) * sqrt(x) == x
  }

  type Odds = seq<real>

  predicate ValidOdds(odds: Odds) { |odds| >= 2 && forall i :: 0 <= i < |odds| ==> odds[i] > 1.0 }

  function Total(s: seq<real>): real { if s == [] then 0.0 else Total(s[..|s| - 1]) + s[|s| - 1] }

  ghost predicate AllPositive(s: seq<real>) { forall i :: 0 <= i < |s| ==> s[i] > 0.0 }

  /** Where `a` is larger, so is `b`, and where it is equal, so is `b`. */
  ghost predicate SameOrder(a: seq<real>, b: seq<real>) {
    |a| == |b| && forall i, j :: 0 <= i < |a| && 0 <= j < |a| ==> (a[i] < a[j] <==> b[i] < b[j])
  }

  // ---- real arithmetic ------------------------------------------------------------------------------

  lemma PositiveProduct(x: real, y: real)
    requires x > 0.0 && y > 0.0
    ensures x * y > 0.0
  {}

  lemma PositiveQuotient(x: real, y: real)
    requires x > 0.0 && y > 0.0
    ensures x / y > 0.0
  {}

  lemma SmallerSquare(x: real, y: real)
    requires 0.0 <= x && 0.0 <= y && x * x < y * y
    ensures x < y
  {
    if x >= y { SquareMonotone(y, x); }
  }

  lemma SquareMonotone(x: real, y: real)
    requires 0.0 <= x <= y
    ensures x * x <= y * y
  {
    assert y * y - x * x == (y - x) * (y + x);
    NonNegative(y - x, y + x);
  }

  lemma StrictSquare(x: real, y: real)
    requires 0.0 <= x < y
    ensures x * x < y * y
  {
    assert y * y - x * x == (y - x) * (y + x);
    PositiveProduct(y - x, y + x);
  }

  lemma ScaleKeepsOrder(x: real, y: real, c: real)
    requires c > 0.0
    ensures x < y <==> x * c < y * c
    ensures x < y <==> x / c < y / c
  {
    assert x * c - y * c == (x - y) * c;
    if x < y { PositiveProduct(y - x, c); }
    if x > y { PositiveProduct(x - y, c); }
    assert (x / c) * c == x && (y / c) * c == y;
    if x / c < y / c { PositiveProduct(y / c - x / c, c); assert (y / c - x / c) * c == y - x; }
    if x / c > y / c { PositiveProduct(x / c - y / c, c); assert (x / c - y / c) * c == x - y; }
  }

  // ---- one probability ------------------------------------------------------------------------------

  function Radicand(p: real, booksum: real, z: real): real
    requires booksum != 0.0
  {
    z * z + 4.0 * (1.0 - z) * (p * p) / booksum
  }

  function ShinProb(sqrt: real -> real, p: real, booksum: real, z: real): real
    requires booksum != 0.0 && z != 1.0
  {
    (sqrt(Radicand(p, booksum, z)) - z) / (2.0 * (1.0 - z))
  }

  lemma PositiveShare(z: real, q: real, b: real)
    requires 0.0 <= z < 1.0 && q > 0.0 && b > 0.0
    ensures 4.0 * (1.0 - z) * q / b > 0.0
  {
    var c := 4.0 * (1.0 - z);
    PositiveProduct(c, q);
    var n := c * q;
    PositiveQuotient(n, b);
  }

  lemma RadicandExceeds(p: real, booksum: real, z: real)
    requires p > 0.0 && booksum > 0.0 && 0.0 <= z < 1.0
    ensures Radicand(p, booksum, z) > z * z
  {
    SharePositive(p, booksum, z);
  }

  lemma SharePositive(p: real, b: real, z: real)
    requires p > 0.0 && b > 0.0 && 0.0 <= z < 1.0
    ensures 4.0 * (1.0 - z) * (p * p) / b > 0.0
  {
    StrictSquare(0.0, p);
    PositiveShare(z, p * p, b);
  }

  lemma RadicandGrows(p: real, q: real, booksum: real, z: real)
    requires 0.0 < p < q && booksum > 0.0 && 0.0 <= z < 1.0
    ensures Radicand(p, booksum, z) < Radicand(q, booksum, z)
  {
    StrictSquare(p, q);
    var c := 4.0 * (1.0 - z);
    ScaleKeepsOrder(p * p, q * q, c);
    assert c * (p * p) == (p * p) * c && c * (q * q) == (q * q) * c;
    ScaleKeepsOrder(c * (p * p), c * (q * q), booksum);
  }

  /** The square root exceeds `z`, so the probability is positive. */
  lemma ProbPositive(sqrt: real -> real, p: real, booksum: real, z: real)
    requires IsSqrt(sqrt) && p > 0.0 && booksum > 0.0 && 0.0 <= z < 1.0
    ensures ShinProb(sqrt, p, booksum, z) > 0.0
  {
    RadicandExceeds(p, booksum, z);
    var x := Radicand(p, booksum, z);
    NonNegative(z, z);
    assert sqrt(x) * sqrt(x) == x;
    SmallerSquare(z, sqrt(x));
    PositiveQuotient(sqrt(x) - z, 2.0 * (1.0 - z));
  }

  lemma RootGrows(sqrt: real -> real, x: real, y: real)
    requires IsSqrt(sqrt) && 0.0 <= x < y
    ensures sqrt(x) < sqrt(y)
  {
    assert sqrt(x) * sqrt(x) == x && sqrt(y) * sqrt(y) == y;
    SmallerSquare(sqrt(x), sqrt(y));
  }

  lemma ProbGrows(sqrt: real -> real, p: real, q: real, booksum: real, z: real)
    requires IsSqrt(sqrt) && 0.0 < p < q && booksum > 0.0 && 0.0 <= z < 1.0
    ensures ShinProb(sqrt, p, booksum, z) < ShinProb(sqrt, q, booksum, z)
  {
    hide Radicand;
    RadicandExceeds(p, booksum, z);
    RadicandGrows(p, q, booksum, z);
    NonNegative(z, z);
    var x, y := Radicand(p, booksum, z), Radicand(q, booksum, z);
    RootGrows(sqrt, x, y);
    ScaleKeepsOrder(sqrt(x) - z, sqrt(y) - z, 2.0 * (1.0 - z));
  }

  // ---- all of them ----------------------------------------------------------------------------------

  function Inverses(odds: Odds): (pi: seq<real>)
    requires ValidOdds(odds)
    ensures |pi| == |odds|
  {
    seq(|odds|, i requires 0 <= i < |odds| => 1.0 / odds[i])
  }

  function ShinProbs(sqrt: real -> real, pi: seq<real>, booksum: real, z: real): (s: seq<real>)
    requires booksum != 0.0 && z != 1.0
    ensures |s| == |pi|
  {
    seq(|pi|, i requires 0 <= i < |pi| => ShinProb(sqrt, pi[i], booksum, z))
  }

  lemma {:induction false} TotalPositive(s: seq<real>)
    requires AllPositive(s)
    ensures Total(s) >= 0.0 && (s != [] ==> Total(s) > 0.0)
  {
    if s != [] { TotalPositive(s[..|s| - 1]); }
  }

  lemma {:induction false} InversesPositive(odds: Odds)
    requires ValidOdds(odds)
    ensures AllPositive(Inverses(odds)) && Total(Inverses(odds)) > 0.0
  {
    forall i | 0 <= i < |odds| ensures Inverses(odds)[i] > 0.0 { PositiveQuotient(1.0, odds[i]); }
    TotalPositive(Inverses(odds));
  }

  /** The shorter of two odds has the larger inverse. */
  lemma {:induction false} ShorterOdds(odds: Odds, i: nat, j: nat)
    requires ValidOdds(odds) && i < |odds| && j < |odds|
    ensures odds[i] < odds[j] <==> Inverses(odds)[j] < Inverses(odds)[i]
  {
    InverseTurnsOrder(odds[i], odds[j]);
  }

  lemma InverseTurnsOrder(a: real, b: real)
    requires a > 0.0 && b > 0.0
    ensures a < b <==> 1.0 / b < 1.0 / a
  {
    ScaleKeepsOrder(1.0 / b, 1.0 / a, b);
    ScaleKeepsOrder(1.0, 1.0 / a * b, a);
    assert 1.0 / b * b == 1.0;
    assert (1.0 / a * b) * a == (1.0 / a * a) * b == b;
  }

  lemma {:induction false} ProbsInOrder(sqrt: real -> real, pi: seq<real>, booksum: real, z: real)
    requires IsSqrt(sqrt) && AllPositive(pi) && booksum > 0.0 && 0.0 <= z < 1.0
    ensures AllPositive(ShinProbs(sqrt, pi, booksum, z)) && SameOrder(pi, ShinProbs(sqrt, pi, booksum, z))
  {
    var s := ShinProbs(sqrt, pi, booksum, z);
    forall i | 0 <= i < |pi| ensures s[i] > 0.0 { ProbPositive(sqrt, pi[i], booksum, z); }
    forall i, j | 0 <= i < |pi| && 0 <= j < |pi| ensures pi[i] < pi[j] <==> s[i] < s[j] {
      if pi[i] < pi[j] { ProbGrows(sqrt, pi[i], pi[j], booksum, z); }
      if pi[j] < pi[i] { ProbGrows(sqrt, pi[j], pi[i], booksum, z); }
    }
  }

  function Normalized(s: seq<real>, total: real): (r: seq<real>)
    requires total != 0.0
    ensures |r| == |s|
  {
    seq(|s|, i requires 0 <= i < |s| => s[i] / total)
  }

  lemma {:induction false} NormalizedTotal(s: seq<real>, total: real)
    requires total != 0.0
    ensures Total(Normalized(s, total)) == Total(s) / total
  {
    if s != [] {
      var last := |s| - 1;
      NormalizedTotal(s[..last], total);
      assert Normalized(s, total)[..last] == Normalized(s[..last], total);
      Fractions(Total(s[..last]), s[last], total);
    } else {
      assert 0.0 / total == 0.0;
    }
  }

  lemma {:induction false} NormalizedIsDistribution(s: seq<real>)
    requires s != [] && AllPositive(s)
    ensures Total(s) > 0.0
    ensures AllPositive(Normalized(s, Total(s))) && Total(Normalized(s, Total(s))) == 1.0
      && SameOrder(s, Normalized(s, Total(s)))
  {
    TotalPositive(s);
    NormalizedTotal(s, Total(s));
    Whole(Total(s));
    var r := Normalized(s, Total(s));
    forall i | 0 <= i < |s| ensures r[i] > 0.0 { PositiveQuotient(s[i], Total(s)); }
    forall i, j | 0 <= i < |s| && 0 <= j < |s| ensures s[i] < s[j] <==> r[i] < r[j] {
      ScaleKeepsOrder(s[i], s[j], Total(s));
    }
  }

  // ---- the bisection --------------------------------------------------------------------------------

  function SumAt(sqrt: real -> real, pi: seq<real>, booksum: real, z: real): real
    requires booksum != 0.0 && z != 1.0
  {
    Total(ShinProbs(sqrt, pi, booksum, z))
  }

  /** The interval never leaves [0, 0.999]; each end that has moved has been seen on its side of the solution. */
  ghost predicate Bracket(sqrt: real -> real, pi: seq<real>, booksum: real, lo: real, hi: real) {
    && booksum > 0.0 && 0.0 <= lo <= hi <= 0.999
    && (lo == 0.0 || SumAt(sqrt, pi, booksum, lo) > 1.0)
    && (hi == 0.999 || SumAt(sqrt, pi, booksum, hi) <= 1.0)
  }

  function Halved(x: real, n: nat): real { if n == 0 then x else Halved(x, n - 1) / 2.0 }

  const TOLERANCE := 0.000_000_000_001

  predicate IsClose(sum: real) { -TOLERANCE < sum - 1.0 < TOLERANCE }

  /** The end a midpoint replaces: the lower one where the probabilities sum to more than 1. */
  function Narrowed(sqrt: real -> real, pi: seq<real>, booksum: real, lo: real, hi: real): (r: (real, real))
    requires booksum != 0.0 && 0.0 <= lo <= hi <= 0.999
    ensures lo <= r.0 <= r.1 <= hi && r.1 - r.0 == (hi - lo) / 2.0
  {
    var z := (lo + hi) / 2.0;
    if SumAt(sqrt, pi, booksum, z) > 1.0 then (z, hi) else (lo, z)
  }

  /** The interval after at most `n` halvings: it stops behind a midpoint that sums to 1 within the tolerance. */
  function Bisected(sqrt: real -> real, pi: seq<real>, booksum: real, lo: real, hi: real, n: nat): (real, real)
    requires booksum != 0.0 && 0.0 <= lo <= hi <= 0.999
    decreases n
  {
    if n == 0 then (lo, hi)
    else
      var next := Narrowed(sqrt, pi, booksum, lo, hi);
      if IsClose(SumAt(sqrt, pi, booksum, (lo + hi) / 2.0)) then next
      else Bisected(sqrt, pi, booksum, next.0, next.1, n - 1)
  }

  /** The interval has been halved 200 times, or one end sums to 1 within the tolerance. */
  ghost predicate Solved(sqrt: real -> real, pi: seq<real>, booksum: real, lo: real, hi: real) {
    && Bracket(sqrt, pi, booksum, lo, hi)
    && (lo, hi) == Bisected(sqrt, pi, booksum, 0.0, 0.999, 200)
    && (hi - lo == Halved(0.999, 200)
        || IsClose(SumAt(sqrt, pi, booksum, lo)) || IsClose(SumAt(sqrt, pi, booksum, hi)))
  }

  method Bisect(sqrt: real -> real, pi: seq<real>, booksum: real) returns (lo: real, hi: real)
    requires booksum > 0.0
    ensures Solved(sqrt, pi, booksum, lo, hi)
  {
    hide ShinProbs, Total;
    lo, hi := 0.0, 0.999;
    for n := 0 to 200
      invariant Bracket(sqrt, pi, booksum, lo, hi)
      invariant hi - lo == Halved(0.999, n)
      invariant Bisected(sqrt, pi, booksum, 0.0, 0.999, 200) == Bisected(sqrt, pi, booksum, lo, hi, 200 - n)
    {
      var z := (lo + hi) / 2.0;
      var s := Total(ShinProbs(sqrt, pi, booksum, z));
      if s > 1.0 { lo := z; } else { hi := z; }
      if -TOLERANCE < s - 1.0 < TOLERANCE { return; }
    }
  }

  // ---- the proportion used and the one tested -------------------------------------------------------

  /** The last proportion tested is an end of the interval; it sums to 1 within the tolerance unless all `n` halvings
      were used up. The midpoint that is then used lies a quarter of the interval before away from it. */
  lemma {:induction false} LastTested(sqrt: real -> real, pi: seq<real>, booksum: real, lo: real, hi: real, n: nat)
      returns (m: nat, z: real)
    requires booksum != 0.0 && 0.0 <= lo <= hi <= 0.999 && n > 0
    ensures 1 <= m <= n
    ensures var r := Bisected(sqrt, pi, booksum, lo, hi, n); var used := (r.0 + r.1) / 2.0;
      && lo <= r.0 <= r.1 <= hi && (z == r.0 || z == r.1)
      && (m == n || -0.000_000_000_001 < SumAt(sqrt, pi, booksum, z) - 1.0 < 0.000_000_000_001)
      && (used - z == Halved(hi - lo, m - 1) / 4.0 || z - used == Halved(hi - lo, m - 1) / 4.0)
    decreases n
  {
    hide SumAt;
    var tested := (lo + hi) / 2.0;
    var next := Narrowed(sqrt, pi, booksum, lo, hi);
    if IsClose(SumAt(sqrt, pi, booksum, tested)) || n == 1 {
      m, z := 1, tested;
    } else {
      var k;
      k, z := LastTested(sqrt, pi, booksum, next.0, next.1, n - 1);
      HalvedOnce(hi - lo, k);
      m := k + 1;
    }
  }

  lemma {:induction false} HalvedOnce(x: real, k: nat)
    requires k >= 1
    ensures Halved(x, k) == Halved(x / 2.0, k - 1)
  {
    if k > 1 { HalvedOnce(x, k - 1); }
  }

  /** Two equal odds whose first midpoint is the solution itself: it is tested, and half of it is used, at which the
      probabilities sum to more than 1.1. */
  lemma {:induction false} EarlyExitUsesAnother(sqrt: real -> real) returns (odds: Odds)
    requires IsSqrt(sqrt)
    ensures ValidOdds(odds) && Inverses(odds) == [0.74975, 0.74975] && Total(Inverses(odds)) == 1.4995
    ensures Bisected(sqrt, [0.74975, 0.74975], 1.4995, 0.0, 0.999, 200) == (0.0, 0.4995)
    ensures SumAt(sqrt, [0.74975, 0.74975], 1.4995, 0.4995) == 1.0
    ensures SumAt(sqrt, [0.74975, 0.74975], 1.4995, 0.24975) > 1.1
  {
    var o := 1.0 / 0.74975;
    odds := [o, o];
    var pi := Inverses(odds);
    assert pi[0] == 0.74975 && pi[1] == 0.74975;
    assert pi == [0.74975, 0.74975];
    TotalOfTwo(pi);
    SumOfTwo(sqrt, 0.4995);
    SumOfTwo(sqrt, 0.24975);
    var r, u := Radicand(0.74975, 1.4995, 0.4995), Radicand(0.74975, 1.4995, 0.24975);
    assert r == 1.0 && u > 1.18;
    assert sqrt(r) * sqrt(r) == r && sqrt(u) * sqrt(u) == u;
    SquareIsOne(sqrt(r));
    SmallerSquare(1.08, sqrt(u));
    assert ShinProb(sqrt, 0.74975, 1.4995, 0.4995) == 0.5;
    assert ShinProb(sqrt, 0.74975, 1.4995, 0.24975) > 0.55;
    hide SumAt;
    assert Narrowed(sqrt, pi, 1.4995, 0.0, 0.999) == (0.0, 0.4995);
  }

  lemma SquareIsOne(x: real)
    requires x >= 0.0 && x * x == 1.0
    ensures x == 1.0
  {
    if x < 1.0 { StrictSquare(x, 1.0); }
    if x > 1.0 { StrictSquare(1.0, x); }
  }

  lemma TotalOfTwo(s: seq<real>)
    requires |s| == 2
    ensures Total(s) == s[0] + s[1]
  {
    assert s[..1][..0] == [];
    assert Total(s[..1]) == Total([]) + s[0];
  }

  lemma SumOfTwo(sqrt: real -> real, z: real)
    requires z != 1.0
    ensures SumAt(sqrt, [0.74975, 0.74975], 1.4995, z) == 2.0 * ShinProb(sqrt, 0.74975, 1.4995, z)
  {
    TotalOfTwo(ShinProbs(sqrt, [0.74975, 0.74975], 1.4995, z));
  }

  // ---- what it closes in on -------------------------------------------------------------------------

  lemma Cancel(w: real, x: real, y: real)
    requires w != 0.0 && w * x == w * y
    ensures x == y
  {}

  /** A probability solves the quadratic equation of Shin's model. */
  lemma ProbSolves(z: real, c: real, root: real, x: real)
    requires 0.0 <= z < 1.0 && root * root == z * z + 4.0 * (1.0 - z) * c && x == (root - z) / (2.0 * (1.0 - z))
    ensures (1.0 - z) * (x * x) + z * x == c
  {
    var w := 2.0 * (1.0 - z);
    var y := w * x;
    assert y == root - z;
    assert root * root == (y + z) * (y + z) == y * y + 2.0 * (y * z) + z * z;
    assert y * y + 2.0 * (y * z) == 2.0 * (w * c) by { assert w * c == 2.0 * (1.0 - z) * c; }
    var xx, xz := x * x, x * z;
    assert y * y == w * (w * xx) by { assert y * y == w * x * (w * x); }
    assert y * z == w * xz;
    assert w * (w * xx + 2.0 * xz) == w * (2.0 * c);
    Cancel(w, w * xx + 2.0 * xz, 2.0 * c);
  }

  /** Two solutions, for a smaller and a larger proportion: the larger proportion has the smaller probability. */
  lemma SolutionFalls(z: real, y: real, c: real, a: real, b: real)
    requires 0.0 <= z < y < 1.0 && 0.0 < c < 1.0 && a > 0.0 && b > 0.0
    requires (1.0 - z) * (a * a) + z * a == c && (1.0 - y) * (b * b) + y * b == c
    ensures b < a
  {
    SolutionBelowOne(z, c, a);
    if b >= a {
      SquareMonotone(a, b);
      NonNegative(1.0 - y, b * b - a * a);
      NonNegative(y, b - a);
      assert (1.0 - y) * (b * b) - (1.0 - y) * (a * a) == (1.0 - y) * (b * b - a * a);
      assert y * b - y * a == y * (b - a);
      PositiveProduct(a, 1.0 - a);
      PositiveProduct(y - z, a * (1.0 - a));
      Spread(z, y, a);
    }
  }

  lemma Spread(z: real, y: real, a: real)
    ensures (1.0 - y) * (a * a) + y * a == (1.0 - z) * (a * a) + z * a + (y - z) * (a * (1.0 - a))
  {
    var q := a * a;
    assert a * (1.0 - a) == a - q;
    assert (y - z) * (a - q) == y * a - y * q - z * a + z * q;
  }

  lemma AtLeastOne(z: real, a: real)
    requires 0.0 <= z < 1.0 && a >= 1.0
    ensures (1.0 - z) * (a * a) + z * a >= 1.0
  {
    SquareMonotone(1.0, a);
    NonNegative(1.0 - z, a * a - 1.0);
    NonNegative(z, a - 1.0);
    assert (1.0 - z) * (a * a) + z * a == (1.0 - z) * (a * a - 1.0) + z * (a - 1.0) + 1.0;
  }

  lemma SolutionBelowOne(z: real, c: real, a: real)
    requires 0.0 <= z < 1.0 && c < 1.0 && (1.0 - z) * (a * a) + z * a == c
    ensures a < 1.0
  {
    if a >= 1.0 { AtLeastOne(z, a); }
  }

  /** Every share of the market is less than the whole, squares included. */
  ghost predicate Shares(pi: seq<real>, booksum: real) {
    booksum > 0.0 && forall i :: 0 <= i < |pi| ==> 0.0 < pi[i] && pi[i] * pi[i] < booksum
  }

  lemma ProbIsSolution(sqrt: real -> real, p: real, booksum: real, z: real)
    requires IsSqrt(sqrt) && 0.0 < p && booksum > 0.0 && 0.0 <= z < 1.0
    ensures var x := ShinProb(sqrt, p, booksum, z); x > 0.0 && (1.0 - z) * (x * x) + z * x == p * p / booksum
  {
    ShareOf(p, booksum, z);
    ProbPositive(sqrt, p, booksum, z);
    RadicandExceeds(p, booksum, z);
    NonNegative(z, z);
    hide Radicand;
    var r := Radicand(p, booksum, z);
    assert sqrt(r) * sqrt(r) == r;
    ProbSolves(z, p * p / booksum, sqrt(r), ShinProb(sqrt, p, booksum, z));
  }

  lemma ShareBelowOne(p: real, booksum: real)
    requires 0.0 < p && p * p < booksum
    ensures booksum > 0.0 && 0.0 < p * p / booksum < 1.0
  {
    StrictSquare(0.0, p);
    PositiveQuotient(p * p, booksum);
    ScaleKeepsOrder(p * p, booksum, booksum);
    Whole(booksum);
  }

  lemma ProbFalls(sqrt: real -> real, p: real, booksum: real, z: real, y: real)
    requires IsSqrt(sqrt) && 0.0 < p && booksum > 0.0 && p * p < booksum && 0.0 <= z < y < 1.0
    ensures ShinProb(sqrt, p, booksum, y) < ShinProb(sqrt, p, booksum, z)
  {
    hide ShinProb, IsSqrt;
    ShareBelowOne(p, booksum);
    ProbIsSolution(sqrt, p, booksum, z);
    ProbIsSolution(sqrt, p, booksum, y);
    SolutionFalls(z, y, p * p / booksum, ShinProb(sqrt, p, booksum, z), ShinProb(sqrt, p, booksum, y));
  }

  lemma ShareOf(p: real, booksum: real, z: real)
    requires booksum > 0.0
    ensures Radicand(p, booksum, z) == z * z + 4.0 * (1.0 - z) * (p * p / booksum)
  {
    var q, w := p * p, 4.0 * (1.0 - z);
    assert w * q / booksum == w * (q / booksum);
  }

  lemma {:induction false} TotalFalls(a: seq<real>, b: seq<real>)
    requires |a| == |b| && forall i :: 0 <= i < |a| ==> b[i] < a[i]
    ensures Total(b) <= Total(a) && (a != [] ==> Total(b) < Total(a))
  {
    if a != [] { TotalFalls(a[..|a| - 1], b[..|b| - 1]); }
  }

  /** The larger the insider proportion, the smaller the sum. */
  lemma {:induction false} SumFalls(sqrt: real -> real, pi: seq<real>, booksum: real, z: real, y: real)
    requires IsSqrt(sqrt) && Shares(pi, booksum) && pi != [] && 0.0 <= z < y < 1.0
    ensures SumAt(sqrt, pi, booksum, y) < SumAt(sqrt, pi, booksum, z)
  {
    var a, b := ShinProbs(sqrt, pi, booksum, z), ShinProbs(sqrt, pi, booksum, y);
    forall i | 0 <= i < |pi| ensures b[i] < a[i] { ProbFalls(sqrt, pi[i], booksum, z, y); }
    TotalFalls(a, b);
  }

  /** The proportion at which the probabilities sum to 1 - there is at most one - stays between the ends, so that the
      midpoint is off by no more than half their distance. */
  lemma {:induction false} SolutionIsBracketed(sqrt: real -> real, odds: Odds, lo: real, hi: real, z: real)
    requires IsSqrt(sqrt) && ValidOdds(odds) && Total(Inverses(odds)) != 0.0 && 0.0 <= z <= 0.999
    requires Bracket(sqrt, Inverses(odds), Total(Inverses(odds)), lo, hi)
    requires SumAt(sqrt, Inverses(odds), Total(Inverses(odds)), z) == 1.0
    ensures lo <= z <= hi && -(hi - lo) / 2.0 <= (lo + hi) / 2.0 - z <= (hi - lo) / 2.0
    ensures forall y :: 0.0 <= y <= 0.999 && SumAt(sqrt, Inverses(odds), Total(Inverses(odds)), y) == 1.0 ==> y == z
  {
    hide SumAt;
    var pi, booksum := Inverses(odds), Total(Inverses(odds));
    OddsShare(odds);
    if z < lo { SumFalls(sqrt, pi, booksum, z, lo); }
    if hi < z { SumFalls(sqrt, pi, booksum, hi, z); }
    forall y | 0.0 <= y <= 0.999 && SumAt(sqrt, pi, booksum, y) == 1.0 ensures y == z {
      if y < z { SumFalls(sqrt, pi, booksum, y, z); }
      if z < y { SumFalls(sqrt, pi, booksum, z, y); }
    }
  }

  lemma {:induction false} OddsShare(odds: Odds)
    requires ValidOdds(odds)
    ensures Shares(Inverses(odds), Total(Inverses(odds)))
  {
    var pi := Inverses(odds);
    InversesPositive(odds);
    forall i | 0 <= i < |pi| ensures 0.0 < pi[i] && pi[i] * pi[i] < Total(pi) {
      PositiveQuotient(1.0, odds[i]);
      InverseBelowOne(odds[i]);
      PositiveProduct(pi[i], 1.0 - pi[i]);
      PartBelowTotal(pi, i);
    }
  }

  lemma InverseBelowOne(o: real)
    requires o > 1.0
    ensures 1.0 / o < 1.0
  {}

  lemma {:induction false} PartBelowTotal(s: seq<real>, i: nat)
    requires AllPositive(s) && i < |s|
    ensures s[i] <= Total(s)
  {
    var last := |s| - 1;
    TotalPositive(s[..last]);
    if i < last { PartBelowTotal(s[..last], i); }
  }

  /** `shin_devig`. */
  method ShinDevig(sqrt: real -> real, odds: Odds) returns (r: Option<seq<real>>)
    requires IsSqrt(sqrt)
    ensures r.None? <==> |odds| < 2 || exists i :: 0 <= i < |odds| && odds[i] <= 1.0
    ensures r.Some? ==> |r.value| == |odds| && AllPositive(r.value) && Total(r.value) == 1.0
    ensures r.Some? ==> forall i, j :: 0 <= i < |odds| && 0 <= j < |odds| ==>
      (odds[i] < odds[j] <==> r.value[j] < r.value[i])
    ensures r.Some? ==> exists lo, hi :: Solved(sqrt, Inverses(odds), Total(Inverses(odds)), lo, hi)
                                         && r.value == DevigAt(sqrt, odds, (lo + hi) / 2.0)
  {
    if !ValidOdds(odds) { return None; }
    var pi := Inverses(odds);
    InversesPositive(odds);
    var booksum := Total(pi);
    var lo, hi := Bisect(sqrt, pi, booksum);
    var z := (lo + hi) / 2.0;
    DevigOrders(sqrt, odds, z);
    var probs := ShinProbs(sqrt, pi, booksum, z);
    var total := Total(probs);
    r := Some(Normalized(probs, total));
    assert r.value == DevigAt(sqrt, odds, (lo + hi) / 2.0);
  }

  /** The probabilities for one insider proportion, normalised. */
  function DevigAt(sqrt: real -> real, odds: Odds, z: real): seq<real>
    requires ValidOdds(odds)
  {
    var pi := Inverses(odds);
    var booksum := Total(pi);
    if booksum == 0.0 || z == 1.0 then []
    else
      var probs := ShinProbs(sqrt, pi, booksum, z);
      if Total(probs) == 0.0 then [] else Normalized(probs, Total(probs))
  }

  /** At any proportion below 1: positive probabilities that sum to 1, strictly larger for strictly shorter odds. */
  lemma {:induction false} DevigOrders(sqrt: real -> real, odds: Odds, z: real)
    requires IsSqrt(sqrt) && ValidOdds(odds) && 0.0 <= z < 1.0
    ensures Total(Inverses(odds)) > 0.0 && Total(ShinProbs(sqrt, Inverses(odds), Total(Inverses(odds)), z)) > 0.0
    ensures var p := DevigAt(sqrt, odds, z);
      && |p| == |odds| && AllPositive(p) && Total(p) == 1.0
      && forall i, j :: 0 <= i < |odds| && 0 <= j < |odds| ==> (odds[i] < odds[j] <==> p[j] < p[i])
  {
    var pi := Inverses(odds);
    InversesPositive(odds);
    var booksum := Total(pi);
    ProbsInOrder(sqrt, pi, booksum, z);
    var probs := ShinProbs(sqrt, pi, booksum, z);
    NormalizedIsDistribution(probs);
    var p := DevigAt(sqrt, odds, z);
    forall i, j | 0 <= i < |odds| && 0 <= j < |odds| ensures odds[i] < odds[j] <==> p[j] < p[i] {
      ShorterOdds(odds, i, j);
    }
  }
}

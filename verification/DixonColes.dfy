/**
 Dixon-Coles score matrices over exact reals: a truncated product of two Poisson
 distributions with the four low-score cells corrected, and the markets read off it.
 `exp` stands for the exponential function.
 */
module DixonColes {
  import opened Elo
  import opened Reals
  import opened Sums

  const MAX_GOALS: nat := 10

  function Pow(x: real, k: nat): real { if k == 0 then 1.0 else x * Pow(x, k - 1) }

  function Factorial(k: nat): (r: nat)
    ensures r >= 1
  {
    if k == 0 then 1 else k * Factorial(k - 1)
  }

  /** `P(X = k)` for a Poisson variable of rate `lam`. */
  function Pmf(exp: PositiveFn, k: nat, lam: real): real {
    exp(-lam) * Pow(lam, k) / Factorial(k) as real
  }

  function Tau(i: nat, j: nat, lam: real, mu: real, rho: real): real {
    if i == 0 && j == 0 then 1.0 - lam * mu * rho
    else if i == 0 && j == 1 then 1.0 + lam * rho
    else if i == 1 && j == 0 then 1.0 + mu * rho
    else if i == 1 && j == 1 then 1.0 - rho
    else 1.0
  }

  // ---- matrices ---------------------------------------------------------------------------------

  type Matrix = (nat, nat) -> real

  /** The sum of the first `n` cells of row `i`. */
  function RowSum(m: Matrix, i: nat, n: nat): real {
    if n == 0 then 0.0 else RowSum(m, i, n - 1) + m(i, n - 1)
  }

  function ColumnSum(m: Matrix, j: nat, n: nat): real {
    if n == 0 then 0.0 else ColumnSum(m, j, n - 1) + m(n - 1, j)
  }

  /** The sum of the first `rows` rows of width `n`. */
  function Block(m: Matrix, rows: nat, n: nat): real {
    if rows == 0 then 0.0 else Block(m, rows - 1, n) + RowSum(m, rows - 1, n)
  }

  function Mass(m: Matrix, n: nat): real { Block(m, n, n) }

  /** The cells of `m` that `keep` accepts, 0 elsewhere. */
  function Where(m: Matrix, keep: (nat, nat) -> bool): Matrix {
    (i: nat, j: nat) => if keep(i, j) then m(i, j) else 0.0
  }

  function Outer(exp: PositiveFn, lam: real, mu: real): Matrix {
    (i: nat, j: nat) => Pmf(exp, i, lam) * Pmf(exp, j, mu)
  }

  function Corrected(exp: PositiveFn, lam: real, mu: real, rho: real): Matrix {
    (i: nat, j: nat) => Pmf(exp, i, lam) * Pmf(exp, j, mu) * Tau(i, j, lam, mu, rho)
  }

  function Divided(m: Matrix, total: real): Matrix
    requires total != 0.0
  {
    (i: nat, j: nat) => m(i, j) / total
  }

  // ---- the correction moves no mass -------------------------------------------------------------

  lemma PmfFirst(exp: PositiveFn, lam: real)
    ensures Pmf(exp, 1, lam) == lam * Pmf(exp, 0, lam)
  {
    assert Pow(lam, 1) == lam * Pow(lam, 0) && Factorial(1) == 1 && Factorial(0) == 1;
  }

  lemma FirstTwoCells(h: real, a: real, mu: real, x: real)
    ensures h * a * (1.0 - x * mu) + h * (mu * a) * (1.0 + x) == h * a + h * (mu * a)
  {}

  /** The two corrected cells of a row (or column) trade the same amount. */
  lemma {:induction false} RowStarts(exp: PositiveFn, lam: real, mu: real, rho: real, i: nat)
    ensures Corrected(exp, lam, mu, rho)(i, 0) + Corrected(exp, lam, mu, rho)(i, 1)
            == Outer(exp, lam, mu)(i, 0) + Outer(exp, lam, mu)(i, 1)
  {
    PmfFirst(exp, mu);
    var h, a := Pmf(exp, i, lam), Pmf(exp, 0, mu);
    if i == 0 { FirstTwoCells(h, a, mu, lam * rho); assert lam * rho * mu == lam * mu * rho; }
    else if i == 1 { FirstTwoCells(h, a, mu, -rho); }
  }

  lemma {:induction false} ColumnStarts(exp: PositiveFn, lam: real, mu: real, rho: real, j: nat)
    ensures Corrected(exp, lam, mu, rho)(0, j) + Corrected(exp, lam, mu, rho)(1, j)
            == Outer(exp, lam, mu)(0, j) + Outer(exp, lam, mu)(1, j)
  {
    PmfFirst(exp, lam);
    var h, a := Pmf(exp, 0, lam), Pmf(exp, j, mu);
    if j == 0 { FirstTwoCells(a, h, lam, mu * rho); }
    else if j == 1 { FirstTwoCells(a, h, lam, -rho); }
  }

  lemma {:induction false} RowMassStays(exp: PositiveFn, lam: real, mu: real, rho: real, i: nat, n: nat)
    requires n >= 2
    ensures RowSum(Corrected(exp, lam, mu, rho), i, n) == RowSum(Outer(exp, lam, mu), i, n)
    decreases n
  {
    if n == 2 {
      RowStarts(exp, lam, mu, rho, i);
      TwoCells(Corrected(exp, lam, mu, rho), i);
      TwoCells(Outer(exp, lam, mu), i);
    } else {
      RowMassStays(exp, lam, mu, rho, i, n - 1);
    }
  }

  lemma {:induction false} TwoCells(m: Matrix, i: nat)
    ensures RowSum(m, i, 2) == m(i, 0) + m(i, 1)
    ensures ColumnSum(m, i, 2) == m(0, i) + m(1, i)
  {
    assert RowSum(m, i, 1) == RowSum(m, i, 0) + m(i, 0);
    assert ColumnSum(m, i, 1) == ColumnSum(m, i, 0) + m(0, i);
  }

  lemma {:induction false} ColumnMassStays(exp: PositiveFn, lam: real, mu: real, rho: real, j: nat, n: nat)
    requires n >= 2
    ensures ColumnSum(Corrected(exp, lam, mu, rho), j, n) == ColumnSum(Outer(exp, lam, mu), j, n)
    decreases n
  {
    if n == 2 {
      ColumnStarts(exp, lam, mu, rho, j);
      TwoCells(Corrected(exp, lam, mu, rho), j);
      TwoCells(Outer(exp, lam, mu), j);
    } else {
      ColumnMassStays(exp, lam, mu, rho, j, n - 1);
    }
  }

  lemma {:induction false} BlockMassStays(exp: PositiveFn, lam: real, mu: real, rho: real, rows: nat, n: nat)
    requires n >= 2
    ensures Block(Corrected(exp, lam, mu, rho), rows, n) == Block(Outer(exp, lam, mu), rows, n)
    decreases rows
  {
    if rows > 0 {
      BlockMassStays(exp, lam, mu, rho, rows - 1, n);
      RowMassStays(exp, lam, mu, rho, rows - 1, n);
    }
  }

  /** For all rates and every rho, in a matrix of size `n`: each goal count keeps its probability, for
      either side, and so does the total. */
  lemma {:induction false} CorrectionMovesNoMass(exp: PositiveFn, lam: real, mu: real, rho: real, n: nat)
    requires n >= 2
    ensures forall i: nat :: RowSum(Corrected(exp, lam, mu, rho), i, n) == RowSum(Outer(exp, lam, mu), i, n)
    ensures forall j: nat :: ColumnSum(Corrected(exp, lam, mu, rho), j, n) == ColumnSum(Outer(exp, lam, mu), j, n)
    ensures Mass(Corrected(exp, lam, mu, rho), n) == Mass(Outer(exp, lam, mu), n)
  {
    forall i: nat ensures RowSum(Corrected(exp, lam, mu, rho), i, n) == RowSum(Outer(exp, lam, mu), i, n) {
      RowMassStays(exp, lam, mu, rho, i, n);
    }
    forall j: nat ensures ColumnSum(Corrected(exp, lam, mu, rho), j, n) == ColumnSum(Outer(exp, lam, mu), j, n) {
      ColumnMassStays(exp, lam, mu, rho, j, n);
    }
    BlockMassStays(exp, lam, mu, rho, n, n);
  }

  // ---- the mass is positive ---------------------------------------------------------------------

  lemma {:induction false} PowNonNegative(x: real, k: nat)
    requires x >= 0.0
    ensures Pow(x, k) >= 0.0
  {
    if k > 0 {
      PowNonNegative(x, k - 1);
      NonNegative(x, Pow(x, k - 1));
    }
  }

  lemma {:induction false} PmfNonNegative(exp: PositiveFn, k: nat, lam: real)
    requires lam >= 0.0
    ensures Pmf(exp, k, lam) >= 0.0
    ensures k == 0 ==> Pmf(exp, k, lam) > 0.0
  {
    PowNonNegative(lam, k);
    NonNegative(exp(-lam), Pow(lam, k));
    Quotient(exp(-lam) * Pow(lam, k), Factorial(k) as real);
    assert k == 0 ==> Pow(lam, k) == 1.0 && Factorial(k) == 1;
  }

  lemma Quotient(x: real, y: real)
    requires x >= 0.0 && y > 0.0
    ensures x / y >= 0.0
  {}

  lemma {:induction false} CellNonNegative(exp: PositiveFn, lam: real, mu: real, i: nat, j: nat)
    requires lam >= 0.0 && mu >= 0.0
    ensures Outer(exp, lam, mu)(i, j) >= 0.0
    ensures i == 0 && j == 0 ==> Outer(exp, lam, mu)(i, j) > 0.0
  {
    PmfNonNegative(exp, i, lam);
    PmfNonNegative(exp, j, mu);
    NonNegative(Pmf(exp, i, lam), Pmf(exp, j, mu));
    if i == 0 && j == 0 { Product(Pmf(exp, i, lam), Pmf(exp, j, mu)); }
  }

  lemma Product(x: real, y: real)
    requires x > 0.0 && y > 0.0
    ensures x * y > 0.0
  {}

  lemma {:induction false} RowPositive(exp: PositiveFn, lam: real, mu: real, i: nat, n: nat)
    requires lam >= 0.0 && mu >= 0.0
    ensures RowSum(Outer(exp, lam, mu), i, n) >= 0.0
    ensures i == 0 && n > 0 ==> RowSum(Outer(exp, lam, mu), i, n) > 0.0
    decreases n
  {
    if n > 0 {
      RowPositive(exp, lam, mu, i, n - 1);
      CellNonNegative(exp, lam, mu, i, n - 1);
    }
  }

  lemma {:induction false} MassPositive(exp: PositiveFn, lam: real, mu: real, rows: nat, n: nat)
    requires lam >= 0.0 && mu >= 0.0 && n > 0
    ensures Block(Outer(exp, lam, mu), rows, n) >= 0.0
    ensures rows > 0 ==> Block(Outer(exp, lam, mu), rows, n) > 0.0
    decreases rows
  {
    if rows > 0 {
      MassPositive(exp, lam, mu, rows - 1, n);
      RowPositive(exp, lam, mu, rows - 1, n);
    }
  }

  /** Rates that leave something to divide by; non-negative rates do. */
  predicate HasMass(exp: PositiveFn, lam: real, mu: real, maxGoals: nat) {
    Mass(Outer(exp, lam, mu), maxGoals + 1) != 0.0
  }

  lemma {:induction false} RatesHaveMass(exp: PositiveFn, lam: real, mu: real, maxGoals: nat)
    requires lam >= 0.0 && mu >= 0.0
    ensures HasMass(exp, lam, mu, maxGoals)
  {
    MassPositive(exp, lam, mu, maxGoals + 1, maxGoals + 1);
  }

  /** The normalised matrix. */
  function Scores(exp: PositiveFn, lam: real, mu: real, rho: real, maxGoals: nat): Matrix
    requires HasMass(exp, lam, mu, maxGoals)
  {
    Divided(Corrected(exp, lam, mu, rho), Mass(Outer(exp, lam, mu), maxGoals + 1))
  }

  // ---- sums over matrices -----------------------------------------------------------------------

  lemma {:induction false} RowSame(a: Matrix, b: Matrix, i: nat, n: nat)
    requires forall j: nat :: j < n ==> a(i, j) == b(i, j)
    ensures RowSum(a, i, n) == RowSum(b, i, n)
    decreases n
  {
    if n > 0 { RowSame(a, b, i, n - 1); }
  }

  lemma {:induction false} BlockSame(a: Matrix, b: Matrix, rows: nat, n: nat)
    requires forall i: nat, j: nat :: i < rows && j < n ==> a(i, j) == b(i, j)
    ensures Block(a, rows, n) == Block(b, rows, n)
    decreases rows
  {
    if rows > 0 {
      BlockSame(a, b, rows - 1, n);
      RowSame(a, b, rows - 1, n);
    }
  }

  lemma {:induction false} RowSplit(m: Matrix, a: Matrix, b: Matrix, i: nat, n: nat)
    requires forall i: nat, j: nat :: m(i, j) == a(i, j) + b(i, j)
    ensures RowSum(m, i, n) == RowSum(a, i, n) + RowSum(b, i, n)
    decreases n
  {
    if n > 0 { RowSplit(m, a, b, i, n - 1); }
  }

  lemma {:induction false} BlockSplit(m: Matrix, a: Matrix, b: Matrix, rows: nat, n: nat)
    requires forall i: nat, j: nat :: m(i, j) == a(i, j) + b(i, j)
    ensures Block(m, rows, n) == Block(a, rows, n) + Block(b, rows, n)
    decreases rows
  {
    if rows > 0 {
      BlockSplit(m, a, b, rows - 1, n);
      RowSplit(m, a, b, rows - 1, n);
    }
  }

  lemma {:induction false} RowDivided(m: Matrix, c: real, i: nat, n: nat)
    requires c != 0.0
    ensures RowSum(Divided(m, c), i, n) == RowSum(m, i, n) / c
    decreases n
  {
    if n > 0 { RowDivided(m, c, i, n - 1); Fractions(RowSum(m, i, n - 1), m(i, n - 1), c); }
  }

  lemma {:induction false} BlockDivided(m: Matrix, c: real, rows: nat, n: nat)
    requires c != 0.0
    ensures Block(Divided(m, c), rows, n) == Block(m, rows, n) / c
    decreases rows
  {
    if rows > 0 {
      BlockDivided(m, c, rows - 1, n);
      RowDivided(m, c, rows - 1, n);
      Fractions(Block(m, rows - 1, n), RowSum(m, rows - 1, n), c);
    }
  }

  lemma {:induction false} ScoresSumToOne(exp: PositiveFn, lam: real, mu: real, rho: real, maxGoals: nat)
    requires maxGoals >= 1 && HasMass(exp, lam, mu, maxGoals)
    ensures Mass(Scores(exp, lam, mu, rho, maxGoals), maxGoals + 1) == 1.0
  {
    var n := maxGoals + 1;
    var total := Mass(Outer(exp, lam, mu), n);
    CorrectionMovesNoMass(exp, lam, mu, rho, n);
    BlockDivided(Corrected(exp, lam, mu, rho), total, n, n);
    Whole(total);
  }

  // ---- markets ----------------------------------------------------------------------------------

  /** 1X2 when `home` and `away` goals are already scored and the matrix is of the goals to come. */
  function Outcomes(m: Matrix, n: nat, home: int, away: int): Probs {
    Probs(Mass(Where(m, (i: nat, j: nat) => home + i > away + j), n),
          Mass(Where(m, (i: nat, j: nat) => home + i == away + j), n),
          Mass(Where(m, (i: nat, j: nat) => home + i < away + j), n))
  }

  /** 1X2 of a matrix of final scores: below, on and above the diagonal. */
  function OneXTwoOf(m: Matrix, n: nat): Probs { Outcomes(m, n, 0, 0) }

  lemma {:induction false} OutcomesShareTheMass(m: Matrix, n: nat, home: int, away: int)
    ensures var p := Outcomes(m, n, home, away); p.home + p.draw + p.away == Mass(m, n)
  {
    var h := Where(m, (i: nat, j: nat) => home + i > away + j);
    var d := Where(m, (i: nat, j: nat) => home + i == away + j);
    var a := Where(m, (i: nat, j: nat) => home + i < away + j);
    var rest := Where(m, (i: nat, j: nat) => home + i <= away + j);
    BlockSplit(rest, d, a, n, n);
    BlockSplit(m, h, rest, n, n);
  }

  /** Whatever the rates, rho and current score, 1X2 sums to 1. */
  lemma {:induction false} OneXTwoSumsToOne(exp: PositiveFn, lam: real, mu: real, rho: real, maxGoals: nat, home: int,
                                            away: int)
    requires maxGoals >= 1 && HasMass(exp, lam, mu, maxGoals)
    ensures var p := Outcomes(Scores(exp, lam, mu, rho, maxGoals), maxGoals + 1, home, away);
      p.home + p.draw + p.away == 1.0
  {
    ScoresSumToOne(exp, lam, mu, rho, maxGoals);
    OutcomesShareTheMass(Scores(exp, lam, mu, rho, maxGoals), maxGoals + 1, home, away);
  }

  function Over(m: Matrix, n: nat, line: real): real { Mass(Where(m, (i: nat, j: nat) => (i + j) as real > line), n) }

  function Under(m: Matrix, n: nat, line: real): real { Mass(Where(m, (i: nat, j: nat) => (i + j) as real <= line), n) }

  lemma {:induction false} OverUnderSumToOne(exp: PositiveFn, lam: real, mu: real, rho: real, maxGoals: nat, line: real)
    requires maxGoals >= 1 && HasMass(exp, lam, mu, maxGoals)
    ensures var m := Scores(exp, lam, mu, rho, maxGoals);
      Over(m, maxGoals + 1, line) + Under(m, maxGoals + 1, line) == 1.0
  {
    var m := Scores(exp, lam, mu, rho, maxGoals);
    ScoresSumToOne(exp, lam, mu, rho, maxGoals);
    BlockSplit(m, Where(m, (i: nat, j: nat) => (i + j) as real > line),
      Where(m, (i: nat, j: nat) => (i + j) as real <= line),
               maxGoals + 1, maxGoals + 1);
  }

  // ---- the loops --------------------------------------------------------------------------------

  ghost predicate Stores(a: array2<real>, m: Matrix, n: nat)
    reads a
  {
    a.Length0 == n && a.Length1 == n && forall i, j :: 0 <= i < n && 0 <= j < n ==> a[i, j] == m(i, j)
  }

  /** `np.sum` over the cells that `keep` accepts. */
  method SumWhere(a: array2<real>, keep: (nat, nat) -> bool, ghost m: Matrix) returns (total: real)
    requires Stores(a, m, a.Length0)
    ensures total == Mass(Where(m, keep), a.Length0)
  {
    ghost var kept := Where(m, keep);
    var n := a.Length0;
    total := 0.0;
    for i := 0 to n
      invariant total == Block(kept, i, n)
    {
      for j := 0 to n
        invariant total == Block(kept, i, n) + RowSum(kept, i, j)
      {
        if keep(i, j) { total := total + a[i, j]; }
      }
    }
  }

  /** `score_matrix`: the outer product, its four low-score cells corrected in place, then normalised. */
  method ScoreMatrix(exp: PositiveFn, lam: real, mu: real, rho: real, maxGoals: nat) returns (normalized: array2<real>)
    requires maxGoals >= 1 && HasMass(exp, lam, mu, maxGoals)
    ensures fresh(normalized) && Stores(normalized, Scores(exp, lam, mu, rho, maxGoals), maxGoals + 1)
  {
    hide Corrected, Outer;
    var n := maxGoals + 1;
    var matrix := CorrectedMatrix(exp, lam, mu, rho, n);
    ghost var corrected := Corrected(exp, lam, mu, rho);
    var every := (i: nat, j: nat) => true;
    var total := SumWhere(matrix, every, corrected);
    BlockSame(Where(corrected, every), corrected, n, n);
    CorrectionMovesNoMass(exp, lam, mu, rho, n);
    normalized := Normalized(matrix, total, corrected);
  }

  /** `matrix / total`. */
  method Normalized(matrix: array2<real>, total: real, ghost m: Matrix) returns (normalized: array2<real>)
    requires Stores(matrix, m, matrix.Length0) && total != 0.0
    ensures fresh(normalized) && Stores(normalized, Divided(m, total), matrix.Length0)
  {
    var n := matrix.Length0;
    ghost var divided := Divided(m, total);
    normalized := new real[n, n];
    for i := 0 to n
      invariant forall p, q :: 0 <= p < i && 0 <= q < n ==> normalized[p, q] == divided(p, q)
    {
      for j := 0 to n
        invariant forall p, q :: 0 <= p < i && 0 <= q < n ==> normalized[p, q] == divided(p, q)
        invariant forall q :: 0 <= q < j ==> normalized[i, q] == divided(i, q)
      {
        normalized[i, j] := matrix[i, j] / total;
        assert normalized[i, j] == divided(i, j);
      }
    }
  }

  method CorrectedMatrix(exp: PositiveFn, lam: real, mu: real, rho: real, n: nat) returns (matrix: array2<real>)
    requires n >= 2
    ensures fresh(matrix) && Stores(matrix, Corrected(exp, lam, mu, rho), n)
  {
    hide Pmf;
    ghost var outer, corrected := Outer(exp, lam, mu), Corrected(exp, lam, mu, rho);
    matrix := new real[n, n](Outer(exp, lam, mu));
    for i := 0 to 2
      invariant forall p, q :: 0 <= p < n && 0 <= q < n ==>
        matrix[p, q] == if p < i && q < 2 then corrected(p, q) else outer(p, q)
    {
      for j := 0 to 2
        invariant forall p, q :: 0 <= p < n && 0 <= q < n ==>
          matrix[p, q] == if q < 2 && (p < i || (p == i && q < j)) then corrected(p, q) else outer(p, q)
      {
        matrix[i, j] := matrix[i, j] * Tau(i, j, lam, mu, rho);
      }
    }
  }

  /** `one_x_two`: the sums below, on and above the diagonal. */
  method OneXTwo(matrix: array2<real>, ghost m: Matrix) returns (p: Probs)
    requires Stores(matrix, m, matrix.Length0)
    ensures p == OneXTwoOf(m, matrix.Length0)
  {
    var home := SumWhere(matrix, (i: nat, j: nat) => 0 + i > 0 + j, m);
    var draw := SumWhere(matrix, (i: nat, j: nat) => 0 + i == 0 + j, m);
    var away := SumWhere(matrix, (i: nat, j: nat) => 0 + i < 0 + j, m);
    p := Probs(home, draw, away);
  }

  /** `total_over_under`. */
  method TotalOverUnder(matrix: array2<real>, line: real, ghost m: Matrix) returns (over: real, under: real)
    requires Stores(matrix, m, matrix.Length0)
    ensures over == Over(m, matrix.Length0, line) && under == Under(m, matrix.Length0, line)
  {
    ghost var above := Where(m, (i: nat, j: nat) => (i + j) as real > line);
    ghost var below := Where(m, (i: nat, j: nat) => (i + j) as real <= line);
    var size := matrix.Length0;
    over, under := 0.0, 0.0;
    for i := 0 to size
      invariant over == Block(above, i, size) && under == Block(below, i, size)
    {
      for j := 0 to size
        invariant over == Block(above, i, size) + RowSum(above, i, j)
        invariant under == Block(below, i, size) + RowSum(below, i, j)
      {
        if (i + j) as real > line { over := over + matrix[i, j]; } else { under := under + matrix[i, j]; }
      }
    }
  }

  // ---- in play ----------------------------------------------------------------------------------

  /** The share of the match still to be played. */
  function Remaining(minute: int, matchMinutes: nat): real
    requires matchMinutes > 0
  {
    (if matchMinutes - minute > 0 then matchMinutes - minute else 0) as real / matchMinutes as real
  }

  /** A pre-match rate scaled to the time left. */
  function Left(rate: real, minute: int, matchMinutes: nat): real
    requires matchMinutes > 0
  {
    rate * Remaining(minute, matchMinutes)
  }

  lemma LeftAtTheEnds(rate: real, minute: int, matchMinutes: nat)
    requires matchMinutes > 0
    ensures minute == 0 ==> Left(rate, minute, matchMinutes) == rate
    ensures minute >= matchMinutes ==> Left(rate, minute, matchMinutes) == 0.0
  {
    if minute == 0 { Whole(matchMinutes as real); assert rate * 1.0 == rate; }
    if minute >= matchMinutes { assert 0.0 / matchMinutes as real == 0.0; assert rate * 0.0 == 0.0; }
  }

  /** Non-negative pre-match rates leave mass at any minute. */
  lemma InPlayHasMass(exp: PositiveFn, lam: real, mu: real, minute: int, matchMinutes: nat)
    requires matchMinutes > 0 && lam >= 0.0 && mu >= 0.0
    ensures HasMass(exp, Left(lam, minute, matchMinutes), Left(mu, minute, matchMinutes), MAX_GOALS)
  {
    LeftNonNegative(lam, minute, matchMinutes);
    LeftNonNegative(mu, minute, matchMinutes);
    RatesHaveMass(exp, Left(lam, minute, matchMinutes), Left(mu, minute, matchMinutes), MAX_GOALS);
  }

  lemma LeftNonNegative(rate: real, minute: int, matchMinutes: nat)
    requires matchMinutes > 0 && rate >= 0.0
    ensures Left(rate, minute, matchMinutes) >= 0.0
  {
    Quotient((if matchMinutes - minute > 0 then matchMinutes - minute else 0) as real, matchMinutes as real);
    NonNegative(rate, Remaining(minute, matchMinutes));
  }

  /** `in_play_one_x_two`. */
  method InPlayOneXTwo(exp: PositiveFn, lam: real, mu: real, rho: real, homeScore: int, awayScore: int, minute: int,
                       matchMinutes: nat)
      returns (p: Probs)
    requires matchMinutes > 0
    requires HasMass(exp, Left(lam, minute, matchMinutes), Left(mu, minute, matchMinutes), MAX_GOALS)
    ensures p == InPlay(exp, lam, mu, rho, homeScore, awayScore, minute, matchMinutes)
  {
    hide Left, HasMass, Scores, Outcomes;
    var home, away := Left(lam, minute, matchMinutes), Left(mu, minute, matchMinutes);
    var matrix := ScoreMatrix(exp, home, away, rho, MAX_GOALS);
    p := Convolve(matrix, homeScore, awayScore, Scores(exp, home, away, rho, MAX_GOALS));
  }

  /** The double loop over the goals still to come. */
  method Convolve(matrix: array2<real>, homeScore: int, awayScore: int, ghost m: Matrix) returns (p: Probs)
    requires Stores(matrix, m, matrix.Length0)
    ensures p == Outcomes(m, matrix.Length0, homeScore, awayScore)
  {
    ghost var h := Where(m, (i: nat, j: nat) => homeScore + i > awayScore + j);
    ghost var d := Where(m, (i: nat, j: nat) => homeScore + i == awayScore + j);
    ghost var a := Where(m, (i: nat, j: nat) => homeScore + i < awayScore + j);
    var size := matrix.Length0;
    var home, draw, away := 0.0, 0.0, 0.0;
    for i := 0 to size
      invariant home == Block(h, i, size) && draw == Block(d, i, size) && away == Block(a, i, size)
    {
      for j := 0 to size
        invariant home == Block(h, i, size) + RowSum(h, i, j)
        invariant draw == Block(d, i, size) + RowSum(d, i, j)
        invariant away == Block(a, i, size) + RowSum(a, i, j)
      {
        var finalHome, finalAway := homeScore + i, awayScore + j;
        var prob := matrix[i, j];
        if finalHome > finalAway { home := home + prob; }
        else if finalHome == finalAway { draw := draw + prob; }
        else { away := away + prob; }
      }
    }
    p := Probs(home, draw, away);
  }

  function InPlay(exp: PositiveFn, lam: real, mu: real, rho: real, homeScore: int, awayScore: int, minute: int,
                  matchMinutes: nat): Probs
    requires matchMinutes > 0
    requires HasMass(exp, Left(lam, minute, matchMinutes), Left(mu, minute, matchMinutes), MAX_GOALS)
  {
    Outcomes(Scores(exp, Left(lam, minute, matchMinutes), Left(mu, minute, matchMinutes), rho, MAX_GOALS),
             MAX_GOALS + 1, homeScore, awayScore)
  }

  /** At 0-0 and minute 0 the in-play market is the pre-match market. */
  lemma {:induction false} KickOffIsPreMatch(exp: PositiveFn, lam: real, mu: real, rho: real, matchMinutes: nat)
    requires matchMinutes > 0 && HasMass(exp, lam, mu, MAX_GOALS)
    ensures Left(lam, 0, matchMinutes) == lam && Left(mu, 0, matchMinutes) == mu
    ensures InPlay(exp, lam, mu, rho, 0, 0, 0, matchMinutes) ==
      OneXTwoOf(Scores(exp, lam, mu, rho, MAX_GOALS), MAX_GOALS + 1)
  {
    LeftAtTheEnds(lam, 0, matchMinutes);
    LeftAtTheEnds(mu, 0, matchMinutes);
  }

  lemma {:induction false} PowZero(k: nat)
    requires k > 0
    ensures Pow(0.0, k) == 0.0
  {}

  lemma {:induction false} PmfZero(exp: PositiveFn, k: nat)
    requires exp(0.0) == 1.0
    ensures Pmf(exp, k, 0.0) == if k == 0 then 1.0 else 0.0
  {
    assert -0.0 == 0.0;
    if k > 0 { PowZero(k); }
    else { assert Pow(0.0, 0) == 1.0 && Factorial(0) == 1; }
  }

  /** With no time left, the matrix is certain of 0-0 to come. */
  lemma {:induction false} NothingToCome(exp: PositiveFn, rho: real, i: nat, j: nat)
    requires exp(0.0) == 1.0
    ensures Outer(exp, 0.0, 0.0)(i, j) == if i == 0 && j == 0 then 1.0 else 0.0
    ensures Corrected(exp, 0.0, 0.0, rho)(i, j) == if i == 0 && j == 0 then 1.0 else 0.0
  {
    PmfZero(exp, i);
    PmfZero(exp, j);
  }

  lemma {:induction false} CornerRow(m: Matrix, i: nat, n: nat)
    requires forall p: nat, q: nat :: p != 0 || q != 0 ==> m(p, q) == 0.0
    ensures RowSum(m, i, n) == if i == 0 && n > 0 then m(0, 0) else 0.0
    decreases n
  {
    if n > 0 { CornerRow(m, i, n - 1); }
  }

  lemma {:induction false} CornerBlock(m: Matrix, rows: nat, n: nat)
    requires n > 0 && forall p: nat, q: nat :: p != 0 || q != 0 ==> m(p, q) == 0.0
    ensures Block(m, rows, n) == if rows > 0 then m(0, 0) else 0.0
    decreases rows
  {
    if rows > 0 {
      CornerBlock(m, rows - 1, n);
      CornerRow(m, rows - 1, n);
    }
  }

  lemma {:induction false} NothingToComeScores(exp: PositiveFn, rho: real, maxGoals: nat)
    requires exp(0.0) == 1.0
    ensures HasMass(exp, 0.0, 0.0, maxGoals)
    ensures forall i: nat, j: nat :: Scores(exp, 0.0, 0.0, rho, maxGoals)(i, j) == if i == 0 && j == 0 then 1.0 else 0.0
  {
    forall i: nat, j: nat ensures Outer(exp, 0.0, 0.0)(i, j) == if i == 0 && j == 0 then 1.0 else 0.0 {
      NothingToCome(exp, rho, i, j);
    }
    CornerBlock(Outer(exp, 0.0, 0.0), maxGoals + 1, maxGoals + 1);
    forall i: nat, j: nat ensures Scores(exp, 0.0, 0.0, rho, maxGoals)(i, j) == if i == 0 && j == 0 then 1.0 else 0.0 {
      NothingToCome(exp, rho, i, j);
    }
  }

  function Decided(home: int, away: int): Probs {
    if home > away then Probs(1.0, 0.0, 0.0) else if home == away then Probs(0.0, 1.0, 0.0) else Probs(0.0, 0.0, 1.0)
  }

  lemma {:induction false} CertainScore(m: Matrix, n: nat, home: int, away: int)
    requires n > 0 && forall p: nat, q: nat :: m(p, q) == if p == 0 && q == 0 then 1.0 else 0.0
    ensures Outcomes(m, n, home, away) == Decided(home, away)
  {
    CornerBlock(Where(m, (i: nat, j: nat) => home + i > away + j), n, n);
    CornerBlock(Where(m, (i: nat, j: nat) => home + i == away + j), n, n);
    CornerBlock(Where(m, (i: nat, j: nat) => home + i < away + j), n, n);
  }

  /** From the final minute on, the current score decides: probability 1 for its outcome, 0 for the others. */
  lemma {:induction false} FinalWhistleDecides(exp: PositiveFn, lam: real, mu: real, rho: real, home: int, away: int,
                                               minute: int, matchMinutes: nat)
    requires 0 < matchMinutes <= minute && exp(0.0) == 1.0
    ensures HasMass(exp, Left(lam, minute, matchMinutes), Left(mu, minute, matchMinutes), MAX_GOALS)
    ensures InPlay(exp, lam, mu, rho, home, away, minute, matchMinutes) == Decided(home, away)
  {
    hide Left, HasMass, Scores, Outcomes;
    LeftAtTheEnds(lam, minute, matchMinutes);
    LeftAtTheEnds(mu, minute, matchMinutes);
    NothingToComeScores(exp, rho, MAX_GOALS);
    CertainScore(Scores(exp, 0.0, 0.0, rho, MAX_GOALS), MAX_GOALS + 1, home, away);
  }

  // ---- the model --------------------------------------------------------------------------------

  type Team = nat

  datatype Params = Params(attack: map<Team, real>, defence: map<Team, real>, homeAdvantage: real, rho: real)

  const HOME_ADVANTAGE := 0.25
  const RHO := -0.05

  function StrengthOf(m: map<Team, real>, t: Team): real { if t in m then m[t] else 0.0 }

  function ExpectedGoals(exp: PositiveFn, p: Params, home: Team, away: Team): (Positive, Positive) {
    (exp(StrengthOf(p.attack, home) - StrengthOf(p.defence, away) + p.homeAdvantage),
     exp(StrengthOf(p.attack, away) - StrengthOf(p.defence, home)))
  }

  /** 1X2 for positive rates. */
  function PreMatch(exp: PositiveFn, lam: Positive, mu: Positive, rho: real): Probs {
    RatesHaveMass(exp, lam, mu, MAX_GOALS);
    OneXTwoOf(Scores(exp, lam, mu, rho, MAX_GOALS), MAX_GOALS + 1)
  }

  /** `predict_1x2`. */
  method Predict1x2(exp: PositiveFn, params: Params, home: Team, away: Team) returns (p: Probs)
    ensures var goals := ExpectedGoals(exp, params, home, away); p == PreMatch(exp, goals.0, goals.1, params.rho)
  {
    var goals := ExpectedGoals(exp, params, home, away);
    RatesHaveMass(exp, goals.0, goals.1, MAX_GOALS);
    var matrix := ScoreMatrix(exp, goals.0, goals.1, params.rho, MAX_GOALS);
    p := OneXTwo(matrix, Scores(exp, goals.0, goals.1, params.rho, MAX_GOALS));
  }
}

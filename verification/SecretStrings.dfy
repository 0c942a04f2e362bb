/**
 What the configuration's checks for visibly non-random secrets decide: `value in (value + value)[1:-1]`
 is true exactly of repeated blocks, and the run counter finds exactly the long keyboard walks.
 */
module SecretStrings {
  // ---- repeated blocks ------------------------------------------------------------------------------

  function Repeat(block: string, k: nat): string { if k == 0 then "" else block + Repeat(block, k - 1) }

  /** Python's `sub in s`. */
  ghost predicate Occurs(sub: string, s: string) {
    exists i :: OccursAt(sub, s, i)
  }

  predicate OccursAt(sub: string, s: string, i: int) {
    0 <= i <= |s| - |sub| && s[i..i + |sub|] == sub
  }

  /** `_is_periodic`. */
  ghost predicate IsPeriodic(value: string) {
    |value| > 1 && Occurs(value, (value + value)[1..2 * |value| - 1])
  }

  /** `value` starts again at offset `o` of its double. */
  ghost predicate IsOwnRotation(value: string, o: nat)
    requires o <= |value|
  {
    value[o..] + value[..o] == value
  }

  lemma {:induction false} DoubledSlice(value: string, o: nat)
    requires o <= |value|
    ensures (value + value)[o..o + |value|] == value[o..] + value[..o]
  {}

  /** Place `i` of the inner part of the double is place `i` + 1 of the double. */
  lemma {:induction false} InnerSlice(value: string, i: nat)
    requires i + 1 < |value|
    ensures (value + value)[1..2 * |value| - 1][i..i + |value|] == value[i + 1..] + value[..i + 1]
  {
    var double := value + value;
    assert double[1..2 * |value| - 1][i..i + |value|] == double[i + 1..i + 1 + |value|];
    DoubledSlice(value, i + 1);
  }

  lemma {:induction false} PeriodicGivesRotation(value: string) returns (o: nat)
    requires IsPeriodic(value)
    ensures 0 < o < |value| && IsOwnRotation(value, o)
  {
    var inner := (value + value)[1..2 * |value| - 1];
    var i :| OccursAt(value, inner, i);
    InnerSlice(value, i);
    o := i + 1;
  }

  lemma {:induction false} RotationIsPeriodic(value: string, o: nat)
    requires 0 < o < |value| && IsOwnRotation(value, o)
    ensures IsPeriodic(value)
  {
    InnerSlice(value, o - 1);
    assert OccursAt(value, (value + value)[1..2 * |value| - 1], o - 1);
  }

  lemma {:induction false} RepeatAdds(block: string, i: nat, j: nat)
    ensures Repeat(block, i) + Repeat(block, j) == Repeat(block, i + j)
  {
    if i > 0 { RepeatAdds(block, i - 1, j); }
  }

  lemma {:induction false} RepeatOnce(block: string)
    ensures Repeat(block, 1) == block
  {
    assert Repeat(block, 1) == block + Repeat(block, 0);
  }

  /** Words that commute are powers of one word. */
  lemma {:induction false} CommutingWords(x: string, y: string) returns (block: string, i: nat, j: nat)
    requires x != "" && y != "" && x + y == y + x
    ensures block != "" && i > 0 && j > 0 && x == Repeat(block, i) && y == Repeat(block, j)
    decreases |x| + |y|
  {
    if |x| == |y| {
      assert x == (x + y)[..|x|] == (y + x)[..|x|] == y;
      RepeatOnce(x);
      block, i, j := x, 1, 1;
    } else if |x| < |y| {
      var z := CommonPrefix(x, y);
      var k;
      block, i, k := CommutingWords(x, z);
      RepeatAdds(block, i, k);
      j := i + k;
    } else {
      var z := CommonPrefix(y, x);
      var k;
      block, j, k := CommutingWords(y, z);
      RepeatAdds(block, j, k);
      i := j + k;
    }
  }

  /** The shorter of two commuting words starts the longer one, and commutes with the rest of it. */
  lemma {:induction false} CommonPrefix(x: string, y: string) returns (z: string)
    requires x + y == y + x && |x| < |y|
    ensures y == x + z && x + z == z + x
  {
    z := y[|x|..];
    assert x == (x + y)[..|x|] == (y + x)[..|x|] == y[..|x|];
    assert y == x + z;
    assert x + (x + z) == x + (z + x) by { assert x + y == y + x; assert (x + z) + x == x + (z + x); }
    assert x + z == (x + (x + z))[|x|..] == (x + (z + x))[|x|..] == z + x;
  }

  /** The one-liner is right: it holds exactly of a block repeated twice or more. */
  lemma {:induction false} PeriodicExactly(value: string)
    ensures IsPeriodic(value) <==> exists block, k :: block != "" && k >= 2 && value == Repeat(block, k)
  {
    if IsPeriodic(value) {
      var o := PeriodicGivesRotation(value);
      var x, y := value[..o], value[o..];
      assert value == x + y;
      var block, i, j := CommutingWords(x, y);
      RepeatAdds(block, i, j);
      assert value == Repeat(block, i + j);
    }
    if exists block, k :: block != "" && k >= 2 && value == Repeat(block, k) {
      var block, k :| block != "" && k >= 2 && value == Repeat(block, k);
      RepeatedIsRotation(block, k);
      RotationIsPeriodic(value, |block|);
    }
  }

  lemma {:induction false} RepeatedIsRotation(block: string, k: nat)
    requires block != "" && k >= 2
    ensures 0 < |block| < |Repeat(block, k)| && IsOwnRotation(Repeat(block, k), |block|)
  {
    var rest := Repeat(block, k - 1);
    assert Repeat(block, k) == block + rest;
    assert rest == block + Repeat(block, k - 2);
    RepeatAdds(block, k - 1, 1);
    RepeatOnce(block);
    assert (block + rest)[|block|..] == rest && (block + rest)[..|block|] == block;
  }

  // ---- keyboard walks -------------------------------------------------------------------------------

  /** Each of the `n` characters from `p` on is the previous one plus `step`. */
  ghost predicate Walk(value: string, p: nat, n: nat, step: int)
    requires p + n <= |value|
  {
    forall q {:trigger value[q]} :: p < q < p + n ==> value[q] as int - value[q - 1] as int == step
  }

  ghost predicate HasWalk(value: string, n: nat) {
    exists p: nat :: p + n <= |value| && (Walk(value, p, n, 1) || Walk(value, p, n, -1))
  }

  /** How many characters, ending at `i`, step by `step` each. */
  function RunEndingAt(value: string, i: nat, step: int): (n: nat)
    requires i < |value|
    ensures 1 <= n <= i + 1
  {
    if i == 0 || value[i] as int - value[i - 1] as int != step then 1 else RunEndingAt(value, i - 1, step) + 1
  }

  /** The run ending at `i` is the longest walk that ends there. */
  lemma {:induction false} RunIsLongest(value: string, i: nat, step: int, n: nat)
    requires i < |value| && 1 <= n <= i + 1
    ensures n <= RunEndingAt(value, i, step) <==> Walk(value, i + 1 - n, n, step)
  {
    if n > 1 {
      RunIsLongest(value, i - 1, step, n - 1);
      if Walk(value, i + 1 - n, n, step) { assert value[i] as int - value[i - 1] as int == step; }
    }
  }

  /** `_has_monotonic_run`. A single character is no run, whatever the length asked for. */
  method HasMonotonicRun(value: string, length: nat) returns (found: bool)
    ensures found <==> |value| >= 2 && HasWalk(value, length)
  {
    var up, down := 1, 1;
    var i := 1;
    while i < |value|
      invariant 1 <= i && (|value| > 0 ==> i <= |value|)
      invariant |value| > 0 ==> up == RunEndingAt(value, i - 1, 1) && down == RunEndingAt(value, i - 1, -1)
      invariant i > 1 ==> length >= 2
      invariant length >= 2 ==>
        forall q :: 0 <= q < i && q < |value| ==>
          RunEndingAt(value, q, 1) < length && RunEndingAt(value, q, -1) < length
    {
      var step := value[i] as int - value[i - 1] as int;
      up := if step == 1 then up + 1 else 1;
      down := if step == -1 then down + 1 else 1;
      if up >= length || down >= length {
        RunIsWalk(value, i, if up >= length then 1 else -1, length);
        return true;
      }
      i := i + 1;
    }
    if |value| >= 2 { NoRunNoWalk(value, length); }
    return false;
  }

  lemma {:induction false} RunIsWalk(value: string, i: nat, step: int, length: nat)
    requires i < |value| && length <= RunEndingAt(value, i, step) && (step == 1 || step == -1)
    ensures HasWalk(value, length)
  {
    if length == 0 { assert Walk(value, 0, 0, 1); }
    else { RunIsLongest(value, i, step, length); }
  }

  lemma {:induction false} NoRunNoWalk(value: string, length: nat)
    requires length >= 2
    requires forall q :: 0 <= q < |value| ==> RunEndingAt(value, q, 1) < length && RunEndingAt(value, q, -1) < length
    ensures !HasWalk(value, length)
  {
    forall p: nat | p + length <= |value| ensures !Walk(value, p, length, 1) && !Walk(value, p, length, -1) {
      RunIsLongest(value, p + length - 1, 1, length);
      RunIsLongest(value, p + length - 1, -1, length);
    }
  }
}

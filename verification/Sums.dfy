/** Sums of reals over finite sets and over sequences, and functions known to be positive. */
module Sums {
  type Positive = x: real | x > 0.0 witness 1.0

  /** A function such as `exp` or `x => 10^x`: all that is used of it is that it is positive. */
  type PositiveFn = real -> Positive

  ghost function SumOver(s: set<nat>, f: nat -> real): real {
    if s == {} then 0.0
    else
      var x :| x in s;
      f(x) + SumOver(s - {x}, f)
  }

  lemma {:induction false} SumPick(s: set<nat>, x: nat, f: nat -> real)
    requires x in s
    ensures SumOver(s, f) == f(x) + SumOver(s - {x}, f)
    decreases |s|
  {
    var y :| y in s && SumOver(s, f) == f(y) + SumOver(s - {y}, f);
    if y != x {
      SumPick(s - {y}, x, f);
      SumPick(s - {x}, y, f);
      assert s - {y} - {x} == s - {x} - {y};
    }
  }

  /** Adding `g` to each term adds its sum. */
  lemma {:induction false} SumAdd(s: set<nat>, f: nat -> real, g: nat -> real, h: nat -> real)
    requires forall x :: x in s ==> h(x) == f(x) + g(x)
    ensures SumOver(s, h) == SumOver(s, f) + SumOver(s, g)
    decreases |s|
  {
    if s != {} {
      var x :| x in s;
      SumPick(s, x, f);
      SumPick(s, x, g);
      SumPick(s, x, h);
      SumAdd(s - {x}, f, g, h);
    }
  }

  lemma {:induction false} SumSame(s: set<nat>, f: nat -> real, g: nat -> real)
    requires forall x :: x in s ==> f(x) == g(x)
    ensures SumOver(s, f) == SumOver(s, g)
    decreases |s|
  {
    if s != {} {
      var x :| x in s;
      SumPick(s, x, f);
      SumPick(s, x, g);
      SumSame(s - {x}, f, g);
    }
  }

  lemma {:induction false} SumConst(s: set<nat>, f: nat -> real, c: real)
    requires forall x :: x in s ==> f(x) == c
    ensures SumOver(s, f) == c * |s| as real
    decreases |s|
  {
    if s != {} {
      var x :| x in s;
      SumPick(s, x, f);
      SumConst(s - {x}, f, c);
    }
  }

  /** Raising one term by `d` raises the sum by `d`. */
  lemma {:induction false} SumRaise(s: set<nat>, f: nat -> real, g: nat -> real, x: nat, d: real)
    requires x in s && g(x) == f(x) + d && forall y :: y in s && y != x ==> g(y) == f(y)
    ensures SumOver(s, g) == SumOver(s, f) + d
  {
    SumPick(s, x, f);
    SumPick(s, x, g);
    SumSame(s - {x}, f, g);
  }

  function SumSeq<T>(s: seq<T>, f: T -> real): real {
    if s == [] then 0.0 else SumSeq(s[..|s| - 1], f) + f(s[|s| - 1])
  }

  lemma {:induction false} SumSeqWithout<T>(s: seq<T>, i: nat, f: T -> real)
    requires i < |s|
    ensures SumSeq(s, f) == SumSeq(s[..i] + s[i + 1..], f) + f(s[i])
    decreases |s|
  {
    var last := |s| - 1;
    var rest := s[..i] + s[i + 1..];
    if i == last {
      assert rest == s[..last];
    } else {
      SumSeqWithout(s[..last], i, f);
      assert rest[..last - 1] == s[..last][..i] + s[..last][i + 1..];
    }
  }

  lemma {:induction false} RemoveAt<T>(s: seq<T>, i: nat)
    requires i < |s|
    ensures multiset(s[..i] + s[i + 1..]) == multiset(s) - multiset{s[i]}
  {
    assert s == s[..i] + [s[i]] + s[i + 1..];
  }

  lemma {:induction false} PermutedLength<T>(s: seq<T>, t: seq<T>)
    requires multiset(s) == multiset(t)
    ensures |s| == |t| && forall i :: 0 <= i < |s| ==> s[i] in t
  {
    assert |s| == |multiset(s)| == |multiset(t)| == |t|;
    forall i | 0 <= i < |s| ensures s[i] in t { assert s[i] in multiset(t); }
  }

  /** A sum does not depend on the order of its terms. */
  lemma {:induction false} SumSeqPermuted<T>(s: seq<T>, t: seq<T>, f: T -> real)
    requires multiset(s) == multiset(t)
    ensures SumSeq(s, f) == SumSeq(t, f)
    decreases |s|
  {
    PermutedLength(s, t);
    if s != [] {
      var last := |s| - 1;
      var i :| 0 <= i < |t| && t[i] == s[last];
      RemoveAt(s, last);
      RemoveAt(t, i);
      assert s[..last] + s[last + 1..] == s[..last];
      SumSeqPermuted(s[..last], t[..i] + t[i + 1..], f);
      SumSeqWithout(t, i, f);
    }
  }
}

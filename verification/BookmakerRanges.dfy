/** The check that the reference-bookmaker ranges cover every date exactly once, in order. */
module BookmakerRanges {
  import opened Options

  type Date = int

  /** Matches kicking off in `[from, until)`; None is open-ended. */
  datatype Range = Range(bookmaker: nat, from: Option<Date>, until: Option<Date>)

  datatype Verdict = Accepted | NoRange | NotAllDates | NotContiguous | EmptyRange

  predicate Covers(r: Range, d: Date) {
    (r.from.None? || r.from.value <= d) && (r.until.None? || d < r.until.value)
  }

  ghost predicate Covered(ranges: seq<Range>, d: Date) {
    exists i :: 0 <= i < |ranges| && Covers(ranges[i], d)
  }

  ghost predicate HasDate(r: Range) { exists d :: Covers(r, d) }

  /** Each date falls into one range, later dates into no earlier range, and no range is idle. */
  ghost predicate PartitionsDates(ranges: seq<Range>) {
    && (forall d :: Covered(ranges, d))
    && (forall i, j, d, e :: 0 <= i < j < |ranges| && Covers(ranges[i], d) && Covers(ranges[j], e) ==> d < e)
    && (forall i :: 0 <= i < |ranges| ==> HasDate(ranges[i]))
  }

  predicate Contiguous(a: Range, b: Range) { a.until.Some? && a.until == b.from }

  predicate Idle(r: Range) { r.from.Some? && r.until.Some? && r.from.value >= r.until.value }

  /** What the loops establish. */
  ghost predicate WellFormed(ranges: seq<Range>) {
    && |ranges| > 0 && ranges[0].from.None? && ranges[|ranges| - 1].until.None?
    && (forall i {:trigger Linked(ranges, i)} :: 0 <= i < |ranges| - 1 ==> Linked(ranges, i))
    && (forall i :: 0 <= i < |ranges| ==> !Idle(ranges[i]))
  }

  predicate Linked(ranges: seq<Range>, i: nat)
    requires i + 1 < |ranges|
  {
    Contiguous(ranges[i], ranges[i + 1])
  }

  /** `_validate_reference_bookmakers`: accepts exactly the lists that partition all dates. */
  method Validate(ranges: seq<Range>) returns (v: Verdict)
    ensures v == Accepted <==> PartitionsDates(ranges)
    ensures v == NoRange <==> ranges == []
    ensures v == NotAllDates <==> ranges != [] && (ranges[0].from.Some? || ranges[|ranges| - 1].until.Some?)
    ensures v == EmptyRange ==> exists i :: 0 <= i < |ranges| && !HasDate(ranges[i])
  {
    v := Check(ranges);
    WellFormedExactly(ranges);
  }

  method Check(ranges: seq<Range>) returns (v: Verdict)
    ensures v == Accepted <==> WellFormed(ranges)
    ensures v == NoRange <==> ranges == []
    ensures v == NotAllDates <==> ranges != [] && (ranges[0].from.Some? || ranges[|ranges| - 1].until.Some?)
    ensures v == NotContiguous ==> exists i: nat ::
      i + 1 < |ranges| && (ranges[i].until.None? || ranges[i].until != ranges[i + 1].from)
    ensures v == EmptyRange ==> exists i :: 0 <= i < |ranges| && !HasDate(ranges[i])
  {
    if ranges == [] { return NoRange; }
    if ranges[0].from.Some? || ranges[|ranges| - 1].until.Some? { return NotAllDates; }
    for i := 0 to |ranges| - 1
      invariant forall k {:trigger Linked(ranges, k)} :: 0 <= k < i ==> Linked(ranges, k)
    {
      var earlier, later := ranges[i], ranges[i + 1];
      if earlier.until.None? || earlier.until != later.from {
        assert !Linked(ranges, i);
        return NotContiguous;
      }
    }
    for i := 0 to |ranges|
      invariant forall k :: 0 <= k < i ==> !Idle(ranges[k])
    {
      if Idle(ranges[i]) { return EmptyRange; }
    }
    return Accepted;
  }

  // ---- both directions --------------------------------------------------------------------------------

  lemma {:induction false} WellFormedExactly(ranges: seq<Range>)
    ensures WellFormed(ranges) <==> PartitionsDates(ranges)
  {
    if WellFormed(ranges) { WellFormedPartitions(ranges); }
    if PartitionsDates(ranges) { PartitionIsWellFormed(ranges); }
  }

  lemma {:induction false} NotIdleCovers(r: Range)
    requires !Idle(r)
    ensures HasDate(r)
  {
    var d := if r.from.Some? then r.from.value else if r.until.Some? then r.until.value - 1 else 0;
    assert Covers(r, d);
  }

  /** Going right, the ranges begin ever later. */
  lemma {:induction false} Ascending(ranges: seq<Range>, i: nat, j: nat, d: Date, e: Date)
    requires WellFormed(ranges) && i < j < |ranges| && Covers(ranges[i], d) && Covers(ranges[j], e)
    ensures d < e
    decreases j
  {
    assert Linked(ranges, j - 1);
    if i < j - 1 {
      NotIdleCovers(ranges[j - 1]);
      var m :| Covers(ranges[j - 1], m);
      Ascending(ranges, i, j - 1, d, m);
    }
  }

  /** Some range among the first `n` covers `d`, if `d` is before the end of the last of them. */
  lemma {:induction false} Found(ranges: seq<Range>, n: nat, d: Date)
    requires WellFormed(ranges) && 0 < n <= |ranges| && (ranges[n - 1].until.None? || d < ranges[n - 1].until.value)
    ensures exists i :: 0 <= i < n && Covers(ranges[i], d)
  {
    if Covers(ranges[n - 1], d) {
    } else {
      assert n > 1;
      assert Linked(ranges, n - 2);
      Found(ranges, n - 1, d);
    }
  }

  lemma {:induction false} WellFormedPartitions(ranges: seq<Range>)
    requires WellFormed(ranges)
    ensures PartitionsDates(ranges)
  {
    forall d ensures Covered(ranges, d) { Found(ranges, |ranges|, d); }
    forall i, j, d, e | 0 <= i < j < |ranges| && Covers(ranges[i], d) && Covers(ranges[j], e) ensures d < e {
      Ascending(ranges, i, j, d, e);
    }
    forall i | 0 <= i < |ranges| ensures HasDate(ranges[i]) { NotIdleCovers(ranges[i]); }
  }

  lemma {:induction false} PartitionIsWellFormed(ranges: seq<Range>)
    requires PartitionsDates(ranges)
    ensures WellFormed(ranges)
  {
    assert Covered(ranges, 0);
    var one :| 0 <= one < |ranges| && Covers(ranges[one], 0);
    OpenEnds(ranges);
    forall i | 0 <= i < |ranges| - 1 ensures Linked(ranges, i) { NeighboursMeet(ranges, i); }
  }

  lemma {:induction false} OpenEnds(ranges: seq<Range>)
    requires PartitionsDates(ranges) && ranges != []
    ensures ranges[0].from.None? && ranges[|ranges| - 1].until.None?
  {
    FirstOpen(ranges);
    LastOpen(ranges);
  }

  lemma {:induction false} FirstOpen(ranges: seq<Range>)
    requires PartitionsDates(ranges) && ranges != []
    ensures ranges[0].from.None?
  {
    var first := ranges[0];
    assert HasDate(first);
    var e :| Covers(first, e);
    var d := if first.from.Some? then first.from.value - 1 else e;
    assert Covered(ranges, d);
  }

  lemma {:induction false} LastOpen(ranges: seq<Range>)
    requires PartitionsDates(ranges) && ranges != []
    ensures ranges[|ranges| - 1].until.None?
  {
    var last := ranges[|ranges| - 1];
    assert HasDate(last);
    var f :| Covers(last, f);
    var d := if last.until.Some? then last.until.value else f;
    assert Covered(ranges, d);
  }

  /** A date both could cover, and the one between them. */
  lemma {:induction false} NeighboursMeet(ranges: seq<Range>, i: nat)
    requires PartitionsDates(ranges) && i + 1 < |ranges|
    ensures Linked(ranges, i)
  {
    var a, b := ranges[i], ranges[i + 1];
    assert HasDate(a) && HasDate(b);
    var e :| Covers(a, e);
    var f :| Covers(b, f);
    assert e < f;
    assert a.until.Some? by { assert !Covers(a, f); }
    assert b.from.Some? by { assert !Covers(b, e); }
    var d := if e > b.from.value then e else b.from.value;
    assert !(Covers(a, d) && Covers(b, d));
    assert Covered(ranges, a.until.value);
    var j :| 0 <= j < |ranges| && Covers(ranges[j], a.until.value);
    assert !(j < i) && !(j > i + 1);
  }
}

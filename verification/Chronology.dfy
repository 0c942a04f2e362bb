/**
 The processing order every rating and feature pass shares, and what it buys.

 Fixtures are sorted by `(kickoff, id)` and grouped into batches of equal kickoff. A pass
 predicts every fixture of a batch from the state before the batch and then folds the batch
 in. The theorems say what that comes to: a prediction is a function of the fixture itself
 and of the fixtures that kicked off strictly earlier, whatever else is in the list and in
 whatever order the list arrives.
 */
module Chronology {
  import opened Options

  type FixtureId = nat
  type TeamId = nat
  type LeagueId = nat
  type Instant = int

  datatype Fixture = Fixture(id: FixtureId, kickoff: Instant, home: TeamId, away: TeamId, league: LeagueId,
                             ftHome: Option<int>, ftAway: Option<int>)

  /** Full-time goals; a missing score counts as 0. */
  function FinishedScores(f: Fixture): (int, int) {
    (if f.ftHome.Some? then f.ftHome.value else 0, if f.ftAway.Some? then f.ftAway.value else 0)
  }

  /** The teams of a list of fixtures. */
  function TeamsIn(batch: seq<Fixture>): set<TeamId> {
    (set f | f in batch :: f.home) + (set f | f in batch :: f.away)
  }

  // ---- sorting ----------------------------------------------------------------------------------

  /** `a` has the smaller `(kickoff, id)`. */
  predicate Before(a: Fixture, b: Fixture) {
    a.kickoff < b.kickoff || (a.kickoff == b.kickoff && a.id < b.id)
  }

  ghost predicate Sorted(s: seq<Fixture>) {
    forall i, j :: 0 <= i < j < |s| ==> !Before(s[j], s[i])
  }

  ghost predicate DistinctIds(s: seq<Fixture>) {
    forall i, j :: 0 <= i < j < |s| ==> s[i].id != s[j].id
  }

  function Insert(x: Fixture, s: seq<Fixture>): seq<Fixture> {
    if s == [] || !Before(s[0], x) then [x] + s else [s[0]] + Insert(x, s[1..])
  }

  /** The stable sort by `(kickoff, id)`. */
  function Chronological(fs: seq<Fixture>): seq<Fixture> {
    if fs == [] then [] else Insert(fs[0], Chronological(fs[1..]))
  }

  lemma {:induction false} InsertAdds(x: Fixture, s: seq<Fixture>)
    ensures multiset(Insert(x, s)) == multiset{x} + multiset(s)
  {
    if s != [] && Before(s[0], x) {
      InsertAdds(x, s[1..]);
      assert s == [s[0]] + s[1..];
    }
  }

  lemma {:induction false} InsertSorted(x: Fixture, s: seq<Fixture>)
    requires Sorted(s)
    ensures Sorted(Insert(x, s))
  {
    if s != [] && Before(s[0], x) {
      InsertSorted(x, s[1..]);
      InsertAdds(x, s[1..]);
      var rest := Insert(x, s[1..]);
      forall y | y in rest ensures !Before(y, s[0]) {
        assert y in multiset(rest);
        assert y == x || y in multiset(s[1..]);
      }
    }
  }

  lemma {:induction false} ChronologicalSorts(fs: seq<Fixture>)
    ensures Sorted(Chronological(fs))
    ensures forall i, j :: 0 <= i < j < |Chronological(fs)| ==>
      var a, b := Chronological(fs)[i], Chronological(fs)[j];
      a.kickoff < b.kickoff || (a.kickoff == b.kickoff && a.id <= b.id)
    ensures multiset(Chronological(fs)) == multiset(fs)
  {
    if fs != [] {
      ChronologicalSorts(fs[1..]);
      InsertSorted(fs[0], Chronological(fs[1..]));
      InsertAdds(fs[0], Chronological(fs[1..]));
      assert fs == [fs[0]] + fs[1..];
    }
  }

  lemma SameElements(a: seq<Fixture>, b: seq<Fixture>)
    requires multiset(a) == multiset(b)
    ensures |a| == |b|
    ensures forall x :: x in a <==> x in b
  {
    assert |a| == |multiset(a)| == |multiset(b)| == |b|;
    forall x ensures x in a <==> x in b { assert x in a <==> x in multiset(a); assert x in b <==> x in multiset(b); }
  }

  lemma {:induction false} SameFirst(a: seq<Fixture>, b: seq<Fixture>)
    requires Sorted(a) && Sorted(b) && DistinctIds(a) && a != [] && b != []
    requires a[0] in b && b[0] in a
    ensures a[0] == b[0]
  {
    var i :| 0 <= i < |b| && b[i] == a[0];
    var j :| 0 <= j < |a| && a[j] == b[0];
    assert i == 0 || !Before(b[i], b[0]);
    assert j == 0 || !Before(a[j], a[0]);
  }

  lemma {:induction false} RestIsSorted(a: seq<Fixture>)
    requires Sorted(a) && a != []
    ensures Sorted(a[1..]) && (DistinctIds(a) ==> DistinctIds(a[1..]))
  {}

  lemma {:induction false} RestOf(a: seq<Fixture>)
    requires a != []
    ensures a == [a[0]] + a[1..] && multiset(a[1..]) == multiset(a) - multiset{a[0]}
  {
    assert a == [a[0]] + a[1..];
  }

  /** Fixtures with distinct ids have one chronological order. */
  lemma {:induction false} SortedUnique(a: seq<Fixture>, b: seq<Fixture>)
    requires Sorted(a) && Sorted(b) && multiset(a) == multiset(b) && DistinctIds(a)
    ensures a == b
    decreases |a|
  {
    SameElements(a, b);
    if a != [] {
      SameFirst(a, b);
      RestIsSorted(a);
      RestIsSorted(b);
      RestOf(a);
      RestOf(b);
      hide Sorted, DistinctIds;
      SortedUnique(a[1..], b[1..]);
    }
  }

  lemma {:induction false} DistinctTail(a: seq<Fixture>, b: seq<Fixture>)
    requires DistinctIds(a) && multiset(a) == multiset(b)
    ensures DistinctIds(b)
  {
    SameElements(a, b);
    forall i, j | 0 <= i < j < |b| ensures b[i].id != b[j].id {
      if b[i].id == b[j].id {
        assert b[i] in a && b[j] in a;
        var p :| 0 <= p < |a| && a[p] == b[i];
        var q :| 0 <= q < |a| && a[q] == b[j];
        assert p == q;
        Twice(b, i, j);
        Once(a, p);
        assert false;
      }
    }
  }

  lemma {:induction false} Twice(b: seq<Fixture>, i: nat, j: nat)
    requires i < j < |b| && b[i] == b[j]
    ensures multiset(b)[b[i]] >= 2
  {
    assert b == b[..i] + [b[i]] + b[i + 1..j] + [b[j]] + b[j + 1..];
  }

  lemma {:induction false} Once(a: seq<Fixture>, p: nat)
    requires p < |a| && DistinctIds(a)
    ensures multiset(a)[a[p]] == 1
  {
    assert a == a[..p] + [a[p]] + a[p + 1..];
    assert a[p] !in a[..p] && a[p] !in a[p + 1..];
  }

  /** The chronological order depends only on which fixtures there are. */
  lemma {:induction false} OrderOfArrival(fs: seq<Fixture>, gs: seq<Fixture>)
    requires DistinctIds(fs) && multiset(fs) == multiset(gs)
    ensures Chronological(fs) == Chronological(gs)
  {
    ChronologicalSorts(fs);
    ChronologicalSorts(gs);
    DistinctTail(fs, Chronological(fs));
    SortedUnique(Chronological(fs), Chronological(gs));
  }

  // ---- batches ----------------------------------------------------------------------------------

  /** How many fixtures at the front share the first one's kickoff. */
  function Run(s: seq<Fixture>): (n: nat)
    requires s != []
    ensures 1 <= n <= |s|
    ensures forall i :: 0 <= i < n ==> s[i].kickoff == s[0].kickoff
    ensures n < |s| ==> s[n].kickoff != s[0].kickoff
  {
    if |s| == 1 || s[1].kickoff != s[0].kickoff then 1 else 1 + Run(s[1..])
  }

  /** Consecutive fixtures of equal kickoff, grouped. */
  function Group(s: seq<Fixture>): (b: seq<seq<Fixture>>)
    decreases |s|
  {
    if s == [] then [] else [s[..Run(s)]] + Group(s[Run(s)..])
  }

  function Batches(fs: seq<Fixture>): seq<seq<Fixture>> {
    Group(Chronological(fs))
  }

  function Earlier(fs: seq<Fixture>, t: Instant): seq<Fixture> {
    if fs == [] then [] else if fs[0].kickoff < t then [fs[0]] + Earlier(fs[1..], t) else Earlier(fs[1..], t)
  }

  lemma {:induction false} EarlierHas(fs: seq<Fixture>, t: Instant)
    ensures forall f :: f in Earlier(fs, t) <==> f in fs && f.kickoff < t
  {
    if fs != [] {
      EarlierHas(fs[1..], t);
    }
  }

  lemma {:induction false} SortedTail(s: seq<Fixture>, n: nat)
    requires Sorted(s) && n <= |s|
    ensures Sorted(s[n..])
  {}

  lemma {:induction false} EarlierFirst(x: Fixture, s: seq<Fixture>, t: Instant)
    ensures Earlier([x] + s, t) == if x.kickoff < t then [x] + Earlier(s, t) else Earlier(s, t)
  {
    assert ([x] + s)[1..] == s;
  }

  lemma {:induction false} InsertEarlier(x: Fixture, s: seq<Fixture>, t: Instant)
    requires Sorted(s)
    ensures Earlier(Insert(x, s), t) == if x.kickoff < t then Insert(x, Earlier(s, t)) else Earlier(s, t)
    decreases |s|
  {
    var e := Earlier(s, t);
    if s == [] || !Before(s[0], x) {
      EarlierFirst(x, s, t);
      EarlierHas(s, t);
      if e != [] { assert e[0] in e; assert e[0] in s; }
    } else {
      InsertEarlier(x, s[1..], t);
      EarlierFirst(s[0], Insert(x, s[1..]), t);
      if s[0].kickoff < t { assert e[1..] == Earlier(s[1..], t); }
    }
  }

  lemma {:induction false} ChronologicalFirst(x: Fixture, s: seq<Fixture>)
    ensures Chronological([x] + s) == Insert(x, Chronological(s))
  {
    assert ([x] + s)[1..] == s;
  }

  /** Dropping the later fixtures before or after sorting is the same. */
  lemma {:induction false} ChronologicalEarlier(fs: seq<Fixture>, t: Instant)
    ensures Chronological(Earlier(fs, t)) == Earlier(Chronological(fs), t)
  {
    if fs != [] {
      ChronologicalEarlier(fs[1..], t);
      ChronologicalSorts(fs[1..]);
      InsertEarlier(fs[0], Chronological(fs[1..]), t);
      assert fs == [fs[0]] + fs[1..];
      EarlierFirst(fs[0], fs[1..], t);
      ChronologicalFirst(fs[0], Earlier(fs[1..], t));
    }
  }

  lemma {:induction false} EarlierNone(s: seq<Fixture>, t: Instant)
    requires forall f :: f in s ==> f.kickoff >= t
    ensures Earlier(s, t) == []
  {
    EarlierHas(s, t);
    assert Earlier(s, t) != [] ==> Earlier(s, t)[0] in Earlier(s, t);
  }

  lemma {:induction false} EarlierConcat(a: seq<Fixture>, b: seq<Fixture>, t: Instant)
    requires forall f :: f in a ==> f.kickoff < t
    ensures Earlier(a + b, t) == a + Earlier(b, t)
  {
    if a == [] {
      assert a + b == b;
    } else {
      EarlierConcat(a[1..], b, t);
      EarlierFirst(a[0], a[1..] + b, t);
      assert a + b == [a[0]] + (a[1..] + b);
      assert a + Earlier(b, t) == [a[0]] + (a[1..] + Earlier(b, t));
    }
  }

  /** Every fixture of the sorted list is in one of its batches, of its own kickoff. */
  lemma {:induction false} InSomeBatch(s: seq<Fixture>, f: Fixture) returns (j: nat)
    requires f in s
    ensures j < |Group(s)| && f in Group(s)[j]
    decreases |s|
  {
    var n := Run(s);
    if f in s[..n] { j := 0; }
    else {
      assert f in s[n..] by { assert s == s[..n] + s[n..]; }
      j := InSomeBatch(s[n..], f);
      j := j + 1;
    }
  }

  lemma {:induction false} FirstBatch(s: seq<Fixture>)
    requires Sorted(s) && s != []
    ensures Group(s)[0] == s[..Run(s)] && Group(s)[0][0] == s[0]
    ensures forall f :: f in Group(s)[0] ==> f in s && f.kickoff == s[0].kickoff
    ensures Group(s)[..0] == Group(Earlier(s, s[0].kickoff))
  {
    forall f | f in s ensures f.kickoff >= s[0].kickoff {
      var i :| 0 <= i < |s| && s[i] == f;
      if i > 0 { assert !Before(s[i], s[0]); }
    }
    EarlierNone(s, s[0].kickoff);
  }

  /** The batches before batch `j` are the batches of the fixtures that kick off before it. */
  lemma {:induction false} GroupEarlier(s: seq<Fixture>, j: nat)
    requires Sorted(s) && j < |Group(s)|
    ensures |Group(s)[j]| > 0 && forall f :: f in Group(s)[j] ==> f in s && f.kickoff == Group(s)[j][0].kickoff
    ensures Group(s)[..j] == Group(Earlier(s, Group(s)[j][0].kickoff))
    decreases |s|
  {
    if j == 0 {
      FirstBatch(s);
    } else {
      LaterBatch(s, j);
      var n := Run(s);
      SortedTail(s, n);
      hide Sorted, Group, Run, Earlier;
      GroupEarlier(s[n..], j - 1);
      FirstRunEarlier(s, n, Group(s)[j][0].kickoff);
    }
  }

  lemma {:induction false} LaterBatch(s: seq<Fixture>, j: nat)
    requires 0 < j < |Group(s)|
    ensures s != [] && 0 <= j - 1 < |Group(s[Run(s)..])| && Group(s)[j] == Group(s[Run(s)..])[j - 1]
    ensures Group(s)[..j] == [s[..Run(s)]] + Group(s[Run(s)..])[..j - 1]
  {}

  lemma {:induction false} FirstRunEarlier(s: seq<Fixture>, n: nat, t: Instant)
    requires s != [] && Sorted(s) && n == Run(s)
    requires exists f :: f in s[n..] && f.kickoff == t
    ensures Group(Earlier(s, t)) == [s[..n]] + Group(Earlier(s[n..], t))
  {
    var f :| f in s[n..] && f.kickoff == t;
    LaterDiffers(s, n, f);
    assert s == s[..n] + s[n..];
    EarlierConcat(s[..n], s[n..], t);
    EarlierHas(s[n..], t);
    var rest := Earlier(s[n..], t);
    if rest != [] {
      assert rest[0] in rest;
      LaterDiffers(s, n, rest[0]);
    }
    hide Sorted, Group, Run, Earlier;
    JoinedRuns(s[..n], rest);
  }

  /** Fixtures of one kickoff before others of another are a batch. */
  lemma {:induction false} JoinedRuns(a: seq<Fixture>, rest: seq<Fixture>)
    requires a != [] && forall i :: 0 <= i < |a| ==> a[i].kickoff == a[0].kickoff
    requires rest != [] ==> rest[0].kickoff != a[0].kickoff
    ensures Group(a + rest) == [a] + Group(rest)
  {
    hide Group;
    var e := a + rest;
    RunOf(e, |a|);
    assert e[..|a|] == a && e[|a|..] == rest;
    GroupStarts(e, |a|);
  }

  lemma {:induction false} GroupStarts(e: seq<Fixture>, n: nat)
    requires e != [] && n == Run(e)
    ensures Group(e) == [e[..n]] + Group(e[n..])
  {}

  lemma {:induction false} LaterDiffers(s: seq<Fixture>, n: nat, f: Fixture)
    requires s != [] && Sorted(s) && n == Run(s) && f in s[n..]
    ensures f.kickoff > s[0].kickoff
  {
    var i :| 0 <= i < |s[n..]| && s[n..][i] == f;
    assert s[n + i] == f;
    assert i == 0 || !Before(s[n + i], s[n]);
    assert !Before(s[n], s[0]);
  }

  lemma {:induction false} RunOf(e: seq<Fixture>, n: nat)
    requires 1 <= n <= |e| && (forall i :: 0 <= i < n ==> e[i].kickoff == e[0].kickoff)
    requires n < |e| ==> e[n].kickoff != e[0].kickoff
    ensures Run(e) == n
  {}

  function Flat(batches: seq<seq<Fixture>>): seq<Fixture> {
    if batches == [] then [] else Flat(batches[..|batches| - 1]) + batches[|batches| - 1]
  }

  lemma {:induction false} FlatFront(b: seq<Fixture>, batches: seq<seq<Fixture>>)
    ensures Flat([b] + batches) == b + Flat(batches)
  {
    var n := |batches|;
    if n == 0 {
      assert [b] + batches == [b];
      assert Flat([b]) == Flat([b][..0]) + b;
    } else {
      FlatFront(b, batches[..n - 1]);
      assert ([b] + batches)[..n] == [b] + batches[..n - 1];
    }
  }

  /** The batches are the chronological list, cut up. */
  lemma {:induction false} FlatGroup(s: seq<Fixture>)
    ensures Flat(Group(s)) == s
    decreases |s|
  {
    hide Flat;
    if s != [] {
      var n := Run(s);
      FlatGroup(s[n..]);
      FlatFront(s[..n], Group(s[n..]));
      assert s == s[..n] + s[n..];
    } else {
      FlatNone();
    }
  }

  lemma FlatNone()
    ensures Flat([]) == []
  {}

  // ---- passes -----------------------------------------------------------------------------------

  /** A pass over the batches: how it starts, what it predicts for a fixture, how it takes in a batch. */
  datatype Pass<!S, !P> = Pass(init: S, predict: (S, Fixture) -> P, fold: (S, seq<Fixture>) -> S)

  function FoldAll<S, P>(m: Pass<S, P>, s: S, batches: seq<seq<Fixture>>): S {
    if batches == [] then s else FoldAll(m, m.fold(s, batches[0]), batches[1..])
  }

  lemma {:induction false} FoldOneMore<S, P>(m: Pass<S, P>, s: S, batches: seq<seq<Fixture>>, j: nat)
    requires j < |batches|
    ensures FoldAll(m, s, batches[..j + 1]) == m.fold(FoldAll(m, s, batches[..j]), batches[j])
    decreases j
  {
    if j == 0 {
      assert batches[..1] == [batches[0]] && batches[..0] == [];
      assert FoldAll(m, m.fold(s, batches[0]), []) == m.fold(s, batches[0]);
    } else {
      FoldOneMore(m, m.fold(s, batches[0]), batches[1..], j - 1);
      assert batches[..j + 1][1..] == batches[1..][..j] && batches[..j][1..] == batches[1..][..j - 1];
    }
  }

  /** The state once everything strictly before `t`, and nothing else, has been folded in. */
  function StateBefore<S, P>(m: Pass<S, P>, fs: seq<Fixture>, t: Instant): S {
    FoldAll(m, m.init, Batches(Earlier(fs, t)))
  }

  /** The state a pass holds when it reaches batch `j`. */
  lemma {:induction false} StateAtBatch<S, P>(m: Pass<S, P>, fs: seq<Fixture>, j: nat, f: Fixture)
    requires j < |Batches(fs)| && f in Batches(fs)[j]
    ensures f in fs && FoldAll(m, m.init, Batches(fs)[..j]) == StateBefore(m, fs, f.kickoff)
  {
    ChronologicalSorts(fs);
    GroupEarlier(Chronological(fs), j);
    SameElements(Chronological(fs), fs);
    ChronologicalEarlier(fs, f.kickoff);
  }

  /** What the passes promise of the map they return: exactly the listed fixtures, each predicted from
      the strictly earlier ones. */
  ghost predicate Prequential<S(!new), P>(m: Pass<S, P>, fs: seq<Fixture>, preds: map<FixtureId, P>) {
    && (forall f :: f in fs ==> f.id in preds && preds[f.id] == m.predict(StateBefore(m, fs, f.kickoff), f))
    && (forall id :: id in preds ==> exists f :: f in fs && f.id == id)
  }

  /** Position `p` of batch `j` comes before position `i` of batch `k`. */
  predicate Reached(batches: seq<seq<Fixture>>, k: nat, i: nat, j: nat, p: nat) {
    j < |batches| && p < |batches[j]| && (j < k || (j == k && p < i))
  }

  /** ... and what their loops keep on the way, having reached position `i` of batch `k`. */
  ghost predicate PrequentialSoFar<S(!new), P>(m: Pass<S, P>, batches: seq<seq<Fixture>>, k: nat, i: nat,
                                               preds: map<FixtureId, P>) {
    && (forall j: nat, p: nat :: Reached(batches, k, i, j, p) ==>
          && batches[j][p].id in preds
          && preds[batches[j][p].id] == m.predict(FoldAll(m, m.init, batches[..j]), batches[j][p]))
    && (forall id :: id in preds ==> exists j: nat, p: nat :: Reached(batches, k, i, j, p) && batches[j][p].id == id)
  }

  /** No two places hold the same id. */
  ghost predicate DistinctPlaces(batches: seq<seq<Fixture>>) {
    forall j, p, l, q :: (0 <= j < |batches| && 0 <= p < |batches[j]| && 0 <= l < |batches| && 0 <= q < |batches[l]|
      && batches[j][p].id == batches[l][q].id) ==> j == l && p == q
  }

  lemma {:induction false} GroupHas(s: seq<Fixture>, j: nat, p: nat) returns (i: nat)
    requires j < |Group(s)| && p < |Group(s)[j]|
    ensures i < |s| && s[i] == Group(s)[j][p]
    decreases |s|
  {
    var n := Run(s);
    if j == 0 { i := p; } else { i := GroupHas(s[n..], j - 1, p); i := n + i; }
  }

  lemma {:induction false} FirstApart(s: seq<Fixture>, p: nat, l: nat, q: nat)
    requires DistinctIds(s) && s != [] && p < Run(s) && 0 < l < |Group(s)| && q < |Group(s)[l]|
    ensures Group(s)[l][q].id != s[p].id
  {
    var n := Run(s);
    var i := GroupHas(s[n..], l - 1, q);
    assert s[p].id != s[n + i].id;
  }

  lemma {:induction false} GroupDistinct(s: seq<Fixture>)
    requires DistinctIds(s)
    ensures DistinctPlaces(Group(s))
    decreases |s|
  {
    if s != [] {
      var n := Run(s);
      var b: seq<seq<Fixture>> := Group(s);
      var c: seq<seq<Fixture>> := Group(s[n..]);
      GroupDistinct(s[n..]);
      forall j: int, p: int, l: int, q: int | 0 <= j < |b| && 0 <= p < |b[j]| && 0 <= l < |b| && 0 <= q < |b[l]|
        && b[j][p].id == b[l][q].id
        ensures j == l && p == q
      {
        if j == 0 && l > 0 { FirstApart(s, p, l, q); }
        else if l == 0 && j > 0 { FirstApart(s, q, j, p); }
        else if l > 0 && j > 0 { assert b[j] == c[j - 1] && b[l] == c[l - 1]; }
      }
    }
  }

  lemma {:induction false} BatchesDistinct(fs: seq<Fixture>)
    requires DistinctIds(fs)
    ensures DistinctPlaces(Batches(fs))
  {
    ChronologicalSorts(fs);
    DistinctTail(fs, Chronological(fs));
    GroupDistinct(Chronological(fs));
  }

  lemma {:induction false} PredictedOneMore<S(!new), P>(m: Pass<S, P>, batches: seq<seq<Fixture>>, k: nat, i: nat,
                                                         preds: map<FixtureId, P>, preds': map<FixtureId, P>)
    requires DistinctPlaces(batches) && k < |batches| && i < |batches[k]| && PrequentialSoFar(m, batches, k, i, preds)
    requires preds' == preds[batches[k][i].id := m.predict(FoldAll(m, m.init, batches[..k]), batches[k][i])]
    ensures PrequentialSoFar(m, batches, k, i + 1, preds')
  {
    forall j: nat, p: nat | Reached(batches, k, i + 1, j, p)
      ensures batches[j][p].id in preds'
        && preds'[batches[j][p].id] == m.predict(FoldAll(m, m.init, batches[..j]), batches[j][p])
    {
      assert Reached(batches, k, i, j, p) || (j == k && p == i);
    }
    forall id | id in preds'
      ensures exists j: nat, p: nat :: Reached(batches, k, i + 1, j, p) && batches[j][p].id == id
    {
      if id == batches[k][i].id { assert Reached(batches, k, i + 1, k, i); }
      else {
        var j: nat, p: nat :| Reached(batches, k, i, j, p) && batches[j][p].id == id;
        assert Reached(batches, k, i + 1, j, p);
      }
    }
  }

  /** `preds` once every fixture of `batch` has been predicted from `s`. */
  function Recorded<S, P>(m: Pass<S, P>, s: S, preds: map<FixtureId, P>, batch: seq<Fixture>): map<FixtureId, P> {
    if batch == [] then preds
    else
      var f := batch[|batch| - 1];
      Recorded(m, s, preds, batch[..|batch| - 1])[f.id := m.predict(s, f)]
  }

  lemma {:induction false} RecordedOneMore<S, P>(m: Pass<S, P>, s: S, preds: map<FixtureId, P>, batch: seq<Fixture>,
                                                 i: nat)
    requires i < |batch|
    ensures Recorded(m, s, preds, batch[..i + 1]) ==
      Recorded(m, s, preds, batch[..i])[batch[i].id := m.predict(s, batch[i])]
  {
    assert batch[..i + 1][..i] == batch[..i];
  }

  lemma {:induction false} RecordedSoFar<S(!new), P>(m: Pass<S, P>, batches: seq<seq<Fixture>>, k: nat, i: nat,
                                                     preds: map<FixtureId, P>)
    requires DistinctPlaces(batches) && k < |batches| && i <= |batches[k]| && PrequentialSoFar(m, batches, k, 0, preds)
    ensures PrequentialSoFar(m, batches, k, i, Recorded(m, FoldAll(m, m.init, batches[..k]), preds, batches[k][..i]))
    decreases i
  {
    if i > 0 {
      var s := FoldAll(m, m.init, batches[..k]);
      RecordedSoFar(m, batches, k, i - 1, preds);
      RecordedOneMore(m, s, preds, batches[k], i - 1);
      PredictedOneMore(m, batches, k, i - 1, Recorded(m, s, preds, batches[k][..i - 1]),
        Recorded(m, s, preds, batches[k][..i]));
    }
  }

  /** A batch recorded from the state before it takes the pass to the next batch. */
  lemma {:induction false} BatchRecorded<S(!new), P>(m: Pass<S, P>, batches: seq<seq<Fixture>>, k: nat,
                                                     preds: map<FixtureId, P>)
    requires DistinctPlaces(batches) && k < |batches| && PrequentialSoFar(m, batches, k, 0, preds)
    ensures PrequentialSoFar(m, batches, k + 1, 0, Recorded(m, FoldAll(m, m.init, batches[..k]), preds, batches[k]))
  {
    var n := |batches[k]|;
    RecordedSoFar(m, batches, k, n, preds);
    assert batches[k][..n] == batches[k];
    forall j: nat, p: nat ensures Reached(batches, k + 1, 0, j, p) <==> Reached(batches, k, n, j, p) {}
  }

  lemma {:induction false} PrequentialDone<S(!new), P>(m: Pass<S, P>, fs: seq<Fixture>, preds: map<FixtureId, P>)
    requires PrequentialSoFar(m, Batches(fs), |Batches(fs)|, 0, preds)
    ensures Prequential(m, fs, preds)
  {
    var batches := Batches(fs);
    ChronologicalSorts(fs);
    SameElements(Chronological(fs), fs);
    forall f | f in fs ensures f.id in preds && preds[f.id] == m.predict(StateBefore(m, fs, f.kickoff), f) {
      var j := InSomeBatch(Chronological(fs), f);
      var p: nat :| p < |batches[j]| && batches[j][p] == f;
      assert Reached(batches, |batches|, 0, j, p);
      StateAtBatch(m, fs, j, f);
    }
    forall id | id in preds ensures exists f :: f in fs && f.id == id {
      var j: nat, p: nat :| Reached(batches, |batches|, 0, j, p) && batches[j][p].id == id;
      assert batches[j][p] in batches[j];
      StateAtBatch(m, fs, j, batches[j][p]);
    }
  }

  /** The same promise for a pass that lists its rows: `done` is what it has gone through, in order. */
  ghost predicate Listed<S, P>(m: Pass<S, P>, fs: seq<Fixture>, done: seq<Fixture>, rows: seq<P>) {
    |rows| == |done| && forall i :: 0 <= i < |done| ==>
      rows[i] == m.predict(StateBefore(m, fs, done[i].kickoff), done[i])
  }

  lemma {:induction false} ListedBatch<S, P>(m: Pass<S, P>, fs: seq<Fixture>, k: nat, rows: seq<P>, added: seq<P>)
    requires k < |Batches(fs)| && Listed(m, fs, Flat(Batches(fs)[..k]), rows)
    requires var batch := Batches(fs)[k];
      |added| == |batch| && forall i :: 0 <= i < |batch| ==>
        added[i] == m.predict(FoldAll(m, m.init, Batches(fs)[..k]), batch[i])
    ensures Listed(m, fs, Flat(Batches(fs)[..k + 1]), rows + added)
  {
    var batch := Batches(fs)[k];
    assert Batches(fs)[..k + 1][..k] == Batches(fs)[..k];
    assert Flat(Batches(fs)[..k + 1]) == Flat(Batches(fs)[..k]) + batch;
    forall i | 0 <= i < |batch| ensures added[i] == m.predict(StateBefore(m, fs, batch[i].kickoff), batch[i]) {
      StateAtBatch(m, fs, k, batch[i]);
    }
  }

  /** No result at or after kickoff reaches the state, and neither does the order of the input. */
  lemma {:induction false} OnlyThePastMatters<S, P>(m: Pass<S, P>, fs: seq<Fixture>, gs: seq<Fixture>, t: Instant)
    requires DistinctIds(fs) && multiset(Earlier(fs, t)) == multiset(Earlier(gs, t))
    ensures StateBefore(m, fs, t) == StateBefore(m, gs, t)
  {
    EarlierDistinct(fs, t);
    OrderOfArrival(Earlier(fs, t), Earlier(gs, t));
  }

  lemma {:induction false} EarlierDistinct(fs: seq<Fixture>, t: Instant)
    requires DistinctIds(fs)
    ensures DistinctIds(Earlier(fs, t))
  {
    if fs != [] {
      EarlierDistinct(fs[1..], t);
      EarlierHas(fs[1..], t);
      var r := Earlier(fs[1..], t);
      forall i | 0 <= i < |r| ensures r[i].id != fs[0].id { assert r[i] in fs[1..]; }
    }
  }
}

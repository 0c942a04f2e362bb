/**
 Per-day usage limits over the counters: distinct match views, backtester runs and pushes.

 The invariant says what holds after any run of calls of any callers at any times: a view
 counter is the size of its set of charged matches and within the limit, counter and set
 expire together, and no key is without a deadline.
 */
module Limits {
  import opened Options
  import opened Counters

  const UNLIMITED := -1

  /** Whole seconds until the next midnight, at least one. */
  function SecondsUntilMidnight(now: Instant): (r: nat)
    ensures r >= 1
  {
    var left := DAY - now % DAY;
    if left / SECOND > 1 then left / SECOND else 1
  }

  function SecondsUntilNextHour(now: Instant): (r: nat)
    ensures r >= 1
  {
    var hour := 3600 * SECOND;
    var left := hour - now % hour;
    if left / SECOND > 1 then left / SECOND else 1
  }

  function DayOf(now: Instant): nat { now / DAY }

  /** A day's key expires in the last second of its day, or within a second after it: whole seconds are cut off,
      and a last fraction of a second is rounded up to one. */
  lemma DayKeysExpireAroundMidnight(s: Store)
    ensures var midnight := (DayOf(s.clock) + 1) * DAY; var d := Deadline(s, SecondsUntilMidnight(s.clock));
      && midnight - SECOND < d < midnight + SECOND
      && (d <= midnight <==> DAY - s.clock % DAY >= SECOND)
      && (d == midnight <==> s.clock % SECOND == 0)
  {
    var left := DAY - s.clock % DAY;
    assert s.clock == DayOf(s.clock) * DAY + s.clock % DAY;
    assert left == left / SECOND * SECOND + left % SECOND;
    assert (s.clock + left) % SECOND == 0 by { MidnightIsWhole(DayOf(s.clock) + 1); }
    WholeSeconds(s.clock, left);
  }

  lemma MidnightIsWhole(day: nat)
    ensures day * DAY % SECOND == 0
  {
    assert day * DAY == day * 86_400 * SECOND;
  }

  lemma WholeSeconds(a: nat, b: nat)
    requires (a + b) % SECOND == 0
    ensures a % SECOND == 0 <==> b % SECOND == 0
  {}

  /** An hour's key likewise, at the end of its hour. */
  lemma HourKeysExpireAroundTheHour(s: Store)
    ensures var hour := 3600 * SECOND; var end := (s.clock / hour + 1) * hour;
      var d := Deadline(s, SecondsUntilNextHour(s.clock));
      && end - SECOND < d < end + SECOND
      && (d <= end <==> hour - s.clock % hour >= SECOND)
      && (d == end <==> s.clock % SECOND == 0)
  {
    var hour := 3600 * SECOND;
    var left := hour - s.clock % hour;
    assert s.clock == s.clock / hour * hour + s.clock % hour;
    assert left == left / SECOND * SECOND + left % SECOND;
    assert (s.clock + left) % SECOND == 0 by { HourIsWhole(s.clock / hour + 1); }
    WholeSeconds(s.clock, left);
  }

  lemma HourIsWhole(n: nat)
    ensures n * (3600 * SECOND) % SECOND == 0
  {
    assert n * (3600 * SECOND) == n * 3600 * SECOND;
  }

  // ---- the calls ----------------------------------------------------------------------------------

  datatype Call =
    | View(identity: nat, fixture: Member)
    | Backtest(user: nat)
    | ReserveOne(user: nat)
    | ReleaseOne(user: nat)
    | Delivered(user: nat)
    | Attempt(user: nat)
    | Wait(elapsed: nat)

  datatype Answer = Allowed | Left(views: int) | LimitExceeded | RateLimited(retryAfter: nat)

  /** The limit of each caller's tier, fixed. */
  datatype Tiers = Tiers(views: nat -> int, runs: nat -> int, pushes: nat -> int, attempts: int)

  function ViewKey(s: Store, identity: nat): Key { Views(identity, DayOf(s.clock)) }

  function SeenKey(s: Store, identity: nat): Key { Seen(identity, DayOf(s.clock)) }

  function PushKey(s: Store, user: nat): Key { Push(user, DayOf(s.clock)) }

  /** `consume_match_view`. */
  function ConsumeView(s: Store, identity: nat, fixture: Member, limit: int): (Store, Answer) {
    if limit == UNLIMITED then (s, Left(UNLIMITED))
    else
      var (r, count) := IncrDistinct(s, ViewKey(s, identity), SeenKey(s, identity), fixture, limit,
        SecondsUntilMidnight(s.clock));
      (r, if count.Some? && count.value >= 0 then Left(limit - count.value) else LimitExceeded)
  }

  /** `match_views_remaining`; None is unlimited. */
  function ViewsRemaining(s: Store, identity: nat, limit: int): Option<int> {
    if limit == UNLIMITED then None
    else
      var left := limit - CountOf(s, ViewKey(s, identity));
      Some(if left > 0 then left else 0)
  }

  /** `consume_backtester_run`. */
  function ConsumeRun(s: Store, user: nat, limit: int): (Store, Answer) {
    if limit == UNLIMITED then (s, Allowed)
    else
      var (r, count) := IncrWithinLimit(s, Backtester(user, DayOf(s.clock)), limit, SecondsUntilMidnight(s.clock));
      (r, if count.Some? && count.value >= 0 then Allowed else LimitExceeded)
  }

  /** `reserve_push`: unlimited tiers are counted too. */
  function ReservePush(s: Store, user: nat, limit: int): (Store, Answer) {
    if limit == UNLIMITED then (IncrWithTtl(s, PushKey(s, user), SecondsUntilMidnight(s.clock)).0, Allowed)
    else
      var (r, count) := IncrWithinLimit(s, PushKey(s, user), limit, SecondsUntilMidnight(s.clock));
      (r, if count.Some? && count.value >= 0 then Allowed else LimitExceeded)
  }

  /** `enforce_promo_redeem_limit`. */
  function AttemptRedeem(s: Store, user: nat, limit: int): (Store, Answer) {
    var ttl := SecondsUntilNextHour(s.clock);
    var (r, count) := IncrWithTtl(s, PromoAttempts(user, s.clock / (3600 * SECOND)), ttl);
    (r, if count > limit then RateLimited(ttl) else Allowed)
  }

  function Perform(tiers: Tiers, s: Store, c: Call): (Store, Answer) {
    match c
    case View(identity, fixture) => ConsumeView(s, identity, fixture, tiers.views(identity))
    case Backtest(user) => ConsumeRun(s, user, tiers.runs(user))
    case ReserveOne(user) => ReservePush(s, user, tiers.pushes(user))
    case ReleaseOne(user) => (DecrFloorZero(s, PushKey(s, user)).0, Allowed)
    case Delivered(user) => (IncrWithTtl(s, PushKey(s, user), SecondsUntilMidnight(s.clock)).0, Allowed)
    case Attempt(user) => AttemptRedeem(s, user, tiers.attempts)
    case Wait(elapsed) => (Advanced(s, elapsed), Allowed)
  }

  function Run(tiers: Tiers, s: Store, calls: seq<Call>): Store
    decreases |calls|
  {
    if calls == [] then s else Run(tiers, Perform(tiers, s, calls[0]).0, calls[1..])
  }

  const EMPTY := Store(map[], map[], 0)

  // ---- the same, on the server ----------------------------------------------------------------------

  method ConsumeMatchView(redis: Redis, identity: nat, fixture: Member, limit: int) returns (a: Answer)
    modifies redis
    ensures (redis.Value(), a) == ConsumeView(old(redis.Value()), identity, fixture, limit)
  {
    hide IncrDistinct;
    if limit == UNLIMITED { return Left(UNLIMITED); }
    var day := DayOf(redis.clock);
    var count := redis.IncrementDistinct(Views(identity, day), Seen(identity, day), fixture, limit,
      SecondsUntilMidnight(redis.clock));
    if count.None? || count.value < 0 { return LimitExceeded; }
    return Left(limit - count.value);
  }

  method MatchViewsRemaining(redis: Redis, identity: nat, limit: int) returns (left: Option<int>)
    ensures left == ViewsRemaining(redis.Value(), identity, limit)
  {
    if limit == UNLIMITED { return None; }
    var used := redis.Get(Views(identity, DayOf(redis.clock)));
    return Some(if limit - used > 0 then limit - used else 0);
  }

  method Reserve(redis: Redis, user: nat, limit: int) returns (a: Answer)
    modifies redis
    ensures (redis.Value(), a) == ReservePush(old(redis.Value()), user, limit)
  {
    hide IncrWithinLimit, IncrWithTtl;
    var key := Push(user, DayOf(redis.clock));
    if limit == UNLIMITED {
      var counted := redis.IncrementWithTtl(key, SecondsUntilMidnight(redis.clock));
      return Allowed;
    }
    var count := redis.IncrementWithinLimit(key, limit, SecondsUntilMidnight(redis.clock));
    if count.None? || count.value < 0 { return LimitExceeded; }
    return Allowed;
  }

  method Release(redis: Redis, user: nat)
    modifies redis
    ensures redis.Value() == DecrFloorZero(old(redis.Value()), Push(user, DayOf(old(redis.clock)))).0
  {
    var left := redis.DecrementFloorZero(Push(user, DayOf(redis.clock)));
  }

  // ---- the invariant ------------------------------------------------------------------------------

  predicate Pending<T>(e: Expiring<T>, clock: Instant) { e.deadline.Some? && clock < e.deadline.value }

  /** Every key expires, and has not yet; no counter is negative. */
  ghost predicate AllExpire(s: Store) {
    && (forall k :: k in s.counters ==> Pending(s.counters[k], s.clock) && s.counters[k].value >= 0)
    && (forall k :: k in s.sets ==> Pending(s.sets[k], s.clock))
  }

  /** A view counter and its set live and expire together; the counter is the set's size, within the limit. */
  ghost predicate ViewsOk(tiers: Tiers, s: Store, identity: nat, day: nat) {
    var k, seen := Views(identity, day), Seen(identity, day);
    && (k in s.counters <==> seen in s.sets)
    && (k in s.counters ==>
          && s.counters[k].deadline == s.sets[seen].deadline
          && s.counters[k].value == |s.sets[seen].value| && s.counters[k].value <= tiers.views(identity))
  }

  ghost predicate Inv(tiers: Tiers, s: Store) {
    AllExpire(s) && forall identity, day {:trigger ViewsOk(tiers, s, identity, day)} :: ViewsOk(tiers, s, identity, day)
  }

  /** A call that leaves the view keys alone. */
  lemma {:induction false} OtherKeys(tiers: Tiers, s: Store, r: Store, k: Key)
    requires Inv(tiers, s) && !k.Views? && r.clock == s.clock && r.sets == s.sets
    requires r.counters == s.counters || (k in r.counters && r.counters == s.counters[k := r.counters[k]])
    requires k in r.counters ==> Pending(r.counters[k], s.clock) && r.counters[k].value >= 0
    ensures Inv(tiers, r)
  {
    forall identity, day ensures ViewsOk(tiers, r, identity, day) { assert ViewsOk(tiers, s, identity, day); }
  }

  lemma {:induction false} TtlIsPending(s: Store, ttl: int)
    ensures s.clock < Deadline(s, ttl)
  {}

  lemma {:induction false} OneKeyKept(tiers: Tiers, s: Store, k: Key, limit: int, ttl: int)
    requires Inv(tiers, s) && !k.Views?
    ensures Inv(tiers, IncrWithTtl(s, k, ttl).0) && Inv(tiers, IncrWithinLimit(s, k, limit, ttl).0)
      && Inv(tiers, DecrFloorZero(s, k).0)
  {
    TtlIsPending(s, ttl);
    OtherKeys(tiers, s, IncrWithTtl(s, k, ttl).0, k);
    OtherKeys(tiers, s, IncrWithinLimit(s, k, limit, ttl).0, k);
    OtherKeys(tiers, s, DecrFloorZero(s, k).0, k);
  }

  lemma {:induction false} AdvancedKept(tiers: Tiers, s: Store, elapsed: nat)
    requires Inv(tiers, s)
    ensures Inv(tiers, Advanced(s, elapsed))
  {
    var r := Advanced(s, elapsed);
    forall identity, day ensures ViewsOk(tiers, r, identity, day) { assert ViewsOk(tiers, s, identity, day); }
  }

  /** What a view does to its two keys, all cases. */
  lemma {:induction false} ViewCases(tiers: Tiers, s: Store, identity: nat, fixture: Member)
    requires Inv(tiers, s) && tiers.views(identity) != UNLIMITED
    ensures var k, seen := ViewKey(s, identity), SeenKey(s, identity);
      var (r, a) := ConsumeView(s, identity, fixture, tiers.views(identity));
      if fixture in MembersOf(s, seen) then r == s && a == Left(tiers.views(identity) - CountOf(s, k))
      else if CountOf(s, k) >= tiers.views(identity) then r == s && a == LimitExceeded
      else
        && k in r.counters && seen in r.sets && r.clock == s.clock
        && r.counters == s.counters[k := r.counters[k]] && r.sets == s.sets[seen := r.sets[seen]]
        && r.counters[k].value == CountOf(s, k) + 1 && r.sets[seen].value == MembersOf(s, seen) + {fixture}
        && r.counters[k].deadline == r.sets[seen].deadline && Pending(r.counters[k], s.clock)
        && a == Left(tiers.views(identity) - CountOf(s, k) - 1)
  {
    var k, seen := ViewKey(s, identity), SeenKey(s, identity);
    assert ViewsOk(tiers, s, identity, DayOf(s.clock));
    TtlIsPending(s, SecondsUntilMidnight(s.clock));
  }

  lemma {:induction false} ViewKept(tiers: Tiers, s: Store, identity: nat, fixture: Member)
    requires Inv(tiers, s)
    ensures Inv(tiers, ConsumeView(s, identity, fixture, tiers.views(identity)).0)
  {
    if tiers.views(identity) != UNLIMITED {
      ViewCases(tiers, s, identity, fixture);
      var r := ConsumeView(s, identity, fixture, tiers.views(identity)).0;
      forall i, day ensures ViewsOk(tiers, r, i, day) { assert ViewsOk(tiers, s, i, day); }
    }
  }

  lemma {:induction false} PerformKeepsInv(tiers: Tiers, s: Store, c: Call)
    requires Inv(tiers, s)
    ensures Inv(tiers, Perform(tiers, s, c).0)
  {
    match c
    case View(identity, fixture) => ViewKept(tiers, s, identity, fixture);
    case Backtest(user) =>
      OneKeyKept(tiers, s, Backtester(user, DayOf(s.clock)), tiers.runs(user), SecondsUntilMidnight(s.clock));
    case ReserveOne(user) => OneKeyKept(tiers, s, PushKey(s, user), tiers.pushes(user), SecondsUntilMidnight(s.clock));
    case ReleaseOne(user) => OneKeyKept(tiers, s, PushKey(s, user), 0, 0);
    case Delivered(user) => OneKeyKept(tiers, s, PushKey(s, user), 0, SecondsUntilMidnight(s.clock));
    case Attempt(user) =>
      OneKeyKept(tiers, s, PromoAttempts(user, s.clock / (3600 * SECOND)), 0, SecondsUntilNextHour(s.clock));
    case Wait(elapsed) => AdvancedKept(tiers, s, elapsed);
  }

  lemma {:induction false} RunKeepsInv(tiers: Tiers, s: Store, calls: seq<Call>)
    requires Inv(tiers, s)
    ensures Inv(tiers, Run(tiers, s, calls))
    decreases |calls|
  {
    if calls != [] {
      PerformKeepsInv(tiers, s, calls[0]);
      RunKeepsInv(tiers, Perform(tiers, s, calls[0]).0, calls[1..]);
    }
  }

  // ---- the quota --------------------------------------------------------------------------------------

  /** After any run: a view counter is the number of matches charged in its window, at most the limit, and every
      key expires. */
  lemma {:induction false} DistinctViewsAreCounted(tiers: Tiers, calls: seq<Call>, identity: nat, day: nat)
    ensures var s := Run(tiers, EMPTY, calls); var k, seen := Views(identity, day), Seen(identity, day);
      && AllExpire(s) && CountOf(s, k) == |MembersOf(s, seen)|
      && (k in s.counters ==> CountOf(s, k) <= tiers.views(identity))
  {
    assert Inv(tiers, EMPTY);
    RunKeepsInv(tiers, EMPTY, calls);
    assert ViewsOk(tiers, Run(tiers, EMPTY, calls), identity, day);
  }

  /** What a view returns is what `match_views_remaining` then reports. */
  lemma {:induction false} ViewReturnsWhatRemains(tiers: Tiers, s: Store, identity: nat, fixture: Member)
    requires Inv(tiers, s) && tiers.views(identity) != UNLIMITED
    ensures var (r, a) := ConsumeView(s, identity, fixture, tiers.views(identity));
      a.Left? ==> ViewsRemaining(r, identity, tiers.views(identity)) == Some(a.views)
  {
    ViewCases(tiers, s, identity, fixture);
    assert ViewsOk(tiers, s, identity, DayOf(s.clock));
  }

  /** Without a fixed limit, exactly when the counter is not above it: a lowered tier makes the two differ. */
  lemma {:induction false} AgreesExactlyWithinTheLimit(s: Store, identity: nat, fixture: Member, limit: int)
    requires AllExpire(s) && limit != UNLIMITED && fixture in MembersOf(s, SeenKey(s, identity))
    ensures var (r, a) := ConsumeView(s, identity, fixture, limit);
      a.Left? && (ViewsRemaining(r, identity, limit) == Some(a.views) <==> CountOf(s, ViewKey(s, identity)) <= limit)
  {}

  /** A charged set stays, with its deadline, until that deadline. */
  lemma {:induction false} SetStays(tiers: Tiers, s: Store, c: Call, seen: Key)
    requires Inv(tiers, s) && seen in s.sets && seen.Seen?
    ensures var r := Perform(tiers, s, c).0;
      && s.clock <= r.clock
      && (r.clock < s.sets[seen].deadline.value ==>
            seen in r.sets && r.sets[seen].deadline == s.sets[seen].deadline
              && s.sets[seen].value <= r.sets[seen].value)
  {
    if c.View? && tiers.views(c.identity) != UNLIMITED {
      ViewCases(tiers, s, c.identity, c.fixture);
      assert ViewsOk(tiers, s, c.identity, DayOf(s.clock));
      if seen == SeenKey(s, c.identity) { DeadlineStays(tiers, s, c.identity, c.fixture); }
    }
  }

  lemma {:induction false} DeadlineStays(tiers: Tiers, s: Store, identity: nat, fixture: Member)
    requires Inv(tiers, s) && tiers.views(identity) != UNLIMITED && SeenKey(s, identity) in s.sets
    ensures var r := ConsumeView(s, identity, fixture, tiers.views(identity)).0; var seen := SeenKey(s, identity);
      seen in r.sets && r.sets[seen].deadline == s.sets[seen].deadline
  {}

  lemma {:induction false} SetStaysAlong(tiers: Tiers, s: Store, calls: seq<Call>, seen: Key)
    requires Inv(tiers, s) && seen in s.sets && seen.Seen?
    ensures var r := Run(tiers, s, calls);
      && s.clock <= r.clock
      && (r.clock < s.sets[seen].deadline.value ==>
            seen in r.sets && r.sets[seen].deadline == s.sets[seen].deadline
              && s.sets[seen].value <= r.sets[seen].value)
    decreases |calls|
  {
    if calls != [] {
      var next := Perform(tiers, s, calls[0]).0;
      PerformKeepsInv(tiers, s, calls[0]);
      SetStays(tiers, s, calls[0], seen);
      if seen in next.sets { SetStaysAlong(tiers, next, calls[1..], seen); }
      ClockAlong(tiers, next, calls[1..]);
    }
  }

  lemma {:induction false} ClockAlong(tiers: Tiers, s: Store, calls: seq<Call>)
    ensures s.clock <= Run(tiers, s, calls).clock
    decreases |calls|
  {
    if calls != [] { ClockAlong(tiers, Perform(tiers, s, calls[0]).0, calls[1..]); }
  }

  /** A match once accepted is neither refused nor charged again that day, until the deadline set with the first view
      of the window, whatever anybody calls in between. */
  lemma {:induction false} AcceptedStaysAccepted(tiers: Tiers, s: Store, identity: nat, fixture: Member,
                                                 calls: seq<Call>)
    requires Inv(tiers, s) && tiers.views(identity) != UNLIMITED
    requires ConsumeView(s, identity, fixture, tiers.views(identity)).1.Left?
    ensures var r := ConsumeView(s, identity, fixture, tiers.views(identity)).0; var later := Run(tiers, r, calls);
      && SeenKey(s, identity) in r.sets
      && (DayOf(later.clock) == DayOf(s.clock) && later.clock < r.sets[SeenKey(s, identity)].deadline.value ==>
            var (again, a) := ConsumeView(later, identity, fixture, tiers.views(identity));
            again == later && a == Left(tiers.views(identity) - CountOf(later, ViewKey(later, identity))))
  {
    var r := ConsumeView(s, identity, fixture, tiers.views(identity)).0;
    ViewCases(tiers, s, identity, fixture);
    ViewKept(tiers, s, identity, fixture);
    assert fixture in MembersOf(r, SeenKey(s, identity));
    SetStaysAlong(tiers, r, calls, SeenKey(s, identity));
    RunKeepsInv(tiers, r, calls);
    ViewCases(tiers, Run(tiers, r, calls), identity, fixture);
  }

  // ---- the reset --------------------------------------------------------------------------------------

  /** A first view of the day: its keys expire whole seconds later. */
  lemma FirstView(clock: Instant, fixture: Member) returns (s: Store, r: Store)
    ensures s == Store(map[], map[], clock) && r.clock == clock
    ensures ConsumeView(s, 0, fixture, 1) == (r, Left(0))
    ensures var d := Some(clock + SecondsUntilMidnight(clock) * SECOND); var day := DayOf(clock);
      r.counters == map[Views(0, day) := Expiring(1, d)] && r.sets == map[Seen(0, day) := Expiring({fixture}, d)]
  {
    s := Store(map[], map[], clock);
    r := ConsumeView(s, 0, fixture, 1).0;
    assert {} + {fixture} == {fixture};
  }

  /** The budget can reset before midnight: a guest limited to one match, who opens one half a second into the day,
      is allowed another one in the day's last second. */
  lemma EarlyReset() returns (s: Store, r: Store, later: Store)
    ensures s == Store(map[], map[], 500_000) && ConsumeView(s, 0, 1, 1) == (r, Left(0))
    ensures later == Advanced(r, DAY - SECOND) && DayOf(later.clock) == DayOf(s.clock)
    ensures ConsumeView(later, 0, 2, 1).1 == Left(0)
  {
    hide ConsumeView;
    s, r := FirstView(500_000, 1);
    assert SecondsUntilMidnight(500_000) == 86_399;
    later := Advanced(r, DAY - SECOND);
    assert later.counters == map[] && later.sets == map[];
    var again, after := FirstView(later.clock, 2);
    assert again == later;
  }

  // ---- pushes -----------------------------------------------------------------------------------------

  /** A reservation takes one unit of the day's budget, never beyond the limit, and is refused exactly when it is
      spent. */
  lemma {:induction false} ReservationsStayWithinTheLimit(s: Store, user: nat, limit: int)
    requires AllExpire(s) && limit != UNLIMITED
    ensures var (r, a) := ReservePush(s, user, limit); var k := PushKey(s, user);
      && (a == LimitExceeded <==> CountOf(s, k) >= limit)
      && (a == LimitExceeded ==> r == s)
      && (a == Allowed ==> CountOf(r, k) == CountOf(s, k) + 1 <= limit)
      && (a == Allowed || a == LimitExceeded)
  {}

  /** An unlimited tier's reservation is never refused, and counted all the same. */
  lemma {:induction false} UnlimitedReservationsAreCounted(s: Store, user: nat)
    requires AllExpire(s)
    ensures var (r, a) := ReservePush(s, user, UNLIMITED);
      && a == Allowed && CountOf(r, PushKey(s, user)) == CountOf(s, PushKey(s, user)) + 1
      && (forall k :: k != PushKey(s, user) ==> CountOf(r, k) == CountOf(s, k)) && r.sets == s.sets
  {}

  /** A delivered push counts against the day, and a released one no longer does. */
  lemma {:induction false} PushesAreCounted(tiers: Tiers, s: Store, user: nat)
    requires AllExpire(s)
    ensures var k := PushKey(s, user);
      var delivered, released := Perform(tiers, s, Delivered(user)).0, Perform(tiers, s, ReleaseOne(user)).0;
      && CountOf(delivered, k) == CountOf(s, k) + 1
      && CountOf(released, k) == (if CountOf(s, k) > 0 then CountOf(s, k) - 1 else CountOf(s, k))
      && (forall j :: j != k ==> CountOf(delivered, j) == CountOf(released, j) == CountOf(s, j))
      && delivered.sets == released.sets == s.sets
  {}

  /** A backtester run takes one unit of its own day's budget, never beyond the limit, and is refused exactly when it is
      spent; without a limit nothing is counted. */
  lemma {:induction false} RunsStayWithinTheLimit(s: Store, user: nat, limit: int)
    requires AllExpire(s)
    ensures var (r, a) := ConsumeRun(s, user, limit); var k := Backtester(user, s.clock / DAY);
      && (limit == UNLIMITED ==> r == s && a == Allowed)
      && (limit != UNLIMITED ==>
            && (a == LimitExceeded <==> CountOf(s, k) >= limit) && (a == LimitExceeded ==> r == s)
            && (a == Allowed ==> CountOf(r, k) == CountOf(s, k) + 1 <= limit)
            && (a == Allowed || a == LimitExceeded)
            && forall j :: j != k ==> CountOf(r, j) == CountOf(s, j))
  {}

  /** Every attempt to redeem a code counts against the hour, and is let through exactly while the count, itself
      included, is within the limit. */
  lemma {:induction false} AttemptsAreCounted(s: Store, user: nat, limit: int)
    requires AllExpire(s)
    ensures var (r, a) := AttemptRedeem(s, user, limit); var k := PromoAttempts(user, s.clock / (3600 * SECOND));
      && CountOf(r, k) == CountOf(s, k) + 1 && (forall j :: j != k ==> CountOf(r, j) == CountOf(s, j))
      && (a == Allowed <==> CountOf(s, k) + 1 <= limit)
      && (a != Allowed ==> a == RateLimited(SecondsUntilNextHour(s.clock)))
  {}

  /** Releasing a reservation the same day gives the unit back. */
  lemma {:induction false} ReleaseUndoesReserve(s: Store, user: nat, limit: int)
    requires AllExpire(s) && ReservePush(s, user, limit).1 == Allowed
    ensures var k := PushKey(s, user); var r := DecrFloorZero(ReservePush(s, user, limit).0, k).0;
      && (forall j :: CountOf(r, j) == CountOf(s, j)) && r.sets == s.sets && (k in s.counters ==> r == s)
  {}

  /** The reservations of `user` that are out after `calls`, if `n` were before: accepted ones, less those released. */
  function Outstanding(tiers: Tiers, s: Store, calls: seq<Call>, user: nat, n: int): int
    decreases |calls|
  {
    if calls == [] then n
    else
      var (r, a) := Perform(tiers, s, calls[0]);
      Outstanding(tiers, r, calls[1..], user,
                  if calls[0] == ReserveOne(user) && a == Allowed then n + 1
                  else if calls[0] == ReleaseOne(user) then n - 1 else n)
  }

  /** Only reservations that are out are released, nothing is counted past the reservations, and the day's key lives
      on. */
  ghost predicate OneWindow(tiers: Tiers, s: Store, calls: seq<Call>, user: nat, n: int)
    decreases |calls|
  {
    calls != [] ==>
      && calls[0] != Delivered(user) && (calls[0] == ReleaseOne(user) ==> n > 0)
      && (calls[0].Wait? ==> StaysInWindow(s, PushKey(s, user), s.clock + calls[0].elapsed))
      && var (r, a) := Perform(tiers, s, calls[0]);
         OneWindow(tiers, r, calls[1..], user, Outstanding(tiers, s, [calls[0]], user, n))
  }

  predicate StaysInWindow(s: Store, k: Key, later: Instant) {
    DayOf(later) == DayOf(s.clock)
      && (k in s.counters && s.counters[k].deadline.Some? ==> later < s.counters[k].deadline.value)
  }

  /** One call, as it bears on the push counter of `user`. */
  lemma {:induction false} OneCall(tiers: Tiers, s: Store, c: Call, user: nat, n: int)
    requires Inv(tiers, s) && tiers.pushes(user) != UNLIMITED && CountOf(s, PushKey(s, user)) == n
    requires OneWindow(tiers, s, [c], user, n)
    ensures var r := Perform(tiers, s, c).0; var m := Outstanding(tiers, s, [c], user, n);
      && PushKey(r, user) == PushKey(s, user) && CountOf(r, PushKey(s, user)) == m
      && (m <= n || m <= tiers.pushes(user))
  {
    var k := PushKey(s, user);
    assert [c][1..] == [];
    assert Outstanding(tiers, s, [c], user, n) ==
      if c == ReserveOne(user) && Perform(tiers, s, c).1 == Allowed then n + 1 else if c == ReleaseOne(user)
        then n - 1 else n;
    if c.View? && tiers.views(c.identity) != UNLIMITED {
      ViewCases(tiers, s, c.identity, c.fixture);
    } else if c.Wait? {
      assert [c][0] == c && StaysInWindow(s, k, s.clock + c.elapsed);
    }
  }

  /** Over any run within the day's window, whoever calls what in between: the counter is the number of reservations
      out, and they never exceed the limit. */
  lemma {:induction false} ReservationsNeverExceedTheLimit(tiers: Tiers, s: Store, calls: seq<Call>, user: nat, n: int)
    requires Inv(tiers, s) && tiers.pushes(user) != UNLIMITED && CountOf(s, PushKey(s, user)) == n <= tiers.pushes(user)
    requires OneWindow(tiers, s, calls, user, n)
    ensures var r := Run(tiers, s, calls);
      CountOf(r, PushKey(r, user)) == Outstanding(tiers, s, calls, user, n) <= tiers.pushes(user)
    decreases |calls|
  {
    hide Perform, Inv;
    if calls != [] {
      var next := Perform(tiers, s, calls[0]).0;
      FirstCall(tiers, s, calls, user, n);
      OneCall(tiers, s, calls[0], user, n);
      PerformKeepsInv(tiers, s, calls[0]);
      ReservationsNeverExceedTheLimit(tiers, next, calls[1..], user, Outstanding(tiers, s, [calls[0]], user, n));
    }
  }

  lemma {:induction false} FirstCall(tiers: Tiers, s: Store, calls: seq<Call>, user: nat, n: int)
    requires calls != []
    ensures OneWindow(tiers, s, calls, user, n) ==> OneWindow(tiers, s, [calls[0]], user, n)
    ensures Outstanding(tiers, s, calls, user, n) ==
      Outstanding(tiers, Perform(tiers, s, calls[0]).0, calls[1..], user, Outstanding(tiers, s, [calls[0]], user, n))
  {
    hide Perform;
    var c := calls[0];
    assert [c][0] == c && [c][1..] == [];
    assert OneWindow(tiers, Perform(tiers, s, c).0, [], user, Outstanding(tiers, s, [c], user, n));
  }
}

/**
 The atomic Redis counters behind usage limits: each script as a function of the stored keys,
 and as the commands it issues.

 Keys expire at their deadline; nothing is evicted. Instants are microseconds.
 */
module Counters {
  import opened Options

  type Instant = nat
  type Member = nat

  const SECOND: nat := 1_000_000
  const DAY: nat := 86_400 * SECOND

  /** What a counter or a set of charged members is for; `day` (or hour) is part of the key. */
  datatype Key =
    | Views(identity: nat, day: nat)
    | Seen(identity: nat, day: nat)
    | Backtester(user: nat, day: nat)
    | Push(user: nat, day: nat)
    | PromoAttempts(user: nat, hour: nat)

  datatype Expiring<T> = Expiring(value: T, deadline: Option<Instant>)

  datatype Store = Store(counters: map<Key, Expiring<int>>, sets: map<Key, Expiring<set<Member>>>, clock: Instant)

  function CountOf(s: Store, k: Key): int { if k in s.counters then s.counters[k].value else 0 }

  function MembersOf(s: Store, k: Key): set<Member> { if k in s.sets then s.sets[k].value else {} }

  /** A deadline `ttl` seconds from now; no less than one. */
  function Deadline(s: Store, ttl: int): Instant { s.clock + (if ttl > 1 then ttl else 1) * SECOND }

  function Healed<T>(e: Expiring<T>, deadline: Instant): Expiring<T> {
    if e.deadline.None? then e.(deadline := Some(deadline)) else e
  }

  function HealCounter(s: Store, k: Key, deadline: Instant): Store {
    if k in s.counters then s.(counters := s.counters[k := Healed(s.counters[k], deadline)]) else s
  }

  function HealSet(s: Store, k: Key, deadline: Instant): Store {
    if k in s.sets then s.(sets := s.sets[k := Healed(s.sets[k], deadline)]) else s
  }

  /** INCR: keeps the deadline of an existing key, sets none on a new one. */
  function Incremented(s: Store, k: Key): Store {
    s.(counters := s.counters[k := Expiring(CountOf(s, k) + 1, if k in s.counters then s.counters[k].deadline
      else None)])
  }

  /** SADD. */
  function Added(s: Store, k: Key, m: Member): Store {
    s.(sets := s.sets[k := Expiring(MembersOf(s, k) + {m}, if k in s.sets then s.sets[k].deadline else None)])
  }

  // ---- the scripts --------------------------------------------------------------------------------

  function IncrWithTtl(s: Store, k: Key, ttl: int): (Store, int) {
    (HealCounter(Incremented(s, k), k, Deadline(s, ttl)), CountOf(s, k) + 1)
  }

  function IncrWithinLimit(s: Store, k: Key, limit: int, ttl: int): (Store, Option<int>) {
    if CountOf(s, k) >= limit then (HealCounter(s, k, Deadline(s, ttl)), None)
    else (HealCounter(Incremented(s, k), k, Deadline(s, ttl)), Some(CountOf(s, k) + 1))
  }

  function HealBoth(s: Store, k: Key, seen: Key, ttl: int): Store {
    HealSet(HealCounter(s, k, Deadline(s, ttl)), seen, Deadline(s, ttl))
  }

  function Charged(s: Store, k: Key, seen: Key, m: Member): Store { Added(Incremented(s, k), seen, m) }

  function IncrDistinct(s: Store, k: Key, seen: Key, m: Member, limit: int, ttl: int): (Store, Option<int>) {
    if m in MembersOf(s, seen) then (HealBoth(s, k, seen, ttl), Some(CountOf(s, k)))
    else if CountOf(s, k) >= limit then (HealBoth(s, k, seen, ttl), None)
    else (HealBoth(Charged(s, k, seen, m), k, seen, ttl), Some(CountOf(s, k) + 1))
  }

  function DecrFloorZero(s: Store, k: Key): (Store, int) {
    if CountOf(s, k) <= 0 then (s, 0)
    else (s.(counters := s.counters[k := s.counters[k].(value := s.counters[k].value - 1)]), CountOf(s, k) - 1)
  }

  /** Time passes, and every key whose deadline is reached is gone. */
  function Advanced(s: Store, elapsed: nat): Store {
    var now := s.clock + elapsed;
    Store(map k | k in s.counters && (s.counters[k].deadline.None? || now < s.counters[k].deadline.value) ::
      s.counters[k],
          map k | k in s.sets && (s.sets[k].deadline.None? || now < s.sets[k].deadline.value) :: s.sets[k],
          now)
  }

  // ---- the server ---------------------------------------------------------------------------------

  /** One Redis server; each script is one uninterrupted method. */
  class Redis {
    var counters: map<Key, Expiring<int>>
    var sets: map<Key, Expiring<set<Member>>>
    var clock: Instant

    constructor ()
      ensures Value() == Store(map[], map[], 0)
    {
      counters, sets, clock := map[], map[], 0;
    }

    function Value(): Store
      reads this
    {
      Store(counters, sets, clock)
    }

    function Get(k: Key): int
      reads this
    {
      if k in counters then counters[k].value else 0
    }

    method Incr(k: Key) returns (count: int)
      modifies `counters
      ensures Value() == Incremented(old(Value()), k) && count == CountOf(Value(), k)
    {
      if k in counters { counters := counters[k := counters[k].(value := counters[k].value + 1)]; }
      else { counters := counters[k := Expiring(1, None)]; }
      count := counters[k].value;
    }

    /** TTL below 0, then EXPIRE. */
    method ExpireIfUnset(k: Key, ttl: int)
      modifies `counters
      ensures Value() == HealCounter(old(Value()), k, Deadline(old(Value()), ttl))
    {
      var seconds := if ttl > 1 then ttl else 1;
      if k in counters && counters[k].deadline.None? {
        counters := counters[k := counters[k].(deadline := Some(clock + seconds * SECOND))];
      }
    }

    method ExpireSetIfUnset(k: Key, ttl: int)
      modifies `sets
      ensures Value() == HealSet(old(Value()), k, Deadline(old(Value()), ttl))
    {
      var seconds := if ttl > 1 then ttl else 1;
      if k in sets && sets[k].deadline.None? {
        sets := sets[k := sets[k].(deadline := Some(clock + seconds * SECOND))];
      }
    }

    /** `_INCR_WITH_TTL`. */
    method IncrementWithTtl(k: Key, ttl: int) returns (count: int)
      modifies this
      ensures (Value(), count) == IncrWithTtl(old(Value()), k, ttl)
    {
      count := Incr(k);
      ExpireIfUnset(k, ttl);
    }

    /** `_INCR_WITHIN_LIMIT`. */
    method IncrementWithinLimit(k: Key, limit: int, ttl: int) returns (count: Option<int>)
      modifies this
      ensures (Value(), count) == IncrWithinLimit(old(Value()), k, limit, ttl)
    {
      var current := Get(k);
      if current >= limit {
        ExpireIfUnset(k, ttl);
        return None;
      }
      var n := Incr(k);
      ExpireIfUnset(k, ttl);
      return Some(n);
    }

    method ExpireBothIfUnset(k: Key, seen: Key, ttl: int)
      modifies this
      ensures Value() == HealBoth(old(Value()), k, seen, ttl)
    {
      hide HealCounter, HealSet;
      ExpireIfUnset(k, ttl);
      ExpireSetIfUnset(seen, ttl);
    }

    /** INCR and SADD. */
    method Charge(k: Key, seen: Key, m: Member) returns (count: int)
      modifies this
      ensures Value() == Charged(old(Value()), k, seen, m) && count == CountOf(old(Value()), k) + 1
    {
      count := Incr(k);
      assert {} + {m} == {m};
      sets := sets[seen := if seen in sets then sets[seen].(value := sets[seen].value + {m}) else Expiring({m}, None)];
    }

    /** `_INCR_DISTINCT_WITHIN_LIMIT`. */
    method IncrementDistinct(k: Key, seen: Key, m: Member, limit: int, ttl: int) returns (count: Option<int>)
      modifies this
      ensures (Value(), count) == IncrDistinct(old(Value()), k, seen, m, limit, ttl)
    {
      hide Charged, HealBoth;
      if seen in sets && m in sets[seen].value {
        count := Some(Get(k));
      } else if Get(k) >= limit {
        count := None;
      } else {
        var n := Charge(k, seen, m);
        count := Some(n);
      }
      ExpireBothIfUnset(k, seen, ttl);
    }

    /** `_DECR_FLOOR_ZERO`. */
    method DecrementFloorZero(k: Key) returns (count: int)
      modifies this
      ensures (Value(), count) == DecrFloorZero(old(Value()), k)
    {
      if Get(k) <= 0 { return 0; }
      counters := counters[k := counters[k].(value := counters[k].value - 1)];
      count := counters[k].value;
    }

    method Wait(elapsed: nat)
      modifies this
      ensures Value() == Advanced(old(Value()), elapsed)
    {
      var now := clock + elapsed;
      counters := map k | k in counters && (counters[k].deadline.None? || now < counters[k].deadline.value) ::
        counters[k];
      sets := map k | k in sets && (sets[k].deadline.None? || now < sets[k].deadline.value) :: sets[k];
      clock := now;
    }
  }
}

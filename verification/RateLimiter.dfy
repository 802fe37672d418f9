// The smooth rate limiter. Times are microseconds and, like permits, exact reals; the clock is a
// parameter that never runs backwards.
module RateLimiter {

  const MICROS_PER_SECOND := 1_000_000

  // Duration::from_micros(1_000_000 / max_qps), an integer division
  function Interval(qps: nat): (i: real)
    requires 1 <= qps
    ensures qps <= MICROS_PER_SECOND ==> i >= 1.0
  {
    (MICROS_PER_SECOND / qps) as real
  }

  // Permits that accrue in a stretch of time.
  function Earned(d: real, interval: real): (p: real)
    requires interval > 0.0
  {
    d / interval
  }

  lemma EarnedAdds(c: real, d: real, interval: real)
    requires interval > 0.0
    ensures Earned(c, interval) + Earned(d, interval) == Earned(c + d, interval)
  {
  }

  lemma EarnedMonotone(c: real, d: real, interval: real)
    requires interval > 0.0 && c <= d
    ensures Earned(c, interval) <= Earned(d, interval)
    ensures c < d ==> Earned(c, interval) < Earned(d, interval)
  {
    var x, y := Earned(c, interval), Earned(d, interval);
    assert x * interval == c && y * interval == d;
    assert (y - x) * interval == d - c;
  }

  lemma EarnedUnit(interval: real)
    requires interval > 0.0
    ensures Earned(0.0, interval) == 0.0 && Earned(interval, interval) == 1.0
  {
  }

  datatype Limiter = Limiter(stored: real, max: real, interval: real, nextFree: real, lastUpdate: real)

  function Min(a: real, b: real): (m: real) {
    if a < b then a else b
  }

  function Resynced(l: Limiter, now: real): (r: Limiter)
    requires l.interval > 0.0
  {
    if now > l.nextFree then
      l.(stored := Min(l.stored + Earned(now - l.lastUpdate, l.interval), l.max), lastUpdate := now)
    else l
  }

  // reserve_and_get_wait_length(1): the new state and the wait.
  function Reserved(l: Limiter, now: real): (r: (Limiter, real))
    requires l.interval > 0.0
  {
    var m := Resynced(l, now);
    var spend := Min(1.0, m.stored);
    var wait := (1.0 - spend) * m.interval;
    var nextFree := if wait > 0.0 then (if m.nextFree <= now then now + wait else m.nextFree + wait) else now;
    (m.(nextFree := nextFree, stored := m.stored - spend),
     if wait > 0.0 && nextFree > now then nextFree - now else 0.0)
  }

  function Started(qps: nat, now: real): (l: Limiter)
    requires 1 <= qps
  {
    Limiter(qps as real, qps as real, Interval(qps), now, now)
  }

  function WithRate(l: Limiter, qps: nat): (r: Limiter)
    requires 1 <= qps
  {
    l.(max := qps as real, interval := Interval(qps), stored := qps as real)
  }

  function AtLeastOne(qps: nat): (q: nat)
    ensures q >= 1
  {
    if qps < 1 then 1 else qps
  }

  class Inner {
    var storedPermits: real
    var maxStoredPermits: real
    var stableInterval: real
    var nextFreePermission: real
    var lastUpdateTime: real

    ghost function Value(): (l: Limiter)
      reads this
    {
      Limiter(storedPermits, maxStoredPermits, stableInterval, nextFreePermission, lastUpdateTime)
    }

    constructor (maxQps: nat, now: real)
      requires maxQps <= MICROS_PER_SECOND
      ensures Value() == Started(AtLeastOne(maxQps), now)
    {
      var qps := AtLeastOne(maxQps);
      stableInterval := Interval(qps);
      storedPermits, maxStoredPermits := qps as real, qps as real;
      nextFreePermission, lastUpdateTime := now, now;
    }

    method SetRate(permitsPerSecond: nat)
      modifies this
      ensures Value() == WithRate(old(Value()), AtLeastOne(permitsPerSecond))
    {
      var qps := AtLeastOne(permitsPerSecond);
      maxStoredPermits := qps as real;
      stableInterval := Interval(qps);
      storedPermits := qps as real;
    }

    method Resync(now: real)
      requires stableInterval > 0.0
      modifies this
      ensures Value() == Resynced(old(Value()), now)
    {
      if now > nextFreePermission {
        var elapsed := now - lastUpdateTime;
        var permitsToAdd := elapsed / stableInterval;
        storedPermits := Min(storedPermits + permitsToAdd, maxStoredPermits);
        lastUpdateTime := now;
      }
    }

    method ReserveAndGetWaitLength(now: real) returns (length: real)
      requires stableInterval > 0.0
      modifies this
      ensures Value() == Reserved(old(Value()), now).0 && length == Reserved(old(Value()), now).1
    {
      hide Resynced, Earned, Min;
      ghost var m := Resynced(Value(), now);
      Resync(now);
      assert storedPermits == m.stored && stableInterval == m.interval && nextFreePermission == m.nextFree;
      var storedPermitsToSpend := Min(1.0, storedPermits);
      var freshPermitsToClaim := 1.0 - storedPermitsToSpend;
      var wait := freshPermitsToClaim * stableInterval;
      if wait > 0.0 {
        if nextFreePermission <= now {
          nextFreePermission := now + wait;
        } else {
          nextFreePermission := nextFreePermission + wait;
        }
      } else {
        nextFreePermission := now;
      }
      storedPermits := storedPermits - storedPermitsToSpend;
      length := if wait > 0.0 && nextFreePermission > now then nextFreePermission - now else 0.0;
    }

    method TryAcquire(now: real) returns (granted: bool)
      requires stableInterval > 0.0
      modifies this
      ensures Value() == Reserved(old(Value()), now).0
      ensures granted == (Reserved(old(Value()), now).1 == 0.0)
    {
      var wait := ReserveAndGetWaitLength(now);
      granted := wait == 0.0;
    }
  }

  // Runs of reservations

  function Granted(l: Limiter, now: real): (b: bool)
    requires l.interval > 0.0
  {
    Reserved(l, now).1 == 0.0
  }

  function After(l: Limiter, times: seq<real>): (r: Limiter)
    requires l.interval > 0.0
    ensures r.interval == l.interval && r.max == l.max
  {
    if times == [] then l else Reserved(After(l, times[..|times| - 1]), times[|times| - 1]).0
  }

  // How many of the calls were granted inside the interval from s to e.
  function Grants(l: Limiter, times: seq<real>, s: real, e: real): (n: nat)
    requires l.interval > 0.0
  {
    if times == [] then 0
    else
      var before, now := times[..|times| - 1], times[|times| - 1];
      Grants(l, before, s, e) + if s <= now <= e && Granted(After(l, before), now) then 1 else 0
  }

  predicate Monotone(times: seq<real>, from: real) {
    forall i :: 0 <= i < |times| ==> from <= times[i] && (i > 0 ==> times[i - 1] <= times[i])
  }

  // A permit is in store only when the last update is also the next free time.
  predicate Synced(l: Limiter) {
    l.stored > 0.0 ==> l.lastUpdate == l.nextFree
  }

  predicate Sane(l: Limiter) {
    l.interval > 0.0 && l.max >= 1.0 && 0.0 <= l.stored <= l.max && l.lastUpdate <= l.nextFree
  }

  // What one call does to the store.
  lemma ReserveIs(l: Limiter, now: real)
    requires Sane(l)
    ensures var m, r := Resynced(l, now), Reserved(l, now).0;
            && 0.0 <= m.stored <= l.max
            && (Granted(l, now) <==> m.stored >= 1.0)
            && r.stored == (if Granted(l, now) then m.stored - 1.0 else 0.0)
            && r.lastUpdate == m.lastUpdate && r.max == l.max && r.interval == l.interval
            && (if Granted(l, now) then r.nextFree == now else r.nextFree > now)
  {
    if now > l.nextFree {
      EarnedMonotone(0.0, now - l.lastUpdate, l.interval);
      EarnedUnit(l.interval);
    }
    var m := Resynced(l, now);
    var spend := Min(1.0, m.stored);
    hide Resynced, Earned;
    WaitSign(1.0 - spend, m.interval);
  }

  lemma WaitSign(claim: real, interval: real)
    requires interval > 0.0 && claim >= 0.0
    ensures claim * interval > 0.0 <==> claim > 0.0
    ensures claim * interval >= 0.0
  {
  }

  lemma SyncedKept(l: Limiter, now: real)
    requires Sane(l) && Synced(l) && l.lastUpdate <= now
    ensures var r := Reserved(l, now).0; Sane(r) && Synced(r) && r.lastUpdate <= now
  {
    ReserveIs(l, now);
    hide Reserved, Granted, Earned;
  }

  // The store and the grants since s are paid for by the full store and what has been earned since.
  predicate PaidFor(l: Limiter, grants: nat, s: real, budget: real)
    requires l.interval > 0.0
  {
    && (grants > 0 ==> l.lastUpdate >= s)
    && grants as real + l.stored <= budget + (if l.lastUpdate >= s then Earned(l.lastUpdate - s, l.interval) else 0.0)
  }

  lemma PaidForKept(l: Limiter, grants: nat, now: real, s: real, budget: real)
    requires Sane(l) && Synced(l) && l.lastUpdate <= now && PaidFor(l, grants, s, budget) && budget >= l.max
    ensures var r := Reserved(l, now).0;
            PaidFor(r, grants + (if s <= now && Granted(l, now) then 1 else 0), s, budget)
  {
    ReserveIs(l, now);
    var m := Resynced(l, now);
    if now > l.nextFree && l.lastUpdate >= s {
      EarnedAdds(l.lastUpdate - s, now - l.lastUpdate, l.interval);
    }
    if now >= s {
      EarnedMonotone(0.0, now - s, l.interval);
      EarnedUnit(l.interval);
    }
    hide Reserved, Granted, Earned;
  }

  lemma MonotonePrefix(times: seq<real>, from: real)
    requires times != [] && Monotone(times, from)
    ensures Monotone(times[..|times| - 1], from)
    ensures from <= times[|times| - 1]
    ensures |times| > 1 ==> times[..|times| - 1][|times| - 2] <= times[|times| - 1]
  {
  }

  // When the last call of a run was made.
  function Last(times: seq<real>, from: real): (t: real) {
    if times == [] then from else times[|times| - 1]
  }

  // Along a run from a synced state, grants up to e are paid for.
  lemma {:induction false} RunPaidFor(l: Limiter, times: seq<real>, from: real, s: real, e: real)
    requires Sane(l) && Synced(l) && l.lastUpdate <= from && Monotone(times, from) && Last(times, from) <= e
    ensures var r := After(l, times);
            && Sane(r) && Synced(r) && r.lastUpdate <= Last(times, from)
            && PaidFor(r, Grants(l, times, s, e), s, l.max)
  {
    if times == [] {
      EarnedAtStart(l, s);
    } else {
      var before, now := times[..|times| - 1], times[|times| - 1];
      MonotonePrefix(times, from);
      RunPaidFor(l, before, from, s, e);
      SyncedKept(After(l, before), now);
      PaidForKept(After(l, before), Grants(l, before, s, e), now, s, l.max);
    }
  }

  lemma EarnedAtStart(l: Limiter, s: real)
    requires Sane(l)
    ensures PaidFor(l, 0, s, l.max)
  {
    if l.lastUpdate >= s {
      EarnedMonotone(0.0, l.lastUpdate - s, l.interval);
      EarnedUnit(l.interval);
    }
  }

  // Calls after e do not count, and calls before it do not see them.
  lemma {:induction false} UpTo(l: Limiter, times: seq<real>, from: real, s: real, e: real) returns (n: nat)
    requires l.interval > 0.0 && Monotone(times, from)
    ensures n <= |times| && Grants(l, times, s, e) == Grants(l, times[..n], s, e)
    ensures Monotone(times[..n], from) && (n > 0 ==> times[n - 1] <= e)
  {
    if times == [] || times[|times| - 1] <= e {
      n := |times|;
      assert times[..n] == times;
    } else {
      MonotonePrefix(times, from);
      n := UpTo(l, times[..|times| - 1], from, s, e);
      assert times[..|times| - 1][..n] == times[..n];
    }
  }

  // The sliding-window bound from any synced state: in every interval at most the burst and what the
  // interval itself earns.
  lemma WindowBound(l: Limiter, times: seq<real>, from: real, s: real, e: real)
    requires Sane(l) && Synced(l) && l.lastUpdate <= from && Monotone(times, from) && s <= e
    ensures Grants(l, times, s, e) as real <= l.max + Earned(e - s, l.interval)
  {
    EarnedMonotone(0.0, e - s, l.interval);
    EarnedUnit(l.interval);
    var n := UpTo(l, times, from, s, e);
    if n > 0 {
      var early := times[..n];
      if from <= e {
        RunPaidFor(l, early, from, s, e);
        var r := After(l, early);
        if r.lastUpdate >= s {
          EarnedMonotone(r.lastUpdate - s, e - s, l.interval);
        }
      }
      hide Earned, Grants, After;
    }
  }

  // The bound for a limiter made for between one and a million requests per second, in any run
  // without a change of rate.
  lemma SlidingWindowBound(qps: nat, from: real, times: seq<real>, s: real, e: real)
    requires 1 <= qps <= MICROS_PER_SECOND && Monotone(times, from) && s <= e
    ensures Grants(Started(qps, from), times, s, e) as real <= qps as real + Earned(e - s, Interval(qps))
  {
    WindowBound(Started(qps, from), times, from, s, e);
  }

  // What is granted, exactly and in numbers. The permits in hand at t are called a: past the next
  // free time the store and what has been earned since the last update, up to the maximum; before it,
  // the store alone.

  predicate InHand(l: Limiter, t: real, a: real)
    requires l.interval > 0.0
  {
    if t <= l.nextFree then a == l.stored
    else if l.stored + (t - l.lastUpdate) / l.interval <= l.max then a == l.stored + (t - l.lastUpdate) / l.interval
    else a == l.max
  }

  // One call: a whole permit in hand is spent at once; otherwise what is in hand is spent, and the rest
  // is waited for behind what has been promised already.
  lemma OneCall(l: Limiter, t: real, a: real)
    requires Sane(l) && InHand(l, t, a)
    ensures var (r, wait) := Reserved(l, t);
            && r.max == l.max && r.interval == l.interval
            && r.lastUpdate == (if t > l.nextFree then t else l.lastUpdate)
            && (a >= 1.0 ==> wait == 0.0 && r.stored == a - 1.0 && r.nextFree == t)
            && (a < 1.0 ==>
                  && wait == (if l.nextFree > t then l.nextFree - t else 0.0) + (1.0 - a) * l.interval
                  && wait > 0.0 && r.stored == 0.0 && r.nextFree == t + wait)
  {
    CaughtUp(l, t, a);
    var claim := 1.0 - Min(1.0, a);
    var rest := claim * l.interval;
    ClaimWaits(l, t, Resynced(l, t), claim, rest);
    WaitSign(claim, l.interval);
    hide Resynced, Reserved;
  }

  lemma CaughtUp(l: Limiter, t: real, a: real)
    requires Sane(l) && InHand(l, t, a)
    ensures Resynced(l, t) == l.(stored := a, lastUpdate := if t > l.nextFree then t else l.lastUpdate)
  {
  }

  // What cannot be spent is waited for.
  lemma ClaimWaits(l: Limiter, t: real, m: Limiter, claim: real, rest: real)
    requires l.interval > 0.0 && m == Resynced(l, t) && claim == 1.0 - Min(1.0, m.stored) && rest == claim * m.interval
    ensures var (r, wait) := Reserved(l, t);
            && r.max == m.max && r.interval == m.interval && r.lastUpdate == m.lastUpdate
            && r.stored == m.stored - Min(1.0, m.stored)
            && r.nextFree == (if rest <= 0.0 then t else if m.nextFree <= t then t + rest else m.nextFree + rest)
            && wait == if rest > 0.0 && r.nextFree > t then r.nextFree - t else 0.0
  {
    hide Resynced;
  }

  // Calls at one instant, after an idle time: the i-th waits for what it lacks, so the whole permits in
  // hand are handed out and not one more.
  lemma {:induction false} CallsAtOnce(l: Limiter, t: real, a: real, n: nat)
    requires Sane(l) && l.nextFree < t && InHand(l, t, a) && 0.0 <= a
    ensures n > 0 ==>
              && Reserved(After(l, Burst(t, n - 1)), t).1 == (if n as real <= a then 0.0 else (n as real - a) * l.interval)
              && After(l, Burst(t, n)) ==
                 l.(stored := if n as real <= a then a - n as real else 0.0,
                    nextFree := if n as real <= a then t else t + (n as real - a) * l.interval,
                    lastUpdate := t)
    ensures Grants(l, Burst(t, n), t, t) == if n as real <= a then n else a.Floor
  {
    hide Resynced, Earned, Reserved;
    if n > 0 {
      CallsAtOnce(l, t, a, n - 1);
      BurstGrows(l, t, n - 1);
      var times := Burst(t, n);
      assert times[..n - 1] == Burst(t, n - 1) && times[n - 1] == t;
      NextAtOnce(l, t, a, n, After(l, Burst(t, n - 1)));
    }
  }

  lemma NextAtOnce(l: Limiter, t: real, a: real, n: nat, m: Limiter)
    requires Sane(l) && l.nextFree < t && InHand(l, t, a) && 0.0 <= a && n > 0
    requires n == 1 ==> m == l
    requires n > 1 ==> m == l.(stored := if (n - 1) as real <= a then a - (n - 1) as real else 0.0,
                               nextFree := if (n - 1) as real <= a then t else t + ((n - 1) as real - a) * l.interval,
                               lastUpdate := t)
    ensures var (r, wait) := Reserved(m, t);
            && wait == (if n as real <= a then 0.0 else (n as real - a) * l.interval)
            && r == l.(stored := if n as real <= a then a - n as real else 0.0,
                       nextFree := if n as real <= a then t else t + (n as real - a) * l.interval,
                       lastUpdate := t)
            && (Granted(m, t) <==> n as real <= a)
  {
    var had: real := (n - 1) as real;
    var lacks := if had <= a then 0.0 else had - a;
    assert lacks * l.interval >= 0.0 by { WaitSign(lacks, l.interval); }
    var left := if n == 1 then a else if had <= a then a - had else 0.0;
    assert 0.0 <= left && m.interval == l.interval && InHand(m, t, left);
    OneCall(m, t, left);
    Lacking(had, a, l.interval);
    hide Reserved;
  }

  lemma Lacking(had: real, a: real, interval: real)
    ensures (had + 1.0 - a) * interval == (had - a) * interval + interval
    ensures (1.0 - (a - had)) * interval == (had + 1.0 - a) * interval
    ensures (1.0 - 0.0) * interval == interval
  {
  }

  // After an idle time, of any number of calls at once exactly as many are granted as there are whole
  // permits in hand.
  lemma IdleThenServed(l: Limiter, t: real, a: real, n: nat)
    requires Sane(l) && l.nextFree < t && InHand(l, t, a)
    ensures Grants(l, Burst(t, n), t, t) == if n <= a.Floor then n else a.Floor
  {
    InHandSome(l, t, a);
    WholePermits(a, n);
    hide Reserved, After, Grants, InHand;
    CallsAtOnce(l, t, a, n);
  }

  // Whoever is refused is told what is missing: the n-th caller, what n exceeds the permits in hand by.
  lemma IdleThenRefused(l: Limiter, t: real, a: real, n: nat)
    requires Sane(l) && l.nextFree < t && InHand(l, t, a) && n > a.Floor
    ensures n > 0 && Reserved(After(l, Burst(t, n - 1)), t).1 == (n as real - a) * l.interval
  {
    InHandSome(l, t, a);
    WholePermits(a, n);
    hide Reserved, After, Grants, InHand;
    CallsAtOnce(l, t, a, n);
  }

  lemma WholePermits(a: real, n: nat)
    requires a >= 0.0
    ensures a.Floor >= 0 && (n as real <= a <==> n <= a.Floor)
  {
  }

  lemma InHandSome(l: Limiter, t: real, a: real)
    requires Sane(l) && InHand(l, t, a)
    ensures a >= 0.0
  {
    if t > l.nextFree {
      EarnedMonotone(0.0, t - l.lastUpdate, l.interval);
      EarnedUnit(l.interval);
      assert Earned(t - l.lastUpdate, l.interval) == (t - l.lastUpdate) / l.interval;
    }
  }

  // Before the next free time, with nothing in store, nothing is granted: the i-th caller is promised
  // the i-th permit after those promised before.
  lemma {:induction false} CallsInDebt(l: Limiter, t: real, n: nat)
    requires Sane(l) && l.stored == 0.0 && t <= l.nextFree
    ensures After(l, Burst(t, n)) == l.(nextFree := l.nextFree + n as real * l.interval)
    ensures Grants(l, Burst(t, n), t, t) == 0
    ensures n > 0 ==> Reserved(After(l, Burst(t, n - 1)), t).1 == l.nextFree - t + n as real * l.interval
  {
    hide Resynced, Earned, Reserved;
    if n > 0 {
      CallsInDebt(l, t, n - 1);
      BurstGrows(l, t, n - 1);
      var times := Burst(t, n);
      assert times[..n - 1] == Burst(t, n - 1) && times[n - 1] == t;
      var m := After(l, Burst(t, n - 1));
      DebtGrows(n - 1, l.interval);
      OneCall(m, t, 0.0);
    }
  }

  lemma DebtGrows(n: nat, interval: real)
    requires interval > 0.0
    ensures (n + 1) as real * interval == n as real * interval + interval
    ensures n as real * interval >= 0.0
  {
  }

  // In step with the rate nothing is refused: a new limiter grants every call of a run whose calls are
  // at least an interval apart.
  lemma {:induction false} SteadyRateGranted(qps: nat, from: real, times: seq<real>)
    requires 1 <= qps <= MICROS_PER_SECOND && Monotone(times, from)
    requires forall i :: 0 < i < |times| ==> times[i - 1] + Interval(qps) <= times[i]
    ensures forall i :: 0 <= i < |times| ==> Granted(After(Started(qps, from), times[..i]), times[i])
    ensures var r := After(Started(qps, from), times);
            Sane(r) && Synced(r) && (times != [] ==> r.lastUpdate <= times[|times| - 1] == r.nextFree)
  {
    var l := Started(qps, from);
    IntervalPositive(qps);
    if times != [] {
      var n := |times| - 1;
      var before, now := times[..n], times[n];
      MonotonePrefix(times, from);
      SteadyRateGranted(qps, from, before);
      forall i | 0 <= i < n ensures Granted(After(l, times[..i]), times[i]) {
        assert before[..i] == times[..i] && before[i] == times[i];
      }
      var m := After(l, before);
      hide Interval, After;
      assert m == l || (m.nextFree == before[n - 1] && before[n - 1] + l.interval <= now);
      SyncedKept(m, now);
      InStep(m, now);
      hide Started;
      ReserveIs(m, now);
      hide Reserved, Granted;
    }
  }

  // A call an interval after the last one, or with a permit in store, is granted.
  lemma InStep(m: Limiter, now: real)
    requires Sane(m) && m.lastUpdate <= now
    requires m.stored >= 1.0 || m.nextFree + m.interval <= now
    ensures Granted(m, now)
  {
    EarnedMonotone(0.0, now - m.lastUpdate, m.interval);
    EarnedUnit(m.interval);
    if m.nextFree + m.interval <= now {
      EarnedMonotone(m.interval, now - m.lastUpdate, m.interval);
    }
    GrantedIff(m, now);
    hide Granted, Earned;
  }

  // An interval is the largest whole number of microseconds of which a second holds as many as allowed.
  lemma IntervalIs(qps: nat)
    requires 1 <= qps
    ensures Interval(qps) * qps as real <= 1_000_000.0 < (Interval(qps) + 1.0) * qps as real
  {
    var k := MICROS_PER_SECOND / qps;
    assert k * qps <= MICROS_PER_SECOND < (k + 1) * qps;
    assert (k * qps) as real == k as real * qps as real;
    assert ((k + 1) * qps) as real == (k + 1) as real * qps as real;
  }

  // Changing the rate fills the store but leaves the clocks alone.

  // The grants so far are paid for by the burst alone, or by two bursts and what has been earned.
  predicate PaidTwice(l: Limiter, grants: nat, last: real, s: real)
    requires l.interval > 0.0
  {
    && Sane(l) && l.lastUpdate <= last && (grants > 0 ==> last >= s)
    && (grants as real + l.stored <= l.max || (Synced(l) && PaidFor(l, grants, s, 2.0 * l.max)))
  }

  lemma FirstResync(l: Limiter, grants: nat, last: real, now: real, s: real)
    requires Sane(l) && l.lastUpdate <= last <= now && (grants > 0 ==> last >= s) && grants as real + l.stored <= l.max
    ensures var r := Reserved(l, now).0;
            PaidTwice(r, grants + (if s <= now && Granted(l, now) then 1 else 0), now, s)
  {
    ReserveIs(l, now);
    if now >= s {
      EarnedMonotone(0.0, now - s, l.interval);
      EarnedUnit(l.interval);
    }
    hide Reserved, Granted, Earned;
  }

  lemma PaidTwiceKept(l: Limiter, grants: nat, last: real, now: real, s: real)
    requires l.interval > 0.0 && PaidTwice(l, grants, last, s) && last <= now
    ensures var r := Reserved(l, now).0;
            PaidTwice(r, grants + (if s <= now && Granted(l, now) then 1 else 0), now, s)
  {
    if grants as real + l.stored <= l.max {
      FirstResync(l, grants, last, now, s);
    } else {
      SyncedKept(l, now);
      PaidForKept(l, grants, now, s, 2.0 * l.max);
      hide Reserved, Granted, Earned;
    }
  }

  lemma {:induction false} RunPaidTwice(l: Limiter, times: seq<real>, from: real, s: real, e: real)
    requires Sane(l) && l.lastUpdate <= from && Monotone(times, from) && Last(times, from) <= e
    ensures PaidTwice(After(l, times), Grants(l, times, s, e), Last(times, from), s)
  {
    if times == [] {
    } else {
      var before, now := times[..|times| - 1], times[|times| - 1];
      MonotonePrefix(times, from);
      RunPaidTwice(l, before, from, s, e);
      PaidTwiceKept(After(l, before), Grants(l, before, s, e), Last(before, from), now, s);
    }
  }

  // From any sane state, in particular after a change of rate, the burst is at most doubled.
  lemma DoubleBurstBound(l: Limiter, times: seq<real>, from: real, s: real, e: real)
    requires Sane(l) && l.lastUpdate <= from && Monotone(times, from) && s <= e
    ensures Grants(l, times, s, e) as real <= 2.0 * l.max + Earned(e - s, l.interval)
  {
    EarnedMonotone(0.0, e - s, l.interval);
    EarnedUnit(l.interval);
    var n := UpTo(l, times, from, s, e);
    var early := times[..n];
    if n > 0 && from <= e {
      RunPaidTwice(l, early, from, s, e);
      var r := After(l, early);
      if r.lastUpdate >= s {
        EarnedMonotone(r.lastUpdate - s, e - s, l.interval);
      }
    }
    hide Earned, Grants, After;
  }

  // When the last reservation lies in the past, or the clocks agree, the change is harmless.
  predicate Settled(l: Limiter, now: real) {
    l.nextFree < now || l.nextFree == l.lastUpdate
  }

  // With a full store the first call after the next free time forgets when the last update was.
  lemma {:induction false} LastUpdateForgotten(l: Limiter, m: Limiter, times: seq<real>, from: real, s: real, e: real)
    requires Sane(l) && l.stored == l.max && m == l.(lastUpdate := l.nextFree)
    requires l.nextFree < from && Monotone(times, from)
    ensures Grants(l, times, s, e) == Grants(m, times, s, e)
    ensures times != [] ==> After(l, times) == After(m, times)
  {
    if times != [] {
      var before, now := times[..|times| - 1], times[|times| - 1];
      MonotonePrefix(times, from);
      LastUpdateForgotten(l, m, before, from, s, e);
      if before == [] {
        SameResync(l, m, now);
      }
    }
  }

  lemma SameResync(l: Limiter, m: Limiter, now: real)
    requires Sane(l) && l.stored == l.max && m == l.(lastUpdate := l.nextFree) && l.nextFree < now
    ensures Reserved(l, now) == Reserved(m, now)
  {
    EarnedMonotone(0.0, now - l.lastUpdate, l.interval);
    EarnedMonotone(0.0, now - l.nextFree, l.interval);
    EarnedUnit(l.interval);
    hide Earned;
    assert Resynced(l, now) == Resynced(m, now);
    hide Resynced;
  }

  lemma SettledKeepsBound(l: Limiter, qps: nat, now: real, times: seq<real>, s: real, e: real)
    requires Sane(l) && l.lastUpdate <= now && 1 <= qps <= MICROS_PER_SECOND && Settled(l, now)
    requires Monotone(times, now) && s <= e
    ensures Grants(WithRate(l, qps), times, s, e) as real <= qps as real + Earned(e - s, Interval(qps))
  {
    var r := WithRate(l, qps);
    if l.nextFree < now {
      var m := r.(lastUpdate := r.nextFree);
      LastUpdateForgotten(r, m, times, now, s, e);
      WindowBound(m, times, now, s, e);
    } else {
      WindowBound(r, times, now, s, e);
    }
  }

  // n calls at one instant before the next free time are all served from the store.
  function Burst(t: real, n: nat): (times: seq<real>)
    ensures |times| == n && forall i :: 0 <= i < n ==> times[i] == t
  {
    seq(n, i => t)
  }

  lemma {:induction false} BurstServed(l: Limiter, t: real, n: nat, e: real)
    requires Sane(l) && n as real <= l.stored && t <= l.nextFree && t <= e
    ensures Grants(l, Burst(t, n), t, e) == n
    ensures var r := After(l, Burst(t, n));
            && r.stored == l.stored - n as real && r.lastUpdate == l.lastUpdate && r.max == l.max && r.interval == l.interval
            && r.nextFree == if n > 0 then t else l.nextFree
  {
    if n > 0 {
      BurstServed(l, t, n - 1, e);
      assert Burst(t, n)[..n - 1] == Burst(t, n - 1);
      var m := After(l, Burst(t, n - 1));
      assert Resynced(m, t) == m;
      ServedFromStore(m, t);
    }
  }

  lemma ServedFromStore(m: Limiter, t: real)
    requires m.interval > 0.0 && m.stored >= 1.0 && t <= m.nextFree
    ensures Granted(m, t) && Reserved(m, t).0 == m.(stored := m.stored - 1.0, nextFree := t)
  {
  }

  // One more call after the burst, served by what has accrued since the last update.
  lemma OneMore(m: Limiter, t: real)
    requires m.interval > 0.0 && m.max >= 1.0 && m.stored >= 0.0 && t > m.nextFree
    requires t - m.lastUpdate >= m.interval
    ensures Granted(m, t)
  {
    EarnedMonotone(m.interval, t - m.lastUpdate, m.interval);
    EarnedUnit(m.interval);
    hide Earned;
    assert Resynced(m, t).stored >= 1.0;
    hide Resynced;
  }

  // Two instants for the burst and the call after it.
  lemma Instants(l: Limiter, interval: real, now: real) returns (t1: real, t2: real)
    requires l.lastUpdate <= now <= l.nextFree && l.lastUpdate < l.nextFree && interval > 0.0
    ensures now <= t1 <= l.nextFree && t1 < t2 && t2 - l.lastUpdate >= interval && t2 - t1 < interval
  {
    t1 := if now > l.lastUpdate then now else Min(l.nextFree, l.lastUpdate + interval / 2.0);
    t2 := if l.lastUpdate + interval >= t1 + interval / 2.0 then l.lastUpdate + interval else t1 + interval / 2.0;
  }

  // Otherwise the bound breaks: a whole burst, and one more before an interval has passed.
  lemma UnsettledBreaksBound(l: Limiter, qps: nat, now: real) returns (times: seq<real>, s: real, e: real)
    requires Sane(l) && l.lastUpdate <= now && 1 <= qps <= MICROS_PER_SECOND && !Settled(l, now)
    ensures Monotone(times, now) && s <= e
    ensures Grants(WithRate(l, qps), times, s, e) as real > qps as real + Earned(e - s, Interval(qps))
  {
    var r := WithRate(l, qps);
    s, e := Instants(l, Interval(qps), now);
    var burst := Burst(s, qps);
    BurstServed(r, s, qps, e);
    OneMore(After(r, burst), e);
    times := burst + [e];
    assert times[..|times| - 1] == burst;
    EarnedMonotone(e - s, Interval(qps), Interval(qps));
    EarnedUnit(Interval(qps));
    hide Earned, Interval, After, WithRate;
    assert Grants(r, times, s, e) == qps + 1;
  }

  // After a change of rate the bound holds in every run exactly when, at the change, the last
  // reservation lay in the past or the clocks agreed.
  lemma ChangeOfRate(l: Limiter, qps: nat, now: real)
    requires Sane(l) && l.lastUpdate <= now && 1 <= qps <= MICROS_PER_SECOND
    ensures (forall times, s, e :: Monotone(times, now) && s <= e ==>
               Grants(WithRate(l, qps), times, s, e) as real <= qps as real + Earned(e - s, Interval(qps)))
            <==> Settled(l, now)
  {
    if Settled(l, now) {
      forall times, s, e | Monotone(times, now) && s <= e
        ensures Grants(WithRate(l, qps), times, s, e) as real <= qps as real + Earned(e - s, Interval(qps))
      {
        SettledKeepsBound(l, qps, now, times, s, e);
      }
    } else {
      var times, s, e := UnsettledBreaksBound(l, qps, now);
    }
  }

  // A second burst, when the clock that was not caught up has earned a full store by then.

  lemma Refilled(l: Limiter, t: real, n: nat)
    requires Sane(l) && 1 <= n && l.max == n as real && l.nextFree < t && Earned(t - l.lastUpdate, l.interval) >= l.max
    ensures Granted(l, t) && Reserved(l, t).0 == l.(stored := l.max - 1.0, nextFree := t, lastUpdate := t)
  {
    hide Earned;
    assert Resynced(l, t) == l.(stored := l.max, lastUpdate := t);
    hide Resynced;
  }

  lemma {:induction false} SecondBurst(l: Limiter, t: real, u: real, n: nat, k: nat)
    requires Sane(l) && l.stored == l.max && l.max == n as real && k <= n && t <= l.nextFree && t < u
    requires l.lastUpdate <= t && Earned(u - l.lastUpdate, l.interval) >= l.max
    ensures Grants(l, Burst(t, n) + Burst(u, k), t, u) == n + k
    ensures var r := After(l, Burst(t, n) + Burst(u, k));
            && (k == 0 ==> r == l.(stored := 0.0, nextFree := t))
            && (k > 0 ==> r == l.(stored := (n - k) as real, nextFree := u, lastUpdate := u))
  {
    hide Earned;
    if k == 0 {
      assert Burst(t, n) + Burst(u, 0) == Burst(t, n);
      BurstServed(l, t, n, u);
    } else {
      SecondBurst(l, t, u, n, k - 1);
      var times, before := Burst(t, n) + Burst(u, k), Burst(t, n) + Burst(u, k - 1);
      assert times[..|times| - 1] == before && times[|times| - 1] == u;
      var m := After(l, before);
      hide Reserved, Granted;
      if k == 1 {
        Refilled(m, u, n);
      } else {
        ServedFromStore(m, u);
        SameInstant(m, u);
      }
    }
  }

  lemma SameInstant(m: Limiter, t: real)
    requires m.interval > 0.0 && t <= m.nextFree
    ensures Resynced(m, t) == m
  {
  }

  lemma BurstGrows(l: Limiter, t: real, n: nat)
    requires l.interval > 0.0
    ensures After(l, Burst(t, n + 1)) == Reserved(After(l, Burst(t, n)), t).0
    ensures After(l, Burst(t, 0)) == l
  {
    var times := Burst(t, n + 1);
    assert times[..n] == Burst(t, n) && times[n] == t;
    hide Reserved, Burst;
  }

  // With an empty store a call is promised a permit one interval further ahead.
  lemma PromisedAhead(l: Limiter, t: real)
    requires l.interval > 0.0 && l.stored == 0.0 && t <= l.nextFree
    ensures Reserved(l, t).0 == l.(nextFree := l.nextFree + l.interval)
  {
  }

  // A limiter with one permit, asked three times at once, promises two permits ahead.
  lemma AskedThreeTimes(l: Limiter, t: real)
    requires l.interval > 0.0 && l.stored == 1.0 && l.nextFree == t
    ensures After(l, Burst(t, 3)) == l.(stored := 0.0, nextFree := t + l.interval + l.interval)
  {
    hide Reserved, After, Granted, Burst;
    var l1 := l.(stored := 0.0);
    var l2 := l1.(nextFree := t + l.interval);
    assert After(l, Burst(t, 1)) == l1 by {
      BurstGrows(l, t, 0);
      ServedFromStore(l, t);
    }
    assert After(l, Burst(t, 2)) == l2 by {
      BurstGrows(l, t, 1);
      PromisedAhead(l1, t);
    }
    BurstGrows(l, t, 2);
    PromisedAhead(l2, t);
  }

  lemma EarnedMeanwhile(qps: nat, eps: real)
    requires 1 <= qps <= MICROS_PER_SECOND && eps > 0.0
    ensures Earned(1_500_000.0 + eps, Interval(qps)) >= qps as real
  {
    var whole := MICROS_PER_SECOND / qps;
    assert whole * qps <= MICROS_PER_SECOND;
    assert qps as real * whole as real == (qps * whole) as real;
    var x := Earned(1_500_000.0 + eps, whole as real);
    assert x * whole as real == 1_500_000.0 + eps;
    if x < qps as real {
      assert (qps as real - x) * whole as real > 0.0;
    }
  }

  // A change of rate can double the burst, and no reasonable bound below that holds: whatever the new
  // rate, such a limiter grants two full bursts in a stretch of time as short as one likes.
  lemma ChangeOfRateDoubles(qps: nat, eps: real)
    requires 1 <= qps <= MICROS_PER_SECOND && eps > 0.0
    ensures var l, t := WithRate(After(Started(1, 0.0), Burst(0.0, 3)), qps), 1_500_000.0;
            var times := Burst(t, qps) + Burst(t + eps, qps);
            Monotone(times, t) && Grants(l, times, t, t + eps) == 2 * qps
  {
    AskedThreeTimes(Started(1, 0.0), 0.0);
    EarnedMeanwhile(qps, eps);
    IntervalPositive(qps);
    hide Earned, Interval, Started, After, Grants;
    var l := WithRate(Limiter(0.0, 1.0, 1_000_000.0, 2_000_000.0, 0.0), qps);
    SecondBurst(l, 1_500_000.0, 1_500_000.0 + eps, qps, qps);
    BurstsMonotone(1_500_000.0, 1_500_000.0 + eps, qps);
  }

  lemma BurstsMonotone(t: real, u: real, n: nat)
    requires t <= u
    ensures Monotone(Burst(t, n) + Burst(u, n), t)
  {
  }

  lemma IntervalPositive(qps: nat)
    requires 1 <= qps <= MICROS_PER_SECOND
    ensures Interval(qps) > 0.0
  {
  }

  lemma {:induction false} LongerBurst(l: Limiter, t: real, m: nat, n: nat)
    requires l.interval > 0.0 && m <= n
    ensures Grants(l, Burst(t, m), t, t) <= Grants(l, Burst(t, n), t, t)
  {
    if m < n {
      LongerBurst(l, t, m, n - 1);
      assert Burst(t, n)[..n - 1] == Burst(t, n - 1);
    }
  }

  // The burst is exact: of n calls made at once to a new limiter the first max_qps are granted, and
  // no more, so the bound is reached and nothing is refused without need.
  lemma BurstExact(qps: nat, t: real, n: nat)
    requires 1 <= qps <= MICROS_PER_SECOND
    ensures Grants(Started(qps, t), Burst(t, n), t, t) == if n <= qps then n else qps
  {
    var l := Started(qps, t);
    BurstServed(l, t, if n <= qps then n else qps, t);
    if n > qps {
      LongerBurst(l, t, qps, n);
      SlidingWindowBound(qps, t, Burst(t, n), t, t);
      EarnedUnit(l.interval);
    }
  }

  // A limit of zero counts as one; any other limit is what it says.
  lemma ZeroMeansOne(qps: nat, t: real, n: nat)
    requires qps <= MICROS_PER_SECOND
    ensures Grants(Started(AtLeastOne(qps), t), Burst(t, n), t, t) ==
            if qps == 0 then (if n == 0 then 0 else 1) else if n <= qps then n else qps
  {
    BurstExact(AtLeastOne(qps), t, n);
    hide Started, Grants;
  }

  // A call is granted exactly when a whole permit is in store once the clock has been caught up.
  lemma GrantedIff(l: Limiter, now: real)
    requires Sane(l)
    ensures Granted(l, now) <==>
              (if now > l.nextFree then l.stored + Earned(now - l.lastUpdate, l.interval) >= 1.0 else l.stored >= 1.0)
  {
    ReserveIs(l, now);
    hide Reserved, Granted, Earned;
  }
}

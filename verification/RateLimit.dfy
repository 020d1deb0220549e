/** The token bucket on the write path. Time and tokens are reals: rounding of floats is not the point here. */
module RateLimit {

  /** One call of `allow`: when, at what cost, and what it answered. */
  datatype Grant = Grant(time: real, cost: real, allowed: bool)

  function Max(a: real, b: real): real {
    if a >= b then a else b
  }

  function Min(a: real, b: real): real {
    if a <= b then a else b
  }

  /** Tokens that have dripped in by a given time. Only differences of it matter. */
  type Drip = real -> real

  function AtRate(rate: real): Drip {
    time => time * rate
  }

  ghost predicate Monotone(drip: Drip) {
    forall a: real, b: real :: a <= b ==> drip(a) <= drip(b)
  }

  /** Cost granted by the calls of `log` made within `[s, t]`. */
  function Granted(log: seq<Grant>, s: real, t: real): real {
    if log == [] then 0.0
    else
      var g := log[|log| - 1];
      Granted(log[..|log| - 1], s, t) + if g.allowed && s <= g.time <= t then g.cost else 0.0
  }

  function LastTime(created: real, log: seq<Grant>): real {
    if log == [] then created else log[|log| - 1].time
  }

  /** What the last call left in the bucket, full at first. */
  function LeftAfter(drip: Drip, capacity: real, created: real, log: seq<Grant>): real
    decreases |log|, 0
  {
    if log == [] then capacity
    else
      var g := log[|log| - 1];
      var before := TokensAt(drip, capacity, created, log[..|log| - 1], g.time);
      if g.allowed then before - g.cost else before
  }

  /** Tokens available at `time`, after the calls of `log`. */
  function TokensAt(drip: Drip, capacity: real, created: real, log: seq<Grant>, time: real): real
    decreases |log|, 1
  {
    Min(capacity, LeftAfter(drip, capacity, created, log) + (drip(time) - drip(LastTime(created, log))))
  }

  /** Calls at times that do not decrease, with costs that are not negative. */
  predicate Ordered(created: real, log: seq<Grant>) {
    && (forall i :: 0 <= i < |log| ==> created <= log[i].time && log[i].cost >= 0.0)
    && (forall i, j :: 0 <= i < j < |log| ==> log[i].time <= log[j].time)
  }

  /** Each call was answered as the bucket stood. */
  predicate Faithful(drip: Drip, capacity: real, created: real, log: seq<Grant>) {
    log == []
    || (Faithful(drip, capacity, created, log[..|log| - 1])
        && (log[|log| - 1].allowed <==>
              TokensAt(drip, capacity, created, log[..|log| - 1], log[|log| - 1].time) >= log[|log| - 1].cost))
  }

  ghost predicate WellFormed(drip: Drip, capacity: real, created: real, log: seq<Grant>) {
    Monotone(drip) && capacity >= 0.0 && Ordered(created, log) && Faithful(drip, capacity, created, log)
  }

  predicate NotBefore(created: real, log: seq<Grant>, time: real) {
    created <= time && forall i :: 0 <= i < |log| ==> log[i].time <= time
  }

  class TokenBucket {
    const rate: real
    const capacity: real
    const created: real
    var tokens: real
    var updated: real
    /** What has dripped in, at `rate`, since the epoch of the clock. */
    ghost const drip: Drip
    /** The calls so far. */
    ghost var log: seq<Grant>

    ghost predicate Valid()
      reads this
    {
      && rate >= 0.0 && capacity >= 1.0 && drip == AtRate(rate)
      && NotBefore(created, log, updated) && WellFormed(drip, capacity, created, log)
      && tokens == TokensAt(drip, capacity, created, log, updated)
    }

    constructor (ratePerSecond: real, burst: int, now: real)
      ensures Valid() && log == [] && created == now
      ensures rate == (if ratePerSecond > 0.0 then ratePerSecond else 0.0)
      ensures tokens == capacity == if burst > 1 then burst as real else 1.0
    {
      rate := Max(0.0, ratePerSecond);
      capacity := Max(1.0, burst as real);
      tokens := Max(1.0, burst as real);
      updated, created := now, now;
      drip, log := AtRate(Max(0.0, ratePerSecond)), [];
      new;
      AtRateIsMonotone(rate);
    }

    /** Add what dripped in since the bucket was last touched, up to its capacity. */
    method Refill(now: real)
      requires rate >= 0.0 && drip == AtRate(rate) && now >= updated
      requires tokens == TokensAt(drip, capacity, created, log, updated)
      modifies this`tokens, this`updated
      ensures tokens == TokensAt(drip, capacity, created, log, now) && updated == now
    {
      RefillAtRate(drip, rate, capacity, created, log, updated, now);
      tokens := Min(capacity, tokens + (now - updated) * rate);
      updated := now;
    }

    /** Consume `cost` tokens if there are enough at `now`. A rate of zero disables the limit. */
    method Allow(now: real, cost: real) returns (allowed: bool)
      requires Valid() && now >= updated && cost >= 0.0
      modifies this
      ensures Valid()
      ensures rate == 0.0 ==> allowed && log == old(log)
      ensures old(log) == [] && cost <= capacity ==> allowed
      ensures rate > 0.0 ==>
                && (allowed <==> TokensAt(drip, capacity, created, old(log), now) >= cost)
                && (allowed <==> EveryWindowAllows(drip, capacity, created, old(log), now, cost))
                && log == old(log) + [Grant(now, cost, allowed)] && updated == now
    {
      if rate <= 0.0 {
        return true;
      }
      EnoughIffEveryWindowAllows(drip, capacity, created, log, now, cost);
      Refill(now);
      allowed := tokens >= cost;
      AfterCall(drip, capacity, created, log, Grant(now, cost, allowed));
      if allowed {
        tokens := tokens - cost;
      }
      log := log + [Grant(now, cost, allowed)];
    }
  }

  // ---------------------------------------------------------------------------
  // Dripping at a rate
  // ---------------------------------------------------------------------------

  lemma TimesMonotone(a: real, b: real, rate: real)
    requires rate >= 0.0 && a <= b
    ensures a * rate <= b * rate
  {
  }

  lemma AtRateIsMonotone(rate: real)
    requires rate >= 0.0
    ensures Monotone(AtRate(rate))
  {
    forall a: real, b: real | a <= b
      ensures AtRate(rate)(a) <= AtRate(rate)(b)
    {
      TimesMonotone(a, b, rate);
    }
  }

  lemma DripBetween(rate: real, a: real, b: real)
    ensures AtRate(rate)(b) - AtRate(rate)(a) == (b - a) * rate
  {
  }

  /** Refilling in two goes is refilling once. */
  lemma RefillAgain(drip: Drip, capacity: real, created: real, log: seq<Grant>, mid: real, time: real)
    requires Monotone(drip) && mid <= time
    ensures TokensAt(drip, capacity, created, log, time)
         == Min(capacity, TokensAt(drip, capacity, created, log, mid) + (drip(time) - drip(mid)))
  {
  }

  /** The refill the code computes is the refill since the bucket was last touched. */
  lemma RefillAtRate(drip: Drip, rate: real, capacity: real, created: real, log: seq<Grant>, mid: real, time: real)
    requires rate >= 0.0 && mid <= time && drip == AtRate(rate)
    ensures TokensAt(drip, capacity, created, log, time)
         == Min(capacity, TokensAt(drip, capacity, created, log, mid) + (time - mid) * rate)
  {
    AtRateIsMonotone(rate);
    RefillAgain(drip, capacity, created, log, mid, time);
    DripBetween(rate, mid, time);
  }

  // ---------------------------------------------------------------------------
  // The bound
  // ---------------------------------------------------------------------------

  lemma PrefixWellFormed(drip: Drip, capacity: real, created: real, log: seq<Grant>)
    requires WellFormed(drip, capacity, created, log) && log != []
    ensures WellFormed(drip, capacity, created, log[..|log| - 1])
    ensures NotBefore(created, log[..|log| - 1], log[|log| - 1].time)
  {
  }

  /** Tokens stay between empty and full. */
  lemma {:induction false} TokensInRange(drip: Drip, capacity: real, created: real, log: seq<Grant>, time: real)
    requires WellFormed(drip, capacity, created, log) && NotBefore(created, log, time)
    ensures 0.0 <= TokensAt(drip, capacity, created, log, time) <= capacity
    decreases |log|
  {
    assert drip(LastTime(created, log)) <= drip(time);
    if log != [] {
      PrefixWellFormed(drip, capacity, created, log);
      TokensInRange(drip, capacity, created, log[..|log| - 1], log[|log| - 1].time);
    }
  }

  lemma AppendWellFormed(drip: Drip, capacity: real, created: real, log: seq<Grant>, g: Grant)
    requires WellFormed(drip, capacity, created, log) && NotBefore(created, log, g.time) && g.cost >= 0.0
    requires g.allowed <==> TokensAt(drip, capacity, created, log, g.time) >= g.cost
    ensures WellFormed(drip, capacity, created, log + [g]) && NotBefore(created, log + [g], g.time)
  {
    var more := log + [g];
    assert more[..|more| - 1] == log && more[|more| - 1] == g;
    assert Ordered(created, more);
    assert Faithful(drip, capacity, created, more);
  }

  /** The bucket right after a call. */
  lemma AfterCall(drip: Drip, capacity: real, created: real, log: seq<Grant>, g: Grant)
    requires WellFormed(drip, capacity, created, log) && NotBefore(created, log, g.time) && g.cost >= 0.0
    requires g.allowed <==> TokensAt(drip, capacity, created, log, g.time) >= g.cost
    ensures WellFormed(drip, capacity, created, log + [g]) && NotBefore(created, log + [g], g.time)
    ensures TokensAt(drip, capacity, created, log + [g], g.time)
         == TokensAt(drip, capacity, created, log, g.time) - if g.allowed then g.cost else 0.0
  {
    AppendWellFormed(drip, capacity, created, log, g);
    TokensInRange(drip, capacity, created, log, g.time);
    assert (log + [g])[..|log|] == log;
  }

  lemma {:induction false} GrantedBefore(log: seq<Grant>, s: real, t: real)
    requires forall i :: 0 <= i < |log| ==> log[i].time < s
    ensures Granted(log, s, t) == 0.0
  {
    if log != [] {
      GrantedBefore(log[..|log| - 1], s, t);
    }
  }

  /** What was granted from `s` on, plus what is left at `t`, never exceeds a full bucket plus the refill. */
  lemma {:induction false} GrantedPlusTokens(drip: Drip, capacity: real, created: real, log: seq<Grant>, s: real, t: real)
    requires WellFormed(drip, capacity, created, log) && NotBefore(created, log, t) && s <= t
    ensures Granted(log, s, t) + TokensAt(drip, capacity, created, log, t) <= capacity + (drip(t) - drip(s))
  {
    if log == [] || log[|log| - 1].time < s {
      TokensInRange(drip, capacity, created, log, t);
      GrantedBefore(log, s, t);
      assert drip(s) <= drip(t);
    } else {
      var init, g := log[..|log| - 1], log[|log| - 1];
      PrefixWellFormed(drip, capacity, created, log);
      GrantedPlusTokens(drip, capacity, created, init, s, g.time);
      SameWindow(init, s, g.time, t);
    }
  }

  /** Closing the window later changes nothing if no call came later. */
  lemma {:induction false} SameWindow(log: seq<Grant>, s: real, t: real, later: real)
    requires t <= later && forall i :: 0 <= i < |log| ==> log[i].time <= t
    ensures Granted(log, s, later) == Granted(log, s, t)
  {
    if log != [] {
      SameWindow(log[..|log| - 1], s, t, later);
    }
  }

  lemma {:induction false} WindowBound(drip: Drip, capacity: real, created: real, log: seq<Grant>, s: real, t: real)
    requires WellFormed(drip, capacity, created, log) && s <= t
    ensures Granted(log, s, t) <= capacity + (drip(t) - drip(s))
  {
    if log == [] {
      assert drip(s) <= drip(t);
    } else if log[|log| - 1].time > t {
      PrefixWellFormed(drip, capacity, created, log);
      WindowBound(drip, capacity, created, log[..|log| - 1], s, t);
    } else {
      GrantedPlusTokens(drip, capacity, created, log, s, t);
      TokensInRange(drip, capacity, created, log, t);
    }
  }

  /** Rate bound: in every window `[s, t]` of every history the cost granted is at most the capacity plus what the
      window refills, whatever the calls outside it. */
  lemma RateBound(rate: real, capacity: real, created: real, log: seq<Grant>, s: real, t: real)
    requires WellFormed(AtRate(rate), capacity, created, log) && s <= t
    ensures Granted(log, s, t) <= capacity + (t - s) * rate
  {
    WindowBound(AtRate(rate), capacity, created, log, s, t);
    DripBetween(rate, s, t);
  }

  lemma {:induction false} GrantedIsNotNegative(created: real, log: seq<Grant>, s: real, t: real)
    requires Ordered(created, log)
    ensures Granted(log, s, t) >= 0.0
  {
    if log != [] {
      GrantedIsNotNegative(created, log[..|log| - 1], s, t);
    }
  }

  /** The bound is reached: some window that ends now has used up all but the tokens that are left. */
  lemma {:induction false} SomeWindowIsUsedUp(drip: Drip, capacity: real, created: real, log: seq<Grant>, t: real)
    returns (s: real)
    requires WellFormed(drip, capacity, created, log) && NotBefore(created, log, t)
    ensures created <= s <= t
    ensures Granted(log, s, t) + TokensAt(drip, capacity, created, log, t) == capacity + (drip(t) - drip(s))
    decreases |log|
  {
    assert drip(LastTime(created, log)) <= drip(t);
    if TokensAt(drip, capacity, created, log, t) == capacity {
      s := t;
      GrantedPlusTokens(drip, capacity, created, log, t, t);
      GrantedIsNotNegative(created, log, t, t);
    } else {
      var init, g := log[..|log| - 1], log[|log| - 1];
      PrefixWellFormed(drip, capacity, created, log);
      s := SomeWindowIsUsedUp(drip, capacity, created, init, g.time);
      SameWindow(init, s, g.time, t);
    }
  }

  /** No window that ends at `time` would have been granted more than a full bucket and what the window refills. */
  ghost predicate EveryWindowAllows(drip: Drip, capacity: real, created: real, log: seq<Grant>, time: real, cost: real) {
    forall s: real :: created <= s <= time ==> Granted(log, s, time) + cost <= capacity + (drip(time) - drip(s))
  }

  /** The bucket, without the bucket: the tokens are enough for a request if and only if every window that ends with it
      leaves room for it. */
  lemma EnoughIffEveryWindowAllows(drip: Drip, capacity: real, created: real, log: seq<Grant>, time: real, cost: real)
    requires WellFormed(drip, capacity, created, log) && NotBefore(created, log, time)
    ensures TokensAt(drip, capacity, created, log, time) >= cost
       <==> EveryWindowAllows(drip, capacity, created, log, time, cost)
  {
    forall s: real | created <= s <= time
      ensures Granted(log, s, time) + TokensAt(drip, capacity, created, log, time) <= capacity + (drip(time) - drip(s))
    {
      GrantedPlusTokens(drip, capacity, created, log, s, time);
    }
    var s := SomeWindowIsUsedUp(drip, capacity, created, log, time);
    assert created <= s <= time;
  }

  /** In one window at a given rate. */
  predicate Allows(rate: real, capacity: real, log: seq<Grant>, s: real, time: real, cost: real) {
    Granted(log, s, time) + cost <= capacity + (time - s) * rate
  }

  lemma WindowsAtRate(rate: real, capacity: real, created: real, log: seq<Grant>, time: real, cost: real)
    ensures EveryWindowAllows(AtRate(rate), capacity, created, log, time, cost) <==>
              forall s: real :: created <= s <= time ==> Allows(rate, capacity, log, s, time, cost)
  {
    forall s: real | created <= s <= time
      ensures Allows(rate, capacity, log, s, time, cost) <==>
                Granted(log, s, time) + cost <= capacity + (AtRate(rate)(time) - AtRate(rate)(s))
    {
      DripBetween(rate, s, time);
    }
  }

  /** A request is turned away only when the bucket lacks its cost, and only then. */
  lemma {:induction false} DeniedIffLacking(drip: Drip, capacity: real, created: real, log: seq<Grant>, i: nat)
    requires WellFormed(drip, capacity, created, log) && i < |log|
    ensures !log[i].allowed <==> TokensAt(drip, capacity, created, log[..i], log[i].time) < log[i].cost
  {
    if i < |log| - 1 {
      PrefixWellFormed(drip, capacity, created, log);
      DeniedIffLacking(drip, capacity, created, log[..|log| - 1], i);
      assert log[..|log| - 1][..i] == log[..i];
    }
  }
}

/**
 * Properties of the token-bucket accounting in `TokenBucket`: the bounds on
 * the refilled amount, the first call on a fresh identifier, the range of the
 * stored token count, exhaustion at a fixed clock value, full refill after a
 * period, and how `del`, `get` and `headers` relate to `check`.
 */
module BucketProperties {
  import Storage
  import opened TokenBucket

  // ---------------------------------------------------------------------------
  // Refill

  /** The refill rate is never negative when the period is positive and the capacity is not negative. */
  lemma RateNonNegative(c: Config)
    requires c.period > 0 && c.maxCapacity >= 0
    ensures Rate(c) >= 0.0
    ensures Rate(c) * c.period as real == c.maxCapacity as real
  {
  }

  /** With a non-negative elapsed time a bucket within capacity does not shrink. */
  lemma RefillNotBelowCurrent(c: Config, current: real, lastCheck: real, now: int)
    requires c.period > 0 && c.maxCapacity >= 0
    requires current <= c.maxCapacity as real
    requires lastCheck <= now as real
    ensures current <= Refill(c, current, lastCheck, now)
  {
    RateNonNegative(c);
    var elapsed := now as real - lastCheck;
    assert elapsed * Rate(c) >= 0.0 by { MulNonNegative(elapsed, Rate(c)); }
  }

  /**
   * Elapsed time is not clamped at zero: a clock value before the stored
   * timestamp takes tokens away.
   */
  lemma NegativeElapsedDrains(c: Config, current: real, lastCheck: real, now: int)
    requires c.period > 0 && c.maxCapacity > 0
    requires current <= c.maxCapacity as real
    requires now as real < lastCheck
    ensures Refill(c, current, lastCheck, now) < current
  {
    var elapsed := now as real - lastCheck;
    assert Rate(c) > 0.0;
    assert elapsed * Rate(c) < 0.0 by { MulNegPos(elapsed, Rate(c)); }
  }

  /** A full period (or more) since the stored timestamp refills a non-negative bucket to capacity. */
  lemma FullAfterPeriod(c: Config, current: real, lastCheck: real, now: int)
    requires c.period > 0 && c.maxCapacity >= 0
    requires current >= 0.0
    requires now as real - lastCheck >= c.period as real
    ensures Refill(c, current, lastCheck, now) == c.maxCapacity as real
  {
    RateNonNegative(c);
    var elapsed := now as real - lastCheck;
    assert (elapsed - c.period as real) * Rate(c) >= 0.0 by {
      MulNonNegative(elapsed - c.period as real, Rate(c));
    }
    assert elapsed * Rate(c) == (elapsed - c.period as real) * Rate(c) + Rate(c) * c.period as real;
    assert current + elapsed * Rate(c) >= c.maxCapacity as real;
  }

  lemma MulNonNegative(x: real, y: real)
    requires x >= 0.0 && y >= 0.0
    ensures x * y >= 0.0
  {
  }

  lemma MulNegPos(x: real, y: real)
    requires x < 0.0 && y > 0.0
    ensures x * y < 0.0
  {
  }

  // ---------------------------------------------------------------------------
  // One call

  /**
   * The first call for an identifier creates the bucket at `maxCapacity - 1`
   * and then goes on to the refill step, which consumes a second token: it is
   * admitted exactly when `maxCapacity >= 2`, and leaves `maxCapacity - 2`
   * tokens when admitted, `maxCapacity - 1` when denied.
   */
  lemma FirstCall(c: Config, s: Storage.Store, id: string, now: int)
    requires c.period != 0
    requires TokenKey(c.prefix, id) !in s
    ensures var o := Check(c, s, id, now);
      && (o.admitted <==> c.maxCapacity >= 2)
      && Get(c, o.store, id) == Storage.Some(if o.admitted then (c.maxCapacity - 2) as real else (c.maxCapacity - 1) as real)
      && Storage.Get(o.store, StampKey(c.prefix, id)) == Storage.Some(now as real)
  {
  }

  /** An admitted call leaves between 0 and `maxCapacity - 1` tokens. */
  lemma AdmittedRange(c: Config, s: Storage.Store, id: string, now: int)
    requires c.period != 0
    requires Check(c, s, id, now).admitted
    ensures var t := Check(c, s, id, now).store[TokenKey(c.prefix, id)].value;
      0.0 <= t <= (c.maxCapacity - 1) as real
  {
  }

  /** The stored token count of `id`, if any, lies in `[0, maxCapacity]`. */
  ghost predicate TokensInRange(c: Config, s: Storage.Store, id: string)
  {
    TokenKey(c.prefix, id) in s ==> 0.0 <= s[TokenKey(c.prefix, id)].value <= c.maxCapacity as real
  }

  /**
   * A `check` at any clock value keeps the stored token count in
   * `[0, maxCapacity]`, admitted or denied: the refill is capped at
   * `maxCapacity`, an admission needs at least 1 before subtracting 1, and a
   * denial writes no tokens back.
   */
  lemma CheckPreservesRange(c: Config, s: Storage.Store, id: string, now: int)
    requires c.period != 0 && c.maxCapacity >= 1
    requires TokensInRange(c, s, id)
    ensures TokensInRange(c, Check(c, s, id, now).store, id)
  {
  }

  /**
   * At an unchanged clock value the refill adds nothing: a call is admitted
   * exactly when at least one token is stored, and an admitted call lowers
   * the count by exactly 1.
   */
  lemma SameInstantCall(c: Config, s: Storage.Store, id: string, now: int)
    requires c.period != 0
    requires TokenKey(c.prefix, id) in s
    requires Storage.Get(s, StampKey(c.prefix, id)) == Storage.Some(now as real)
    requires s[TokenKey(c.prefix, id)].value <= c.maxCapacity as real
    ensures var o := Check(c, s, id, now);
      && Refilled(c, s, id, now) == s[TokenKey(c.prefix, id)].value
      && (o.admitted <==> s[TokenKey(c.prefix, id)].value >= 1.0)
      && (o.admitted ==> o.store[TokenKey(c.prefix, id)].value == s[TokenKey(c.prefix, id)].value - 1.0)
  {
    var last := Storage.ValueOrZero(Storage.Get(s, StampKey(c.prefix, id)));
    assert (now as real - last) * Rate(c) == 0.0;
  }

  /**
   * After a whole idle period a bucket that holds a non-negative count admits
   * the call and is left one short of capacity.
   */
  lemma AdmittedAfterIdlePeriod(c: Config, s: Storage.Store, id: string, now: int)
    requires c.period > 0 && c.maxCapacity >= 1
    requires TokenKey(c.prefix, id) in s && s[TokenKey(c.prefix, id)].value >= 0.0
    requires now as real - Storage.ValueOrZero(Storage.Get(s, StampKey(c.prefix, id))) >= c.period as real
    ensures var o := Check(c, s, id, now);
      && o.admitted
      && Get(c, o.store, id) == Storage.Some((c.maxCapacity - 1) as real)
  {
    FullAfterPeriod(c, s[TokenKey(c.prefix, id)].value,
                    Storage.ValueOrZero(Storage.Get(s, StampKey(c.prefix, id))), now);
  }

  // ---------------------------------------------------------------------------
  // Repeated calls at one clock value

  /** The tally of `n` consecutive `check(id)` calls at the same clock value. */
  datatype Tally = Tally(admitted: nat, store: Storage.Store)

  function Burst(c: Config, s: Storage.Store, id: string, now: int, n: nat): (t: Tally)
    requires c.period != 0
    ensures t.admitted <= n
    decreases n
  {
    if n == 0 then Tally(0, s)
    else
      var o := Check(c, s, id, now);
      var rest := Burst(c, o.store, id, now, n - 1);
      Tally(rest.admitted + (if o.admitted then 1 else 0), rest.store)
  }

  function Min(a: int, b: int): int
  {
    if a <= b then a else b
  }

  /**
   * A bucket holding `m` whole tokens, stamped at `now`, admits exactly
   * `min(n, m)` of `n` calls at `now` and is left with the rest.
   */
  lemma {:induction false} DrainAtSameInstant(c: Config, s: Storage.Store, id: string, now: int, m: nat, n: nat)
    requires c.period != 0
    requires m <= c.maxCapacity
    requires Get(c, s, id) == Storage.Some(m as real)
    requires Storage.Get(s, StampKey(c.prefix, id)) == Storage.Some(now as real)
    ensures var t := Burst(c, s, id, now, n);
      && t.admitted == Min(n, m)
      && Get(c, t.store, id) == Storage.Some((m - Min(n, m)) as real)
      && Storage.Get(t.store, StampKey(c.prefix, id)) == Storage.Some(now as real)
  {
    if n > 0 {
      var o := Check(c, s, id, now);
      SameInstantCall(c, s, id, now);
      var m' := if m >= 1 then m - 1 else m;
      assert Get(c, o.store, id) == Storage.Some(m' as real);
      DrainAtSameInstant(c, o.store, id, now, m', n - 1);
    }
  }

  /**
   * Bucket exhaustion: of `n` calls at one clock value on an identifier with
   * no bucket, exactly `min(n, maxCapacity - 1)` are admitted, because the
   * first call consumes a token beyond the one set aside at creation.
   */
  lemma FreshBurst(c: Config, s: Storage.Store, id: string, now: int, n: nat)
    requires c.period != 0 && c.maxCapacity >= 1
    requires TokenKey(c.prefix, id) !in s
    ensures Burst(c, s, id, now, n).admitted == Min(n, c.maxCapacity - 1)
  {
    if n > 0 {
      var o := Check(c, s, id, now);
      FirstCall(c, s, id, now);
      var m: nat := if o.admitted then c.maxCapacity - 2 else c.maxCapacity - 1;
      DrainAtSameInstant(c, o.store, id, now, m, n - 1);
    }
  }

  /**
   * With `maxCapacity = 5` and `period = 10`, five calls at time 0 on a fresh
   * identifier admit four and deny the fifth; a call at time 10 is admitted
   * again and leaves 4 tokens.
   */
  lemma FiveInTenScenario(prefix: string, id: string)
    ensures var c := Config(prefix, 5, 10);
      var t := Burst(c, map[], id, 0, 5);
      var o := Check(c, t.store, id, 10);
      && t.admitted == 4
      && !Check(c, Burst(c, map[], id, 0, 4).store, id, 0).admitted
      && o.admitted
      && Get(c, o.store, id) == Storage.Some(4.0)
  {
    var c := Config(prefix, 5, 10);
    FreshBurst(c, map[], id, 0, 5);
    FirstCall(c, map[], id, 0);
    var first := Check(c, map[], id, 0);
    DrainAtSameInstant(c, first.store, id, 0, 3, 3);
    assert Burst(c, map[], id, 0, 4).store == Burst(c, first.store, id, 0, 3).store;
    var drained := Burst(c, first.store, id, 0, 3).store;
    SameInstantCall(c, drained, id, 0);
    DrainAtSameInstant(c, first.store, id, 0, 3, 4);
    var t := Burst(c, map[], id, 0, 5);
    assert t.store == Burst(c, first.store, id, 0, 4).store;
    AdmittedAfterIdlePeriod(c, t.store, id, 10);
  }

  // ---------------------------------------------------------------------------
  // del, get, headers

  /** `del` removes the token key only; the timestamp key stays. */
  lemma DelKeepsStamp(c: Config, s: Storage.Store, id: string)
    ensures var d := Storage.Del(s, TokenKey(c.prefix, id));
      && Get(c, d, id) == Storage.None
      && Storage.Get(d, StampKey(c.prefix, id)) == Storage.Get(s, StampKey(c.prefix, id))
  {
  }

  /** `del` followed by `check` behaves as the first call for that identifier. */
  lemma CheckAfterDel(c: Config, s: Storage.Store, id: string, now: int)
    requires c.period != 0
    ensures var o := Check(c, Storage.Del(s, TokenKey(c.prefix, id)), id, now);
      && (o.admitted <==> c.maxCapacity >= 2)
      && Get(c, o.store, id) == Storage.Some(if o.admitted then (c.maxCapacity - 2) as real else (c.maxCapacity - 1) as real)
  {
    FirstCall(c, Storage.Del(s, TokenKey(c.prefix, id)), id, now);
  }

  /**
   * After a `check` at `now`, `headers` reports the limit, the stored count
   * and a reset time of `now + period`, which is not before `now`.
   */
  lemma HeadersAfterCheck(c: Config, s: Storage.Store, id: string, now: int)
    requires c.period > 0
    ensures var o := Check(c, s, id, now);
      var h := Headers(c, o.store, id);
      && h.limit == c.maxCapacity
      && h.remaining == Storage.Some(o.store[TokenKey(c.prefix, id)].value)
      && h.reset == (now + c.period) as real
      && h.reset >= now as real
  {
  }

  /**
   * A `check` on `id` leaves `get` and `headers` of every identifier whose two
   * keys are distinct from those of `id` as they were.
   */
  lemma CheckLeavesOthers(c: Config, s: Storage.Store, id: string, other: string, now: int)
    requires c.period != 0
    requires TokenKey(c.prefix, other) !in {TokenKey(c.prefix, id), StampKey(c.prefix, id)}
    requires StampKey(c.prefix, other) !in {TokenKey(c.prefix, id), StampKey(c.prefix, id)}
    ensures var o := Check(c, s, id, now);
      && Get(c, o.store, other) == Get(c, s, other)
      && Headers(c, o.store, other) == Headers(c, s, other)
  {
  }

  /**
   * Because the key scheme is not injective, a `check` on `id` overwrites what
   * `get` reports for the identifier `id + "last_check"`: the clock value.
   */
  lemma CheckOverwritesSuffixedId(c: Config, s: Storage.Store, id: string, now: int)
    requires c.period != 0
    ensures Get(c, Check(c, s, id, now).store, id + StampSuffix) == Storage.Some(now as real)
  {
    StampKeyIsTokenKeyOfSuffixedId(c.prefix, id);
  }
}

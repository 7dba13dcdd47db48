/**
 * The token-bucket accounting of the rate limiter, as functions of the
 * configuration and the contents of the store. A bucket is two stored
 * scalars: the fractional token count under `prefix + identifier`, and the
 * time of the last accounting update under `prefix + identifier +
 * "last_check"`. `Check` is the specification that the `check` method of
 * `Limiter.RateLimiter` is proved against; `Get` and `Headers` are the
 * read-only queries.
 */
module TokenBucket {
  import Storage

  const DefaultPrefix := "rate_limit_"
  const StampSuffix := "last_check"

  /** The limiter's configuration: key prefix, bucket size, refill period (seconds). */
  datatype Config = Config(prefix: string, maxCapacity: int, period: int)

  /** The result of one `check` call: the admission decision and the new store. */
  datatype Outcome = Outcome(admitted: bool, store: Storage.Store)

  /** The response metadata of `headers`. */
  datatype RateLimitHeaders = RateLimitHeaders(limit: int, remaining: Storage.Option<real>, reset: real)

  // ---------------------------------------------------------------------------
  // Key derivation

  /** The key holding the token count: the prefix followed by the identifier. */
  function TokenKey(prefix: string, id: string): (k: string)
    ensures |k| == |prefix| + |id|
    ensures k[..|prefix|] == prefix && k[|prefix|..] == id
  {
    prefix + id
  }

  /** The key holding the last accounting time: the token key followed by "last_check". */
  function StampKey(prefix: string, id: string): (k: string)
    ensures |k| == |TokenKey(prefix, id)| + |StampSuffix|
    ensures k[..|TokenKey(prefix, id)|] == TokenKey(prefix, id)
    ensures k[|TokenKey(prefix, id)|..] == StampSuffix
    ensures k != TokenKey(prefix, id)
  {
    TokenKey(prefix, id) + StampSuffix
  }

  /**
   * The key scheme is not injective across identifiers: the timestamp key of
   * `id` is the token key of `id + "last_check"`.
   */
  lemma {:induction false} StampKeyIsTokenKeyOfSuffixedId(prefix: string, id: string)
    ensures StampKey(prefix, id) == TokenKey(prefix, id + StampSuffix)
    ensures TokenKey(prefix, id + StampSuffix) != TokenKey(prefix, id)
  {
    assert (prefix + id) + StampSuffix == prefix + (id + StampSuffix);
  }

  /** `hasBucket(key)`: the token key holds a value. */
  function HasBucket(s: Storage.Store, key: string): (b: bool)
    ensures b <==> Storage.Get(s, key) != Storage.None
  {
    key in s
  }

  // ---------------------------------------------------------------------------
  // Refill

  /** Tokens added per second: `maxCapacity / period`. */
  function Rate(c: Config): real
    requires c.period != 0
  {
    c.maxCapacity as real / c.period as real
  }

  /**
   * The refilled amount: the current tokens plus the elapsed time times the
   * rate, cut down to `maxCapacity` when it exceeds it. Nothing bounds the
   * elapsed time from below.
   */
  function Refill(c: Config, current: real, lastCheck: real, now: int): (r: real)
    requires c.period != 0
    ensures r <= c.maxCapacity as real
    ensures r <= current + (now as real - lastCheck) * Rate(c)
    ensures r == c.maxCapacity as real || r == current + (now as real - lastCheck) * Rate(c)
  {
    var bucket := current + (now as real - lastCheck) * Rate(c);
    if bucket > c.maxCapacity as real then c.maxCapacity as real else bucket
  }

  /**
   * The amount `check` compares with 1: the refill of the stored bucket, or,
   * when no bucket exists, the refill of the one just created, which is
   * `maxCapacity - 1` because no time has elapsed since its creation.
   */
  function Refilled(c: Config, s: Storage.Store, id: string, now: int): real
    requires c.period != 0
  {
    var tk := TokenKey(c.prefix, id);
    if tk in s then
      Refill(c, s[tk].value, Storage.ValueOrZero(Storage.Get(s, StampKey(c.prefix, id))), now)
    else
      (c.maxCapacity - 1) as real
  }

  // ---------------------------------------------------------------------------
  // check

  /**
   * One `check(id)` call at clock value `now`: creates the bucket when the
   * token key is absent, always stamps `last_check := now`, and writes
   * `refilled - 1` back only when the refilled amount is at least 1. Every
   * write carries TTL `period`; no key other than the bucket's two is touched.
   */
  function Check(c: Config, s: Storage.Store, id: string, now: int): (o: Outcome)
    requires c.period != 0
    ensures o.admitted <==> Refilled(c, s, id, now) >= 1.0
    ensures Storage.Get(o.store, StampKey(c.prefix, id)) == Storage.Some(now as real)
    ensures o.store[StampKey(c.prefix, id)].ttl == c.period
    ensures TokenKey(c.prefix, id) in o.store
    ensures o.admitted ==>
              o.store[TokenKey(c.prefix, id)] == Storage.Entry(Refilled(c, s, id, now) - 1.0, c.period)
    ensures !o.admitted && TokenKey(c.prefix, id) in s ==>
              o.store[TokenKey(c.prefix, id)] == s[TokenKey(c.prefix, id)]
    ensures !o.admitted && TokenKey(c.prefix, id) !in s ==>
              o.store[TokenKey(c.prefix, id)] == Storage.Entry((c.maxCapacity - 1) as real, c.period)
    ensures o.store.Keys == s.Keys + {TokenKey(c.prefix, id), StampKey(c.prefix, id)}
    ensures forall k :: k != TokenKey(c.prefix, id) && k != StampKey(c.prefix, id) && k in s ==>
              o.store[k] == s[k]
  {
    var tk := TokenKey(c.prefix, id);
    var sk := StampKey(c.prefix, id);
    var amount := Refilled(c, s, id, now);
    var held := if tk in s then s else s[tk := Storage.Entry((c.maxCapacity - 1) as real, c.period)];
    var stamped := held[sk := Storage.Entry(now as real, c.period)];
    if amount >= 1.0 then
      Outcome(true, stamped[tk := Storage.Entry(amount - 1.0, c.period)])
    else
      Outcome(false, stamped)
  }

  // ---------------------------------------------------------------------------
  // Read-only queries

  /** `get(id)`: the stored token count of the identifier's bucket, if any. */
  function Get(c: Config, s: Storage.Store, id: string): (r: Storage.Option<real>)
    ensures r.Some? <==> TokenKey(c.prefix, id) in s
    ensures r.Some? ==> r.value == s[TokenKey(c.prefix, id)].value
  {
    Storage.Get(s, TokenKey(c.prefix, id))
  }

  /**
   * `headers(id)`: the limit, the remaining tokens as `get` reports them,
   * and the reset time `last_check + period` (an absent stamp counts as 0).
   */
  function Headers(c: Config, s: Storage.Store, id: string): (h: RateLimitHeaders)
    ensures h.limit == c.maxCapacity
    ensures h.remaining == Get(c, s, id)
    ensures StampKey(c.prefix, id) in s ==> h.reset == s[StampKey(c.prefix, id)].value + c.period as real
    ensures StampKey(c.prefix, id) !in s ==> h.reset == c.period as real
  {
    var lastCheck := Storage.ValueOrZero(Storage.Get(s, StampKey(c.prefix, id)));
    RateLimitHeaders(c.maxCapacity, Get(c, s, id), lastCheck + c.period as real)
  }
}

/**
 * The rate limiter object: its configuration fields and the store it reads
 * and writes. `check`, `createBucket` and `del` change the store through
 * successive `set`/`del` calls; `Check` is proved against the specification
 * `TokenBucket.Check`. The read-only `get` and `headers` are
 * `TokenBucket.Get` and `TokenBucket.Headers` applied to `Config()` and
 * `store`.
 */
module Limiter {
  import Storage
  import TokenBucket

  class RateLimiter {
    var prefix: string
    var maxCapacity: int
    var period: int
    var store: Storage.Store

    /** The configuration the accounting functions are evaluated under. */
    function Config(): TokenBucket.Config
      reads this
    {
      TokenBucket.Config(prefix, maxCapacity, period)
    }

    /** `getPrefix()`: the configured key prefix. */
    function GetPrefix(): (p: string)
      reads this
      ensures p == Config().prefix
    {
      prefix
    }

    /**
     * A limiter over the given store, with the default prefix and the
     * given capacity and period.
     */
    constructor (storage: Storage.Store, maxCapacity: int, period: int)
      ensures prefix == TokenBucket.DefaultPrefix
      ensures this.maxCapacity == maxCapacity && this.period == period
      ensures store == storage
    {
      prefix := TokenBucket.DefaultPrefix;
      this.maxCapacity := maxCapacity;
      this.period := period;
      store := storage;
    }

    /** `setStorage(storage)`: replaces the backend the limiter reads and writes. */
    method SetStorage(storage: Storage.Store)
      modifies this`store
      ensures store == storage
    {
      store := storage;
    }

    /** `setPrefix(prefix)`: later keys are derived from the new prefix. */
    method SetPrefix(p: string)
      modifies this`prefix
      ensures GetPrefix() == p
      ensures Config() == old(Config()).(prefix := p)
    {
      prefix := p;
    }

    /** `setMaxCapacity(maxCapacity)`. */
    method SetMaxCapacity(n: int)
      modifies this`maxCapacity
      ensures Config() == old(Config()).(maxCapacity := n)
    {
      maxCapacity := n;
    }

    /** `setPeriod(period)`. */
    method SetPeriod(n: int)
      modifies this`period
      ensures Config() == old(Config()).(period := n)
    {
      period := n;
    }

    /**
     * `createBucket(key)`: stamps `key + "last_check"` with the clock value,
     * then sets `key` to `maxCapacity - 1`, both with TTL `period`; no other
     * key changes.
     */
    method CreateBucket(key: string, now: int)
      modifies this`store
      ensures store == old(store)[key + TokenBucket.StampSuffix := Storage.Entry(now as real, period)]
                                 [key := Storage.Entry((maxCapacity - 1) as real, period)]
      ensures Storage.Get(store, key + TokenBucket.StampSuffix) == Storage.Some(now as real)
      ensures Storage.Get(store, key) == Storage.Some((maxCapacity - 1) as real)
      ensures store[key].ttl == period && store[key + TokenBucket.StampSuffix].ttl == period
      ensures store.Keys == old(store).Keys + {key, key + TokenBucket.StampSuffix}
      ensures forall k :: k != key && k != key + TokenBucket.StampSuffix && k in old(store) ==>
                store[k] == old(store)[k]
    {
      store := Storage.Set(store, key + TokenBucket.StampSuffix, now as real, period);
      store := Storage.Set(store, key, (maxCapacity - 1) as real, period);
    }

    /**
     * `check(id)` at clock value `now`: the admission decision and the new
     * store are those of `TokenBucket.Check` on the configuration and the
     * store before the call.
     */
    method Check(id: string, now: int) returns (admitted: bool)
      requires period != 0
      modifies this`store
      ensures admitted == TokenBucket.Check(Config(), old(store), id, now).admitted
      ensures store == TokenBucket.Check(Config(), old(store), id, now).store
    {
      var key := TokenBucket.TokenKey(GetPrefix(), id);
      ghost var s0, sk := store, TokenBucket.StampKey(prefix, id);
      ghost var amount := TokenBucket.Refilled(Config(), s0, id, now);
      ghost var held := if key in s0 then s0
                        else s0[key := Storage.Entry((maxCapacity - 1) as real, period)];
      assert sk == key + TokenBucket.StampSuffix;
      if !TokenBucket.HasBucket(store, key) {
        CreateBucket(key, now);
        assert store[sk := Storage.Entry(now as real, period)] == held[sk := Storage.Entry(now as real, period)];
      }
      var lastCheck := Storage.ValueOrZero(Storage.Get(store, key + TokenBucket.StampSuffix));
      var rate := maxCapacity as real / period as real;
      var elapsed := now as real - lastCheck;
      var tokensToAdd := elapsed * rate;
      var currentAmount := Storage.ValueOrZero(Storage.Get(store, key));
      var bucket := currentAmount + tokensToAdd;
      bucket := if bucket > maxCapacity as real then maxCapacity as real else bucket;
      if key in s0 {
        assert store == s0;
        assert currentAmount == s0[key].value;
        assert rate == TokenBucket.Rate(Config());
        assert bucket == TokenBucket.Refill(Config(), s0[key].value, lastCheck, now);
        assert lastCheck == Storage.ValueOrZero(Storage.Get(s0, sk));
      } else {
        assert lastCheck == now as real && currentAmount == (maxCapacity - 1) as real;
        assert elapsed == 0.0;
        assert tokensToAdd == 0.0 * rate;
      }
      assert bucket == amount;
      store := Storage.Set(store, key + TokenBucket.StampSuffix, now as real, period);
      assert store == held[sk := Storage.Entry(now as real, period)];

      if bucket < 1.0 {
        admitted := false;
        return;
      }

      store := Storage.Set(store, key, bucket - 1.0, period);
      admitted := true;
    }

    /** `del(id)`: removes the identifier's token key; its timestamp key stays. */
    method Del(id: string)
      modifies this`store
      ensures store == Storage.Del(old(store), TokenBucket.TokenKey(prefix, id))
      ensures Storage.Get(store, TokenBucket.StampKey(prefix, id)) ==
              Storage.Get(old(store), TokenBucket.StampKey(prefix, id))
    {
      store := Storage.Del(store, TokenBucket.TokenKey(GetPrefix(), id));
    }
  }
}

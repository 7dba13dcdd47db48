# SsiRateLimiter token bucket, in Dafny

A model of the admission logic of `Ssi\RateLimiter`, a per-identifier
token-bucket rate limiter. Each bucket is stored as two scalars in a
key-value store: the fractional token count under `prefix + identifier`,
and the time of the last accounting update under
`prefix + identifier + "last_check"`. A `check` call does several things:

- It creates the bucket lazily.
- It refills the bucket by `(now - last_check) * maxCapacity / period`, capped at `maxCapacity`.
- It always stamps `last_check := now`.
- It admits the call and stores `refilled - 1` when the refilled amount is at least 1.

Every write carries the time-to-live `period`.

Files:

- `storage.dfy`, module `Storage`: the store's `get`/`set`/`del` over an in-memory `map<string, Entry>`. An `Entry` is the value and the TTL it was written with.
- `token_bucket.dfy`, module `TokenBucket`: the configuration and key derivation. It also holds the refill, and `Check` as a function from the configuration and the store to the admission decision and the new store. The read-only `get` and `headers` live here too.
- `bucket_properties.dfy`, module `BucketProperties`: lemmas about `TokenBucket`.
- `rate_limiter.dfy`, module `Limiter`: the class `RateLimiter`. Its fields are `prefix`, `maxCapacity`, `period` and `store`. It has the setters, plus `CreateBucket`, `Check` and `Del`, which change `store` through successive `set`/`del` calls. `Check` is proved to produce exactly the decision and the store that `TokenBucket.Check` specifies.

The clock is the parameter `now`. The same value is used for the clock read in `createBucket` and the one in `check`.

Three behaviours of the code a reader may not expect:

- **First call.** After `createBucket` the code does not return. It falls through to the refill step with `last_check = now`, so the first call consumes a second token. It is admitted only when `maxCapacity >= 2`, and then leaves `maxCapacity - 2` tokens, not `maxCapacity - 1`. As a result, `n` calls at one instant on a fresh identifier admit `min(n, maxCapacity - 1)`, not `min(n, maxCapacity)` (`FreshBurst`, `FiveInTenScenario`).
- **Elapsed time.** Elapsed time is not clamped at zero. A clock value earlier than the stored stamp removes tokens (`NegativeElapsedDrains`).
- **Key collisions.** The key scheme is not injective. The stamp key of `id` is the token key of `id + "last_check"`, so a `check` on `id` overwrites what `get` reports for that other identifier (`StampKeyIsTokenKeyOfSuffixedId`, `CheckOverwritesSuffixedId`).

## Model

| member | source | states |
|---|---|---|
| `Storage.Get` | src/IStorage.php:7 | returns a value exactly when the key is stored, and then the stored value |
| `Storage.Set` | src/IStorage.php:12 | afterwards the key holds the value with the given TTL; the key set grows by that key only; every other entry is unchanged |
| `Storage.Del` | src/IStorage.php:13 | afterwards the key is absent; only that key leaves the key set; every other entry is unchanged |
| `Storage.ValueOrZero` | src/RateLimiter.php:135-138 | an absent (null) stored value counts as 0 in the refill arithmetic, a present one as itself |
| `TokenBucket.TokenKey` | src/RateLimiter.php:130 | the token key is the prefix followed by the identifier |
| `TokenBucket.StampKey` | src/RateLimiter.php:135 | the timestamp key is the token key followed by "last_check", so it always differs from the token key |
| `TokenBucket.StampKeyIsTokenKeyOfSuffixedId` | src/RateLimiter.php:130-135 | the timestamp key of `id` equals the token key of `id + "last_check"`, which differs from the token key of `id` |
| `TokenBucket.HasBucket` | src/RateLimiter.php:156-159 | a bucket exists exactly when `get` of its token key is not absent |
| `TokenBucket.Refill` | src/RateLimiter.php:136-139 | the refilled amount never exceeds `maxCapacity` nor the uncapped sum `current + elapsed * maxCapacity / period`, and equals one of the two |
| `TokenBucket.Check` | src/RateLimiter.php:127-148 | admitted iff the refilled amount is at least 1; `last_check` becomes `now` with TTL `period` on every call; on admission the token key holds `refilled - 1` with TTL `period`; on denial it keeps its old entry, or `maxCapacity - 1` if the call created it; the key set gains only the bucket's two keys and no other entry changes |
| `TokenBucket.Get` | src/RateLimiter.php:165-169 | returns a value exactly when the identifier's token key is stored, and then its token count |
| `TokenBucket.Headers` | src/RateLimiter.php:185-195 | Limit is `maxCapacity`; Remaining is what `get` returns; Reset is the stored `last_check + period`, or `period` when no stamp is stored |
| `BucketProperties.RefillNotBelowCurrent` | src/RateLimiter.php:136-139 | with `period > 0` and non-negative elapsed time, a bucket within capacity does not shrink on refill |
| `BucketProperties.NegativeElapsedDrains` | src/RateLimiter.php:136 | with a clock value before the stored stamp, the refill is strictly below the current amount (no floor on elapsed time) |
| `BucketProperties.FullAfterPeriod` | src/RateLimiter.php:136-139 | a non-negative bucket refills to exactly `maxCapacity` once at least `period` seconds have elapsed |
| `BucketProperties.FirstCall` | src/RateLimiter.php:131-146 | with no bucket, the call is admitted iff `maxCapacity >= 2`; it leaves `maxCapacity - 2` tokens when admitted and `maxCapacity - 1` when denied, with `last_check = now` |
| `BucketProperties.AdmittedRange` | src/RateLimiter.php:138-147 | an admitted call leaves a token count in `[0, maxCapacity - 1]` |
| `BucketProperties.CheckPreservesRange` | src/RateLimiter.php:131-147 | with `maxCapacity >= 1`, if the stored tokens lie in `[0, maxCapacity]`, they still do after a `check` at any clock value, earlier ones included, whether admitted or denied |
| `BucketProperties.SameInstantCall` | src/RateLimiter.php:136-147 | at the stamped instant the refill equals the stored count; the call is admitted iff it is at least 1, and an admission lowers it by exactly 1 |
| `BucketProperties.AdmittedAfterIdlePeriod` | src/RateLimiter.php:136-146 | once `period` seconds have passed since the stamp, a bucket with a non-negative count admits the call and stores `maxCapacity - 1` |
| `BucketProperties.Burst` | src/RateLimiter.php:127-148 | the definition of `n` successive `check` calls at one instant, counting the admissions; its contract only bounds that count by `n` (the exact count is in `DrainAtSameInstant` and `FreshBurst`) |
| `BucketProperties.DrainAtSameInstant` | src/RateLimiter.php:136-147 | a bucket holding `m <= maxCapacity` whole tokens, stamped `now`, admits exactly `min(n, m)` of `n` calls at `now` and keeps `m - min(n, m)` |
| `BucketProperties.FreshBurst` | src/RateLimiter.php:131-154 | with `maxCapacity >= 1`, `n` calls at one instant on an identifier without a bucket admit exactly `min(n, maxCapacity - 1)` |
| `BucketProperties.FiveInTenScenario` | src/RateLimiter.php:127-154 | with capacity 5 and period 10, five calls at time 0 admit four and deny the fifth; a call at time 10 is admitted and leaves 4 tokens |
| `BucketProperties.DelKeepsStamp` | src/RateLimiter.php:175-179 | after `del`, `get` reports no bucket and the `last_check` entry is as before |
| `BucketProperties.CheckAfterDel` | src/RateLimiter.php:127-179 | `del` then `check` behaves as a first call: admitted iff `maxCapacity >= 2`, leaving `maxCapacity - 2` or `maxCapacity - 1` tokens |
| `BucketProperties.HeadersAfterCheck` | src/RateLimiter.php:185-195 | after a `check` at `now`, `headers` gives Limit `maxCapacity`, Remaining the stored count, and Reset `now + period`, which is not before `now` |
| `BucketProperties.CheckLeavesOthers` | src/RateLimiter.php:130-146 | a `check` on one identifier leaves `get` and `headers` unchanged for every identifier whose two keys differ from its own |
| `BucketProperties.CheckOverwritesSuffixedId` | src/RateLimiter.php:130-140 | after a `check` on `id` at `now`, `get(id + "last_check")` reports `now` |
| `Limiter.RateLimiter.constructor` | src/RateLimiter.php:20-33 | a limiter with the default prefix "rate_limit_", the given capacity, period and store |
| `Limiter.RateLimiter.GetPrefix` | src/RateLimiter.php:53-56 | returns the prefix of the configuration the keys are derived from |
| `Limiter.RateLimiter.SetStorage` | src/RateLimiter.php:39-43 | the limiter reads and writes the given store afterwards |
| `Limiter.RateLimiter.SetPrefix` | src/RateLimiter.php:53-66 | `GetPrefix()` (getPrefix) returns the new prefix; capacity and period are unchanged |
| `Limiter.RateLimiter.SetMaxCapacity` | src/RateLimiter.php:72-76 | only the capacity changes, to the given value |
| `Limiter.RateLimiter.SetPeriod` | src/RateLimiter.php:82-86 | only the period changes, to the given value |
| `Limiter.RateLimiter.CreateBucket` | src/RateLimiter.php:150-154 | stamps `key + "last_check"` with `now` and sets `key` to `maxCapacity - 1`, both with TTL `period`; no other key changes |
| `Limiter.RateLimiter.Check` | src/RateLimiter.php:127-148 | the step-by-step `get`/`set` sequence returns exactly the decision and leaves exactly the store that `TokenBucket.Check` gives for the configuration and the store before the call |
| `Limiter.RateLimiter.Del` | src/RateLimiter.php:175-179 | removes the identifier's token key only; the `last_check` entry is unchanged |

## Left out

- Limiter.RateLimiter.Check: requires `period != 0`. With a zero period the source raises a division-by-zero error after the bucket may already have been created; that error path is not modelled. Lemmas that need a non-negative refill rate require `period > 0`.
- TokenBucket.Get: returns the stored value as a real, or `None`. The source declares an `int` return, and PHP coerces the stored string or raises a type error on absence; that coercion is not modelled.
- TokenBucket.Headers: Remaining and Reset are reals. PHP's integer/float juggling of the values the backend returns is not modelled.
- Limiter.RateLimiter.constructor: the source constructor instantiates the networked Redis adapter and leaves `maxCapacity` and `period` uninitialised until their setters run. The model instead takes the store and both values as parameters.
- `checkConnection` and the Redis adapter (`src/RedisStorage.php`: connection set-up, `setex` versus `set` by TTL sign) are network calls. The store is an in-memory map that records each write's TTL.
- Expiry by the backend is not modelled: entries never disappear on their own. An expired bucket behaves like a deleted one, which `FirstCall` and `CheckAfterDel` cover.
- Absence in the store is `None`, matching the `!== null` test in `hasBucket` (src/RateLimiter.php:158). The only store in the source, `RedisStorage::get` (src/RedisStorage.php:43-46), returns the Redis client's `get`, which reports a missing key as `false`. With that store `hasBucket` is always true and `createBucket` never runs. The first-call behaviour in `FirstCall`, `FreshBurst`, `CheckAfterDel` and `FiveInTenScenario` is therefore what happens with a store that returns null for a missing key.
- `checkIP`, `checkCookieOrIP`, `getCookieOrIPKey` and `useCookie` read the request's IP address or session cookie and only delegate to `check`. The unused `options` defaults for capacity and period are left out as well.
- `getStorage` is left out: it only returns the store, which the model exposes as the field `store`.
- Concurrent callers racing on the read-then-write of `check` are not modelled; the model is single-threaded.
- Floating-point rounding of `maxCapacity / period` is not modelled; the arithmetic is exact over `real`.
- The two clock reads, one in `createBucket` and one in `check`, are taken to return the same `now`.

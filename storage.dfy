/**
 * The key-value capability the rate limiter depends on: `get`, `set` with a
 * time-to-live, and `del`. The backend is modelled as an in-memory map from
 * key to the scalar last written and the TTL it was written with; expiry by
 * the backend is not modelled, so an entry stays until it is overwritten or
 * deleted.
 */
module Storage {

  datatype Option<T> = None | Some(value: T)

  /** A stored scalar and the time-to-live, in seconds, it was written with. */
  datatype Entry = Entry(value: real, ttl: int)

  type Store = map<string, Entry>

  /** `get(key)`: the stored scalar, or `None` when the key is absent. */
  function Get(s: Store, key: string): (r: Option<real>)
    ensures r.Some? <==> key in s
    ensures r.Some? ==> r.value == s[key].value
  {
    if key in s then Some(s[key].value) else None
  }

  /** `set(key, value, ttl)`: overwrites the entry under `key`, value and TTL both. */
  function Set(s: Store, key: string, value: real, ttl: int): (r: Store)
    ensures Get(r, key) == Some(value) && r[key].ttl == ttl
    ensures r.Keys == s.Keys + {key}
    ensures forall k :: k != key && k in s ==> r[k] == s[k]
  {
    s[key := Entry(value, ttl)]
  }

  /** `del(key)`: removes `key` if present; a no-op otherwise. */
  function Del(s: Store, key: string): (r: Store)
    ensures Get(r, key) == None
    ensures r.Keys == s.Keys - {key}
    ensures forall k :: k != key && k in s ==> r[k] == s[k]
  {
    s - {key}
  }

  /**
   * The number an optional stored scalar contributes to arithmetic: an
   * absent value (null) counts as 0.
   */
  function ValueOrZero(o: Option<real>): (x: real)
    ensures o.None? ==> x == 0.0
    ensures o.Some? ==> x == o.value
  {
    match o
    case Some(v) => v
    case None => 0.0
  }
}

/**
 * The key/value store behind the cache (a Redis client in the original),
 * reduced to its key space. Each entry holds the JSON text of a value, kept
 * here as the value itself (parsing what was stringified gives it back), and
 * the expiry option it was written with.
 */
module Store {
  import opened Wrappers
  import opened Json

  /**
   * How one call of the cache manager reaches the store: the client was
   * obtained and the command succeeded, `getClient()` gave no client, or the
   * client or the command raised an error with the given message.
   */
  datatype Access = Served | NoClient | Failed(message: string)

  /** An expiry option `{ [mode]: amount }`, e.g. `{ EX: 30 }`. */
  datatype Expiry = Expiry(mode: string, amount: int)

  datatype Entry = Entry(data: Value, expiry: Option<Expiry>)

  /**
   * Whether the store accepts a write with this expiry option: Redis refuses
   * a `SET` whose expiry time is not positive.
   */
  predicate Accepted(e: Option<Expiry>) {
    e.None? || e.value.amount > 0
  }

  /**
   * The store's own expiry of one key, the only effect of the clock in this
   * model: a key written with an expiry option may disappear, one written
   * without never does.
   */
  function ExpireKey(entries: map<string, Entry>, key: string): (r: map<string, Entry>)
    ensures forall k :: k in r <==> k in entries && (k != key || entries[k].expiry.None?)
    ensures forall k :: k in r ==> r[k] == entries[k]
  {
    if key in entries && entries[key].expiry.Some? then entries - {key} else entries
  }

  class RedisStore {
    var entries: map<string, Entry>

    constructor (initial: map<string, Entry>)
      ensures entries == initial
    {
      entries := initial;
    }

    /** The expiry time of `key` has passed. */
    method Expire(key: string)
      modifies this
      ensures entries == ExpireKey(old(entries), key)
    {
      if key in entries && entries[key].expiry.Some? {
        entries := entries - {key};
      }
    }
  }
}

/**
 * The cache manager: a thin layer over the store that tracks freshness with
 * a separate marker key `TTL:<key>`. Every store error is reported at error
 * level and turned into "absent" (reads) or swallowed (writes).
 *
 * The first half gives each operation's effect as a function of the store it
 * starts from; the class `CacheManager` performs the operations on a store
 * object and is proved to have exactly those effects.
 */
module Cache {
  import opened Wrappers
  import opened Json
  import opened Keys
  import opened Reporting
  import opened Store

  /** The `Veera-Middleware` tag of the cache manager's reports (`CacheManager.name`). */
  const ManagerName := "CacheManager"

  /** The message thrown when `getClient()` yields no client. */
  const ClientMissing := "Redis client not available."

  /** The report that a failed store access leads to. */
  function AccessReports(a: Access): (rs: seq<Report>)
    ensures a.Served? ==> rs == []
    ensures a.NoClient? ==> rs == [Report(ClientMissing, Tags(ManagerName), Error)]
    ensures a.Failed? ==> rs == [Report(a.message, Tags(ManagerName), Error)]
  {
    match a
    case Served => []
    case NoClient => [Report(ClientMissing, Tags(ManagerName), Error)]
    case Failed(message) => [Report(message, Tags(ManagerName), Error)]
  }

  /** What `getKey(key)` returns. */
  function GetKeyResult(entries: map<string, Entry>, key: string, a: Access): (v: Value)
    ensures !a.Served? || key !in entries ==> v == Null
    ensures key in entries && entries[key].data.Undefined? ==> v == Null
    ensures a.Served? && key in entries && !entries[key].data.Undefined? ==> v == entries[key].data
  {
    // `value ? JSON.parse(value) : null`, where value is the stored JSON text
    if a.Served? && key in entries && Stringify(entries[key].data).Some? then entries[key].data else Null
  }

  /** The expiry option of a write: only when both `mode` and `duration` are truthy. */
  function ExpiryOf(mode: Option<string>, duration: Option<int>): (e: Option<Expiry>)
    ensures e.Some? <==> TruthyText(mode) && TruthyNumber(duration)
    ensures e.Some? ==> e.value == Expiry(mode.value, duration.value)
  {
    if TruthyText(mode) && TruthyNumber(duration) then Some(Expiry(mode.value, duration.value)) else None
  }

  /** Whether `setKey(key, value, mode, duration)` reaches the store and the store takes the write. */
  predicate Written(mode: Option<string>, duration: Option<int>, a: Access) {
    a.Served? && Accepted(ExpiryOf(mode, duration))
  }

  /**
   * The store after `setKey(key, value, mode, duration)`. A write the store
   * refuses (a non-positive expiry) leaves it unchanged.
   */
  function SetKeyResult(entries: map<string, Entry>, key: string, v: Value,
                        mode: Option<string>, duration: Option<int>, a: Access): (r: map<string, Entry>)
    ensures !Written(mode, duration, a) ==> r == entries
    ensures Written(mode, duration, a) ==> key in r && r[key] == Entry(v, ExpiryOf(mode, duration))
    ensures forall k :: k != key ==> (k in r <==> k in entries)
    ensures forall k :: k != key && k in r ==> r[k] == entries[k]
  {
    if Written(mode, duration, a) then entries[key := Entry(v, ExpiryOf(mode, duration))] else entries
  }

  /** Whether `keyExists(TTL:<key>)` reports the marker of key. */
  predicate Marked(entries: map<string, Entry>, key: string, aMarker: Access) {
    aMarker.Served? && TtlKey(key) in entries
  }

  /**
   * What `getCachedDataIfExist(key)` returns: the stored value only while its
   * marker exists; without the marker the value is not read at all.
   */
  function FreshData(entries: map<string, Entry>, key: string, aMarker: Access, aValue: Access): (v: Value)
    ensures !Marked(entries, key, aMarker) ==> v == Null
    ensures v != Null ==> TtlKey(key) in entries && key in entries && v == entries[key].data
    ensures Marked(entries, key, aMarker) ==> v == GetKeyResult(entries, key, aValue)
  {
    if Marked(entries, key, aMarker) then GetKeyResult(entries, key, aValue) else Null
  }

  /** The reports of `getCachedDataIfExist(key)`: the marker check's, then the read's if it happened. */
  function FreshDataReports(entries: map<string, Entry>, key: string, aMarker: Access, aValue: Access): (rs: seq<Report>)
    ensures !Marked(entries, key, aMarker) ==> rs == AccessReports(aMarker)
    ensures Marked(entries, key, aMarker) ==> rs == AccessReports(aValue)
  {
    AccessReports(aMarker) + (if Marked(entries, key, aMarker) then AccessReports(aValue) else [])
  }

  /** Whether the store takes a marker written with option `EX ttl`: no ttl, 0, or a positive one. */
  predicate TtlAccepted(ttl: Option<int>)
  {
    Accepted(ExpiryOf(Some("EX"), ttl))
  }

  /**
   * The store after `setCacheData(key, value, ttl)`: first the marker `true`
   * with option `EX ttl`, then the value with no expiry.
   */
  function SetCacheDataResult(entries: map<string, Entry>, key: string, v: Value, ttl: Option<int>,
                              aMarker: Access, aValue: Access): (r: map<string, Entry>)
    ensures aValue.Served? ==> key in r && r[key] == Entry(v, None)
    ensures aMarker.Served? && TtlAccepted(ttl) ==>
              TtlKey(key) in r && r[TtlKey(key)] == Entry(Bool(true), ExpiryOf(Some("EX"), ttl))
    ensures !aValue.Served? ==> (key in r <==> key in entries) && (key in r ==> r[key] == entries[key])
    ensures !aMarker.Served? || !TtlAccepted(ttl) ==>
              (TtlKey(key) in r <==> TtlKey(key) in entries) &&
              (TtlKey(key) in r ==> r[TtlKey(key)] == entries[TtlKey(key)])
    ensures forall k :: k != key && k != TtlKey(key) ==> (k in r <==> k in entries)
    ensures forall k :: k != key && k != TtlKey(key) && k in r ==> r[k] == entries[k]
  {
    var marked := SetKeyResult(entries, TtlKey(key), Bool(true), Some("EX"), ttl, aMarker);
    SetKeyResult(marked, key, v, None, None, aValue)
  }

  function SetCacheDataReports(aMarker: Access, aValue: Access): seq<Report> {
    AccessReports(aMarker) + AccessReports(aValue)
  }

  /** The store takes the marker exactly when the ttl is absent or not negative. */
  lemma TtlAcceptedIffNotNegative(ttl: Option<int>)
    ensures TtlAccepted(ttl) <==> ttl.None? || ttl.value >= 0
  {
  }

  /** A write followed by a read on a working store gives the value back, for any ttl the store takes. */
  lemma WriteThenReadFresh(entries: map<string, Entry>, key: string, v: Value, ttl: Option<int>)
    requires !v.Undefined? && TtlAccepted(ttl)
    ensures FreshData(SetCacheDataResult(entries, key, v, ttl, Served, Served), key, Served, Served) == v
    ensures FreshDataReports(SetCacheDataResult(entries, key, v, ttl, Served, Served), key, Served, Served) == []
  {
    var written := SetCacheDataResult(entries, key, v, ttl, Served, Served);
    assert Marked(written, key, Served);
  }

  /**
   * Once the marker of a value written with a ttl expires, the fresh read
   * misses but the stale read still finds the value, which itself never expires.
   */
  lemma ExpiredMarkerLeavesStaleValue(entries: map<string, Entry>, key: string, v: Value, ttl: Option<int>)
    requires !v.Undefined? && ttl.Some? && ttl.value > 0
    ensures var written := SetCacheDataResult(entries, key, v, ttl, Served, Served);
            var expired := ExpireKey(written, TtlKey(key));
            && FreshData(expired, key, Served, Served) == Null
            && GetKeyResult(expired, key, Served) == v
            && ExpireKey(written, key) == written
  {
    var written := SetCacheDataResult(entries, key, v, ttl, Served, Served);
    var expired := ExpireKey(written, TtlKey(key));
    assert !Marked(expired, key, Served);
    assert key in expired && expired[key] == written[key];
  }

  /**
   * A negative ttl makes the store refuse the marker while the value is still
   * written: with no marker before, the fresh read misses right away.
   */
  lemma RefusedTtlLeavesNoMarker(entries: map<string, Entry>, key: string, v: Value, ttl: Option<int>)
    requires !v.Undefined? && ttl.Some? && ttl.value < 0 && TtlKey(key) !in entries
    ensures var written := SetCacheDataResult(entries, key, v, ttl, Served, Served);
            && FreshData(written, key, Served, Served) == Null
            && GetKeyResult(written, key, Served) == v
  {
    var written := SetCacheDataResult(entries, key, v, ttl, Served, Served);
    assert !TtlAccepted(ttl);
    assert !Marked(written, key, Served);
  }

  /** With no ttl (undefined or 0) the marker is written without expiry and stays fresh. */
  lemma UntimedMarkerNeverExpires(entries: map<string, Entry>, key: string, v: Value, ttl: Option<int>)
    requires !TruthyNumber(ttl)
    ensures var written := SetCacheDataResult(entries, key, v, ttl, Served, Served);
            ExpireKey(written, TtlKey(key)) == written
  {
  }

  /**
   * The cache manager. `client` is the store that `getClient()` connects to,
   * `reporter` the static hook of `ProviderBase.Sentry`. The availability of
   * the store at each call is a parameter (`Access`).
   */
  class CacheManager {
    const client: RedisStore
    const reporter: Reporter

    constructor (client: RedisStore, reporter: Reporter)
      ensures this.client == client && this.reporter == reporter
    {
      this.client := client;
      this.reporter := reporter;
    }

    /** Report a caught store error at error level. */
    method ReportFailure(a: Access)
      requires !a.Served?
      modifies reporter`log
      ensures reporter.log == old(reporter.log) + reporter.Delivered(AccessReports(a))
    {
      var message := if a.NoClient? then ClientMissing else a.message;
      reporter.Sentry(message, Tags(ManagerName), Error);
    }

    /** `keyExists(key)`: true iff a client is there and the store holds key. */
    method KeyExists(key: string, a: Access) returns (exists_: bool)
      modifies reporter`log
      ensures exists_ <==> a.Served? && key in client.entries
      ensures reporter.log == old(reporter.log) + reporter.Delivered(AccessReports(a))
    {
      if a.Served? {
        exists_ := key in client.entries;
      } else {
        ReportFailure(a);
        exists_ := false;
      }
    }

    /**
     * `setKey(key, value, mode, duration)`: a missing client or a store error
     * is reported and swallowed. The `set` itself is not awaited, so the
     * store's refusal of a non-positive expiry is never seen, let alone reported.
     */
    method SetKey(key: string, v: Value, mode: Option<string>, duration: Option<int>, a: Access)
      modifies client, reporter`log
      ensures client.entries == SetKeyResult(old(client.entries), key, v, mode, duration, a)
      ensures reporter.log == old(reporter.log) + reporter.Delivered(AccessReports(a))
    {
      if a.Served? {
        if TruthyText(mode) && TruthyNumber(duration) {
          if duration.value > 0 {
            client.entries := client.entries[key := Entry(v, Some(Expiry(mode.value, duration.value)))];
          }
        } else {
          client.entries := client.entries[key := Entry(v, None)];
        }
      } else {
        ReportFailure(a);
      }
    }

    /** `getKey(key)`: the parsed value, or null when it is absent, empty or unreachable. */
    method GetKey(key: string, a: Access) returns (v: Value)
      modifies reporter`log
      ensures v == GetKeyResult(client.entries, key, a)
      ensures reporter.log == old(reporter.log) + reporter.Delivered(AccessReports(a))
    {
      if a.Served? {
        if key in client.entries && Stringify(client.entries[key].data).Some? {
          v := client.entries[key].data;
        } else {
          v := Null;
        }
      } else {
        ReportFailure(a);
        v := Null;
      }
    }

    /** `getCachedDataIfExist(key)`: the value only while its marker exists. */
    method GetCachedDataIfExist(key: string, aMarker: Access, aValue: Access) returns (data: Value)
      modifies reporter`log
      ensures data == FreshData(client.entries, key, aMarker, aValue)
      ensures reporter.log == old(reporter.log) + reporter.Delivered(FreshDataReports(client.entries, key, aMarker, aValue))
    {
      var ttlKey := TtlKey(key);
      var exists_ := KeyExists(ttlKey, aMarker);
      if exists_ {
        data := GetKey(key, aValue);
      } else {
        data := Null;
      }
    }

    /** `setCacheData(key, value, ttl)`: the marker with expiry `EX ttl`, then the value. */
    method SetCacheData(key: string, v: Value, ttl: Option<int>, aMarker: Access, aValue: Access)
      modifies client, reporter`log
      ensures client.entries == SetCacheDataResult(old(client.entries), key, v, ttl, aMarker, aValue)
      ensures reporter.log == old(reporter.log) + reporter.Delivered(SetCacheDataReports(aMarker, aValue))
    {
      var ttlKey := TtlKey(key);
      SetKey(ttlKey, Bool(true), Some("EX"), ttl, aMarker);
      SetKey(key, v, None, None, aValue);
    }
  }
}

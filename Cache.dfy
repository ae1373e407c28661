/**
 * The cache manager: a key/value store of cache entries keyed by the
 * lower-case hex SHA-256 of the raw request body, with an expiry check on
 * every read layered over the storage engine.
 *
 * The storage engine is a map from key to the record it holds; a record
 * left by an earlier process may fail to deserialize. Engine failures are
 * boolean parameters of the operation that meets them. Time is an integer
 * count of nanoseconds since the Unix epoch, the resolution of Go's clock.
 */
module Cache {

  import opened Wrappers
  import opened Hex

  /** A SHA-256 digest: 32 bytes. The hash itself is a parameter of the model. */
  type Digest = d: seq<byte> | |d| == 32 witness seq(32, _ => 0)

  /** Go's int64: the representation of time.Duration and of Unix seconds. */
  type int64 = x: int | -0x8000_0000_0000_0000 <= x < 0x8000_0000_0000_0000

  const NanosPerSecond: int := 1_000_000_000
  const NanosPerHour: int := 3600 * NanosPerSecond
  const NanosPerDay: int := 24 * NanosPerHour
  /** The largest day count whose TTL still fits in an int64 of nanoseconds. */
  const MaxTtlDays: int := 106751

  /** One unit of persistence: what was asked, what upstream answered, and when it was written. */
  datatype CacheEntry = CacheEntry(
    requestBody: seq<byte>,
    responseBody: seq<byte>,
    statusCode: int,
    timestamp: int)   // Unix seconds at write time

  /** What the engine holds under a key: a serialized entry, or bytes that no longer deserialize. */
  datatype Record = Stored(entry: CacheEntry) | Undecodable

  /** Two's-complement wrap-around of Go's signed 64-bit arithmetic. */
  function Wrap64(x: int): (r: int64)
    ensures (r - x) % 0x1_0000_0000_0000_0000 == 0
    ensures -0x8000_0000_0000_0000 <= x < 0x8000_0000_0000_0000 ==> r == x
  {
    (x + 0x8000_0000_0000_0000) % 0x1_0000_0000_0000_0000 - 0x8000_0000_0000_0000
  }

  /** `time.Duration(ttlDays) * 24 * time.Hour`, each product wrapping in int64. */
  function TtlNanos(ttlDays: int64): (ttl: int64)
    ensures 0 <= ttlDays <= MaxTtlDays ==> ttl == ttlDays * NanosPerDay
  {
    Wrap64(Wrap64(ttlDays * 24) * NanosPerHour)
  }

  /** `time.Time.Unix()`: whole seconds, rounded toward the past. */
  function UnixSeconds(nowNanos: int): (s: int)
    ensures s * NanosPerSecond <= nowNanos < s * NanosPerSecond + NanosPerSecond
  {
    nowNanos / NanosPerSecond
  }

  /** `time.Since(time.Unix(e.timestamp, 0)) > ttl`: strictly older than the TTL. */
  predicate IsExpired(e: CacheEntry, nowNanos: int, ttl: int) {
    nowNanos - e.timestamp * NanosPerSecond > ttl
  }

  /** The entry `Set` writes at time `nowNanos`. */
  function EntryAt(requestBody: seq<byte>, responseBody: seq<byte>, statusCode: int, nowNanos: int): (e: CacheEntry)
    ensures e.requestBody == requestBody && e.responseBody == responseBody && e.statusCode == statusCode
    ensures e.timestamp * NanosPerSecond <= nowNanos < e.timestamp * NanosPerSecond + NanosPerSecond
  {
    CacheEntry(requestBody, responseBody, statusCode, UnixSeconds(nowNanos))
  }

  /** The cache key: the lower-case hex of the digest of the raw request bytes. */
  function GenerateKey(hash: seq<byte> -> Digest, requestBody: seq<byte>): (key: string)
    ensures |key| == 64 && IsLowerHex(key)
    ensures Decode(key) == Some(hash(requestBody))
  {
    DecodeEncode(hash(requestBody));
    EncodeToString(hash(requestBody))
  }

  /** Equal keys come from equal digests: hex rendering loses nothing. */
  lemma GenerateKeyDigestInjective(hash: seq<byte> -> Digest, a: seq<byte>, b: seq<byte>)
    requires GenerateKey(hash, a) == GenerateKey(hash, b)
    ensures hash(a) == hash(b)
  {
  }

  /**
   * What a read of `key` at `nowNanos` finds: the entry when one is stored,
   * deserializes and is not expired; nothing otherwise.
   */
  function Lookup(store: map<string, Record>, key: string, nowNanos: int, ttl: int): (r: Option<CacheEntry>)
    ensures r.Some? <==> key in store && store[key].Stored? && !IsExpired(store[key].entry, nowNanos, ttl)
    ensures r.Some? ==> r.value == store[key].entry
  {
    if key in store && store[key].Stored? && !IsExpired(store[key].entry, nowNanos, ttl)
    then Some(store[key].entry) else None
  }

  /** A read of an entry that has outlived its TTL: the read deletes it. */
  predicate FindsExpired(store: map<string, Record>, key: string, nowNanos: int, ttl: int) {
    key in store && store[key].Stored? && IsExpired(store[key].entry, nowNanos, ttl)
  }

  /**
   * Round trip: an entry written at `t` is found at any `t2` no more than
   * `ttl` minus one second (less a nanosecond) later, with the response and
   * status that were written. The second of slack is the truncation of the
   * write time to whole seconds.
   */
  lemma SetThenLookup(store: map<string, Record>, key: string, req: seq<byte>, resp: seq<byte>,
                      statusCode: int, t: int, t2: int, ttl: int)
    requires t <= t2 && t2 - t <= ttl - (NanosPerSecond - 1)
    ensures Lookup(store[key := Stored(EntryAt(req, resp, statusCode, t))], key, t2, ttl) == Some(EntryAt(req, resp, statusCode, t))
    ensures Lookup(store[key := Stored(EntryAt(req, resp, statusCode, t))], key, t2, ttl).value.responseBody == resp
    ensures Lookup(store[key := Stored(EntryAt(req, resp, statusCode, t))], key, t2, ttl).value.statusCode == statusCode
  {
  }

  /**
   * When the write happens on a whole second the window is exact: found
   * precisely while no more than `ttl` nanoseconds have passed.
   */
  lemma WholeSecondWindow(e: CacheEntry, t: int, t2: int, ttl: int)
    requires t % NanosPerSecond == 0 && e.timestamp == UnixSeconds(t)
    ensures IsExpired(e, t2, ttl) <==> t2 - t > ttl
  {
  }

  /** Expiry: an entry written at `t` is never found after `t + ttl`. */
  lemma ExpiredAfterDeadline(e: CacheEntry, t: int, t2: int, ttl: int)
    requires e.timestamp == UnixSeconds(t) && t2 > t + ttl
    ensures IsExpired(e, t2, ttl)
  {
  }

  /** Outcome of the engine's value-log garbage collection. */
  datatype GcOutcome = GcDone | NoRewrite | GcFailed(reason: string)

  class CacheManager {
    /** The SHA-256 function the manager keys requests by. */
    const hash: seq<byte> -> Digest
    /** The TTL in nanoseconds. */
    const ttl: int
    /** False for a manager whose engine handle is nil. */
    const hasDb: bool
    /** The logical contents of the engine. */
    var store: map<string, Record>

    /**
     * A manager over an engine opened with `persisted` as its contents.
     * `NewCacheManager` is the way the program makes one.
     */
    constructor Open(persisted: map<string, Record>, ttlDays: int64, hash: seq<byte> -> Digest)
      ensures this.hash == hash && ttl == TtlNanos(ttlDays) && hasDb && store == persisted
    {
      this.hash := hash;
      ttl := TtlNanos(ttlDays);
      hasDb := true;
      store := persisted;
    }

    /** A manager whose engine handle is nil (the zero-valued struct). */
    constructor Nil(hash: seq<byte> -> Digest)
      ensures this.hash == hash && ttl == 0 && !hasDb && store == map[]
    {
      this.hash := hash;
      ttl := 0;
      hasDb := false;
      store := map[];
    }

    /**
     * `NewCacheManager`: open the engine, or report the failure to open it.
     */
    static method NewCacheManager(persisted: map<string, Record>, ttlDays: int64, hash: seq<byte> -> Digest, openFails: bool)
      returns (cm: CacheManager?, err: Option<string>)
      ensures openFails ==> cm == null && err.Some?
      ensures !openFails ==> err.None? && cm != null && fresh(cm)
      ensures cm != null ==> cm.hasDb && cm.hash == hash && cm.store == persisted && cm.ttl == TtlNanos(ttlDays)
    {
      if openFails {
        return null, Some("failed to open the cache database");
      }
      cm := new CacheManager.Open(persisted, ttlDays, hash);
      err := None;
    }

    /** `Close`: a nil engine handle is success without action; otherwise the engine's own close result. */
    method Close(closeFails: bool) returns (err: Option<string>)
      ensures !hasDb ==> err.None?
      ensures hasDb ==> (err.Some? <==> closeFails)
    {
      if hasDb {
        err := if closeFails then Some("failed to close the cache database") else None;
      } else {
        err := None;
      }
    }

    /**
     * `Get`: a missing key, a failed read or an undecodable record is a
     * miss that changes nothing; an expired entry is a miss that deletes
     * the key (unless that delete fails); a fresh entry is a hit.
     */
    method Get(key: string, nowNanos: int, readFails: bool, deleteFails: bool) returns (entry: Option<CacheEntry>)
      requires hasDb
      modifies this
      ensures entry == (if readFails then None else Lookup(old(store), key, nowNanos, ttl))
      ensures store == (if !readFails && !deleteFails && FindsExpired(old(store), key, nowNanos, ttl)
                        then old(store) - {key} else old(store))
    {
      if readFails || key !in store || store[key].Undecodable? {
        return None;
      }
      var e := store[key].entry;
      if nowNanos - e.timestamp * NanosPerSecond > ttl {
        var _ := Delete(key, deleteFails);
        return None;
      }
      entry := Some(e);
    }

    /**
     * `Set`: write the entry stamped with the current Unix second,
     * replacing whatever the key held; a failed write changes nothing and
     * is reported.
     */
    method Set(key: string, requestBody: seq<byte>, responseBody: seq<byte>, statusCode: int,
               nowNanos: int, writeFails: bool) returns (err: Option<string>)
      requires hasDb
      modifies this
      ensures err.Some? <==> writeFails
      ensures store == (if writeFails then old(store)
                        else old(store)[key := Stored(EntryAt(requestBody, responseBody, statusCode, nowNanos))])
    {
      if writeFails {
        return Some("failed to set the cache entry");
      }
      store := store[key := Stored(CacheEntry(requestBody, responseBody, statusCode, UnixSeconds(nowNanos)))];
      err := None;
    }

    /** `Delete`: an absent key is success; a failed delete changes nothing and is reported. */
    method Delete(key: string, deleteFails: bool) returns (err: Option<string>)
      requires hasDb
      modifies this
      ensures err.Some? <==> deleteFails
      ensures store == (if deleteFails then old(store) else old(store) - {key})
    {
      if deleteFails {
        return Some("failed to delete the cache entry");
      }
      store := store - {key};
      err := None;
    }

    /**
     * `RunGC`: the engine reporting that there was nothing to rewrite is
     * success; any other collection failure is returned. Collection does not
     * change the logical contents.
     */
    method RunGC(outcome: GcOutcome) returns (err: Option<string>)
      requires hasDb
      ensures err.None? <==> !outcome.GcFailed?
      ensures outcome.GcFailed? ==> err == Some(outcome.reason)
    {
      match outcome {
        case GcFailed(reason) => err := Some(reason);
        case _ => err := None;
      }
    }
  }

  /** After a successful `Set`, a read of the same key within the window sees the written entry. */
  method SetThenGet(cm: CacheManager, key: string, req: seq<byte>, resp: seq<byte>, statusCode: int, t: int, t2: int)
    returns (entry: Option<CacheEntry>)
    requires cm.hasDb && t <= t2 && t2 - t <= cm.ttl - (NanosPerSecond - 1)
    modifies cm
    ensures entry.Some? && entry.value.responseBody == resp && entry.value.statusCode == statusCode
    ensures entry.value.requestBody == req
  {
    var err := cm.Set(key, req, resp, statusCode, t, false);
    SetThenLookup(old(cm.store), key, req, resp, statusCode, t, t2, cm.ttl);
    entry := cm.Get(key, t2, false, false);
  }
}

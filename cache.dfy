/**
 * The payload-type cache of backend_server.py: a JSON document on disk that
 * `load_cache` reads, `get_payload_type` and `invalidate_cache_entry` change
 * in memory and `save_cache` writes back whole.
 */
module PayloadCache {
  import opened Wrappers
  import opened Text
  import opened Rtp

  /** One cached detection: the payload type and when it was stored; the clock is an integer reading here. */
  datatype Entry = Entry(payloadType: int, timestamp: int)

  type Cache = map<string, Entry>

  /** What `payload_cache.json` holds: nothing, something `json.load` rejects, or a document. */
  datatype CacheFile = Missing | Unreadable | Document(entries: Cache)

  /** How one `save_cache` call ended: written, `open` failed, or the write failed part-way. */
  datatype SaveOutcome = Saved | OpenFailed | WriteFailed

  /** The cache key of an endpoint: its address, a colon, and the port in decimal. */
  function CacheKey(address: string, port: nat): string {
    address + ":" + NatToDecimal(port)
  }

  /** A key starts with the whole address and a colon, and the text after them reads back as the port. */
  lemma CacheKeyNamesPort(address: string, port: nat)
    ensures var key := CacheKey(address, port);
      |key| > |address| && key[..|address|] == address && key[|address|] == ':'
    ensures ParseDecimal(CacheKey(address, port)[|address| + 1..]) == Some(port)
  {
    assert CacheKey(address, port)[|address| + 1..] == NatToDecimal(port);
    DecimalRoundTrip(port);
  }

  /** In `a + ":" + d` with a colon-free `d`, every colon sits at or before the separator. */
  lemma ColonsPrecedeDecimal(a: string, d: string, i: nat)
    requires ':' !in d
    requires i < |a| + 1 + |d| && (a + [':'] + d)[i] == ':'
    ensures i <= |a|
  {
  }

  /** Distinct endpoints never share a key, even when the address itself holds a colon. */
  lemma {:induction false} CacheKeyInjective(a1: string, p1: nat, a2: string, p2: nat)
    requires CacheKey(a1, p1) == CacheKey(a2, p2)
    ensures a1 == a2 && p1 == p2
  {
    var d1, d2 := NatToDecimal(p1), NatToDecimal(p2);
    var k := CacheKey(a1, p1);
    assert k == a1 + [':'] + d1 == a2 + [':'] + d2;
    assert ':' !in d1 && ':' !in d2 by {
      assert !IsDigit(':');
    }
    assert k[|a1|] == ':' && k[|a2|] == ':';
    ColonsPrecedeDecimal(a2, d2, |a1|);
    ColonsPrecedeDecimal(a1, d1, |a2|);
    assert a1 == k[..|a1|] == a2;
    assert d1 == k[|a1| + 1..] == d2;
    DecimalInjective(p1, p2);
  }

  /** `load_cache`: a missing file, or one `json.load` rejects, reads as the empty cache. */
  function Load(file: CacheFile): (cache: Cache)
    ensures file.Document? ==> cache == file.entries
    ensures !file.Document? ==> cache == map[]
  {
    if file.Document? then file.entries else map[]
  }

  /**
   * The file after `save_cache(cache)`: `open(..., 'w')` truncates before
   * `json.dump` writes, so a failure after opening leaves a partial document.
   */
  function AfterSave(file: CacheFile, cache: Cache, outcome: SaveOutcome): (after: CacheFile)
    ensures outcome == Saved ==> Load(after) == cache
    ensures outcome == OpenFailed ==> after == file
    ensures outcome == WriteFailed ==> Load(after) == map[]
  {
    match outcome
    case Saved => Document(cache)
    case OpenFailed => file
    case WriteFailed => Unreadable
  }

  /** What `invalidate_cache_entry` hands to `save_cache`, or none when it writes nothing. */
  function Invalidated(cache: Cache, key: string): (r: Option<Cache>)
    ensures r.None? <==> key !in cache
    ensures r.Some? ==> r.value.Keys == cache.Keys - {key}
    ensures r.Some? ==> forall k :: k in r.value ==> r.value[k] == cache[k]
  {
    if key in cache then Some(cache - {key}) else None
  }

  /** What one `get_payload_type` call returns, whether it ran the detector, and what it saves. */
  datatype Resolution = Resolution(result: Result<int, DetectError>, detected: bool, saved: Option<Cache>)

  /**
   * `get_payload_type` given the cache it loads, the forced flag, what the
   * detector would observe and the clock reading at the store.
   */
  function Resolve(cache: Cache, key: string, forceDetect: bool, rx: Reception, now: int): (r: Resolution)
    // a cache hit: the cached value, no detection, no write
    ensures !forceDetect && key in cache ==> r == Resolution(Success(cache[key].payloadType), false, None)
    // otherwise the detector runs exactly once
    ensures forceDetect || key !in cache ==> r.detected
    // a failed detection propagates and writes nothing
    ensures r.detected && DetectBackend(rx).Failure? ==> r.result == Failure(DetectBackend(rx).error) && r.saved.None?
    // a successful one stores exactly the entry for `key`, leaving the others as they were
    ensures r.detected && DetectBackend(rx).Success? ==>
      && r.result == Success(DetectBackend(rx).value)
      && r.saved.Some? && r.saved.value.Keys == cache.Keys + {key}
      && r.saved.value[key] == Entry(DetectBackend(rx).value, now)
      && (forall k :: k in cache && k != key ==> r.saved.value[k] == cache[k])
  {
    if !forceDetect && key in cache then Resolution(Success(cache[key].payloadType), false, None)
    else match DetectBackend(rx)
      case Failure(e) => Resolution(Failure(e), true, None)
      case Success(pt) => Resolution(Success(pt), true, Some(cache[key := Entry(pt, now)]))
  }

  /** The cache file, with the in-memory dict of each call loaded from it afresh. */
  class CacheStore {
    var file: CacheFile

    constructor (initial: CacheFile)
      ensures file == initial
    {
      file := initial;
    }

    /** Reads the cache file as it is now. */
    function LoadCache(): (cache: Cache)
      reads this
      ensures file.Document? ==> cache == file.entries
      ensures !file.Document? ==> cache == map[]
    {
      Load(file)
    }

    /** `save_cache(cache)`: a failed write is swallowed. */
    method SaveCache(cache: Cache, outcome: SaveOutcome)
      modifies this
      ensures file == AfterSave(old(file), cache, outcome)
    {
      match outcome {
        case Saved => file := Document(cache);
        case OpenFailed =>
        case WriteFailed => file := Unreadable;
      }
    }

    /** `invalidate_cache_entry(address, port)`: returns whether it wrote the file. */
    method InvalidateCacheEntry(address: string, port: nat, outcome: SaveOutcome) returns (wrote: bool)
      modifies this
      ensures wrote <==> CacheKey(address, port) in old(LoadCache())
      ensures !wrote ==> file == old(file)
      ensures wrote ==> file == AfterSave(old(file), old(LoadCache()) - {CacheKey(address, port)}, outcome)
    {
      var cache := LoadCache();
      var key := CacheKey(address, port);
      wrote := key in cache;
      if wrote {
        cache := cache - {key};
        SaveCache(cache, outcome);
      }
    }

    /**
     * `get_payload_type(address, port, force_detect)`: `rx` is what the
     * detector would observe, `now` the clock when the entry is stored.
     */
    method GetPayloadType(address: string, port: nat, forceDetect: bool, rx: Reception, now: int, outcome: SaveOutcome)
      returns (pt: Result<int, DetectError>, detected: bool, wrote: bool)
      modifies this
      ensures var r := Resolve(old(LoadCache()), CacheKey(address, port), forceDetect, rx, now);
        && pt == r.result && detected == r.detected && wrote == r.saved.Some?
        && file == (if r.saved.Some? then AfterSave(old(file), r.saved.value, outcome) else old(file))
    {
      var key := CacheKey(address, port);
      var cache := LoadCache();
      wrote := false;
      if !forceDetect && key in cache {
        pt, detected := Success(cache[key].payloadType), false;
        return;
      }
      detected := true;
      var found := DetectBackend(rx);
      match found {
        case Failure(e) =>
          pt := Failure(e);
        case Success(p) =>
          cache := cache[key := Entry(p, now)];
          SaveCache(cache, outcome);
          pt, wrote := Success(p), true;
      }
    }
  }

  /** After a successful, saved detection, the next unforced lookup of that endpoint needs no detector. */
  lemma {:induction false} StoredEntryIsReused(file: CacheFile, address: string, port: nat, force: bool,
                                               rx: Reception, now: int, rx': Reception, now': int)
    requires DetectBackend(rx).Success?
    requires force || CacheKey(address, port) !in Load(file)
    ensures var first := Resolve(Load(file), CacheKey(address, port), force, rx, now);
      var second := Resolve(Load(AfterSave(file, first.saved.value, Saved)), CacheKey(address, port), false, rx', now');
      second == Resolution(first.result, false, None)
  {
  }

  /** Storing or invalidating one endpoint never changes what another endpoint resolves to. */
  lemma {:induction false} OtherEndpointsUnaffected(cache: Cache, address: string, port: nat, force: bool, rx: Reception, now: int,
                                                    address': string, port': nat)
    requires (address, port) != (address', port')
    ensures var key, key' := CacheKey(address, port), CacheKey(address', port');
      var r := Resolve(cache, key, force, rx, now);
      && (r.saved.Some? ==> (key' in r.saved.value <==> key' in cache) && (key' in cache ==> r.saved.value[key'] == cache[key']))
      && (Invalidated(cache, key).Some? ==> (key' in Invalidated(cache, key).value <==> key' in cache))
  {
    if CacheKey(address, port) == CacheKey(address', port') {
      CacheKeyInjective(address, port, address', port');
    }
  }
}

/**
 * The Redis wrapper every service goes through (`RedisUtils`): a key space of
 * JSON documents with optional expiry, read and written one command at a time.
 * A value is stored as the document `JSON.stringify` writes and handed back as
 * the document `JSON.parse` reads, so an entry holds the document itself.
 * Expiry is measured on a logical clock; a lost connection makes every command
 * fail, and the wrapper passes that failure on to its caller.
 */
module RedisUtils {
  import opened Errors
  import opened JsonText

  /** A stored document, with the expiry it was written with and when it was written. */
  datatype Entry = Entry(value: Json, ttl: Option<nat>, setAt: int)

  predicate Live(e: Entry, now: int)
  {
    e.ttl.None? || now < e.setAt + e.ttl.value
  }

  /** The key holds a value that has not expired (`EXISTS` answers 1). */
  predicate Present(entries: map<string, Entry>, now: int, key: string)
  {
    key in entries && Live(entries[key], now)
  }

  /** What `get` answers: the stored document, or null for an absent or expired key. */
  function Lookup(entries: map<string, Entry>, now: int, key: string): Json
  {
    if Present(entries, now, key) then entries[key].value else JNull
  }

  /** A reader's `if (cached)` takes the cached document. */
  predicate Hit(entries: map<string, Entry>, now: int, key: string)
  {
    Truthy(Lookup(entries, now, key))
  }

  /**
   * How `set` treats its expiry argument: a positive number of seconds is
   * written with `SETEX`, an absent or zero one with a plain `SET`, and a
   * negative one reaches `SETEX`, which refuses it.
   */
  function Expiry(expire: Option<int>): (r: Result<Option<nat>>)
    ensures r.Ok? <==> expire.None? || expire.value >= 0
    ensures r.Ok? && r.value.None? <==> expire.None? || expire.value == 0
    ensures r.Ok? && r.value.Some? ==> r.value.value > 0 && expire == Some(r.value.value as int)
  {
    if expire.None? || expire.value == 0 then Ok(None)
    else if expire.value < 0 then Err(InvalidExpireTime)
    else Ok(Some(expire.value))
  }

  /** A document just written is read back as written, and no other key is affected. */
  lemma SetThenGet(entries: map<string, Entry>, now: int, key: string, value: Json, ttl: Option<nat>, other: string)
    requires ttl.None? || ttl.value > 0
    ensures Lookup(entries[key := Entry(value, ttl, now)], now, key) == value
    ensures other != key ==> Lookup(entries[key := Entry(value, ttl, now)], now, other) == Lookup(entries, now, other)
  {
  }

  /** Once its time has run out, an expiring entry reads as absent. */
  lemma ExpiredReadsNull(entries: map<string, Entry>, key: string, later: int)
    requires key in entries && entries[key].ttl.Some?
    requires later >= entries[key].setAt + entries[key].ttl.value
    ensures !Present(entries, later, key) && Lookup(entries, later, key) == JNull
  {
  }

  /** After a delete the key is absent, and every other key reads as before. */
  lemma DeleteThenAbsent(entries: map<string, Entry>, now: int, key: string, other: string)
    ensures !Present(entries - {key}, now, key) && Lookup(entries - {key}, now, key) == JNull
    ensures other != key ==> Lookup(entries - {key}, now, other) == Lookup(entries, now, other)
  {
  }

  /** What `MGET` answers: one lookup per key, in order. */
  function LookupAll(entries: map<string, Entry>, now: int, keys: seq<string>): (r: seq<Json>)
    ensures |r| == |keys|
    ensures forall i :: 0 <= i < |keys| ==> r[i] == Lookup(entries, now, keys[i])
  {
    if keys == [] then [] else [Lookup(entries, now, keys[0])] + LookupAll(entries, now, keys[1..])
  }

  /** The key space after `MSET`: every given pair, with no expiry, over the old entries. */
  function PutAll(entries: map<string, Entry>, pairs: map<string, Json>, now: int): map<string, Entry>
  {
    map k | k in entries.Keys + pairs.Keys :: if k in pairs then Entry(pairs[k], None, now) else entries[k]
  }

  /** `MSET` makes every given key read as its value, and leaves the others alone. */
  lemma PutAllThenGet(entries: map<string, Entry>, pairs: map<string, Json>, now: int, key: string)
    ensures key in pairs ==> Lookup(PutAll(entries, pairs, now), now, key) == pairs[key]
    ensures key !in pairs ==> Lookup(PutAll(entries, pairs, now), now, key) == Lookup(entries, now, key)
  {
  }

  /** The shared Redis connection and its key space. */
  class RedisClient {
    var entries: map<string, Entry>
    var now: int
    var connected: bool

    constructor (connected: bool)
      ensures entries == map[] && now == 0 && this.connected == connected
    {
      entries := map[];
      now := 0;
      this.connected := connected;
    }

    /** `set(key, value, expireInSeconds)`. */
    method Set(key: string, value: Json, expire: Option<int>) returns (r: Outcome)
      modifies this`entries
      ensures !connected ==> r == Fail(CacheUnavailable) && entries == old(entries)
      ensures connected && Expiry(expire).Err? ==> r == Fail(InvalidExpireTime) && entries == old(entries)
      ensures connected && Expiry(expire).Ok? ==>
        r == Pass && entries == old(entries)[key := Entry(value, Expiry(expire).value, now)]
      ensures r.Pass? ==> Lookup(entries, now, key) == value
    {
      if !connected {
        return Fail(CacheUnavailable);
      }
      var ttl := Expiry(expire);
      if ttl.Err? {
        return Fail(ttl.error);
      }
      entries := entries[key := Entry(value, ttl.value, now)];
      r := Pass;
    }

    /** `get(key)`: the stored document, or null; a failed command is passed on, not read as a miss. */
    method Get(key: string) returns (r: Result<Json>)
      ensures connected ==> r == Ok(Lookup(entries, now, key))
      ensures !connected ==> r == Err(CacheUnavailable)
    {
      if !connected {
        return Err(CacheUnavailable);
      }
      r := Ok(Lookup(entries, now, key));
    }

    /** `delete(key)`. */
    method Delete(key: string) returns (r: Outcome)
      modifies this`entries
      ensures !connected ==> r == Fail(CacheUnavailable) && entries == old(entries)
      ensures connected ==> r == Pass && entries == old(entries) - {key}
    {
      if !connected {
        return Fail(CacheUnavailable);
      }
      entries := entries - {key};
      r := Pass;
    }

    /** `exists(key)`. */
    method Exists(key: string) returns (r: Result<bool>)
      ensures connected ==> r == Ok(Present(entries, now, key))
      ensures !connected ==> r == Err(CacheUnavailable)
    {
      if !connected {
        return Err(CacheUnavailable);
      }
      r := Ok(key in entries && Live(entries[key], now));
    }

    /** `mset(keyValues)`: every pair stored without expiry; an empty object is a malformed command. */
    method MSet(pairs: map<string, Json>) returns (r: Outcome)
      modifies this`entries
      ensures !connected ==> r == Fail(CacheUnavailable) && entries == old(entries)
      ensures connected && |pairs| == 0 ==> r == Fail(WrongArity) && entries == old(entries)
      ensures connected && |pairs| > 0 ==> r == Pass && entries == PutAll(old(entries), pairs, now)
    {
      if !connected {
        return Fail(CacheUnavailable);
      }
      if |pairs| == 0 {
        return Fail(WrongArity);
      }
      entries := PutAll(entries, pairs, now);
      r := Pass;
    }

    /** `mget(keys)`: one answer per key, in the order asked, null for a missing key. */
    method MGet(keys: seq<string>) returns (r: Result<seq<Json>>)
      ensures !connected ==> r == Err(CacheUnavailable)
      ensures connected && |keys| == 0 ==> r == Err(WrongArity)
      ensures connected && |keys| > 0 ==> r.Ok? && |r.value| == |keys|
      ensures r.Ok? ==> forall i :: 0 <= i < |keys| ==> r.value[i] == Lookup(entries, now, keys[i])
    {
      if !connected {
        return Err(CacheUnavailable);
      }
      if |keys| == 0 {
        return Err(WrongArity);
      }
      r := Ok(LookupAll(entries, now, keys));
    }

    /** Time passes on the server; entries whose expiry is reached disappear. */
    method Advance(seconds: nat)
      modifies this`now
      ensures now == old(now) + seconds
    {
      now := now + seconds;
    }

    /** The connection drops (`error` event) or comes back (`connect` event). */
    method SetConnected(up: bool)
      modifies this`connected
      ensures connected == up
    {
      connected := up;
    }
  }
}

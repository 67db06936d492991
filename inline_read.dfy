/**
 * The read that the hand-written services spell out in each method: `get` the
 * query's key, return a truthy cached document, otherwise ask the store and
 * cache its answer for a fixed number of seconds (every answer, or only a
 * truthy one for the single-record reads guarded by `if (record)`).
 */
module InlineRead {
  import opened Errors
  import opened JsonText
  import opened Store
  import opened RedisUtils
  import opened CacheKeys
  import opened CacheDecorator
  import opened Freshness

  /** A hand-written read of `q` under its own key. */
  function ReadThrough(entries: map<string, Entry>, now: int, connected: bool, t: Tables, q: Query, ttl: int, onlyFound: bool): Read
  {
    ReadVia(entries, now, connected, KeyOf(q), Eval(t, q), ttl, !onlyFound || Truthy(Eval(t, q)))
  }

  /** A read leaves the client and the store as `ReadThrough` says. */
  twostate predicate Loaded(redis: RedisClient, db: Database, q: Query, ttl: int, onlyFound: bool, new r: Result<Json>)
    reads redis, db
  {
    var o := ReadThrough(old(redis.entries), redis.now, redis.connected, db.tables, q, ttl, onlyFound);
    && r == o.result
    && redis.entries == o.entries
    && db.log == old(db.log) + (if o.asked then [q] else [])
  }

  method Load(redis: RedisClient, db: Database, q: Query, ttl: int, onlyFound: bool) returns (r: Result<Json>)
    modifies redis`entries, db`log
    ensures Loaded(redis, db, q, ttl, onlyFound, r)
  {
    var key := KeyOf(q);
    ghost var before := redis.entries;
    ghost var o := ReadVia(before, redis.now, redis.connected, key, Eval(db.tables, q), ttl,
                           !onlyFound || Truthy(Eval(db.tables, q)));
    var cached := redis.Get(key);
    if cached.Err? {
      r := Err(cached.error);
    } else if Truthy(cached.value) {
      r := Ok(cached.value);
    } else {
      var result := db.Run(q);
      r := Ok(result);
      if !onlyFound || Truthy(result) {
        var stored := redis.Set(key, result, Some(ttl));
        if stored.Fail? {
          r := Err(stored.error);
        }
      }
    }
    assert r == o.result && redis.entries == o.entries;
  }

  /**
   * While the cache is fresh, a read of a covered query answers what the
   * store holds now, whether it comes from the cache or from the store, and
   * the cache stays fresh afterwards.
   */
  lemma ReadFresh(entries: map<string, Entry>, now: int, connected: bool, t: Tables, q: Query, ttl: int, onlyFound: bool)
    requires Keyed(q)
    ensures var r := ReadThrough(entries, now, connected, t, q, ttl, onlyFound);
      AssetsFresh(entries, now, t) && AssetFamily(q) && r.result.Ok? ==> r.result.value == Eval(t, q)
    ensures var r := ReadThrough(entries, now, connected, t, q, ttl, onlyFound);
      SitesFresh(entries, now, t) && SiteFamily(q) && r.result.Ok? ==> r.result.value == Eval(t, q)
    ensures var r := ReadThrough(entries, now, connected, t, q, ttl, onlyFound);
      AssetsFresh(entries, now, t) ==> AssetsFresh(r.entries, now, t)
    ensures var r := ReadThrough(entries, now, connected, t, q, ttl, onlyFound);
      SitesFresh(entries, now, t) ==> SitesFresh(r.entries, now, t)
  {
    var r := ReadThrough(entries, now, connected, t, q, ttl, onlyFound);
    if connected && !Hit(entries, now, KeyOf(q)) && r.entries != entries {
      PutKeepsFresh(entries, now, t, q, Eval(t, q), Expiry(Some(ttl)).value);
    }
  }
}

/**
 * The `@Cache(options)` method decorator: it derives a key from the options,
 * the method name and the arguments, answers from the cache when the cached
 * document is truthy, and otherwise runs the method and caches a non-null
 * result. The decorated methods in this code base are store reads, so the
 * wrapped method is a query run against the store.
 */
module CacheDecorator {
  import opened Errors
  import opened JsonText
  import opened Records
  import opened Store
  import opened RedisUtils
  import opened CacheKeys

  datatype CacheOptions = CacheOptions(
    ttl: Option<int>,          // seconds
    key: Option<string>,       // a fixed key for every call
    keyPrefix: Option<string>) // the first part of a generated key

  /** `options.key || `${options.keyPrefix || ''}:${name}:${JSON.stringify(args)}``: an empty key counts as none. */
  function CacheKey(options: CacheOptions, name: string, args: seq<string>): string
  {
    if options.key.Some? && options.key.value != "" then options.key.value
    else Key3(if options.keyPrefix.Some? then options.keyPrefix.value else "", name, Stringify(args))
  }

  /** `options.ttl || 3600`: an absent or zero ttl becomes an hour. */
  function TtlOf(options: CacheOptions): (seconds: int)
    ensures seconds != 0
    ensures options.ttl.Some? && options.ttl.value != 0 ==> seconds == options.ttl.value
    ensures options.ttl.None? || options.ttl.value == 0 ==> seconds == 3600
  {
    if options.ttl.Some? && options.ttl.value != 0 then options.ttl.value else 3600
  }

  /**
   * Without a fixed key, two calls share an entry only if they are the same
   * method with the same arguments; with a fixed key, every call shares one.
   */
  lemma CacheKeyInjective(options: CacheOptions, m1: string, a1: seq<string>, m2: string, a2: seq<string>)
    requires options.keyPrefix.Some? ==> NoColon(options.keyPrefix.value)
    requires NoColon(m1) && NoColon(m2)
    ensures options.key.Some? && options.key.value != "" ==> CacheKey(options, m1, a1) == CacheKey(options, m2, a2)
    ensures !(options.key.Some? && options.key.value != "") ==>
      (CacheKey(options, m1, a1) == CacheKey(options, m2, a2) <==> m1 == m2 && a1 == a2)
  {
    if !(options.key.Some? && options.key.value != "") && CacheKey(options, m1, a1) == CacheKey(options, m2, a2) {
      var p := if options.keyPrefix.Some? then options.keyPrefix.value else "";
      Key3Injective(p, m1, Stringify(a1), p, m2, Stringify(a2));
      StringifyInjective(a1, a2);
    }
  }

  /** The arguments the decorated method is called with for a query. */
  function CallArgs(q: Query): seq<string>
  {
    match q
    case AssetById(id) => [id]
    case AssetsBySite(siteId) => [siteId]
    case AssetsByType(assetType) => [assetType]
    case SiteById(id) => [id]
    case SiteByIdWithAssets(id) => [id]
    case SitesByName(name) => [name]
    case _ => []
  }

  /** The query with its argument replaced by the argument's JSON escape. */
  function Escaped(q: Query): Query
  {
    match q
    case AssetById(id) => AssetById(Escape(id))
    case AssetsBySite(siteId) => AssetsBySite(Escape(siteId))
    case AssetsByType(assetType) => AssetsByType(Escape(assetType))
    case SiteById(id) => SiteById(Escape(id))
    case SiteByIdWithAssets(id) => SiteByIdWithAssets(Escape(id))
    case SitesByName(name) => SitesByName(Escape(name))
    case _ => q
  }

  /** Options that generate the hand-written prefix for a query. */
  function OptionsFor(q: Query, ttl: int): CacheOptions
  {
    CacheOptions(Some(ttl), None, Some(PrefixOf(q)))
  }

  /**
   * A decorated read caches under the hand-written key of the query with its
   * argument escaped; that is the hand-written key itself exactly when the
   * argument needs no escaping.
   */
  lemma DecoratedKey(q: Query, ttl: int)
    ensures CacheKey(OptionsFor(q, ttl), NameOf(q), CallArgs(q)) == KeyOf(Escaped(q))
    ensures CacheKey(OptionsFor(q, ttl), NameOf(q), CallArgs(q)) == KeyOf(q) <==> Escaped(q) == q
  {
    if CallArgs(q) == [] {
      assert Stringify([]) == NoArgs;
    } else {
      var x := CallArgs(q)[0];
      assert CallArgs(q) == [x];
      StringifySingle(x);
      assert Stringify([x]) == ArgText(Escape(x));
      KeyOfStringify(q, x);
      if Escaped(q) == q {
        assert Escape(x) == x;
      }
    }
  }

  /** Escaping changes an argument exactly when the argument is not plain. */
  lemma EscapedUnchanged(q: Query)
    ensures Escaped(q) == q <==> forall x :: x in CallArgs(q) ==> Plain(x)
  {
    if CallArgs(q) != [] {
      var x := CallArgs(q)[0];
      assert CallArgs(q) == [x];
      if Plain(x) {
        EscapePlain(x);
      } else {
        EscapeGrows(x);
      }
    }
  }

  /** A read through the cache: the answer, the key space afterwards, and whether the store was asked. */
  datatype Read = Read(result: Result<Json>, entries: map<string, Entry>, asked: bool)

  /**
   * Look `key` up and return a truthy cached document; otherwise take the
   * store's `answer` and, when `store` holds, write it with `ttl` seconds.
   */
  function ReadVia(entries: map<string, Entry>, now: int, connected: bool, key: string, answer: Json, ttl: int, store: bool): Read
  {
    if !connected then Read(Err(CacheUnavailable), entries, false)
    else if Hit(entries, now, key) then Read(Ok(Lookup(entries, now, key)), entries, false)
    else if !store then Read(Ok(answer), entries, true)
    else match Expiry(Some(ttl))
      case Err(e) => Read(Err(e), entries, true)
      case Ok(expiry) => Read(Ok(answer), entries[key := Entry(answer, expiry, now)], true)
  }

  /**
   * A call of a method decorated with `options` whose body runs query `q`:
   * with the cache unreachable it fails; a truthy cached document is returned
   * without running the method; otherwise the method runs once, a null answer
   * is returned and not cached, and any other answer is cached for
   * `TtlOf(options)` seconds, or refused by the cache when that is negative.
   */
  function Decorated(entries: map<string, Entry>, now: int, connected: bool, t: Tables,
                     options: CacheOptions, name: string, args: seq<string>, q: Query): (o: Read)
    ensures var key := CacheKey(options, name, args);
      && (!connected ==> o == Read(Err(CacheUnavailable), entries, false))
      && (connected && Hit(entries, now, key) ==> o == Read(Ok(Lookup(entries, now, key)), entries, false))
      && (connected && !Hit(entries, now, key) ==> o.asked)
      && (connected && !Hit(entries, now, key) && Eval(t, q) == JNull ==> o.result == Ok(JNull) && o.entries == entries)
      && (connected && !Hit(entries, now, key) && Eval(t, q) != JNull && TtlOf(options) > 0 ==>
            o.result == Ok(Eval(t, q)) && o.entries == entries[key := Entry(Eval(t, q), Some(TtlOf(options) as nat), now)])
      && (connected && !Hit(entries, now, key) && Eval(t, q) != JNull && TtlOf(options) < 0 ==>
            o.result == Err(InvalidExpireTime) && o.entries == entries)
  {
    ReadVia(entries, now, connected, CacheKey(options, name, args), Eval(t, q), TtlOf(options), Eval(t, q) != JNull)
  }

  /**
   * The decorated method: look the key up, return a truthy cached document
   * without calling the method, otherwise call it once and cache a non-null
   * result. Cache failures reach the caller.
   */
  method Cached(redis: RedisClient, db: Database, options: CacheOptions, name: string, args: seq<string>, q: Query)
    returns (r: Result<Json>)
    modifies redis`entries, db`log
    ensures var o := Decorated(old(redis.entries), redis.now, redis.connected, db.tables, options, name, args, q);
      r == o.result && redis.entries == o.entries && db.log == old(db.log) + (if o.asked then [q] else [])
  {
    var key := CacheKey(options, name, args);
    var cached := redis.Get(key);
    if cached.Err? {
      return Err(cached.error);
    }
    if Truthy(cached.value) {
      return Ok(cached.value);
    }
    var result := db.Run(q);
    if result != JNull {
      var stored := redis.Set(key, result, Some(TtlOf(options)));
      if stored.Fail? {
        return Err(stored.error);
      }
    }
    r := Ok(result);
  }
}

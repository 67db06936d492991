/**
 * The asset service whose reads carry the `@Cache` decorator
 * (`src/services/asset.service.ts`). Each decorated read caches under
 * `prefix:method:JSON.stringify(args)`; the writes are the hand-written
 * service's, deleting the hand-written keys.
 */
module AssetsDecorated {
  import opened Errors
  import opened JsonText
  import opened Records
  import opened Store
  import opened RedisUtils
  import opened CacheKeys
  import opened CacheDecorator
  import opened Freshness
  import opened AssetWrites

  class AssetService {
    const redis: RedisClient
    const db: Database

    constructor (redis: RedisClient, db: Database)
      ensures this.redis == redis && this.db == db
    {
      this.redis := redis;
      this.db := db;
    }

    /** Well-formed tables, and every cached asset and site read agrees with them. */
    ghost predicate Inv()
      reads redis, db
    {
      Coherent(redis.entries, redis.now, db.tables)
    }

    /** A decorated read of `q` with `@Cache({ keyPrefix, ttl })`, the prefix being the one the hand-written keys use. */
    method CachedRead(q: Query, ttl: int) returns (r: Result<Json>)
      requires Keyed(q)
      modifies redis`entries, db`log
      ensures var o := Decorated(old(redis.entries), redis.now, redis.connected, db.tables, OptionsFor(q, ttl), NameOf(q), CallArgs(q), q);
        r == o.result && redis.entries == o.entries && db.log == old(db.log) + (if o.asked then [q] else [])
      ensures old(Inv()) ==> Inv() && (AssetFamily(q) && r.Ok? ==> r.value == Eval(db.tables, q))
    {
      ghost var before := redis.entries;
      r := Cached(redis, db, OptionsFor(q, ttl), NameOf(q), CallArgs(q), q);
      if Valid(db.tables) {
        DecoratedFresh(before, redis.now, redis.connected, db.tables, q, ttl);
      }
    }

    /** `@Cache({ keyPrefix: 'assets', ttl: 3600 })` on `getAllAssets`. */
    method GetAllAssets() returns (r: Result<Json>)
      modifies redis`entries, db`log
      ensures var o := Decorated(old(redis.entries), redis.now, redis.connected, db.tables, CacheOptions(Some(3600), None, Some("assets")), "getAllAssets", [], AllAssets);
        r == o.result && redis.entries == o.entries && db.log == old(db.log) + (if o.asked then [AllAssets] else [])
      ensures old(Inv()) ==> Inv() && (r.Ok? ==> r.value == Eval(db.tables, AllAssets))
    {
      r := CachedRead(AllAssets, 3600);
    }

    /** `@Cache({ keyPrefix: 'asset', ttl: 3600 })` on `getAssetById`. */
    method GetAssetById(id: Id) returns (r: Result<Json>)
      modifies redis`entries, db`log
      ensures var o := Decorated(old(redis.entries), redis.now, redis.connected, db.tables, CacheOptions(Some(3600), None, Some("asset")), "getAssetById", [id], AssetById(id));
        r == o.result && redis.entries == o.entries && db.log == old(db.log) + (if o.asked then [AssetById(id)] else [])
      ensures old(Inv()) ==> Inv() && (r.Ok? ==> r.value == Eval(db.tables, AssetById(id)))
    {
      r := CachedRead(AssetById(id), 3600);
    }

    /** `@Cache({ keyPrefix: 'assets', ttl: 1800 })` on `getAssetsBySiteId`. */
    method GetAssetsBySiteId(siteId: Id) returns (r: Result<Json>)
      modifies redis`entries, db`log
      ensures var o := Decorated(old(redis.entries), redis.now, redis.connected, db.tables, CacheOptions(Some(1800), None, Some("assets")), "getAssetsBySiteId", [siteId], AssetsBySite(siteId));
        r == o.result && redis.entries == o.entries && db.log == old(db.log) + (if o.asked then [AssetsBySite(siteId)] else [])
      ensures old(Inv()) ==> Inv() && (r.Ok? ==> r.value == Eval(db.tables, AssetsBySite(siteId)))
    {
      r := CachedRead(AssetsBySite(siteId), 1800);
    }

    /** `@Cache({ keyPrefix: 'assets', ttl: 1800 })` on `getAssetsWithSite`. */
    method GetAssetsWithSite() returns (r: Result<Json>)
      modifies redis`entries, db`log
      ensures var o := Decorated(old(redis.entries), redis.now, redis.connected, db.tables, CacheOptions(Some(1800), None, Some("assets")), "getAssetsWithSite", [], AssetsWithSite);
        r == o.result && redis.entries == o.entries && db.log == old(db.log) + (if o.asked then [AssetsWithSite] else [])
      ensures old(Inv()) ==> Inv()
    {
      r := CachedRead(AssetsWithSite, 1800);
    }

    /** `@Cache({ keyPrefix: 'assets', ttl: 1800 })` on `getAssetsByType`. */
    method GetAssetsByType(assetType: string) returns (r: Result<Json>)
      modifies redis`entries, db`log
      ensures var o := Decorated(old(redis.entries), redis.now, redis.connected, db.tables, CacheOptions(Some(1800), None, Some("assets")), "getAssetsByType", [assetType], AssetsByType(assetType));
        r == o.result && redis.entries == o.entries && db.log == old(db.log) + (if o.asked then [AssetsByType(assetType)] else [])
      ensures old(Inv()) ==> Inv()
    {
      r := CachedRead(AssetsByType(assetType), 1800);
    }

    /** `createAsset`: the store assigns the id and the creation time. */
    method CreateAsset(newId: Id, createdAt: int, data: AssetData) returns (r: Result<Asset>)
      modifies db`tables, redis`entries
      ensures var c := CreateAssetCall(old(redis.entries), redis.connected, old(db.tables), newId, createdAt, data);
        r == c.result && redis.entries == c.entries && db.tables == c.tables
      ensures old(Inv()) && IdShape(newId) && redis.connected ==> Inv()
    {
      ghost var e0, t0 := redis.entries, db.tables;
      r := AssetWrites.CreateAsset(redis, db, newId, createdAt, data);
      if Coherent(e0, redis.now, t0) && IdShape(newId) && redis.connected {
        CreateAssetCoherent(e0, redis.now, t0, newId, createdAt, data);
      }
    }

    /** `updateAsset`: reads the current row first, for its owner. */
    method UpdateAsset(id: Id, patch: AssetPatch) returns (r: Result<Asset>)
      modifies db`tables, db`log, redis`entries
      ensures var c := UpdateAssetCall(old(redis.entries), redis.connected, old(db.tables), id, patch);
        r == c.result && redis.entries == c.entries && db.tables == c.tables
      ensures db.log == old(db.log) + [AssetById(id)]
      ensures old(Inv()) && redis.connected ==> Inv()
    {
      ghost var e0, t0 := redis.entries, db.tables;
      r := AssetWrites.UpdateAsset(redis, db, id, patch);
      if Coherent(e0, redis.now, t0) && redis.connected {
        UpdateAssetCoherent(e0, redis.now, t0, id, patch);
      }
    }

    /** `deleteAsset`. */
    method DeleteAsset(id: Id) returns (r: Result<Asset>)
      modifies db`tables, redis`entries
      ensures var c := DeleteAssetCall(old(redis.entries), redis.connected, old(db.tables), id);
        r == c.result && redis.entries == c.entries && db.tables == c.tables
      ensures old(Inv()) && redis.connected ==> Inv()
    {
      ghost var e0, t0 := redis.entries, db.tables;
      r := AssetWrites.DeleteAsset(redis, db, id);
      if Coherent(e0, redis.now, t0) && redis.connected {
        DeleteAssetCoherent(e0, redis.now, t0, id);
      }
    }
  }
}

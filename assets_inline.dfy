/**
 * The asset service whose reads build their cache keys by hand
 * (`src/services/assets.ts`). Reads go through the cache; writes change the
 * store and then delete the keys of the reads they affect.
 */
module AssetsInline {
  import opened Errors
  import opened JsonText
  import opened Records
  import opened Store
  import opened StoreFacts
  import opened RedisUtils
  import opened CacheKeys
  import opened Freshness
  import opened InlineRead
  import opened AssetWrites

  /**
   * Read-your-writes: from a coherent cache, `getAssetById` right after a
   * successful `updateAsset` answers the updated asset, whether or not the
   * record was cached before.
   */
  lemma ReadAfterUpdate(entries: map<string, Entry>, now: int, t: Tables, id: Id, patch: AssetPatch)
    requires Coherent(entries, now, t) && UpdateAssetStep(t, id, patch).result.Ok?
    ensures var c := UpdateAssetCall(entries, true, t, id, patch);
      ReadThrough(c.entries, now, true, c.tables, AssetById(id), 3600, true).result == Ok(AssetJson(c.result.value))
  {
    var c := UpdateAssetCall(entries, true, t, id, patch);
    UpdateAssetCoherent(entries, now, t, id, patch);
    UpdateAssetThenRead(t, id, patch);
    ReadFresh(c.entries, now, true, c.tables, AssetById(id), 3600, true);
  }

  /** After a successful `deleteAsset`, `getAssetById` answers null. */
  lemma ReadAfterDelete(entries: map<string, Entry>, now: int, t: Tables, id: Id)
    requires Coherent(entries, now, t) && DeleteAssetStep(t, id).result.Ok?
    ensures var c := DeleteAssetCall(entries, true, t, id);
      ReadThrough(c.entries, now, true, c.tables, AssetById(id), 3600, true).result == Ok(JNull)
  {
    var c := DeleteAssetCall(entries, true, t, id);
    DeleteAssetCoherent(entries, now, t, id);
    DeleteAssetThenRead(t, id);
    ReadFresh(c.entries, now, true, c.tables, AssetById(id), 3600, true);
  }

  class AssetService {
    const redis: RedisClient
    const db: Database

    constructor (redis: RedisClient, db: Database)
      ensures this.redis == redis && this.db == db
    {
      this.redis := redis;
      this.db := db;
    }

    /** Well-formed tables, and every cached asset and site read agrees with them. */
    ghost predicate Inv()
      reads redis, db
    {
      Coherent(redis.entries, redis.now, db.tables)
    }

    /** `getAllAssets`: cached for an hour under `assets:getAllAssets:[]`. */
    method GetAllAssets() returns (r: Result<Json>)
      modifies redis`entries, db`log
      ensures Loaded(redis, db, AllAssets, 3600, false, r)
      ensures old(Inv()) ==> Inv() && (r.Ok? ==> r.value == Eval(db.tables, AllAssets))
    {
      ghost var before := redis.entries;
      r := Load(redis, db, AllAssets, 3600, false);
      ReadFresh(before, redis.now, redis.connected, db.tables, AllAssets, 3600, false);
    }

    /** `getAssetById`: a found asset is cached for an hour; a missing one is not cached. */
    method GetAssetById(id: Id) returns (r: Result<Json>)
      modifies redis`entries, db`log
      ensures Loaded(redis, db, AssetById(id), 3600, true, r)
      ensures old(Inv()) ==> Inv() && (r.Ok? ==> r.value == Eval(db.tables, AssetById(id)))
    {
      ghost var before := redis.entries;
      r := Load(redis, db, AssetById(id), 3600, true);
      ReadFresh(before, redis.now, redis.connected, db.tables, AssetById(id), 3600, true);
    }

    /** `getAssetsBySiteId`: cached for half an hour. */
    method GetAssetsBySiteId(siteId: Id) returns (r: Result<Json>)
      modifies redis`entries, db`log
      ensures Loaded(redis, db, AssetsBySite(siteId), 1800, false, r)
      ensures old(Inv()) ==> Inv() && (r.Ok? ==> r.value == Eval(db.tables, AssetsBySite(siteId)))
    {
      ghost var before := redis.entries;
      r := Load(redis, db, AssetsBySite(siteId), 1800, false);
      ReadFresh(before, redis.now, redis.connected, db.tables, AssetsBySite(siteId), 1800, false);
    }

    /**
     * `getAssetsWithSite`: cached for half an hour. No write deletes this key,
     * so the invariant promises nothing about its answer.
     */
    method GetAssetsWithSite() returns (r: Result<Json>)
      modifies redis`entries, db`log
      ensures Loaded(redis, db, AssetsWithSite, 1800, false, r)
      ensures old(Inv()) ==> Inv()
    {
      ghost var before := redis.entries;
      r := Load(redis, db, AssetsWithSite, 1800, false);
      ReadFresh(before, redis.now, redis.connected, db.tables, AssetsWithSite, 1800, false);
    }

    /** `getAssetsByType`: cached for half an hour; no write deletes these keys either. */
    method GetAssetsByType(assetType: string) returns (r: Result<Json>)
      modifies redis`entries, db`log
      ensures Loaded(redis, db, AssetsByType(assetType), 1800, false, r)
      ensures old(Inv()) ==> Inv()
    {
      ghost var before := redis.entries;
      r := Load(redis, db, AssetsByType(assetType), 1800, false);
      ReadFresh(before, redis.now, redis.connected, db.tables, AssetsByType(assetType), 1800, false);
    }

    /** `createAsset`: the store assigns the id and the creation time. */
    method CreateAsset(newId: Id, createdAt: int, data: AssetData) returns (r: Result<Asset>)
      modifies db`tables, redis`entries
      ensures var c := CreateAssetCall(old(redis.entries), redis.connected, old(db.tables), newId, createdAt, data);
        r == c.result && redis.entries == c.entries && db.tables == c.tables
      ensures old(Inv()) && IdShape(newId) && redis.connected ==> Inv()
    {
      ghost var e0, t0 := redis.entries, db.tables;
      r := AssetWrites.CreateAsset(redis, db, newId, createdAt, data);
      if Coherent(e0, redis.now, t0) && IdShape(newId) && redis.connected {
        CreateAssetCoherent(e0, redis.now, t0, newId, createdAt, data);
      }
    }

    /** `updateAsset`: reads the current row first, for its owner. */
    method UpdateAsset(id: Id, patch: AssetPatch) returns (r: Result<Asset>)
      modifies db`tables, db`log, redis`entries
      ensures var c := UpdateAssetCall(old(redis.entries), redis.connected, old(db.tables), id, patch);
        r == c.result && redis.entries == c.entries && db.tables == c.tables
      ensures db.log == old(db.log) + [AssetById(id)]
      ensures old(Inv()) && redis.connected ==> Inv()
    {
      ghost var e0, t0 := redis.entries, db.tables;
      r := AssetWrites.UpdateAsset(redis, db, id, patch);
      if Coherent(e0, redis.now, t0) && redis.connected {
        UpdateAssetCoherent(e0, redis.now, t0, id, patch);
      }
    }

    /** `deleteAsset`. */
    method DeleteAsset(id: Id) returns (r: Result<Asset>)
      modifies db`tables, redis`entries
      ensures var c := DeleteAssetCall(old(redis.entries), redis.connected, old(db.tables), id);
        r == c.result && redis.entries == c.entries && db.tables == c.tables
      ensures old(Inv()) && redis.connected ==> Inv()
    {
      ghost var e0, t0 := redis.entries, db.tables;
      r := AssetWrites.DeleteAsset(redis, db, id);
      if Coherent(e0, redis.now, t0) && redis.connected {
        DeleteAssetCoherent(e0, redis.now, t0, id);
      }
    }
  }
}

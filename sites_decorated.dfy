/**
 * The site service whose reads carry the `@Cache` decorator
 * (`src/services/site.service.ts`). Both reads return sites with their
 * assets, under the keys the hand-written site service uses for sites
 * without assets; the writes only change the store.
 */
module SitesDecorated {
  import opened Errors
  import opened JsonText
  import opened Records
  import opened Store
  import opened RedisUtils
  import opened CacheKeys
  import opened CacheDecorator
  import opened Freshness

  const AllSitesOptions: CacheOptions := CacheOptions(Some(3600), None, Some("sites"))
  const SiteByIdOptions: CacheOptions := CacheOptions(Some(3600), None, Some("site"))

  /** `getAllSites` caches under `sites:getAllSites:[]` and keeps the with-assets documents fresh. */
  lemma AllSitesReadFresh(entries: map<string, Entry>, now: int, connected: bool, t: Tables)
    ensures var o := Decorated(entries, now, connected, t, AllSitesOptions, "getAllSites", [], AllSitesWithAssets);
      SitesWithAssetsFresh(entries, now, t) && o.result.Ok? ==> o.result.value == Eval(t, AllSitesWithAssets)
    ensures var o := Decorated(entries, now, connected, t, AllSitesOptions, "getAllSites", [], AllSitesWithAssets);
      SitesWithAssetsFresh(entries, now, t) ==> SitesWithAssetsFresh(o.entries, now, t)
  {
    DecoratedKey(AllSites, 3600);
    var o := Decorated(entries, now, connected, t, AllSitesOptions, "getAllSites", [], AllSitesWithAssets);
    if connected && !Hit(entries, now, KeyOf(AllSites)) && o.entries != entries {
      PutKeepsSitesWithAssetsFresh(entries, now, t, AllSites, Eval(t, AllSitesWithAssets), Some(3600));
    }
  }

  /**
   * `getSiteById(id)` caches under `site:getSiteById:` and the JSON of `[id]`,
   * which is the key of the escaped id; in a valid store that id finds the
   * same site.
   */
  lemma SiteByIdReadFresh(entries: map<string, Entry>, now: int, connected: bool, t: Tables, id: Id)
    requires Valid(t)
    ensures var o := Decorated(entries, now, connected, t, SiteByIdOptions, "getSiteById", [id], SiteByIdWithAssets(id));
      SitesWithAssetsFresh(entries, now, t) && o.result.Ok? ==> o.result.value == Eval(t, SiteByIdWithAssets(id))
    ensures var o := Decorated(entries, now, connected, t, SiteByIdOptions, "getSiteById", [id], SiteByIdWithAssets(id));
      SitesWithAssetsFresh(entries, now, t) ==> SitesWithAssetsFresh(o.entries, now, t)
  {
    var q := SiteById(Escape(id));
    var key := CacheKey(SiteByIdOptions, "getSiteById", [id]);
    assert key == KeyOf(q) by {
      DecoratedKey(SiteById(id), 3600);
      assert OptionsFor(SiteById(id), 3600) == SiteByIdOptions;
    }
    var v := Eval(t, SiteByIdWithAssets(id));
    assert Eval(t, SiteByIdWithAssets(Escape(id))) == v by {
      EscapedEval(t, SiteByIdWithAssets(id));
    }
    var o := Decorated(entries, now, connected, t, SiteByIdOptions, "getSiteById", [id], SiteByIdWithAssets(id));
    if SitesWithAssetsFresh(entries, now, t) {
      assert FreshAt(entries, now, KeyOf(q), v);
      if connected && !Hit(entries, now, key) && o.entries != entries {
        PutKeepsSitesWithAssetsFresh(entries, now, t, q, v, Some(3600));
      }
    }
  }

  class SiteService {
    const redis: RedisClient
    const db: Database

    constructor (redis: RedisClient, db: Database)
      ensures this.redis == redis && this.db == db
    {
      this.redis := redis;
      this.db := db;
    }

    /** Well-formed tables, and every cached site document with assets agrees with them. */
    ghost predicate Inv()
      reads redis, db
    {
      Valid(db.tables) && SitesWithAssetsFresh(redis.entries, redis.now, db.tables)
    }

    /** `@Cache({ keyPrefix: 'sites', ttl: 3600 })` on `getAllSites`, which includes the assets. */
    method GetAllSites() returns (r: Result<Json>)
      modifies redis`entries, db`log
      ensures var o := Decorated(old(redis.entries), redis.now, redis.connected, db.tables, AllSitesOptions, "getAllSites", [], AllSitesWithAssets);
        r == o.result && redis.entries == o.entries && db.log == old(db.log) + (if o.asked then [AllSitesWithAssets] else [])
      ensures old(Inv()) ==> Inv() && (r.Ok? ==> r.value == Eval(db.tables, AllSitesWithAssets))
    {
      ghost var before := redis.entries;
      r := Cached(redis, db, AllSitesOptions, "getAllSites", [], AllSitesWithAssets);
      AllSitesReadFresh(before, redis.now, redis.connected, db.tables);
    }

    /** `@Cache({ keyPrefix: 'site', ttl: 3600 })` on `getSiteById`, which includes the assets. */
    method GetSiteById(id: Id) returns (r: Result<Json>)
      modifies redis`entries, db`log
      ensures var o := Decorated(old(redis.entries), redis.now, redis.connected, db.tables, SiteByIdOptions, "getSiteById", [id], SiteByIdWithAssets(id));
        r == o.result && redis.entries == o.entries && db.log == old(db.log) + (if o.asked then [SiteByIdWithAssets(id)] else [])
      ensures old(Inv()) ==> Inv() && (r.Ok? ==> r.value == Eval(db.tables, SiteByIdWithAssets(id)))
    {
      ghost var before := redis.entries;
      r := Cached(redis, db, SiteByIdOptions, "getSiteById", [id], SiteByIdWithAssets(id));
      if Valid(db.tables) {
        SiteByIdReadFresh(before, redis.now, redis.connected, db.tables, id);
      }
    }

    /** `createSite`, answering the new site with its assets; nothing is deleted from the cache. */
    method CreateSite(newId: Id, createdAt: int, data: SiteData) returns (r: Result<Json>)
      modifies db`tables
      ensures var w := CreateSiteStep(old(db.tables), newId, createdAt, data);
        r == IncludeAssets(w, w.after.assets).result && db.tables == w.after
    {
      var created := db.CreateSite(newId, createdAt, data);
      r := if created.Ok? then Ok(SiteWithAssetsJson(db.tables.assets, created.value)) else Err(created.error);
    }

    /** `updateSite`, answering the updated site with its assets; nothing is deleted from the cache. */
    method UpdateSite(id: Id, patch: SitePatch) returns (r: Result<Json>)
      modifies db`tables
      ensures var w := UpdateSiteStep(old(db.tables), id, patch);
        r == IncludeAssets(w, w.after.assets).result && db.tables == w.after
    {
      var updated := db.UpdateSite(id, patch);
      r := if updated.Ok? then Ok(SiteWithAssetsJson(db.tables.assets, updated.value)) else Err(updated.error);
    }

    /** `deleteSite`, answering the deleted site with the assets it had; nothing is deleted from the cache. */
    method DeleteSite(id: Id) returns (r: Result<Json>)
      modifies db`tables
      ensures var w := DeleteSiteStep(old(db.tables), id);
        r == IncludeAssets(w, old(db.tables).assets).result && db.tables == w.after
    {
      var assets := db.tables.assets;
      var deleted := db.DeleteSite(id);
      r := if deleted.Ok? then Ok(SiteWithAssetsJson(assets, deleted.value)) else Err(deleted.error);
    }
  }
}

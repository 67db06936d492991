/**
 * The site service that reads the store directly (`src/services/sites.ts`).
 * After every write it deletes `site:${id}` for each site the store lists and
 * then `sites:getAllSites`, stopping at the first delete that fails.
 */
module SitesUncached {
  import opened Errors
  import opened JsonText
  import opened Records
  import opened Store
  import opened StoreFacts
  import opened RedisUtils
  import opened CacheKeys
  import opened Freshness

  /** `site:${id}` for every id listed. */
  function RowKeys(ids: seq<Id>): set<string>
  {
    set id | id in ids :: RowKey(id)
  }

  /** What `invalidateCache` deletes when the store holds `t`. */
  function InvalidatedKeys(t: Tables): set<string>
  {
    RowKeys(SiteIdList(t.sites)) + {ListKey}
  }

  /**
   * None of those keys is one a cached read uses: every cached read's key has
   * the `prefix:method:args` shape, and in a valid store the listed ids hold
   * no colon. The deletes leave every cached document in place.
   */
  lemma InvalidationMissesReads(t: Tables, p: string, m: string, a: string)
    requires Valid(t)
    ensures Key3(p, m, a) !in InvalidatedKeys(t)
  {
    ListKeyNotGenerated(p, m, a);
    forall id | id in SiteIdList(t.sites) ensures RowKey(id) != Key3(p, m, a) {
      var i :| 0 <= i < |SiteIdList(t.sites)| && SiteIdList(t.sites)[i] == id;
      assert t.sites[i] in t.sites;
      RowKeyNotGenerated(id, p, m, a);
    }
  }

  /** After `deleteSite`, the deleted site is no longer listed, so its own `site:${id}` is not among the deletes. */
  lemma DeletedSiteNotInvalidated(t: Tables, id: Id)
    requires Valid(t) && DeleteSiteStep(t, id).result.Ok?
    ensures RowKey(id) !in InvalidatedKeys(DeleteSiteStep(t, id).after)
  {
    var after := DeleteSiteStep(t, id).after;
    RemoveSiteGone(t.sites, id);
    forall x | x in SiteIdList(after.sites) ensures RowKey(x) != RowKey(id) {
      var i :| 0 <= i < |SiteIdList(after.sites)| && SiteIdList(after.sites)[i] == x;
      assert after.sites[i] in after.sites;
      if RowKey(x) == RowKey(id) {
        RowKeyInjective(x, id);
      }
    }
    assert RowKey(id)[4] == ':' && ListKey[4] == 's';
  }

  /** Deleting one more row key extends the deleted prefix of the id list by one. */
  lemma RowKeysStep(entries: map<string, Entry>, ids: seq<Id>, i: nat)
    requires i < |ids|
    ensures entries - RowKeys(ids[..i]) - {RowKey(ids[i])} == entries - RowKeys(ids[..i + 1])
  {
    assert ids[..i + 1] == ids[..i] + [ids[i]];
    assert RowKeys(ids[..i + 1]) == RowKeys(ids[..i]) + {RowKey(ids[i])};
  }

  /** `invalidateCache`: list the site ids, delete each `site:${id}` in turn, then `sites:getAllSites`. */
  method InvalidateCache(redis: RedisClient, db: Database) returns (r: Outcome)
    modifies redis`entries, db`log
    ensures db.log == old(db.log) + [SiteIds]
    ensures redis.connected ==> r == Pass && redis.entries == old(redis.entries) - InvalidatedKeys(db.tables)
    ensures !redis.connected ==> r == Fail(CacheUnavailable) && redis.entries == old(redis.entries)
  {
    ghost var e0 := redis.entries;
    var ids := db.SelectSiteIds();
    var i := 0;
    while i < |ids|
      invariant 0 <= i <= |ids|
      invariant redis.entries == e0 - RowKeys(ids[..i])
      invariant !redis.connected ==> i == 0
      invariant db.log == old(db.log) + [SiteIds]
    {
      var deleted := redis.Delete(RowKey(ids[i]));
      if deleted.Fail? {
        assert ids[..0] == [];
        return deleted;
      }
      RowKeysStep(e0, ids, i);
      i := i + 1;
    }
    assert ids[..i] == ids;
    r := redis.Delete(ListKey);
    DeleteEach(e0, RowKeys(ids), {ListKey});
  }

  class SiteService {
    const redis: RedisClient
    const db: Database

    constructor (redis: RedisClient, db: Database)
      ensures this.redis == redis && this.db == db
    {
      this.redis := redis;
      this.db := db;
    }

    /** `getAllSites`: the store's sites with their assets; the cache is not consulted. */
    method GetAllSites() returns (r: Json)
      modifies db`log
      ensures r == Eval(db.tables, AllSitesWithAssets) && db.log == old(db.log) + [AllSitesWithAssets]
    {
      r := db.Run(AllSitesWithAssets);
    }

    /** `getSiteById`: the store's site with its assets, or null. */
    method GetSiteById(id: Id) returns (r: Json)
      modifies db`log
      ensures r == Eval(db.tables, SiteByIdWithAssets(id)) && db.log == old(db.log) + [SiteByIdWithAssets(id)]
    {
      r := db.Run(SiteByIdWithAssets(id));
    }

    /** The store write, then `invalidateCache`; the call fails if the invalidation does. */
    method Finish(w: Result<Json>) returns (r: Result<Json>)
      modifies redis`entries, db`log
      ensures w.Err? ==> r == w && redis.entries == old(redis.entries) && db.log == old(db.log)
      ensures w.Ok? ==> db.log == old(db.log) + [SiteIds]
      ensures w.Ok? && redis.connected ==> r == w && redis.entries == old(redis.entries) - InvalidatedKeys(db.tables)
      ensures w.Ok? && !redis.connected ==> r == Err(CacheUnavailable) && redis.entries == old(redis.entries)
    {
      if w.Err? {
        return w;
      }
      var invalidated := InvalidateCache(redis, db);
      r := if invalidated.Fail? then Err(invalidated.error) else w;
    }

    /** `createSite`, answering the new site with its assets. */
    method CreateSite(newId: Id, createdAt: int, data: SiteData) returns (r: Result<Json>)
      modifies db`tables, db`log, redis`entries
      ensures var w := CreateSiteStep(old(db.tables), newId, createdAt, data);
        && db.tables == w.after
        && (w.result.Err? ==> r == Err(w.result.error) && redis.entries == old(redis.entries))
        && (w.result.Ok? && redis.connected ==>
              r == IncludeAssets(w, w.after.assets).result && redis.entries == old(redis.entries) - InvalidatedKeys(w.after))
        && (w.result.Ok? && !redis.connected ==> r == Err(CacheUnavailable) && redis.entries == old(redis.entries))
    {
      var created := db.CreateSite(newId, createdAt, data);
      r := Finish(if created.Ok? then Ok(SiteWithAssetsJson(db.tables.assets, created.value)) else Err(created.error));
    }

    /** `updateSite`, answering the updated site with its assets. */
    method UpdateSite(id: Id, patch: SitePatch) returns (r: Result<Json>)
      modifies db`tables, db`log, redis`entries
      ensures var w := UpdateSiteStep(old(db.tables), id, patch);
        && db.tables == w.after
        && (w.result.Err? ==> r == Err(w.result.error) && redis.entries == old(redis.entries))
        && (w.result.Ok? && redis.connected ==>
              r == IncludeAssets(w, w.after.assets).result && redis.entries == old(redis.entries) - InvalidatedKeys(w.after))
        && (w.result.Ok? && !redis.connected ==> r == Err(CacheUnavailable) && redis.entries == old(redis.entries))
    {
      var updated := db.UpdateSite(id, patch);
      r := Finish(if updated.Ok? then Ok(SiteWithAssetsJson(db.tables.assets, updated.value)) else Err(updated.error));
    }

    /** `deleteSite`, answering the deleted site with the assets it had. */
    method DeleteSite(id: Id) returns (r: Result<Json>)
      modifies db`tables, db`log, redis`entries
      ensures var w := DeleteSiteStep(old(db.tables), id);
        && db.tables == w.after
        && (w.result.Err? ==> r == Err(w.result.error) && redis.entries == old(redis.entries))
        && (w.result.Ok? && redis.connected ==>
              r == IncludeAssets(w, old(db.tables).assets).result && redis.entries == old(redis.entries) - InvalidatedKeys(w.after))
        && (w.result.Ok? && !redis.connected ==> r == Err(CacheUnavailable) && redis.entries == old(redis.entries))
    {
      var assets := db.tables.assets;
      var deleted := db.DeleteSite(id);
      r := Finish(if deleted.Ok? then Ok(SiteWithAssetsJson(assets, deleted.value)) else Err(deleted.error));
    }
  }
}

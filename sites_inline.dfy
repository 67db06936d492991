/**
 * The site service whose reads build their cache keys by hand
 * (`src/services/site.ts`). Reads go through the cache; writes change the
 * store and then delete the full list and, for an update or a delete, the
 * record.
 */
module SitesInline {
  import opened Errors
  import opened JsonText
  import opened Records
  import opened Store
  import opened StoreFacts
  import opened RedisUtils
  import opened CacheKeys
  import opened CacheDecorator
  import opened Freshness
  import opened InlineRead

  function CreateSiteCall(entries: map<string, Entry>, connected: bool, t: Tables, newId: Id, createdAt: int, data: SiteData): Call<Site>
  {
    WriteThenDelete(entries, connected, CreateSiteStep(t, newId, createdAt, data), CreateSiteKeys())
  }

  function UpdateSiteCall(entries: map<string, Entry>, connected: bool, t: Tables, id: Id, patch: SitePatch): Call<Site>
  {
    WriteThenDelete(entries, connected, UpdateSiteStep(t, id, patch), ChangeSiteKeys(id))
  }

  function DeleteSiteCall(entries: map<string, Entry>, connected: bool, t: Tables, id: Id): Call<Site>
  {
    WriteThenDelete(entries, connected, DeleteSiteStep(t, id), ChangeSiteKeys(id))
  }

  /** With the cache reachable, creating a site keeps the tables well-formed and the covered reads fresh. */
  lemma CreateSiteCoherent(entries: map<string, Entry>, now: int, t: Tables, newId: Id, createdAt: int, data: SiteData)
    requires Coherent(entries, now, t) && IdShape(newId)
    ensures var c := CreateSiteCall(entries, true, t, newId, createdAt, data);
      Coherent(c.entries, now, c.tables)
  {
    CreateSiteValid(t, newId, createdAt, data);
    CreateSiteFresh(entries, now, t, newId, createdAt, data);
    CallCoherent(entries, now, t, CreateSiteStep(t, newId, createdAt, data), CreateSiteKeys());
  }

  lemma UpdateSiteCoherent(entries: map<string, Entry>, now: int, t: Tables, id: Id, patch: SitePatch)
    requires Coherent(entries, now, t)
    ensures var c := UpdateSiteCall(entries, true, t, id, patch);
      Coherent(c.entries, now, c.tables)
  {
    UpdateSiteValid(t, id, patch);
    UpdateSiteFresh(entries, now, t, id, patch);
    CallCoherent(entries, now, t, UpdateSiteStep(t, id, patch), ChangeSiteKeys(id));
  }

  /**
   * Deleting a site keeps everything fresh only when it owned no assets: it
   * deletes no asset key, while the store nulls the owner of every asset the
   * site had.
   */
  lemma DeleteSiteCoherent(entries: map<string, Entry>, now: int, t: Tables, id: Id)
    requires Coherent(entries, now, t) && OwnedBy(t.assets, id) == []
    ensures var c := DeleteSiteCall(entries, true, t, id);
      Coherent(c.entries, now, c.tables)
  {
    DeleteSiteValid(t, id);
    DeleteSiteFresh(entries, now, t, id);
    CallCoherent(entries, now, t, DeleteSiteStep(t, id), ChangeSiteKeys(id));
  }

  /** The `Promise.all` group of `updateSite` and `deleteSite`: the record and the full list. */
  method InvalidateSite(redis: RedisClient, id: Id) returns (r: Outcome)
    modifies redis`entries
    ensures redis.connected ==> r == Pass && redis.entries == old(redis.entries) - ChangeSiteKeys(id)
    ensures !redis.connected ==> r == Fail(CacheUnavailable) && redis.entries == old(redis.entries)
  {
    ghost var e0 := redis.entries;
    var record := redis.Delete(KeyOf(SiteById(id)));
    var all := redis.Delete(KeyOf(AllSites));
    r := Settle([record, all]);
    DeleteEach(e0, {KeyOf(SiteById(id))}, {KeyOf(AllSites)});
  }

  class SiteService {
    const redis: RedisClient
    const db: Database

    constructor (redis: RedisClient, db: Database)
      ensures this.redis == redis && this.db == db
    {
      this.redis := redis;
      this.db := db;
    }

    /** Well-formed tables, and every cached asset and site read agrees with them. */
    ghost predicate Inv()
      reads redis, db
    {
      Coherent(redis.entries, redis.now, db.tables)
    }

    /** `getAllSites`: cached for an hour under `sites:getAllSites:[]`. */
    method GetAllSites() returns (r: Result<Json>)
      modifies redis`entries, db`log
      ensures Loaded(redis, db, AllSites, 3600, false, r)
      ensures old(Inv()) ==> Inv() && (r.Ok? ==> r.value == Eval(db.tables, AllSites))
    {
      ghost var before := redis.entries;
      r := Load(redis, db, AllSites, 3600, false);
      ReadFresh(before, redis.now, redis.connected, db.tables, AllSites, 3600, false);
    }

    /** `getSiteById`: a found site is cached for an hour; a missing one is not cached. */
    method GetSiteById(id: Id) returns (r: Result<Json>)
      modifies redis`entries, db`log
      ensures Loaded(redis, db, SiteById(id), 3600, true, r)
      ensures old(Inv()) ==> Inv() && (r.Ok? ==> r.value == Eval(db.tables, SiteById(id)))
    {
      ghost var before := redis.entries;
      r := Load(redis, db, SiteById(id), 3600, true);
      ReadFresh(before, redis.now, redis.connected, db.tables, SiteById(id), 3600, true);
    }

    /** `getSiteWithAssets`: a found site is cached with its assets for half an hour; no write deletes this key. */
    method GetSiteWithAssets(id: Id) returns (r: Result<Json>)
      modifies redis`entries, db`log
      ensures Loaded(redis, db, SiteByIdWithAssets(id), 1800, true, r)
      ensures old(Inv()) ==> Inv()
    {
      ghost var before := redis.entries;
      r := Load(redis, db, SiteByIdWithAssets(id), 1800, true);
      ReadFresh(before, redis.now, redis.connected, db.tables, SiteByIdWithAssets(id), 1800, true);
    }

    /** `getSitesByName`: cached for half an hour; no write deletes these keys either. */
    method GetSitesByName(name: string) returns (r: Result<Json>)
      modifies redis`entries, db`log
      ensures Loaded(redis, db, SitesByName(name), 1800, false, r)
      ensures old(Inv()) ==> Inv()
    {
      ghost var before := redis.entries;
      r := Load(redis, db, SitesByName(name), 1800, false);
      ReadFresh(before, redis.now, redis.connected, db.tables, SitesByName(name), 1800, false);
    }

    /** `createSite`: insert, then delete the full list. The store assigns the id and the creation time. */
    method CreateSite(newId: Id, createdAt: int, data: SiteData) returns (r: Result<Site>)
      modifies db`tables, redis`entries
      ensures var c := CreateSiteCall(old(redis.entries), redis.connected, old(db.tables), newId, createdAt, data);
        r == c.result && redis.entries == c.entries && db.tables == c.tables
      ensures old(Inv()) && IdShape(newId) && redis.connected ==> Inv()
    {
      ghost var e0, t0 := redis.entries, db.tables;
      var created := db.CreateSite(newId, createdAt, data);
      if created.Err? {
        return created;
      }
      var all := redis.Delete(KeyOf(AllSites));
      if all.Fail? {
        return Err(all.error);
      }
      r := created;
      if Coherent(e0, redis.now, t0) && IdShape(newId) {
        CreateSiteCoherent(e0, redis.now, t0, newId, createdAt, data);
      }
    }

    /** `updateSite`: update, then delete the record and the full list. */
    method UpdateSite(id: Id, patch: SitePatch) returns (r: Result<Site>)
      modifies db`tables, redis`entries
      ensures var c := UpdateSiteCall(old(redis.entries), redis.connected, old(db.tables), id, patch);
        r == c.result && redis.entries == c.entries && db.tables == c.tables
      ensures old(Inv()) && redis.connected ==> Inv()
    {
      ghost var e0, t0 := redis.entries, db.tables;
      var updated := db.UpdateSite(id, patch);
      if updated.Err? {
        return updated;
      }
      var invalidated := InvalidateSite(redis, id);
      r := if invalidated.Fail? then Err(invalidated.error) else updated;
      if Coherent(e0, redis.now, t0) && redis.connected {
        UpdateSiteCoherent(e0, redis.now, t0, id, patch);
      }
    }

    /**
     * `deleteSite`: delete, then delete the record and the full list. The
     * invariant survives when the site owned no assets.
     */
    method DeleteSite(id: Id) returns (r: Result<Site>)
      modifies db`tables, redis`entries
      ensures var c := DeleteSiteCall(old(redis.entries), redis.connected, old(db.tables), id);
        r == c.result && redis.entries == c.entries && db.tables == c.tables
      ensures old(Inv()) && old(OwnedBy(db.tables.assets, id)) == [] && redis.connected ==> Inv()
    {
      ghost var e0, t0 := redis.entries, db.tables;
      var deleted := db.DeleteSite(id);
      if deleted.Err? {
        return deleted;
      }
      var invalidated := InvalidateSite(redis, id);
      r := if invalidated.Fail? then Err(invalidated.error) else deleted;
      if Coherent(e0, redis.now, t0) && OwnedBy(t0.assets, id) == [] && redis.connected {
        DeleteSiteCoherent(e0, redis.now, t0, id);
      }
    }
  }
}

/**
 * Where invalidate-after-write falls short. Each lemma starts from a cache
 * that agrees with the store at some key, runs one of the services' steps,
 * and shows that a reader would then take a document the store no longer
 * answers.
 */
module Staleness {
  import opened Errors
  import opened JsonText
  import opened Records
  import opened Store
  import opened StoreFacts
  import opened RedisUtils
  import opened CacheKeys
  import opened CacheDecorator
  import opened Freshness
  import opened InlineRead
  import opened AssetWrites
  import opened SitesInline
  import opened SitesDecorated
  import opened SitesUncached

  /** A cached document that a write changed but whose key it did not delete is still taken, and is stale. */
  lemma StaleThroughDelete(entries: map<string, Entry>, now: int, keys: set<string>, k: string, before: Json, after: Json)
    requires Hit(entries, now, k) && FreshAt(entries, now, k, before)
    requires k !in keys && after != before
    ensures Hit(entries - keys, now, k) && Lookup(entries - keys, now, k) != after
  {
    assert Lookup(entries - keys, now, k) == Lookup(entries, now, k);
  }

  /** An owner's list key is never the key of `getAssetsByType` or `getAssetsWithSite`. */
  lemma NotOwnerKey(q: Query, owner: Option<Id>)
    requires q.AssetsByType? || q.AssetsWithSite?
    ensures KeyOf(q) !in OwnerKeys(owner)
  {
    if owner.Some? && KeyOf(q) == KeyOf(AssetsBySite(owner.value)) {
      KeyOfInjective(q, AssetsBySite(owner.value));
    }
  }

  /** No asset write deletes the keys of `getAssetsByType` or `getAssetsWithSite`. */
  lemma AssetWritesMiss(q: Query, id: Id, data: AssetData, before: Option<Asset>, patch: AssetPatch, deleted: Asset)
    requires q.AssetsByType? || q.AssetsWithSite?
    ensures KeyOf(q) !in CreateAssetKeys(data)
    ensures KeyOf(q) !in UpdateAssetKeys(id, before, patch)
    ensures KeyOf(q) !in DeleteAssetKeys(id, deleted)
  {
    if KeyOf(q) == KeyOf(AllAssets) {
      KeyOfInjective(q, AllAssets);
    }
    if KeyOf(q) == KeyOf(AssetById(id)) {
      KeyOfInjective(q, AssetById(id));
    }
    NotOwnerKey(q, data.belongsToId);
    NotOwnerKey(q, if before.Some? then before.value.data.belongsToId else None);
    NotOwnerKey(q, NewOwner(patch));
    NotOwnerKey(q, deleted.data.belongsToId);
  }

  /** No site write deletes the keys of `getSiteWithAssets`, `getSitesByName` or a site's asset list. */
  lemma SiteWritesMiss(q: Query, id: Id)
    requires q.SiteByIdWithAssets? || q.SitesByName? || q.AssetsBySite?
    ensures KeyOf(q) !in CreateSiteKeys() && KeyOf(q) !in ChangeSiteKeys(id)
  {
    if KeyOf(q) == KeyOf(AllSites) {
      KeyOfInjective(q, AllSites);
    }
    if KeyOf(q) == KeyOf(SiteById(id)) {
      KeyOfInjective(q, SiteById(id));
    }
  }

  /**
   * `createAsset` leaves a cached `getAssetsByType` list stale when the new
   * asset's type matches: the list is still taken from the cache, without it.
   */
  lemma CreateAssetLeavesTypedListStale(entries: map<string, Entry>, now: int, t: Tables,
                                        newId: Id, createdAt: int, data: AssetData, x: string)
    requires CreateAssetStep(t, newId, createdAt, data).result.Ok?
    requires ContainsInsensitive(data.assetType, x)
    requires Hit(entries, now, KeyOf(AssetsByType(x)))
    requires FreshAt(entries, now, KeyOf(AssetsByType(x)), Eval(t, AssetsByType(x)))
    ensures var c := CreateAssetCall(entries, true, t, newId, createdAt, data);
      && Hit(c.entries, now, KeyOf(AssetsByType(x)))
      && Lookup(c.entries, now, KeyOf(AssetsByType(x))) != Eval(c.tables, AssetsByType(x))
  {
    var a := Asset(newId, createdAt, data);
    var c := CreateAssetCall(entries, true, t, newId, createdAt, data);
    if KeyOf(AssetsByType(x)) == KeyOf(AllAssets) {
      KeyOfInjective(AssetsByType(x), AllAssets);
    }
    if data.belongsToId.Some? && KeyOf(AssetsByType(x)) == KeyOf(AssetsBySite(data.belongsToId.value)) {
      KeyOfInjective(AssetsByType(x), AssetsBySite(data.belongsToId.value));
    }
    OfTypeAppend(t.assets, a, x);
    assert |OfType(c.tables.assets, x)| == |OfType(t.assets, x)| + 1;
  }

  /**
   * An asset write changes the documents the decorated site service caches
   * with their assets, but deletes neither of its keys: after `createAsset`
   * for site `x`, the cached `site:getSiteById:["x"]` still lists the site
   * without the new asset.
   */
  lemma CreateAssetLeavesSiteWithAssetsStale(entries: map<string, Entry>, now: int, t: Tables,
                                             newId: Id, createdAt: int, data: AssetData, x: Id)
    requires CreateAssetStep(t, newId, createdAt, data).result.Ok? && data.belongsToId == Some(x)
    requires Hit(entries, now, KeyOf(SiteById(x)))
    requires FreshAt(entries, now, KeyOf(SiteById(x)), Eval(t, SiteByIdWithAssets(x)))
    ensures var c := CreateAssetCall(entries, true, t, newId, createdAt, data);
      && Hit(c.entries, now, KeyOf(SiteById(x)))
      && Lookup(c.entries, now, KeyOf(SiteById(x))) != Eval(c.tables, SiteByIdWithAssets(x))
      && !SitesWithAssetsFresh(c.entries, now, c.tables)
  {
    var w := CreateAssetStep(t, newId, createdAt, data);
    CreateAssetChangesSite(t, newId, createdAt, data, x);
    SiteKeyNotAssetKey(x, data.belongsToId);
    StaleThroughDelete(entries, now, CreateAssetKeys(data), KeyOf(SiteById(x)),
                       Eval(t, SiteByIdWithAssets(x)), Eval(w.after, SiteByIdWithAssets(x)));
  }

  /** No asset write deletes a site record key. */
  lemma SiteKeyNotAssetKey(x: Id, owner: Option<Id>)
    ensures KeyOf(SiteById(x)) !in {KeyOf(AllAssets)} + OwnerKeys(owner)
  {
    if KeyOf(SiteById(x)) == KeyOf(AllAssets) {
      KeyOfInjective(SiteById(x), AllAssets);
    }
    if owner.Some? && KeyOf(SiteById(x)) == KeyOf(AssetsBySite(owner.value)) {
      KeyOfInjective(SiteById(x), AssetsBySite(owner.value));
    }
  }

  /** Creating an asset for site `x` changes the store's answer to `x` with its assets. */
  lemma CreateAssetChangesSite(t: Tables, newId: Id, createdAt: int, data: AssetData, x: Id)
    requires CreateAssetStep(t, newId, createdAt, data).result.Ok? && data.belongsToId == Some(x)
    ensures Eval(CreateAssetStep(t, newId, createdAt, data).after, SiteByIdWithAssets(x)) != Eval(t, SiteByIdWithAssets(x))
  {
    var a := Asset(newId, createdAt, data);
    var site := FindSite(t.sites, x).value;
    var after := CreateAssetStep(t, newId, createdAt, data).after;
    assert after == Tables(t.assets + [a], t.sites);
    assert Eval(after, SiteByIdWithAssets(x)) == SiteWithAssetsJson(t.assets + [a], site);
    assert Eval(t, SiteByIdWithAssets(x)) == SiteWithAssetsJson(t.assets, site);
    SiteWithAssetsGrows(t.assets, a, site);
  }

  /** A site's document with its assets changes when it gains an asset. */
  lemma SiteWithAssetsGrows(assets: seq<Asset>, a: Asset, site: Site)
    requires a.data.belongsToId == Some(site.id)
    ensures SiteWithAssetsJson(assets + [a], site) != SiteWithAssetsJson(assets, site)
  {
    OwnedByAppend(assets, a, site.id);
    var j := SiteWithAssetsJson(assets + [a], site);
    var j' := SiteWithAssetsJson(assets, site);
    assert |j.fields[4].1.items| == |OwnedBy(assets, site.id)| + 1;
    assert |j'.fields[4].1.items| == |OwnedBy(assets, site.id)|;
  }

  /**
   * `deleteSite` nulls the owner of the site's assets but deletes no asset
   * key, so a cached list of a site's assets outlives the site.
   */
  lemma DeleteSiteLeavesOwnedListStale(entries: map<string, Entry>, now: int, t: Tables, id: Id)
    requires Valid(t) && DeleteSiteStep(t, id).result.Ok?
    requires OwnedBy(t.assets, id) != []
    requires Hit(entries, now, KeyOf(AssetsBySite(id)))
    requires FreshAt(entries, now, KeyOf(AssetsBySite(id)), Eval(t, AssetsBySite(id)))
    ensures var c := DeleteSiteCall(entries, true, t, id);
      && Hit(c.entries, now, KeyOf(AssetsBySite(id)))
      && Lookup(c.entries, now, KeyOf(AssetsBySite(id))) != Eval(c.tables, AssetsBySite(id))
  {
    var w := DeleteSiteStep(t, id);
    DeleteSiteThenRead(t, id);
    SiteWritesMiss(AssetsBySite(id), id);
    assert |Eval(t, AssetsBySite(id)).items| == |OwnedBy(t.assets, id)|;
    StaleThroughDelete(entries, now, ChangeSiteKeys(id), KeyOf(AssetsBySite(id)),
                       Eval(t, AssetsBySite(id)), Eval(w.after, AssetsBySite(id)));
  }

  /**
   * A write while the cache is unreachable changes the store and then fails
   * on its first delete, so every document it should have removed stays: a
   * deleted asset is still served from the cache.
   */
  lemma OutageLeavesDeletedAssetCached(entries: map<string, Entry>, now: int, t: Tables, id: Id)
    requires Valid(t) && DeleteAssetStep(t, id).result.Ok?
    requires Hit(entries, now, KeyOf(AssetById(id)))
    requires FreshAt(entries, now, KeyOf(AssetById(id)), Eval(t, AssetById(id)))
    ensures var c := DeleteAssetCall(entries, false, t, id);
      && c.result == Err(CacheUnavailable)
      && FindAsset(c.tables.assets, id).None?
      && Hit(c.entries, now, KeyOf(AssetById(id)))
      && Lookup(c.entries, now, KeyOf(AssetById(id))) == AssetJson(FindAsset(t.assets, id).value)
  {
    RemoveAssetGone(t.assets, id);
  }

  /**
   * The decorated site service deletes nothing on a write: after
   * `createSite` the cached list of sites lacks the new site.
   */
  lemma DecoratedCreateSiteLeavesListStale(entries: map<string, Entry>, now: int, t: Tables,
                                           newId: Id, createdAt: int, data: SiteData)
    requires CreateSiteStep(t, newId, createdAt, data).result.Ok?
    requires Hit(entries, now, KeyOf(AllSites))
    requires FreshAt(entries, now, KeyOf(AllSites), Eval(t, AllSitesWithAssets))
    ensures var w := CreateSiteStep(t, newId, createdAt, data);
      !SitesWithAssetsFresh(entries, now, w.after)
  {
    var w := CreateSiteStep(t, newId, createdAt, data);
    assert |w.after.sites| == |t.sites| + 1;
    assert !FreshAt(entries, now, KeyOf(AllSites), Eval(w.after, AllSitesWithAssets));
  }

  /** Once the store holds a site, the list with assets and the list without them are different documents. */
  lemma SiteListsDiffer(t: Tables)
    requires t.sites != []
    ensures Eval(t, AllSitesWithAssets) != Eval(t, AllSites)
  {
    var s := t.sites[0];
    assert Eval(t, AllSitesWithAssets).items[0] == SiteWithAssetsJson(t.assets, s);
    assert Eval(t, AllSites).items[0] == SiteJson(s);
    assert |SiteWithAssetsJson(t.assets, s).fields| != |SiteJson(s).fields|;
  }

  /**
   * The two site services share the key `sites:getAllSites:[]` but cache
   * different documents under it: once a store holds a site, the list the
   * decorated service caches is the wrong document for `site.ts`.
   */
  lemma SharedKeyConflict(entries: map<string, Entry>, now: int, t: Tables)
    requires t.sites != [] && !Hit(entries, now, KeyOf(AllSites))
    ensures var o := Decorated(entries, now, true, t, AllSitesOptions, "getAllSites", [], AllSitesWithAssets);
      !SitesFresh(o.entries, now, t)
  {
    DecoratedKey(AllSites, 3600);
    assert OptionsFor(AllSites, 3600) == AllSitesOptions;
    SiteListsDiffer(t);
    var o := Decorated(entries, now, true, t, AllSitesOptions, "getAllSites", [], AllSitesWithAssets);
    assert Lookup(o.entries, now, KeyOf(AllSites)) == Eval(t, AllSitesWithAssets);
    assert !FreshAt(o.entries, now, KeyOf(AllSites), Eval(t, AllSites));
  }

  /** And the list `site.ts` caches is the wrong document for the decorated service. */
  lemma SharedKeyConflictBack(entries: map<string, Entry>, now: int, t: Tables)
    requires t.sites != [] && !Hit(entries, now, KeyOf(AllSites))
    ensures var r := ReadThrough(entries, now, true, t, AllSites, 3600, false);
      !SitesWithAssetsFresh(r.entries, now, t)
  {
    SiteListsDiffer(t);
    var r := ReadThrough(entries, now, true, t, AllSites, 3600, false);
    assert Lookup(r.entries, now, KeyOf(AllSites)) == Eval(t, AllSites);
  }

  /**
   * The uncached site service deletes `site:${id}` and `sites:getAllSites`,
   * keys no cached read uses: after its `updateSite` a site cached by the
   * hand-written site service is still served as it was.
   */
  lemma UncachedUpdateLeavesSiteStale(entries: map<string, Entry>, now: int, t: Tables, id: Id, patch: SitePatch)
    requires Valid(t) && UpdateSiteStep(t, id, patch).result.Ok?
    requires PatchSite(FindSite(t.sites, id).value.data, patch) != FindSite(t.sites, id).value.data
    requires Hit(entries, now, KeyOf(SiteById(id)))
    requires FreshAt(entries, now, KeyOf(SiteById(id)), Eval(t, SiteById(id)))
    ensures var after := UpdateSiteStep(t, id, patch).after;
      && Hit(entries - InvalidatedKeys(after), now, KeyOf(SiteById(id)))
      && Lookup(entries - InvalidatedKeys(after), now, KeyOf(SiteById(id))) != Eval(after, SiteById(id))
  {
    var w := UpdateSiteStep(t, id, patch);
    UpdateSiteValid(t, id, patch);
    InvalidationMissesReads(w.after, PrefixOf(SiteById(id)), NameOf(SiteById(id)), ArgsOf(SiteById(id)));
    UpdateSiteThenRead(t, id, patch);
  }
}

/**
 * The consistency the cache layer is for: a document a reader takes from the
 * cache is the document the store would answer now. It is stated per key
 * family, for the families whose every change some write invalidates, and
 * each step the services take is shown to keep it.
 */
module Freshness {
  import opened Errors
  import opened JsonText
  import opened Records
  import opened Store
  import opened StoreFacts
  import opened RedisUtils
  import opened CacheKeys
  import opened CacheDecorator

  /** If a reader would take the document cached at `key`, it is `expected`. */
  predicate FreshAt(entries: map<string, Entry>, now: int, key: string, expected: Json)
  {
    Hit(entries, now, key) ==> Lookup(entries, now, key) == expected
  }

  /** The asset reads whose keys the asset writes delete. */
  predicate AssetFamily(q: Query)
  {
    q.AllAssets? || q.AssetById? || q.AssetsBySite?
  }

  /** The site reads whose keys the hand-written site writes delete. */
  predicate SiteFamily(q: Query)
  {
    q.AllSites? || q.SiteById?
  }

  ghost predicate AssetsFresh(entries: map<string, Entry>, now: int, t: Tables)
  {
    forall q :: AssetFamily(q) ==> FreshAt(entries, now, KeyOf(q), Eval(t, q))
  }

  ghost predicate SitesFresh(entries: map<string, Entry>, now: int, t: Tables)
  {
    forall q :: SiteFamily(q) ==> FreshAt(entries, now, KeyOf(q), Eval(t, q))
  }

  /** The decorated site service caches sites with their assets under the same two keys. */
  ghost predicate SitesWithAssetsFresh(entries: map<string, Entry>, now: int, t: Tables)
  {
    && FreshAt(entries, now, KeyOf(AllSites), Eval(t, AllSitesWithAssets))
    && forall x :: FreshAt(entries, now, KeyOf(SiteById(x)), Eval(t, SiteByIdWithAssets(x)))
  }

  // ---------------------------------------------------------------------
  // Steps that change only the cache.

  /** Writing `v` at `k` keeps `k'` fresh when `k'` is another key or `v` is what it should hold. */
  lemma PutFreshAt(entries: map<string, Entry>, now: int, k: string, v: Json, ttl: Option<nat>, k': string, expected: Json)
    requires FreshAt(entries, now, k', expected)
    requires k' == k ==> v == expected
    ensures FreshAt(entries[k := Entry(v, ttl, now)], now, k', expected)
  {
  }

  /**
   * Caching a document under a query's key keeps every family fresh, as long
   * as a family's key receives the store's answer for it.
   */
  lemma PutKeepsFresh(entries: map<string, Entry>, now: int, t: Tables, q: Query, v: Json, ttl: Option<nat>)
    requires Keyed(q)
    requires AssetFamily(q) || SiteFamily(q) ==> v == Eval(t, q)
    ensures AssetsFresh(entries, now, t) ==> AssetsFresh(entries[KeyOf(q) := Entry(v, ttl, now)], now, t)
    ensures SitesFresh(entries, now, t) ==> SitesFresh(entries[KeyOf(q) := Entry(v, ttl, now)], now, t)
  {
    var e := entries[KeyOf(q) := Entry(v, ttl, now)];
    if AssetsFresh(entries, now, t) {
      forall q' | AssetFamily(q') ensures FreshAt(e, now, KeyOf(q'), Eval(t, q')) {
        if KeyOf(q') == KeyOf(q) {
          KeyOfInjective(q', q);
        }
        PutFreshAt(entries, now, KeyOf(q), v, ttl, KeyOf(q'), Eval(t, q'));
      }
    }
    if SitesFresh(entries, now, t) {
      forall q' | SiteFamily(q') ensures FreshAt(e, now, KeyOf(q'), Eval(t, q')) {
        if KeyOf(q') == KeyOf(q) {
          KeyOfInjective(q', q);
        }
        PutFreshAt(entries, now, KeyOf(q), v, ttl, KeyOf(q'), Eval(t, q'));
      }
    }
  }

  /** The same for the decorated site service's documents. */
  lemma PutKeepsSitesWithAssetsFresh(entries: map<string, Entry>, now: int, t: Tables, q: Query, v: Json, ttl: Option<nat>)
    requires Keyed(q)
    requires q.AllSites? ==> v == Eval(t, AllSitesWithAssets)
    requires q.SiteById? ==> v == Eval(t, SiteByIdWithAssets(q.id))
    ensures SitesWithAssetsFresh(entries, now, t) ==> SitesWithAssetsFresh(entries[KeyOf(q) := Entry(v, ttl, now)], now, t)
  {
    if KeyOf(AllSites) == KeyOf(q) {
      KeyOfInjective(AllSites, q);
    }
    forall x ensures KeyOf(SiteById(x)) == KeyOf(q) ==> SiteById(x) == q {
      if KeyOf(SiteById(x)) == KeyOf(q) {
        KeyOfInjective(SiteById(x), q);
      }
    }
  }

  /** Deleting keys never makes an entry stale. */
  lemma DeleteKeepsFresh(entries: map<string, Entry>, now: int, t: Tables, keys: set<string>)
    ensures AssetsFresh(entries, now, t) ==> AssetsFresh(entries - keys, now, t)
    ensures SitesFresh(entries, now, t) ==> SitesFresh(entries - keys, now, t)
    ensures SitesWithAssetsFresh(entries, now, t) ==> SitesWithAssetsFresh(entries - keys, now, t)
  {
  }

  /** Time passing only expires entries. */
  lemma AdvanceKeepsFresh(entries: map<string, Entry>, now: int, later: int, t: Tables)
    requires now <= later
    ensures AssetsFresh(entries, now, t) ==> AssetsFresh(entries, later, t)
    ensures SitesFresh(entries, now, t) ==> SitesFresh(entries, later, t)
    ensures SitesWithAssetsFresh(entries, now, t) ==> SitesWithAssetsFresh(entries, later, t)
  {
    assert forall k :: Present(entries, later, k) ==> Present(entries, now, k);
  }

  // ---------------------------------------------------------------------
  // Escaped arguments.

  lemma {:induction false} NoneOwned(rows: seq<Asset>, y: string)
    requires forall a :: a in rows ==> a.data.belongsToId != Some(y)
    ensures OwnedBy(rows, y) == []
  {
    if rows != [] {
      assert rows[0] in rows;
      NoneOwned(rows[1..], y);
    }
  }

  /** An argument that is not plain is no id the store holds, nor the owner of any asset. */
  lemma NonPlainAbsent(t: Tables, y: string)
    requires Valid(t) && !Plain(y)
    ensures FindAsset(t.assets, y).None? && FindSite(t.sites, y).None? && OwnedBy(t.assets, y) == []
  {
    forall a | a in t.assets ensures a.data.belongsToId != Some(y) {
      if a.data.belongsToId.Some? {
        var owner := FindSite(t.sites, a.data.belongsToId.value).value;
        assert Plain(owner.id);
      }
    }
    NoneOwned(t.assets, y);
  }

  /**
   * In a valid store, a lookup by an escaped argument answers what the lookup
   * by the argument itself does: either the argument is plain and escaping
   * leaves it alone, or neither finds anything.
   */
  lemma EscapedEval(t: Tables, q: Query)
    requires Valid(t)
    requires !q.AssetsByType? && !q.SitesByName?
    ensures Eval(t, Escaped(q)) == Eval(t, q)
  {
    match q
    case AssetById(x) => EscapedArg(t, x);
    case AssetsBySite(x) => EscapedArg(t, x);
    case SiteById(x) => EscapedArg(t, x);
    case SiteByIdWithAssets(x) => EscapedArg(t, x);
    case _ =>
  }

  /** Escaping leaves a plain argument alone; a store holds neither a non-plain argument nor its escape. */
  lemma EscapedArg(t: Tables, x: string)
    requires Valid(t)
    ensures Plain(x) ==> Escape(x) == x
    ensures !Plain(x) ==> && FindAsset(t.assets, x).None? && FindSite(t.sites, x).None? && OwnedBy(t.assets, x) == []
                          && FindAsset(t.assets, Escape(x)).None? && FindSite(t.sites, Escape(x)).None?
                          && OwnedBy(t.assets, Escape(x)) == []
  {
    if Plain(x) {
      EscapePlain(x);
    } else {
      EscapeNonPlain(x);
      NonPlainAbsent(t, x);
      NonPlainAbsent(t, Escape(x));
    }
  }

  /** Escaping the argument keeps the kind of read. */
  lemma EscapedFamily(q: Query)
    requires Keyed(q)
    ensures Keyed(Escaped(q)) && (AssetFamily(Escaped(q)) <==> AssetFamily(q)) && (SiteFamily(Escaped(q)) <==> SiteFamily(q))
  {
    match q
    case AssetById(_) =>
    case AssetsBySite(_) =>
    case SiteById(_) =>
    case _ =>
  }

  /**
   * A decorated read with the prefix the hand-written keys use keeps the cache
   * fresh and, while it is fresh, answers what the store holds: it caches under
   * the hand-written key of the escaped query, whose answer in a valid store is
   * the query's own.
   */
  lemma DecoratedFresh(entries: map<string, Entry>, now: int, connected: bool, t: Tables, q: Query, ttl: int)
    requires Valid(t) && Keyed(q)
    ensures var o := Decorated(entries, now, connected, t, OptionsFor(q, ttl), NameOf(q), CallArgs(q), q);
      AssetsFresh(entries, now, t) && AssetFamily(q) && o.result.Ok? ==> o.result.value == Eval(t, q)
    ensures var o := Decorated(entries, now, connected, t, OptionsFor(q, ttl), NameOf(q), CallArgs(q), q);
      SitesFresh(entries, now, t) && SiteFamily(q) && o.result.Ok? ==> o.result.value == Eval(t, q)
    ensures var o := Decorated(entries, now, connected, t, OptionsFor(q, ttl), NameOf(q), CallArgs(q), q);
      AssetsFresh(entries, now, t) ==> AssetsFresh(o.entries, now, t)
    ensures var o := Decorated(entries, now, connected, t, OptionsFor(q, ttl), NameOf(q), CallArgs(q), q);
      SitesFresh(entries, now, t) ==> SitesFresh(o.entries, now, t)
  {
    var options := OptionsFor(q, ttl);
    var o := Decorated(entries, now, connected, t, options, NameOf(q), CallArgs(q), q);
    var e := Escaped(q);
    DecoratedKey(q, ttl);
    EscapedFamily(q);
    if AssetFamily(q) || SiteFamily(q) {
      EscapedEval(t, q);
    }
    if connected && !Hit(entries, now, KeyOf(e)) && o.entries != entries {
      PutKeepsFresh(entries, now, t, e, Eval(t, q), Some(TtlOf(options) as nat));
    }
  }

  // ---------------------------------------------------------------------
  // Store writes followed by the deletes the services issue.

  /** A write call's answer, the key space afterwards and the tables afterwards. */
  datatype Call<T> = Call(result: Result<T>, entries: map<string, Entry>, tables: Tables)

  /** The store write `w` followed by deleting `keys`. */
  function WriteThenDelete<T>(entries: map<string, Entry>, connected: bool, w: Write<T>, keys: set<string>): Call<T>
  {
    if w.result.Err? then Call(w.result, entries, w.after)
    else if !connected then Call(Err(CacheUnavailable), entries, w.after)
    else Call(w.result, entries - keys, w.after)
  }

  /** Well-formed tables with every cached asset and site read agreeing with them. */
  ghost predicate Coherent(entries: map<string, Entry>, now: int, t: Tables)
  {
    Valid(t) && AssetsFresh(entries, now, t) && SitesFresh(entries, now, t)
  }

  /**
   * A write call with the cache reachable keeps the cache coherent when a
   * failed write leaves the tables alone and a successful one leaves them
   * well-formed and every covered read fresh once its keys are deleted.
   */
  lemma CallCoherent<T>(entries: map<string, Entry>, now: int, t: Tables, w: Write<T>, keys: set<string>)
    requires Coherent(entries, now, t) && Valid(w.after)
    requires w.result.Err? ==> w.after == t
    requires w.result.Ok? ==> AssetsFresh(entries - keys, now, w.after) && SitesFresh(entries - keys, now, w.after)
    ensures var c := WriteThenDelete(entries, true, w, keys);
      Coherent(c.entries, now, c.tables)
  {
  }

  /** Deleting the keys one at a time removes their union. */
  lemma DeleteEach(entries: map<string, Entry>, a: set<string>, b: set<string>)
    ensures entries - a - b == entries - (a + b)
  {
  }

  /** The four deletes of `updateAsset`, one key or owner list at a time, remove their union. */
  lemma DeleteFour(entries: map<string, Entry>, a: string, b: string, c: set<string>, d: set<string>)
    ensures entries - {a} - {b} - c - d == entries - ({a, b} + c + d)
  {
  }

  /**
   * A cached read stays fresh through a store write and a set of deletes
   * when the write leaves its answer alone, when its key is deleted, or when
   * its answer was null before, which no reader takes from the cache.
   */
  lemma FreshThroughWrite(entries: map<string, Entry>, now: int, keys: set<string>, k: string, before: Json, after: Json)
    requires FreshAt(entries, now, k, before)
    requires after == before || k in keys || before == JNull
    ensures FreshAt(entries - keys, now, k, after)
  {
  }

  /** Asset writes leave the site reads alone, so deleting keys keeps them fresh. */
  lemma SitesUntouched(entries: map<string, Entry>, now: int, t: Tables, t': Tables, keys: set<string>)
    requires t'.sites == t.sites && SitesFresh(entries, now, t)
    ensures SitesFresh(entries - keys, now, t')
  {
    forall q | SiteFamily(q) ensures FreshAt(entries - keys, now, KeyOf(q), Eval(t', q)) {
      assert Eval(t', q) == Eval(t, q);
    }
  }

  /** Site writes that leave the asset table alone keep the asset reads fresh. */
  lemma AssetsUntouched(entries: map<string, Entry>, now: int, t: Tables, t': Tables, keys: set<string>)
    requires t'.assets == t.assets && AssetsFresh(entries, now, t)
    ensures AssetsFresh(entries - keys, now, t')
  {
    forall q | AssetFamily(q) ensures FreshAt(entries - keys, now, KeyOf(q), Eval(t', q)) {
      assert Eval(t', q) == Eval(t, q);
    }
  }

  /** Every asset read that `createAsset` changes has its key among the deleted ones, or was null. */
  lemma CreateAssetInvalidates(t: Tables, newId: Id, createdAt: int, data: AssetData, q: Query)
    requires Valid(t) && AssetFamily(q)
    requires CreateAssetStep(t, newId, createdAt, data).result.Ok?
    ensures var after := CreateAssetStep(t, newId, createdAt, data).after;
      Eval(after, q) == Eval(t, q) || KeyOf(q) in CreateAssetKeys(data) || Eval(t, q) == JNull
  {
    var a := Asset(newId, createdAt, data);
    var after := CreateAssetStep(t, newId, createdAt, data).after;
    assert after.assets == t.assets + [a];
    match q
    case AllAssets =>
      assert KeyOf(q) in CreateAssetKeys(data);
    case AssetById(x) =>
      FindAssetAppend(t.assets, a, x);
      if FindAsset(t.assets, x).Some? || x != newId {
        assert FindAsset(after.assets, x) == FindAsset(t.assets, x);
      }
    case AssetsBySite(x) =>
      OwnedByAppend(t.assets, a, x);
      if data.belongsToId == Some(x) {
        assert FindSite(t.sites, x).value in t.sites;
        assert KeyOf(q) in OwnerKeys(data.belongsToId);
      } else {
        assert OwnedBy(after.assets, x) == OwnedBy(t.assets, x);
      }
  }

  /** Every asset read that `updateAsset` changes has its key among the deleted ones. */
  lemma UpdateAssetInvalidates(t: Tables, id: Id, patch: AssetPatch, q: Query)
    requires Valid(t) && AssetFamily(q)
    requires UpdateAssetStep(t, id, patch).result.Ok?
    ensures var after := UpdateAssetStep(t, id, patch).after;
      Eval(after, q) == Eval(t, q) || KeyOf(q) in UpdateAssetKeys(id, FindAsset(t.assets, id), patch)
  {
    var w := UpdateAssetStep(t, id, patch);
    var a := w.result.value;
    var current := FindAsset(t.assets, id).value;
    assert current in t.assets;
    if q.AssetById? {
      FindAssetReplace(t.assets, id, a, q.id);
    } else if q.AssetsBySite? {
      var s := q.siteId;
      if current.data.belongsToId == Some(s) {
        assert FindSite(t.sites, s).value in t.sites;
      } else if a.data.belongsToId == Some(s) {
        assert NewOwner(patch) == Some(s);
        assert FindSite(t.sites, s).value in t.sites;
      } else {
        OwnedByReplace(t.assets, id, a, s);
      }
    }
  }

  /** Every asset read that `deleteAsset` changes has its key among the deleted ones. */
  lemma DeleteAssetInvalidates(t: Tables, id: Id, q: Query)
    requires Valid(t) && AssetFamily(q)
    requires DeleteAssetStep(t, id).result.Ok?
    ensures var w := DeleteAssetStep(t, id);
      Eval(w.after, q) == Eval(t, q) || KeyOf(q) in DeleteAssetKeys(id, w.result.value)
  {
    var current := DeleteAssetStep(t, id).result.value;
    assert current in t.assets;
    if q.AssetById? && q.id != id {
      FindAssetRemove(t.assets, id, q.id);
    } else if q.AssetsBySite? {
      if current.data.belongsToId == Some(q.siteId) {
        assert FindSite(t.sites, q.siteId).value in t.sites;
      } else {
        OwnedByRemove(t.assets, id, q.siteId);
      }
    }
  }

  lemma CreateAssetFresh(entries: map<string, Entry>, now: int, t: Tables, newId: Id, createdAt: int, data: AssetData)
    requires Valid(t)
    ensures var w := CreateAssetStep(t, newId, createdAt, data);
      w.result.Ok? && AssetsFresh(entries, now, t) ==> AssetsFresh(entries - CreateAssetKeys(data), now, w.after)
    ensures var w := CreateAssetStep(t, newId, createdAt, data);
      w.result.Ok? && SitesFresh(entries, now, t) ==> SitesFresh(entries - CreateAssetKeys(data), now, w.after)
  {
    var w := CreateAssetStep(t, newId, createdAt, data);
    if w.result.Ok? && AssetsFresh(entries, now, t) {
      forall q | AssetFamily(q) ensures FreshAt(entries - CreateAssetKeys(data), now, KeyOf(q), Eval(w.after, q)) {
        CreateAssetInvalidates(t, newId, createdAt, data, q);
        FreshThroughWrite(entries, now, CreateAssetKeys(data), KeyOf(q), Eval(t, q), Eval(w.after, q));
      }
    }
    if w.result.Ok? && SitesFresh(entries, now, t) {
      SitesUntouched(entries, now, t, w.after, CreateAssetKeys(data));
    }
  }

  lemma UpdateAssetFresh(entries: map<string, Entry>, now: int, t: Tables, id: Id, patch: AssetPatch)
    requires Valid(t)
    ensures var w := UpdateAssetStep(t, id, patch);
      w.result.Ok? && AssetsFresh(entries, now, t) ==>
        AssetsFresh(entries - UpdateAssetKeys(id, FindAsset(t.assets, id), patch), now, w.after)
    ensures var w := UpdateAssetStep(t, id, patch);
      w.result.Ok? && SitesFresh(entries, now, t) ==>
        SitesFresh(entries - UpdateAssetKeys(id, FindAsset(t.assets, id), patch), now, w.after)
  {
    var w := UpdateAssetStep(t, id, patch);
    var keys := UpdateAssetKeys(id, FindAsset(t.assets, id), patch);
    if w.result.Ok? && AssetsFresh(entries, now, t) {
      forall q | AssetFamily(q) ensures FreshAt(entries - keys, now, KeyOf(q), Eval(w.after, q)) {
        UpdateAssetInvalidates(t, id, patch, q);
        FreshThroughWrite(entries, now, keys, KeyOf(q), Eval(t, q), Eval(w.after, q));
      }
    }
    if w.result.Ok? && SitesFresh(entries, now, t) {
      SitesUntouched(entries, now, t, w.after, keys);
    }
  }

  lemma DeleteAssetFresh(entries: map<string, Entry>, now: int, t: Tables, id: Id)
    requires Valid(t)
    ensures var w := DeleteAssetStep(t, id);
      w.result.Ok? && AssetsFresh(entries, now, t) ==>
        AssetsFresh(entries - DeleteAssetKeys(id, w.result.value), now, w.after)
    ensures var w := DeleteAssetStep(t, id);
      w.result.Ok? && SitesFresh(entries, now, t) ==>
        SitesFresh(entries - DeleteAssetKeys(id, w.result.value), now, w.after)
  {
    var w := DeleteAssetStep(t, id);
    if w.result.Ok? && AssetsFresh(entries, now, t) {
      var keys := DeleteAssetKeys(id, w.result.value);
      forall q | AssetFamily(q) ensures FreshAt(entries - keys, now, KeyOf(q), Eval(w.after, q)) {
        DeleteAssetInvalidates(t, id, q);
        FreshThroughWrite(entries, now, keys, KeyOf(q), Eval(t, q), Eval(w.after, q));
      }
    }
    if w.result.Ok? && SitesFresh(entries, now, t) {
      SitesUntouched(entries, now, t, w.after, DeleteAssetKeys(id, w.result.value));
    }
  }

  /** Every site read that `createSite` changes has its key among the deleted ones, or was null. */
  lemma CreateSiteInvalidates(t: Tables, newId: Id, createdAt: int, data: SiteData, q: Query)
    requires SiteFamily(q) && CreateSiteStep(t, newId, createdAt, data).result.Ok?
    ensures var w := CreateSiteStep(t, newId, createdAt, data);
      Eval(w.after, q) == Eval(t, q) || KeyOf(q) in CreateSiteKeys() || Eval(t, q) == JNull
  {
    if q.SiteById? {
      FindSiteAppend(t.sites, Site(newId, createdAt, data), q.id);
    }
  }

  /** Every site read that `updateSite` changes has its key among the deleted ones. */
  lemma UpdateSiteInvalidates(t: Tables, id: Id, patch: SitePatch, q: Query)
    requires SiteFamily(q) && UpdateSiteStep(t, id, patch).result.Ok?
    ensures var w := UpdateSiteStep(t, id, patch);
      Eval(w.after, q) == Eval(t, q) || KeyOf(q) in ChangeSiteKeys(id)
  {
    if q.SiteById? && q.id != id {
      FindSiteReplace(t.sites, id, UpdateSiteStep(t, id, patch).result.value, q.id);
    }
  }

  /** Every site read that `deleteSite` changes has its key among the deleted ones. */
  lemma DeleteSiteInvalidates(t: Tables, id: Id, q: Query)
    requires SiteFamily(q) && DeleteSiteStep(t, id).result.Ok?
    ensures var w := DeleteSiteStep(t, id);
      Eval(w.after, q) == Eval(t, q) || KeyOf(q) in ChangeSiteKeys(id)
  {
    if q.SiteById? && q.id != id {
      FindSiteRemove(t.sites, id, q.id);
    }
  }

  lemma CreateSiteFresh(entries: map<string, Entry>, now: int, t: Tables, newId: Id, createdAt: int, data: SiteData)
    ensures var w := CreateSiteStep(t, newId, createdAt, data);
      w.result.Ok? && SitesFresh(entries, now, t) ==> SitesFresh(entries - CreateSiteKeys(), now, w.after)
    ensures var w := CreateSiteStep(t, newId, createdAt, data);
      w.result.Ok? && AssetsFresh(entries, now, t) ==> AssetsFresh(entries - CreateSiteKeys(), now, w.after)
  {
    var w := CreateSiteStep(t, newId, createdAt, data);
    var keys := CreateSiteKeys();
    if w.result.Ok? && SitesFresh(entries, now, t) {
      forall q | SiteFamily(q) ensures FreshAt(entries - keys, now, KeyOf(q), Eval(w.after, q)) {
        CreateSiteInvalidates(t, newId, createdAt, data, q);
        FreshThroughWrite(entries, now, keys, KeyOf(q), Eval(t, q), Eval(w.after, q));
      }
    }
    if w.result.Ok? && AssetsFresh(entries, now, t) {
      AssetsUntouched(entries, now, t, w.after, keys);
    }
  }

  lemma UpdateSiteFresh(entries: map<string, Entry>, now: int, t: Tables, id: Id, patch: SitePatch)
    ensures var w := UpdateSiteStep(t, id, patch);
      w.result.Ok? && SitesFresh(entries, now, t) ==> SitesFresh(entries - ChangeSiteKeys(id), now, w.after)
    ensures var w := UpdateSiteStep(t, id, patch);
      w.result.Ok? && AssetsFresh(entries, now, t) ==> AssetsFresh(entries - ChangeSiteKeys(id), now, w.after)
  {
    var w := UpdateSiteStep(t, id, patch);
    var keys := ChangeSiteKeys(id);
    if w.result.Ok? && SitesFresh(entries, now, t) {
      forall q | SiteFamily(q) ensures FreshAt(entries - keys, now, KeyOf(q), Eval(w.after, q)) {
        UpdateSiteInvalidates(t, id, patch, q);
        FreshThroughWrite(entries, now, keys, KeyOf(q), Eval(t, q), Eval(w.after, q));
      }
    }
    if w.result.Ok? && AssetsFresh(entries, now, t) {
      AssetsUntouched(entries, now, t, w.after, keys);
    }
  }

  /**
   * Deleting a site keeps the site keys fresh; the asset keys stay fresh when
   * the site owned no assets, since otherwise their owner is nulled and no
   * asset key is deleted.
   */
  lemma DeleteSiteFresh(entries: map<string, Entry>, now: int, t: Tables, id: Id)
    ensures var w := DeleteSiteStep(t, id);
      w.result.Ok? && SitesFresh(entries, now, t) ==> SitesFresh(entries - ChangeSiteKeys(id), now, w.after)
    ensures var w := DeleteSiteStep(t, id);
      w.result.Ok? && OwnedBy(t.assets, id) == [] && AssetsFresh(entries, now, t) ==>
        AssetsFresh(entries - ChangeSiteKeys(id), now, w.after)
  {
    var w := DeleteSiteStep(t, id);
    var keys := ChangeSiteKeys(id);
    if w.result.Ok? && SitesFresh(entries, now, t) {
      forall q | SiteFamily(q) ensures FreshAt(entries - keys, now, KeyOf(q), Eval(w.after, q)) {
        DeleteSiteInvalidates(t, id, q);
        FreshThroughWrite(entries, now, keys, KeyOf(q), Eval(t, q), Eval(w.after, q));
      }
    }
    if w.result.Ok? && OwnedBy(t.assets, id) == [] && AssetsFresh(entries, now, t) {
      DetachNothing(t.assets, id);
      AssetsUntouched(entries, now, t, w.after, keys);
    }
  }
}

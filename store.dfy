/**
 * The relational store behind the services (Prisma over the `Site` and
 * `Asset` tables), as the services use it: the read queries, each answered
 * with the JSON document the service returns and caches, and the writes,
 * each with the error codes Prisma raises. The store is the authority the
 * cache is checked against.
 */
module Store {
  import opened Errors
  import opened JsonText
  import opened Records

  /** The rows of both tables, in the order the store lists them. */
  datatype Tables = Tables(assets: seq<Asset>, sites: seq<Site>)

  /** The reads the services issue. */
  datatype Query =
    | AllAssets                      // asset.findMany()
    | AssetById(id: Id)              // asset.findUnique({ where: { id } })
    | AssetsBySite(siteId: Id)       // asset.findMany({ where: { belongsToId } })
    | AssetsWithSite                 // asset.findMany({ include: { belongsTo: true } })
    | AssetsByType(assetType: string) // asset.findMany({ where: { assetType: contains, insensitive } })
    | AllSites                       // site.findMany()
    | AllSitesWithAssets             // site.findMany({ include: { assets: true } })
    | SiteById(id: Id)               // site.findUnique({ where: { id } })
    | SiteByIdWithAssets(id: Id)     // site.findUnique({ where: { id }, include: { assets: true } })
    | SitesByName(name: string)      // site.findMany({ where: { name: contains, insensitive } })
    | SiteIds                        // site.findMany({ select: { id: true } })

  function FindAsset(rows: seq<Asset>, id: Id): (r: Option<Asset>)
    ensures r.Some? ==> r.value in rows && r.value.id == id
    ensures r.None? ==> forall a :: a in rows ==> a.id != id
  {
    if rows == [] then None
    else if rows[0].id == id then Some(rows[0])
    else FindAsset(rows[1..], id)
  }

  function FindSite(rows: seq<Site>, id: Id): (r: Option<Site>)
    ensures r.Some? ==> r.value in rows && r.value.id == id
    ensures r.None? ==> forall s :: s in rows ==> s.id != id
  {
    if rows == [] then None
    else if rows[0].id == id then Some(rows[0])
    else FindSite(rows[1..], id)
  }

  /** The assets whose owner is `siteId`, in store order. */
  function OwnedBy(rows: seq<Asset>, siteId: Id): (r: seq<Asset>)
    ensures forall a :: a in r <==> a in rows && a.data.belongsToId == Some(siteId)
  {
    if rows == [] then []
    else (if rows[0].data.belongsToId == Some(siteId) then [rows[0]] else []) + OwnedBy(rows[1..], siteId)
  }

  function OfType(rows: seq<Asset>, assetType: string): (r: seq<Asset>)
    ensures forall a :: a in r <==> a in rows && ContainsInsensitive(a.data.assetType, assetType)
  {
    if rows == [] then []
    else (if ContainsInsensitive(rows[0].data.assetType, assetType) then [rows[0]] else []) + OfType(rows[1..], assetType)
  }

  function Named(rows: seq<Site>, name: string): (r: seq<Site>)
    ensures forall s :: s in r <==> s in rows && ContainsInsensitive(s.data.name, name)
  {
    if rows == [] then []
    else (if ContainsInsensitive(rows[0].data.name, name) then [rows[0]] else []) + Named(rows[1..], name)
  }

  function SiteIdList(rows: seq<Site>): (ids: seq<Id>)
    ensures |ids| == |rows|
    ensures forall i :: 0 <= i < |rows| ==> ids[i] == rows[i].id
  {
    if rows == [] then [] else [rows[0].id] + SiteIdList(rows[1..])
  }

  /** An asset with its owning site joined in (`include: { belongsTo: true }`). */
  function AssetWithSiteJson(sites: seq<Site>, a: Asset): Json
  {
    var owner := if a.data.belongsToId.Some? then FindSite(sites, a.data.belongsToId.value) else None;
    JObj(AssetFields(a) + [("belongsTo", if owner.Some? then SiteJson(owner.value) else JNull)])
  }

  function AssetsWithSiteJson(sites: seq<Site>, rows: seq<Asset>): (js: seq<Json>)
    ensures |js| == |rows|
  {
    if rows == [] then [] else [AssetWithSiteJson(sites, rows[0])] + AssetsWithSiteJson(sites, rows[1..])
  }

  /** A site with its assets joined in (`include: { assets: true }`). */
  function SiteWithAssetsJson(assets: seq<Asset>, s: Site): (j: Json)
    ensures Truthy(j)
  {
    JObj(SiteFields(s) + [("assets", JArr(AssetsJson(OwnedBy(assets, s.id))))])
  }

  function SitesWithAssetsJson(assets: seq<Asset>, rows: seq<Site>): (js: seq<Json>)
    ensures |js| == |rows|
  {
    if rows == [] then [] else [SiteWithAssetsJson(assets, rows[0])] + SitesWithAssetsJson(assets, rows[1..])
  }

  function IdsJson(ids: seq<Id>): seq<Json>
  {
    if ids == [] then [] else [JObj([("id", JStr(ids[0]))])] + IdsJson(ids[1..])
  }

  /** What the store answers to a query, as the document the service returns. */
  function Eval(t: Tables, q: Query): Json
  {
    match q
    case AllAssets => JArr(AssetsJson(t.assets))
    case AssetById(id) =>
      var a := FindAsset(t.assets, id);
      if a.Some? then AssetJson(a.value) else JNull
    case AssetsBySite(siteId) => JArr(AssetsJson(OwnedBy(t.assets, siteId)))
    case AssetsWithSite => JArr(AssetsWithSiteJson(t.sites, t.assets))
    case AssetsByType(assetType) => JArr(AssetsJson(OfType(t.assets, assetType)))
    case AllSites => JArr(SitesJson(t.sites))
    case AllSitesWithAssets => JArr(SitesWithAssetsJson(t.assets, t.sites))
    case SiteById(id) =>
      var s := FindSite(t.sites, id);
      if s.Some? then SiteJson(s.value) else JNull
    case SiteByIdWithAssets(id) =>
      var s := FindSite(t.sites, id);
      if s.Some? then SiteWithAssetsJson(t.assets, s.value) else JNull
    case SitesByName(name) => JArr(SitesJson(Named(t.sites, name)))
    case SiteIds => JArr(IdsJson(SiteIdList(t.sites)))
  }

  /** Every answer is null exactly when a single-record lookup finds nothing; a list is never null. */
  lemma EvalNull(t: Tables, q: Query)
    ensures Eval(t, q) == JNull <==>
      (q.AssetById? && FindAsset(t.assets, q.id).None?) ||
      ((q.SiteById? || q.SiteByIdWithAssets?) && FindSite(t.sites, q.id).None?)
    ensures Eval(t, q) != JNull ==> Truthy(Eval(t, q))
  {
  }

  // ---------------------------------------------------------------------
  // Row operations: a write by unique id touches the one row with that id.

  function ReplaceAsset(rows: seq<Asset>, id: Id, a: Asset): (r: seq<Asset>)
    ensures |r| == |rows|
  {
    if rows == [] then []
    else if rows[0].id == id then [a] + rows[1..]
    else [rows[0]] + ReplaceAsset(rows[1..], id, a)
  }

  function RemoveAsset(rows: seq<Asset>, id: Id): (r: seq<Asset>)
    ensures forall a :: a in r ==> a in rows
  {
    if rows == [] then []
    else if rows[0].id == id then rows[1..]
    else [rows[0]] + RemoveAsset(rows[1..], id)
  }

  function ReplaceSite(rows: seq<Site>, id: Id, s: Site): (r: seq<Site>)
    ensures |r| == |rows|
  {
    if rows == [] then []
    else if rows[0].id == id then [s] + rows[1..]
    else [rows[0]] + ReplaceSite(rows[1..], id, s)
  }

  function RemoveSite(rows: seq<Site>, id: Id): (r: seq<Site>)
    ensures forall s :: s in r ==> s in rows
  {
    if rows == [] then []
    else if rows[0].id == id then rows[1..]
    else [rows[0]] + RemoveSite(rows[1..], id)
  }

  /**
   * Deleting a site sets the owner of its assets to null: the referential
   * action Prisma applies to an optional relation unless the schema says otherwise.
   */
  function DetachAssets(rows: seq<Asset>, siteId: Id): (r: seq<Asset>)
    ensures |r| == |rows|
  {
    if rows == [] then []
    else
      var a := rows[0];
      var a' := if a.data.belongsToId == Some(siteId) then a.(data := a.data.(belongsToId := None)) else a;
      [a'] + DetachAssets(rows[1..], siteId)
  }

  predicate NameTaken(rows: seq<Site>, name: string, except: Option<Id>)
  {
    exists s :: s in rows && s.data.name == name && Some(s.id) != except
  }

  // ---------------------------------------------------------------------
  // Writes: the answer and the tables afterwards. A failed write changes nothing.

  datatype Write<T> = Write(result: Result<T>, after: Tables)

  function CreateAssetStep(t: Tables, newId: Id, createdAt: int, data: AssetData): Write<Asset>
  {
    if FindAsset(t.assets, newId).Some? then Write(Err(UniqueViolation), t)
    else if data.belongsToId.Some? && FindSite(t.sites, data.belongsToId.value).None? then Write(Err(ForeignKeyViolation), t)
    else
      var a := Asset(newId, createdAt, data);
      Write(Ok(a), t.(assets := t.assets + [a]))
  }

  function UpdateAssetStep(t: Tables, id: Id, patch: AssetPatch): Write<Asset>
  {
    match FindAsset(t.assets, id)
    case None => Write(Err(NotFound), t)
    case Some(current) =>
      var owner := NewOwner(patch);
      if owner.Some? && FindSite(t.sites, owner.value).None? then Write(Err(ForeignKeyViolation), t)
      else
        var a := Asset(id, current.createdAt, PatchAsset(current.data, patch));
        Write(Ok(a), t.(assets := ReplaceAsset(t.assets, id, a)))
  }

  function DeleteAssetStep(t: Tables, id: Id): Write<Asset>
  {
    match FindAsset(t.assets, id)
    case None => Write(Err(NotFound), t)
    case Some(current) => Write(Ok(current), t.(assets := RemoveAsset(t.assets, id)))
  }

  function CreateSiteStep(t: Tables, newId: Id, createdAt: int, data: SiteData): Write<Site>
  {
    if FindSite(t.sites, newId).Some? || NameTaken(t.sites, data.name, None) then Write(Err(UniqueViolation), t)
    else
      var s := Site(newId, createdAt, data);
      Write(Ok(s), t.(sites := t.sites + [s]))
  }

  function UpdateSiteStep(t: Tables, id: Id, patch: SitePatch): Write<Site>
  {
    match FindSite(t.sites, id)
    case None => Write(Err(NotFound), t)
    case Some(current) =>
      if patch.name.Some? && NameTaken(t.sites, patch.name.value, Some(id)) then Write(Err(UniqueViolation), t)
      else
        var s := Site(id, current.createdAt, PatchSite(current.data, patch));
        Write(Ok(s), t.(sites := ReplaceSite(t.sites, id, s)))
  }

  function DeleteSiteStep(t: Tables, id: Id): Write<Site>
  {
    match FindSite(t.sites, id)
    case None => Write(Err(NotFound), t)
    case Some(current) => Write(Ok(current), Tables(DetachAssets(t.assets, id), RemoveSite(t.sites, id)))
  }

  /**
   * A site write with `include: { assets: true }`: the answer is the written
   * site with the assets `assets` lists for it.
   */
  function IncludeAssets(w: Write<Site>, assets: seq<Asset>): Write<Json>
  {
    match w.result
    case Ok(s) => Write(Ok(SiteWithAssetsJson(assets, s)), w.after)
    case Err(e) => Write(Err(e), w.after)
  }

  // ---------------------------------------------------------------------
  // What the store guarantees about its tables.

  /** Generated ids: non-empty UUID text, which needs no escaping in JSON and holds no colon. */
  predicate IdShape(id: Id)
  {
    id != "" && Plain(id) && ':' !in id
  }

  predicate DistinctAssetIds(rows: seq<Asset>)
  {
    forall i, j :: 0 <= i < j < |rows| ==> rows[i].id != rows[j].id
  }

  predicate DistinctSiteIds(rows: seq<Site>)
  {
    forall i, j :: 0 <= i < j < |rows| ==> rows[i].id != rows[j].id
  }

  /** Primary keys, well-formed ids and the asset-to-site foreign key. */
  predicate Valid(t: Tables)
  {
    && DistinctAssetIds(t.assets)
    && DistinctSiteIds(t.sites)
    && (forall a :: a in t.assets ==> IdShape(a.id))
    && (forall s :: s in t.sites ==> IdShape(s.id))
    && (forall a :: a in t.assets && a.data.belongsToId.Some? ==> FindSite(t.sites, a.data.belongsToId.value).Some?)
  }

  /** The store as the services see it: tables, and a record of the reads issued. */
  class Database {
    var tables: Tables
    ghost var log: seq<Query>

    constructor (initial: Tables)
      ensures tables == initial && log == []
    {
      tables := initial;
      log := [];
    }

    /** Runs one read query. */
    method Run(q: Query) returns (r: Json)
      modifies this`log
      ensures r == Eval(tables, q)
      ensures log == old(log) + [q]
    {
      r := Eval(tables, q);
      log := log + [q];
    }

    /** `asset.findUnique({ where: { id } })`, as a typed row. */
    method FindAssetRow(id: Id) returns (r: Option<Asset>)
      modifies this`log
      ensures r == FindAsset(tables.assets, id)
      ensures log == old(log) + [AssetById(id)]
    {
      r := FindAsset(tables.assets, id);
      log := log + [AssetById(id)];
    }

    /** `site.findMany({ select: { id: true } })`, as a list of ids. */
    method SelectSiteIds() returns (ids: seq<Id>)
      modifies this`log
      ensures ids == SiteIdList(tables.sites)
      ensures log == old(log) + [SiteIds]
    {
      ids := SiteIdList(tables.sites);
      log := log + [SiteIds];
    }

    method CreateAsset(newId: Id, createdAt: int, data: AssetData) returns (r: Result<Asset>)
      modifies this`tables
      ensures r == CreateAssetStep(old(tables), newId, createdAt, data).result
      ensures tables == CreateAssetStep(old(tables), newId, createdAt, data).after
    {
      var w := CreateAssetStep(tables, newId, createdAt, data);
      r, tables := w.result, w.after;
    }

    method UpdateAsset(id: Id, patch: AssetPatch) returns (r: Result<Asset>)
      modifies this`tables
      ensures r == UpdateAssetStep(old(tables), id, patch).result
      ensures tables == UpdateAssetStep(old(tables), id, patch).after
    {
      var w := UpdateAssetStep(tables, id, patch);
      r, tables := w.result, w.after;
    }

    method DeleteAsset(id: Id) returns (r: Result<Asset>)
      modifies this`tables
      ensures r == DeleteAssetStep(old(tables), id).result
      ensures tables == DeleteAssetStep(old(tables), id).after
    {
      var w := DeleteAssetStep(tables, id);
      r, tables := w.result, w.after;
    }

    method CreateSite(newId: Id, createdAt: int, data: SiteData) returns (r: Result<Site>)
      modifies this`tables
      ensures r == CreateSiteStep(old(tables), newId, createdAt, data).result
      ensures tables == CreateSiteStep(old(tables), newId, createdAt, data).after
    {
      var w := CreateSiteStep(tables, newId, createdAt, data);
      r, tables := w.result, w.after;
    }

    method UpdateSite(id: Id, patch: SitePatch) returns (r: Result<Site>)
      modifies this`tables
      ensures r == UpdateSiteStep(old(tables), id, patch).result
      ensures tables == UpdateSiteStep(old(tables), id, patch).after
    {
      var w := UpdateSiteStep(tables, id, patch);
      r, tables := w.result, w.after;
    }

    method DeleteSite(id: Id) returns (r: Result<Site>)
      modifies this`tables
      ensures r == DeleteSiteStep(old(tables), id).result
      ensures tables == DeleteSiteStep(old(tables), id).after
    {
      var w := DeleteSiteStep(tables, id);
      r, tables := w.result, w.after;
    }
  }
}

/**
 * The two record kinds of the store, the changes a caller may ask for, and the
 * JSON documents the store's answers become when they are cached.
 */
module Records {
  import opened Errors
  import opened JsonText

  /** Store-generated identifiers (UUID text). */
  type Id = string

  /** The columns of an asset that a caller supplies: the asset without `id` and `createdAt`. */
  datatype AssetData = AssetData(
    assetType: string,
    assetId: string,
    name: string,
    description: string,
    status: string,
    location: string,
    image: string,
    video: string,
    upstreamId: string,
    downstreamId: string,
    upstreamName: string,
    downstreamName: string,
    belongsToId: Option<Id>)  // the owning site, or null

  datatype Asset = Asset(id: Id, createdAt: int, data: AssetData)

  /**
   * A partial asset for an update. `None` leaves a column as it is; for the
   * owner, `Some(None)` is an explicit null and `None` an absent field.
   */
  datatype AssetPatch = AssetPatch(
    assetType: Option<string>,
    assetId: Option<string>,
    name: Option<string>,
    description: Option<string>,
    status: Option<string>,
    location: Option<string>,
    image: Option<string>,
    video: Option<string>,
    upstreamId: Option<string>,
    downstreamId: Option<string>,
    upstreamName: Option<string>,
    downstreamName: Option<string>,
    belongsToId: Option<Option<Id>>)

  datatype SiteData = SiteData(name: string, address: string)

  datatype Site = Site(id: Id, createdAt: int, data: SiteData)

  datatype SitePatch = SitePatch(name: Option<string>, address: Option<string>)

  function Pick<T>(given: Option<T>, current: T): T
  {
    if given.Some? then given.value else current
  }

  /** The columns after an update: every given field replaces the stored one. */
  function PatchAsset(d: AssetData, p: AssetPatch): AssetData
  {
    AssetData(
      Pick(p.assetType, d.assetType), Pick(p.assetId, d.assetId), Pick(p.name, d.name),
      Pick(p.description, d.description), Pick(p.status, d.status), Pick(p.location, d.location),
      Pick(p.image, d.image), Pick(p.video, d.video),
      Pick(p.upstreamId, d.upstreamId), Pick(p.downstreamId, d.downstreamId),
      Pick(p.upstreamName, d.upstreamName), Pick(p.downstreamName, d.downstreamName),
      Pick(p.belongsToId, d.belongsToId))
  }

  function PatchSite(d: SiteData, p: SitePatch): SiteData
  {
    SiteData(Pick(p.name, d.name), Pick(p.address, d.address))
  }

  /** The owner an update assigns, if it names one (`data.belongsToId` is a string). */
  function NewOwner(p: AssetPatch): Option<Id>
  {
    if p.belongsToId.Some? then p.belongsToId.value else None
  }

  function OwnerJson(owner: Option<Id>): Json
  {
    if owner.Some? then JStr(owner.value) else JNull
  }

  function AssetDataFields(d: AssetData): seq<(string, Json)>
  {
    [ ("assetType", JStr(d.assetType)), ("assetId", JStr(d.assetId)), ("name", JStr(d.name)),
      ("description", JStr(d.description)), ("status", JStr(d.status)),
      ("location", JStr(d.location)), ("image", JStr(d.image)), ("video", JStr(d.video)),
      ("upstreamId", JStr(d.upstreamId)), ("downstreamId", JStr(d.downstreamId)),
      ("upstreamName", JStr(d.upstreamName)), ("downstreamName", JStr(d.downstreamName)),
      ("belongsToId", OwnerJson(d.belongsToId)) ]
  }

  function AssetFields(a: Asset): seq<(string, Json)>
  {
    [("id", JStr(a.id)), ("createdAt", JNum(a.createdAt))] + AssetDataFields(a.data)
  }

  /** The document an asset row becomes. */
  function AssetJson(a: Asset): (j: Json)
    ensures Truthy(j)
  {
    JObj(AssetFields(a))
  }

  function SiteFields(s: Site): seq<(string, Json)>
  {
    [("id", JStr(s.id)), ("createdAt", JNum(s.createdAt)),
     ("name", JStr(s.data.name)), ("address", JStr(s.data.address))]
  }

  /** The document a site row becomes, without its assets. */
  function SiteJson(s: Site): (j: Json)
    ensures Truthy(j)
  {
    JObj(SiteFields(s))
  }

  function AssetsJson(rows: seq<Asset>): (js: seq<Json>)
    ensures |js| == |rows|
    ensures forall i :: 0 <= i < |rows| ==> js[i] == AssetJson(rows[i])
  {
    if rows == [] then [] else [AssetJson(rows[0])] + AssetsJson(rows[1..])
  }

  function SitesJson(rows: seq<Site>): (js: seq<Json>)
    ensures |js| == |rows|
    ensures forall i :: 0 <= i < |rows| ==> js[i] == SiteJson(rows[i])
  {
    if rows == [] then [] else [SiteJson(rows[0])] + SitesJson(rows[1..])
  }

  /** Two assets are cached as the same document only if they are the same asset. */
  lemma AssetJsonInjective(a: Asset, b: Asset)
    requires AssetJson(a) == AssetJson(b)
    ensures a == b
  {
    var fa, fb := AssetFields(a), AssetFields(b);
    assert fa == fb;
    assert fa[0] == fb[0] && fa[1] == fb[1];
    var da, db := AssetDataFields(a.data), AssetDataFields(b.data);
    assert da == fa[2..] && db == fb[2..];
    assert da[0] == db[0] && da[1] == db[1] && da[2] == db[2] && da[3] == db[3];
    assert da[4] == db[4] && da[5] == db[5] && da[6] == db[6] && da[7] == db[7];
    assert da[8] == db[8] && da[9] == db[9] && da[10] == db[10] && da[11] == db[11];
    assert da[12] == db[12];
    assert OwnerJson(a.data.belongsToId) == OwnerJson(b.data.belongsToId);
  }

  /** Two sites are cached as the same document only if they are the same site. */
  lemma SiteJsonInjective(a: Site, b: Site)
    requires SiteJson(a) == SiteJson(b)
    ensures a == b
  {
    var fa, fb := SiteFields(a), SiteFields(b);
    assert fa[0] == fb[0] && fa[1] == fb[1] && fa[2] == fb[2] && fa[3] == fb[3];
  }

  /** ASCII case folding, standing in for the database's case-insensitive comparison. */
  function Lower(c: char): char
  {
    if 'A' <= c <= 'Z' then (c as int + 32) as char else c
  }

  function LowerAll(s: string): (r: string)
    ensures |r| == |s|
  {
    if s == [] then [] else [Lower(s[0])] + LowerAll(s[1..])
  }

  predicate IsInfix(needle: string, hay: string)
  {
    (|needle| <= |hay| && needle == hay[..|needle|]) || (hay != [] && IsInfix(needle, hay[1..]))
  }

  /** Prisma's `{ contains: needle, mode: 'insensitive' }` filter on one column. */
  predicate ContainsInsensitive(field: string, needle: string)
  {
    IsInfix(LowerAll(needle), LowerAll(field))
  }
}

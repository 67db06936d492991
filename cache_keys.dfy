/**
 * Cache keys. A generated key is `prefix:method:args`, where `args` is the
 * JSON text of the argument list; the hand-written services spell the same
 * keys out with the argument pasted between `["` and `"]`. The writes delete
 * fixed sets of these keys.
 */
module CacheKeys {
  import opened Errors
  import opened JsonText
  import opened Records
  import opened Store

  predicate NoColon(s: string)
  {
    ':' !in s
  }

  /** `${prefix}:${method}:${args}`. */
  function Key3(prefix: string, name: string, args: string): string
  {
    prefix + ":" + name + ":" + args
  }

  /** The argument text of a one-argument call as the hand-written keys write it: `["${x}"]`. */
  function ArgText(x: string): string
  {
    "[\"" + x + "\"]"
  }

  /** The argument text of a call without arguments. */
  const NoArgs: string := "[]"

  /** The prefix each service uses for a query's key. */
  function PrefixOf(q: Query): string
  {
    match q
    case AssetById(_) => "asset"
    case SiteById(_) => "site"
    case SiteByIdWithAssets(_) => "site"
    case AllSites => "sites"
    case AllSitesWithAssets => "sites"
    case SitesByName(_) => "sites"
    case SiteIds => "sites"
    case _ => "assets"
  }

  /** The method whose result is cached under the query's key. */
  function NameOf(q: Query): string
  {
    match q
    case AllAssets => "getAllAssets"
    case AssetById(_) => "getAssetById"
    case AssetsBySite(_) => "getAssetsBySiteId"
    case AssetsWithSite => "getAssetsWithSite"
    case AssetsByType(_) => "getAssetsByType"
    case AllSites => "getAllSites"
    case AllSitesWithAssets => "getAllSites"
    case SiteById(_) => "getSiteById"
    case SiteByIdWithAssets(_) => "getSiteWithAssets"
    case SitesByName(_) => "getSitesByName"
    case SiteIds => "selectSiteIds"
  }

  function ArgsOf(q: Query): string
  {
    match q
    case AssetById(id) => ArgText(id)
    case AssetsBySite(siteId) => ArgText(siteId)
    case AssetsByType(assetType) => ArgText(assetType)
    case SiteById(id) => ArgText(id)
    case SiteByIdWithAssets(id) => ArgText(id)
    case SitesByName(name) => ArgText(name)
    case _ => NoArgs
  }

  /** The queries the hand-written services cache, each under its own key. */
  predicate Keyed(q: Query)
  {
    !q.AllSitesWithAssets? && !q.SiteIds?
  }

  /**
   * The key the hand-written services read and delete for a query, for
   * example `asset:getAssetById:["${id}"]` or `assets:getAllAssets:[]`.
   */
  function KeyOf(q: Query): string
  {
    Key3(PrefixOf(q), NameOf(q), ArgsOf(q))
  }

  /** The first colon of `p:s` is the one after `p`. */
  lemma FirstColon(p: string, s: string)
    requires NoColon(p)
    ensures (p + ":" + s)[|p|] == ':'
    ensures forall i :: 0 <= i < |p| ==> (p + ":" + s)[i] != ':'
  {
    forall i | 0 <= i < |p|
      ensures (p + ":" + s)[i] != ':'
    {
      assert (p + ":" + s)[i] == p[i] && p[i] in p;
    }
  }

  /** A colon-free head is read off a string up to its first colon. */
  lemma ColonSplit(p: string, q: string, s: string, t: string)
    requires NoColon(p) && NoColon(q)
    requires p + ":" + s == q + ":" + t
    ensures p == q && s == t
  {
    FirstColon(p, s);
    FirstColon(q, t);
    if |p| != |q| {
      assert false;
    }
    assert p + ":" + s == p + (":" + s) && q + ":" + t == q + (":" + t);
    CancelPrefix(p, q, ":" + s, ":" + t);
    CancelPrefix(":", ":", s, t);
  }

  /** A generated key determines its prefix, its method and its argument text. */
  lemma Key3Injective(p: string, m: string, a: string, q: string, n: string, b: string)
    requires NoColon(p) && NoColon(m) && NoColon(q) && NoColon(n)
    requires Key3(p, m, a) == Key3(q, n, b)
    ensures p == q && m == n && a == b
  {
    assert Key3(p, m, a) == p + ":" + (m + ":" + a);
    assert Key3(q, n, b) == q + ":" + (n + ":" + b);
    ColonSplit(p, q, m + ":" + a, n + ":" + b);
    ColonSplit(m, n, a, b);
  }

  lemma ArgTextInjective(x: string, y: string)
    requires ArgText(x) == ArgText(y)
    ensures x == y
  {
    assert ArgText(x) == "[\"" + (x + "\"]");
    assert ArgText(y) == "[\"" + (y + "\"]");
    CancelPrefix("[\"", "[\"", x + "\"]", y + "\"]");
    assert x == (x + "\"]")[..|x|];
    assert y == (y + "\"]")[..|y|];
  }

  lemma KeyPartsNoColon(q: Query)
    ensures NoColon(PrefixOf(q)) && NoColon(NameOf(q))
  {
  }

  /** Distinct cached queries have distinct keys, so no two of them ever share an entry. */
  lemma KeyOfInjective(q1: Query, q2: Query)
    requires Keyed(q1) && Keyed(q2)
    requires KeyOf(q1) == KeyOf(q2)
    ensures q1 == q2
  {
    KeyPartsNoColon(q1);
    KeyPartsNoColon(q2);
    Key3Injective(PrefixOf(q1), NameOf(q1), ArgsOf(q1), PrefixOf(q2), NameOf(q2), ArgsOf(q2));
    assert NameOf(q1) == NameOf(q2);
    if ArgsOf(q1) != NoArgs && ArgsOf(q2) != NoArgs {
      match q1 {
        case AssetById(x) => ArgTextInjective(x, q2.id);
        case AssetsBySite(x) => ArgTextInjective(x, q2.siteId);
        case AssetsByType(x) => ArgTextInjective(x, q2.assetType);
        case SiteById(x) => ArgTextInjective(x, q2.id);
        case SiteByIdWithAssets(x) => ArgTextInjective(x, q2.id);
        case SitesByName(x) => ArgTextInjective(x, q2.name);
      }
    }
  }

  /** The single-argument key, as the hand-written services write it, from the argument's JSON. */
  lemma KeyOfStringify(q: Query, x: string)
    requires ArgsOf(q) == ArgText(x)
    ensures Key3(PrefixOf(q), NameOf(q), Stringify([x])) == KeyOf(q) <==> Escape(x) == x
  {
    StringifySingle(x);
    assert Stringify([x]) == ArgText(Escape(x));
    if Key3(PrefixOf(q), NameOf(q), Stringify([x])) == KeyOf(q) {
      Key3Injective(PrefixOf(q), NameOf(q), Stringify([x]), PrefixOf(q), NameOf(q), ArgsOf(q));
      ArgTextInjective(Escape(x), x);
    }
  }

  // ---------------------------------------------------------------------
  // The keys each write deletes.

  /** `belongsToId && delete(...)`: a site's asset list, when an owner id is set and non-empty. */
  function OwnerKeys(owner: Option<Id>): (ks: set<string>)
    ensures ks == {} || (owner.Some? && ks == {KeyOf(AssetsBySite(owner.value))})
    ensures owner.Some? && owner.value != "" ==> ks == {KeyOf(AssetsBySite(owner.value))}
  {
    if owner.Some? && owner.value != "" then {KeyOf(AssetsBySite(owner.value))} else {}
  }

  /** What `createAsset` deletes: the full list and the new owner's list. */
  function CreateAssetKeys(data: AssetData): set<string>
  {
    {KeyOf(AllAssets)} + OwnerKeys(data.belongsToId)
  }

  /** What `updateAsset` deletes: the record, the full list, the old owner's list and the new owner's list. */
  function UpdateAssetKeys(id: Id, before: Option<Asset>, patch: AssetPatch): set<string>
  {
    var oldOwner := if before.Some? then before.value.data.belongsToId else None;
    {KeyOf(AssetById(id)), KeyOf(AllAssets)} + OwnerKeys(oldOwner) + OwnerKeys(NewOwner(patch))
  }

  /** What `deleteAsset` deletes: the record, the full list and the deleted asset's owner's list. */
  function DeleteAssetKeys(id: Id, deleted: Asset): set<string>
  {
    {KeyOf(AssetById(id)), KeyOf(AllAssets)} + OwnerKeys(deleted.data.belongsToId)
  }

  /** What `createSite` deletes. */
  function CreateSiteKeys(): set<string>
  {
    {KeyOf(AllSites)}
  }

  /** What `updateSite` and `deleteSite` delete. */
  function ChangeSiteKeys(id: Id): set<string>
  {
    {KeyOf(SiteById(id)), KeyOf(AllSites)}
  }

  // ---------------------------------------------------------------------
  // The keys the uncached site service deletes.

  /** `site:${id}`. */
  function RowKey(id: Id): string
  {
    "site:" + id
  }

  /** The full-list key as the uncached site service spells it, without the argument list. */
  const ListKey: string := "sites" + ":" + "getAllSites"

  function Colons(s: string): nat
  {
    if s == [] then 0 else (if s[0] == ':' then 1 else 0) + Colons(s[1..])
  }

  lemma {:induction false} ColonsAppend(s: string, t: string)
    ensures Colons(s + t) == Colons(s) + Colons(t)
  {
    if s == [] {
      assert s + t == t;
    } else {
      assert (s + t)[1..] == s[1..] + t;
      ColonsAppend(s[1..], t);
    }
  }

  lemma {:induction false} NoColonCount(s: string)
    requires NoColon(s)
    ensures Colons(s) == 0
  {
    if s != [] {
      assert s[0] in s;
      assert forall c :: c in s[1..] ==> c in s;
      NoColonCount(s[1..]);
    }
  }

  lemma ColonCount(s: string)
    ensures Colons(s + ":") == Colons(s) + 1
  {
    ColonsAppend(s, ":");
    assert Colons(":") == 1 by {
      assert ":"[1..] == [];
    }
  }

  /** Every generated key has at least two colons. */
  lemma Key3Colons(p: string, m: string, a: string)
    ensures Colons(Key3(p, m, a)) >= 2
  {
    assert Key3(p, m, a) == p + ":" + m + ":" + a;
    ColonsAppend(p + ":" + m + ":", a);
    ColonsAppend(p + ":" + m, ":");
    ColonsAppend(p + ":", m);
    ColonsAppend(p, ":");
  }

  /**
   * The uncached site service deletes `site:${id}`. For a colon-free id it has
   * one colon, not the `prefix:method:args` shape, so it is never a key that
   * the decorator or the hand-written services build.
   */
  lemma RowKeyNotGenerated(id: Id, p: string, m: string, a: string)
    requires NoColon(id)
    ensures RowKey(id) != Key3(p, m, a)
  {
    Key3Colons(p, m, a);
    NoColonCount(id);
    NoColonCount("site");
    ColonCount("site");
    assert RowKey(id) == "site" + ":" + id;
    ColonsAppend("site" + ":", id);
  }

  /** `sites:getAllSites` lacks the argument list, so it is not a generated key either. */
  lemma ListKeyNotGenerated(p: string, m: string, a: string)
    ensures ListKey != Key3(p, m, a)
  {
    Key3Colons(p, m, a);
    NoColonCount("sites");
    NoColonCount("getAllSites");
    ColonCount("sites");
    ColonsAppend("sites" + ":", "getAllSites");
  }

  lemma RowKeyInjective(x: Id, y: Id)
    requires RowKey(x) == RowKey(y)
    ensures x == y
  {
    CancelPrefix("site:", "site:", x, y);
  }
}

/**
 * What the store's writes do to its reads: a write changes the rows it names
 * and no others, it keeps the tables' keys and references intact, and a read
 * after a write sees the write.
 */
module StoreFacts {
  import opened Errors
  import opened JsonText
  import opened Records
  import opened Store

  // ---------------------------------------------------------------------
  // Row operations, one lemma per read they can affect.

  lemma {:induction false} FindAssetAppend(rows: seq<Asset>, a: Asset, x: Id)
    ensures FindAsset(rows + [a], x) ==
      (if FindAsset(rows, x).Some? then FindAsset(rows, x) else if a.id == x then Some(a) else None)
  {
    if rows == [] {
      assert rows + [a] == [a];
    } else {
      assert (rows + [a])[0] == rows[0];
      assert (rows + [a])[1..] == rows[1..] + [a];
      FindAssetAppend(rows[1..], a, x);
    }
  }

  lemma {:induction false} OwnedByAppend(rows: seq<Asset>, a: Asset, s: Id)
    ensures OwnedBy(rows + [a], s) == OwnedBy(rows, s) + (if a.data.belongsToId == Some(s) then [a] else [])
  {
    if rows == [] {
      assert rows + [a] == [a];
      assert [a][1..] == [];
    } else {
      assert (rows + [a])[0] == rows[0];
      assert (rows + [a])[1..] == rows[1..] + [a];
      OwnedByAppend(rows[1..], a, s);
    }
  }

  lemma {:induction false} OfTypeAppend(rows: seq<Asset>, a: Asset, x: string)
    ensures OfType(rows + [a], x) == OfType(rows, x) + (if ContainsInsensitive(a.data.assetType, x) then [a] else [])
  {
    if rows == [] {
      assert rows + [a] == [a];
      assert [a][1..] == [];
    } else {
      assert (rows + [a])[0] == rows[0];
      assert (rows + [a])[1..] == rows[1..] + [a];
      OfTypeAppend(rows[1..], a, x);
    }
  }

  lemma {:induction false} FindAssetReplace(rows: seq<Asset>, id: Id, a: Asset, x: Id)
    requires a.id == id
    ensures FindAsset(ReplaceAsset(rows, id, a), x) ==
      (if x == id && FindAsset(rows, id).Some? then Some(a) else FindAsset(rows, x))
  {
    if rows != [] && rows[0].id != id {
      FindAssetReplace(rows[1..], id, a, x);
    } else if rows != [] {
      assert ([a] + rows[1..])[1..] == rows[1..];
    }
  }

  lemma {:induction false} OwnedByReplace(rows: seq<Asset>, id: Id, a: Asset, s: Id)
    requires FindAsset(rows, id).Some? ==> FindAsset(rows, id).value.data.belongsToId != Some(s)
    requires a.data.belongsToId != Some(s)
    ensures OwnedBy(ReplaceAsset(rows, id, a), s) == OwnedBy(rows, s)
  {
    if rows != [] && rows[0].id != id {
      OwnedByReplace(rows[1..], id, a, s);
    } else if rows != [] {
      assert ([a] + rows[1..])[1..] == rows[1..];
    }
  }

  lemma {:induction false} ReplaceAssetPointwise(rows: seq<Asset>, id: Id, a: Asset)
    ensures forall i :: 0 <= i < |rows| ==>
      ReplaceAsset(rows, id, a)[i] == rows[i] || (ReplaceAsset(rows, id, a)[i] == a && rows[i].id == id)
  {
    if rows != [] && rows[0].id != id {
      ReplaceAssetPointwise(rows[1..], id, a);
    }
  }

  lemma {:induction false} FindAssetRemove(rows: seq<Asset>, id: Id, x: Id)
    requires x != id
    ensures FindAsset(RemoveAsset(rows, id), x) == FindAsset(rows, x)
  {
    if rows != [] && rows[0].id != id {
      FindAssetRemove(rows[1..], id, x);
    }
  }

  lemma {:induction false} OwnedByRemove(rows: seq<Asset>, id: Id, s: Id)
    requires FindAsset(rows, id).Some? ==> FindAsset(rows, id).value.data.belongsToId != Some(s)
    ensures OwnedBy(RemoveAsset(rows, id), s) == OwnedBy(rows, s)
  {
    if rows != [] && rows[0].id != id {
      OwnedByRemove(rows[1..], id, s);
    }
  }

  /** With distinct ids, the removed asset is gone. */
  lemma {:induction false} RemoveAssetGone(rows: seq<Asset>, id: Id)
    requires DistinctAssetIds(rows)
    ensures FindAsset(RemoveAsset(rows, id), id).None?
    ensures DistinctAssetIds(RemoveAsset(rows, id))
  {
    if rows != [] {
      assert DistinctAssetIds(rows[1..]) by {
        forall i, j | 0 <= i < j < |rows[1..]| ensures rows[1..][i].id != rows[1..][j].id {
          assert rows[1..][i] == rows[i + 1] && rows[1..][j] == rows[j + 1];
        }
      }
      if rows[0].id == id {
        forall b | b in rows[1..] ensures b.id != id {
          var j :| 0 <= j < |rows[1..]| && rows[1..][j] == b;
          assert rows[j + 1] == b;
        }
      } else {
        RemoveAssetGone(rows[1..], id);
        var r := RemoveAsset(rows[1..], id);
        forall i, j | 0 <= i < j < |[rows[0]] + r| ensures ([rows[0]] + r)[i].id != ([rows[0]] + r)[j].id {
          if i == 0 {
            var b := ([rows[0]] + r)[j];
            assert b == r[j - 1] && b in r && b in rows[1..];
            var k :| 0 <= k < |rows[1..]| && rows[1..][k] == b;
            assert rows[k + 1] == b;
          } else {
            assert ([rows[0]] + r)[i] == r[i - 1] && ([rows[0]] + r)[j] == r[j - 1];
          }
        }
      }
    }
  }

  lemma {:induction false} FindSiteAppend(rows: seq<Site>, s: Site, x: Id)
    ensures FindSite(rows + [s], x) ==
      (if FindSite(rows, x).Some? then FindSite(rows, x) else if s.id == x then Some(s) else None)
  {
    if rows == [] {
      assert rows + [s] == [s];
    } else {
      assert (rows + [s])[0] == rows[0];
      assert (rows + [s])[1..] == rows[1..] + [s];
      FindSiteAppend(rows[1..], s, x);
    }
  }

  lemma {:induction false} FindSiteReplace(rows: seq<Site>, id: Id, s: Site, x: Id)
    requires s.id == id
    ensures FindSite(ReplaceSite(rows, id, s), x) ==
      (if x == id && FindSite(rows, id).Some? then Some(s) else FindSite(rows, x))
  {
    if rows != [] && rows[0].id != id {
      FindSiteReplace(rows[1..], id, s, x);
    } else if rows != [] {
      assert ([s] + rows[1..])[1..] == rows[1..];
    }
  }

  lemma {:induction false} ReplaceSitePointwise(rows: seq<Site>, id: Id, s: Site)
    ensures forall i :: 0 <= i < |rows| ==>
      ReplaceSite(rows, id, s)[i] == rows[i] || (ReplaceSite(rows, id, s)[i] == s && rows[i].id == id)
  {
    if rows != [] && rows[0].id != id {
      ReplaceSitePointwise(rows[1..], id, s);
    }
  }

  lemma {:induction false} FindSiteRemove(rows: seq<Site>, id: Id, x: Id)
    requires x != id
    ensures FindSite(RemoveSite(rows, id), x) == FindSite(rows, x)
  {
    if rows != [] && rows[0].id != id {
      FindSiteRemove(rows[1..], id, x);
    }
  }

  /** With distinct ids, the removed site is gone. */
  lemma {:induction false} RemoveSiteGone(rows: seq<Site>, id: Id)
    requires DistinctSiteIds(rows)
    ensures FindSite(RemoveSite(rows, id), id).None?
    ensures DistinctSiteIds(RemoveSite(rows, id))
  {
    if rows != [] {
      assert DistinctSiteIds(rows[1..]) by {
        forall i, j | 0 <= i < j < |rows[1..]| ensures rows[1..][i].id != rows[1..][j].id {
          assert rows[1..][i] == rows[i + 1] && rows[1..][j] == rows[j + 1];
        }
      }
      if rows[0].id == id {
        forall b | b in rows[1..] ensures b.id != id {
          var j :| 0 <= j < |rows[1..]| && rows[1..][j] == b;
          assert rows[j + 1] == b;
        }
      } else {
        RemoveSiteGone(rows[1..], id);
        var r := RemoveSite(rows[1..], id);
        forall i, j | 0 <= i < j < |[rows[0]] + r| ensures ([rows[0]] + r)[i].id != ([rows[0]] + r)[j].id {
          if i == 0 {
            var b := ([rows[0]] + r)[j];
            assert b == r[j - 1] && b in r && b in rows[1..];
            var k :| 0 <= k < |rows[1..]| && rows[1..][k] == b;
            assert rows[k + 1] == b;
          } else {
            assert ([rows[0]] + r)[i] == r[i - 1] && ([rows[0]] + r)[j] == r[j - 1];
          }
        }
      }
    }
  }

  lemma {:induction false} OwnedByDetach(rows: seq<Asset>, siteId: Id, s: Id)
    ensures OwnedBy(DetachAssets(rows, siteId), s) == if s == siteId then [] else OwnedBy(rows, s)
  {
    if rows != [] {
      OwnedByDetach(rows[1..], siteId, s);
    }
  }

  /** A site without assets is deleted without touching the asset table. */
  lemma {:induction false} DetachNothing(rows: seq<Asset>, siteId: Id)
    requires OwnedBy(rows, siteId) == []
    ensures DetachAssets(rows, siteId) == rows
  {
    if rows != [] {
      assert OwnedBy(rows, siteId) == OwnedBy(rows[1..], siteId);
      DetachNothing(rows[1..], siteId);
    }
  }

  // ---------------------------------------------------------------------
  // The store's keys and references survive every write.

  lemma CreateAssetValid(t: Tables, newId: Id, createdAt: int, data: AssetData)
    requires Valid(t) && IdShape(newId)
    ensures Valid(CreateAssetStep(t, newId, createdAt, data).after)
  {
    var w := CreateAssetStep(t, newId, createdAt, data);
    if w.result.Ok? {
      var a := w.result.value;
      var rows := t.assets + [a];
      assert w.after.assets == rows;
      forall i, j | 0 <= i < j < |rows| ensures rows[i].id != rows[j].id {
        if j == |rows| - 1 {
          assert rows[i] == t.assets[i] && rows[i] in t.assets;
        } else {
          assert rows[i] == t.assets[i] && rows[j] == t.assets[j];
        }
      }
    }
  }

  lemma UpdateAssetValid(t: Tables, id: Id, patch: AssetPatch)
    requires Valid(t)
    ensures Valid(UpdateAssetStep(t, id, patch).after)
  {
    var w := UpdateAssetStep(t, id, patch);
    if w.result.Ok? {
      var a := w.result.value;
      var current := FindAsset(t.assets, id).value;
      var rows := ReplaceAsset(t.assets, id, a);
      ReplaceAssetPointwise(t.assets, id, a);
      assert w.after.assets == rows;
      forall i, j | 0 <= i < j < |rows| ensures rows[i].id != rows[j].id {
        assert rows[i].id == t.assets[i].id && rows[j].id == t.assets[j].id;
      }
      forall b | b in rows ensures IdShape(b.id) {
        var i :| 0 <= i < |rows| && rows[i] == b;
        assert t.assets[i] in t.assets;
      }
      forall b | b in rows && b.data.belongsToId.Some?
        ensures FindSite(w.after.sites, b.data.belongsToId.value).Some?
      {
        var i :| 0 <= i < |rows| && rows[i] == b;
        assert t.assets[i] in t.assets;
        if b == a && NewOwner(patch).None? {
          assert current in t.assets;
        }
      }
    }
  }

  lemma DeleteAssetValid(t: Tables, id: Id)
    requires Valid(t)
    ensures Valid(DeleteAssetStep(t, id).after)
  {
    RemoveAssetGone(t.assets, id);
  }

  lemma CreateSiteValid(t: Tables, newId: Id, createdAt: int, data: SiteData)
    requires Valid(t) && IdShape(newId)
    ensures Valid(CreateSiteStep(t, newId, createdAt, data).after)
  {
    var w := CreateSiteStep(t, newId, createdAt, data);
    if w.result.Ok? {
      var s := w.result.value;
      var rows := t.sites + [s];
      assert w.after.sites == rows;
      forall i, j | 0 <= i < j < |rows| ensures rows[i].id != rows[j].id {
        if j == |rows| - 1 {
          assert rows[i] == t.sites[i] && rows[i] in t.sites;
        } else {
          assert rows[i] == t.sites[i] && rows[j] == t.sites[j];
        }
      }
      forall b | b in t.assets && b.data.belongsToId.Some?
        ensures FindSite(rows, b.data.belongsToId.value).Some?
      {
        FindSiteAppend(t.sites, s, b.data.belongsToId.value);
      }
    }
  }

  lemma UpdateSiteValid(t: Tables, id: Id, patch: SitePatch)
    requires Valid(t)
    ensures Valid(UpdateSiteStep(t, id, patch).after)
  {
    var w := UpdateSiteStep(t, id, patch);
    if w.result.Ok? {
      var s := w.result.value;
      var rows := ReplaceSite(t.sites, id, s);
      ReplaceSitePointwise(t.sites, id, s);
      assert w.after.sites == rows;
      forall i, j | 0 <= i < j < |rows| ensures rows[i].id != rows[j].id {
        assert rows[i].id == t.sites[i].id && rows[j].id == t.sites[j].id;
      }
      forall b | b in rows ensures IdShape(b.id) {
        var i :| 0 <= i < |rows| && rows[i] == b;
        assert t.sites[i] in t.sites;
      }
      forall b | b in t.assets && b.data.belongsToId.Some?
        ensures FindSite(rows, b.data.belongsToId.value).Some?
      {
        FindSiteReplace(t.sites, id, s, b.data.belongsToId.value);
      }
    }
  }

  /** Deleting a site nulls the owner of exactly its assets and changes nothing else. */
  lemma {:induction false} DetachPointwise(rows: seq<Asset>, siteId: Id)
    ensures forall i :: 0 <= i < |rows| ==>
      DetachAssets(rows, siteId)[i] ==
        (if rows[i].data.belongsToId == Some(siteId) then rows[i].(data := rows[i].data.(belongsToId := None)) else rows[i])
  {
    if rows != [] {
      DetachPointwise(rows[1..], siteId);
    }
  }

  /** Detaching keeps the asset ids, so it keeps them distinct and well-formed. */
  lemma DetachKeepsIds(rows: seq<Asset>, siteId: Id)
    requires DistinctAssetIds(rows) && forall a :: a in rows ==> IdShape(a.id)
    ensures DistinctAssetIds(DetachAssets(rows, siteId))
    ensures forall b :: b in DetachAssets(rows, siteId) ==> IdShape(b.id)
  {
    var r := DetachAssets(rows, siteId);
    DetachPointwise(rows, siteId);
    forall i, j | 0 <= i < j < |r| ensures r[i].id != r[j].id {
      assert r[i].id == rows[i].id && r[j].id == rows[j].id;
    }
    forall b | b in r ensures IdShape(b.id) {
      var i :| 0 <= i < |r| && r[i] == b;
      assert rows[i] in rows;
    }
  }

  /** An owner left after detaching is another site's, and some row had it before. */
  lemma DetachedOwner(rows: seq<Asset>, siteId: Id, b: Asset) returns (a: Asset)
    requires b in DetachAssets(rows, siteId) && b.data.belongsToId.Some?
    ensures a in rows && a.data.belongsToId == b.data.belongsToId && b.data.belongsToId != Some(siteId)
  {
    var r := DetachAssets(rows, siteId);
    DetachPointwise(rows, siteId);
    var i :| 0 <= i < |r| && r[i] == b;
    a := rows[i];
  }

  lemma DeleteSiteValid(t: Tables, id: Id)
    requires Valid(t)
    ensures Valid(DeleteSiteStep(t, id).after)
  {
    var w := DeleteSiteStep(t, id);
    if w.result.Ok? {
      RemoveSiteGone(t.sites, id);
      assert w.after == Tables(DetachAssets(t.assets, id), RemoveSite(t.sites, id));
      DetachKeepsIds(t.assets, id);
      forall b | b in w.after.assets && b.data.belongsToId.Some?
        ensures FindSite(w.after.sites, b.data.belongsToId.value).Some?
      {
        var a := DetachedOwner(t.assets, id, b);
        FindSiteRemove(t.sites, id, b.data.belongsToId.value);
      }
    }
  }

  // ---------------------------------------------------------------------
  // A read after a write sees the write.

  lemma CreateAssetThenRead(t: Tables, newId: Id, createdAt: int, data: AssetData)
    ensures var w := CreateAssetStep(t, newId, createdAt, data);
      w.result.Ok? <==> (
        FindAsset(t.assets, newId).None? &&
        (data.belongsToId.Some? ==> FindSite(t.sites, data.belongsToId.value).Some?))
    ensures var w := CreateAssetStep(t, newId, createdAt, data);
      w.result.Ok? ==> (
        w.result.value == Asset(newId, createdAt, data) &&
        Eval(w.after, AssetById(newId)) == AssetJson(w.result.value))
  {
    FindAssetAppend(t.assets, Asset(newId, createdAt, data), newId);
  }

  lemma UpdateAssetThenRead(t: Tables, id: Id, patch: AssetPatch)
    ensures var w := UpdateAssetStep(t, id, patch);
      w.result.Ok? <==> (
        FindAsset(t.assets, id).Some? &&
        (NewOwner(patch).Some? ==> FindSite(t.sites, NewOwner(patch).value).Some?))
    ensures var w := UpdateAssetStep(t, id, patch);
      w.result.Ok? ==> (
        var current := FindAsset(t.assets, id).value;
        w.result.value == Asset(id, current.createdAt, PatchAsset(current.data, patch)) &&
        Eval(w.after, AssetById(id)) == AssetJson(w.result.value))
  {
    var w := UpdateAssetStep(t, id, patch);
    if w.result.Ok? {
      FindAssetReplace(t.assets, id, w.result.value, id);
    }
  }

  lemma DeleteAssetThenRead(t: Tables, id: Id)
    requires Valid(t)
    ensures var w := DeleteAssetStep(t, id);
      w.result.Ok? <==> FindAsset(t.assets, id).Some?
    ensures var w := DeleteAssetStep(t, id);
      w.result.Ok? ==> w.result == Ok(FindAsset(t.assets, id).value) && Eval(w.after, AssetById(id)) == JNull
  {
    RemoveAssetGone(t.assets, id);
  }

  lemma CreateSiteThenRead(t: Tables, newId: Id, createdAt: int, data: SiteData)
    ensures var w := CreateSiteStep(t, newId, createdAt, data);
      w.result.Ok? <==> FindSite(t.sites, newId).None? && !NameTaken(t.sites, data.name, None)
    ensures var w := CreateSiteStep(t, newId, createdAt, data);
      w.result.Ok? ==> (
        w.result.value == Site(newId, createdAt, data) &&
        Eval(w.after, SiteById(newId)) == SiteJson(w.result.value))
  {
    FindSiteAppend(t.sites, Site(newId, createdAt, data), newId);
  }

  lemma UpdateSiteThenRead(t: Tables, id: Id, patch: SitePatch)
    ensures var w := UpdateSiteStep(t, id, patch);
      w.result.Ok? <==> (
        FindSite(t.sites, id).Some? &&
        (patch.name.Some? ==> !NameTaken(t.sites, patch.name.value, Some(id))))
    ensures var w := UpdateSiteStep(t, id, patch);
      w.result.Ok? ==> (
        var current := FindSite(t.sites, id).value;
        w.result.value == Site(id, current.createdAt, PatchSite(current.data, patch)) &&
        Eval(w.after, SiteById(id)) == SiteJson(w.result.value))
  {
    var w := UpdateSiteStep(t, id, patch);
    if w.result.Ok? {
      FindSiteReplace(t.sites, id, w.result.value, id);
    }
  }

  lemma DeleteSiteThenRead(t: Tables, id: Id)
    requires Valid(t)
    ensures var w := DeleteSiteStep(t, id);
      w.result.Ok? <==> FindSite(t.sites, id).Some?
    ensures var w := DeleteSiteStep(t, id);
      w.result.Ok? ==> (
        w.result == Ok(FindSite(t.sites, id).value) &&
        Eval(w.after, SiteById(id)) == JNull && Eval(w.after, AssetsBySite(id)) == JArr([]))
  {
    RemoveSiteGone(t.sites, id);
    OwnedByDetach(t.assets, id, id);
  }
}

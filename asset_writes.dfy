/**
 * The asset writes, which both asset services implement the same way: the
 * store write, then one `Promise.all` of deletes for the keys of the reads
 * the write affects. A failed store write deletes nothing; a failed delete
 * fails the call after the store has changed.
 */
module AssetWrites {
  import opened Errors
  import opened JsonText
  import opened Records
  import opened Store
  import opened StoreFacts
  import opened RedisUtils
  import opened CacheKeys
  import opened Freshness

  function CreateAssetCall(entries: map<string, Entry>, connected: bool, t: Tables, newId: Id, createdAt: int, data: AssetData): Call<Asset>
  {
    WriteThenDelete(entries, connected, CreateAssetStep(t, newId, createdAt, data), CreateAssetKeys(data))
  }

  function UpdateAssetCall(entries: map<string, Entry>, connected: bool, t: Tables, id: Id, patch: AssetPatch): Call<Asset>
  {
    WriteThenDelete(entries, connected, UpdateAssetStep(t, id, patch), UpdateAssetKeys(id, FindAsset(t.assets, id), patch))
  }

  function DeleteAssetCall(entries: map<string, Entry>, connected: bool, t: Tables, id: Id): Call<Asset>
  {
    var w := DeleteAssetStep(t, id);
    WriteThenDelete(entries, connected, w, if w.result.Ok? then DeleteAssetKeys(id, w.result.value) else {})
  }

  /**
   * With the cache reachable, each asset write keeps the tables well-formed
   * and every covered read fresh; `createAsset` needs the new id to have the
   * shape the store generates.
   */
  lemma CreateAssetCoherent(entries: map<string, Entry>, now: int, t: Tables, newId: Id, createdAt: int, data: AssetData)
    requires Coherent(entries, now, t) && IdShape(newId)
    ensures var c := CreateAssetCall(entries, true, t, newId, createdAt, data);
      Coherent(c.entries, now, c.tables)
  {
    CreateAssetValid(t, newId, createdAt, data);
    CreateAssetFresh(entries, now, t, newId, createdAt, data);
    CallCoherent(entries, now, t, CreateAssetStep(t, newId, createdAt, data), CreateAssetKeys(data));
  }

  lemma UpdateAssetCoherent(entries: map<string, Entry>, now: int, t: Tables, id: Id, patch: AssetPatch)
    requires Coherent(entries, now, t)
    ensures var c := UpdateAssetCall(entries, true, t, id, patch);
      Coherent(c.entries, now, c.tables)
  {
    UpdateAssetValid(t, id, patch);
    UpdateAssetFresh(entries, now, t, id, patch);
    CallCoherent(entries, now, t, UpdateAssetStep(t, id, patch), UpdateAssetKeys(id, FindAsset(t.assets, id), patch));
  }

  lemma DeleteAssetCoherent(entries: map<string, Entry>, now: int, t: Tables, id: Id)
    requires Coherent(entries, now, t)
    ensures var c := DeleteAssetCall(entries, true, t, id);
      Coherent(c.entries, now, c.tables)
  {
    var w := DeleteAssetStep(t, id);
    DeleteAssetValid(t, id);
    DeleteAssetFresh(entries, now, t, id);
    CallCoherent(entries, now, t, w, if w.result.Ok? then DeleteAssetKeys(id, w.result.value) else {});
  }

  /** `owner && RedisUtils.delete(...)`: nothing to do, and no failure, for a null or empty owner. */
  method DeleteOwnerList(redis: RedisClient, owner: Option<Id>) returns (r: Outcome)
    modifies redis`entries
    ensures redis.connected || OwnerKeys(owner) == {} ==> r == Pass && redis.entries == old(redis.entries) - OwnerKeys(owner)
    ensures !redis.connected && OwnerKeys(owner) != {} ==> r == Fail(CacheUnavailable) && redis.entries == old(redis.entries)
  {
    r := Pass;
    if owner.Some? && owner.value != "" {
      r := redis.Delete(KeyOf(AssetsBySite(owner.value)));
    }
  }

  /** The `Promise.all` group of `createAsset`: the full list and the new owner's list. */
  method InvalidateCreate(redis: RedisClient, data: AssetData) returns (r: Outcome)
    modifies redis`entries
    ensures redis.connected ==> r == Pass && redis.entries == old(redis.entries) - CreateAssetKeys(data)
    ensures !redis.connected ==> r == Fail(CacheUnavailable) && redis.entries == old(redis.entries)
  {
    ghost var e0 := redis.entries;
    var all := redis.Delete(KeyOf(AllAssets));
    var owner := DeleteOwnerList(redis, data.belongsToId);
    r := Settle([all, owner]);
    DeleteEach(e0, {KeyOf(AllAssets)}, OwnerKeys(data.belongsToId));
  }

  /** The `Promise.all` group of `updateAsset`: the record, the full list, and the old and new owners' lists. */
  method InvalidateUpdate(redis: RedisClient, id: Id, before: Option<Asset>, patch: AssetPatch) returns (r: Outcome)
    modifies redis`entries
    ensures redis.connected ==> r == Pass && redis.entries == old(redis.entries) - UpdateAssetKeys(id, before, patch)
    ensures !redis.connected ==> r == Fail(CacheUnavailable) && redis.entries == old(redis.entries)
  {
    ghost var e0 := redis.entries;
    var record := redis.Delete(KeyOf(AssetById(id)));
    var all := redis.Delete(KeyOf(AllAssets));
    var previous := if before.Some? then before.value.data.belongsToId else None;
    var oldOwner := DeleteOwnerList(redis, previous);
    var newOwner := DeleteOwnerList(redis, NewOwner(patch));
    r := Settle([record, all, oldOwner, newOwner]);
    DeleteFour(e0, KeyOf(AssetById(id)), KeyOf(AllAssets), OwnerKeys(previous), OwnerKeys(NewOwner(patch)));
  }

  /** The `Promise.all` group of `deleteAsset`: the record, the full list and the deleted asset's owner's list. */
  method InvalidateDelete(redis: RedisClient, id: Id, deleted: Asset) returns (r: Outcome)
    modifies redis`entries
    ensures redis.connected ==> r == Pass && redis.entries == old(redis.entries) - DeleteAssetKeys(id, deleted)
    ensures !redis.connected ==> r == Fail(CacheUnavailable) && redis.entries == old(redis.entries)
  {
    ghost var e0 := redis.entries;
    var record := redis.Delete(KeyOf(AssetById(id)));
    var all := redis.Delete(KeyOf(AllAssets));
    var owner := DeleteOwnerList(redis, deleted.data.belongsToId);
    r := Settle([record, all, owner]);
    DeleteEach(e0, {KeyOf(AssetById(id))}, {KeyOf(AllAssets)});
    DeleteEach(e0, {KeyOf(AssetById(id)), KeyOf(AllAssets)}, OwnerKeys(deleted.data.belongsToId));
  }

  method CreateAsset(redis: RedisClient, db: Database, newId: Id, createdAt: int, data: AssetData) returns (r: Result<Asset>)
    modifies db`tables, redis`entries
    ensures var c := CreateAssetCall(old(redis.entries), redis.connected, old(db.tables), newId, createdAt, data);
      r == c.result && redis.entries == c.entries && db.tables == c.tables
  {
    var created := db.CreateAsset(newId, createdAt, data);
    if created.Err? {
      return created;
    }
    var invalidated := InvalidateCreate(redis, data);
    r := if invalidated.Fail? then Err(invalidated.error) else created;
  }

  method UpdateAsset(redis: RedisClient, db: Database, id: Id, patch: AssetPatch) returns (r: Result<Asset>)
    modifies db`tables, db`log, redis`entries
    ensures var c := UpdateAssetCall(old(redis.entries), redis.connected, old(db.tables), id, patch);
      r == c.result && redis.entries == c.entries && db.tables == c.tables
    ensures db.log == old(db.log) + [AssetById(id)]
  {
    var oldAsset := db.FindAssetRow(id);
    var updated := db.UpdateAsset(id, patch);
    if updated.Err? {
      return updated;
    }
    var invalidated := InvalidateUpdate(redis, id, oldAsset, patch);
    r := if invalidated.Fail? then Err(invalidated.error) else updated;
  }

  method DeleteAsset(redis: RedisClient, db: Database, id: Id) returns (r: Result<Asset>)
    modifies db`tables, redis`entries
    ensures var c := DeleteAssetCall(old(redis.entries), redis.connected, old(db.tables), id);
      r == c.result && redis.entries == c.entries && db.tables == c.tables
  {
    var deleted := db.DeleteAsset(id);
    if deleted.Err? {
      return deleted;
    }
    var invalidated := InvalidateDelete(redis, id, deleted.value);
    r := if invalidated.Fail? then Err(invalidated.error) else deleted;
  }
}

# Cache-aside and invalidate-after-write for assets and sites

This project models the caching layer of the power-automation asset service. The store holds two tables: sites, and assets that may belong to a site. Redis sits in front of the store as a key-value cache.

- **`RedisUtils`** wraps the Redis client. Its operations are `set`, `get`, `delete`, `exists`, `mset` and `mget`, over JSON documents with an optional expiry in seconds.
- **The `@Cache` method decorator** builds the key `prefix:method:JSON(args)`. It answers a call from the cache when the cached document is truthy. Otherwise it runs the method and caches any result that is not null.
- **Five services** read through the cache and invalidate after writes:
  - `assets.ts` and `site.ts` spell out the read-through by hand.
  - `asset.service.ts` and `site.service.ts` use the decorator.
  - `sites.ts` does not cache its reads. After each write it deletes `site:<id>` for every site and then `sites:getAllSites`.

The consistency the layer aims at is freshness: a document a reader takes from the cache is the one the store would answer now. The model states freshness per key family:

- the asset reads `getAllAssets`, `getAssetById` and `getAssetsBySiteId`;
- the site reads `getAllSites` and `getSiteById` of `site.ts`;
- the decorated site reads of `site.service.ts`, which cache sites with their assets.

The model proves two things:

- Every cached read keeps freshness.
- Every write in `assets.ts`, `asset.service.ts` and `site.ts` restores freshness of the asset reads and of the `site.ts` site reads once its deletes succeed. A site delete does so only when the site owned no assets.
- The decorated site reads are kept fresh by those reads themselves, not by any write: `site.service.ts` deletes nothing, and an asset write deletes neither of their keys.

Lemmas in `Staleness` show where the invalidation falls short:

- Some cached reads are never deleted by any write.
- A site delete detaches its assets without deleting their list.
- An asset write changes a site's document with its assets, but leaves the decorated service's cached copy in place.
- A write while Redis is unreachable leaves every old document in place.
- `site.service.ts` caches a different document under the key `site.ts` uses, and deletes nothing.
- `sites.ts` deletes keys that no reader builds.

How the pieces are represented:

- **Redis.** `RedisClient` is a class. Its fields are the key space, the server clock and whether the connection is up. A command issued while the connection is down fails with `CacheUnavailable`.
- **The store.** `Database` is a class holding the tables. Each Prisma call is a pure step function over the tables (`CreateAssetStep`, `Eval`, …).
- **Service methods** change those two objects. Each method is proved against a pure function of the old state (`ReadThrough`, `Decorated`, `CreateAssetCall`, …). The freshness lemmas are stated on those functions.
- **Hand-written reads.** `InlineRead.ReadThrough` is the read that `assets.ts` and `site.ts` spell out in each method (for example `src/services/assets.ts:7-16`): `get` the read's own key, return a truthy cached document, otherwise ask the store and `set` its answer for the method's ttl (only a found record, for the single-record reads). `InlineRead.Load` is proved against it, and `InlineRead.ReadFresh` states what it answers.
- **`Promise.all`.** Its group of deletes is issued in order, and `Settle` combines their outcomes. Every delete in a group sees the same connection state, so they all pass or all fail.

## Model

| member | source | states |
|---|---|---|
| RedisUtils.Expiry | src/utils/redis.utils.ts:8-12 | a positive expiry is written with that many seconds; an absent or zero one is written without expiry; a negative one is refused by `SETEX` |
| RedisUtils.SetThenGet | src/utils/redis.utils.ts:5-28 | after `set(k, v)` with a valid expiry, `get(k)` answers `v` and every other key reads as before |
| RedisUtils.ExpiredReadsNull | src/utils/redis.utils.ts:20-23 | once an entry's seconds have run out, `get` answers null |
| RedisUtils.DeleteThenAbsent | src/utils/redis.utils.ts:31-48 | after `delete(k)`, `k` is not present and reads null; other keys read as before |
| RedisUtils.LookupAll | src/utils/redis.utils.ts:66-69 | the `mget` answer has one entry per key, in order, each the `get` of that key |
| RedisUtils.PutAllThenGet | src/utils/redis.utils.ts:51-58 | after `mset`, every given key reads its value and every other key reads as before |
| RedisUtils.RedisClient.Set | src/utils/redis.utils.ts:5-17 | stores the document with the expiry `Expiry` gives; a refused expiry or a lost connection fails and changes nothing |
| RedisUtils.RedisClient.Get | src/utils/redis.utils.ts:20-28 | answers the live document or null; a lost connection is an error, not a miss |
| RedisUtils.RedisClient.Delete | src/utils/redis.utils.ts:31-38 | removes exactly the key, or fails without change |
| RedisUtils.RedisClient.Exists | src/utils/redis.utils.ts:41-48 | true exactly when the key holds a live entry |
| RedisUtils.RedisClient.MSet | src/utils/redis.utils.ts:51-63 | stores every pair without expiry; an empty object is a malformed command |
| RedisUtils.RedisClient.MGet | src/utils/redis.utils.ts:66-74 | one answer per key in order, null for a missing key; an empty key list is a malformed command |
| Errors.Settle | src/services/assets.ts:51-54 | the group passes exactly when every delete passes, and a failed group reports one of its failures |
| JsonText.StringifyInjective | src/utils/cache.decorator.ts:30 | different argument lists have different `JSON.stringify` texts |
| JsonText.EscapePlain | src/utils/cache.decorator.ts:30 | a string without quotes, backslashes or control characters is its own JSON escape |
| JsonText.EscapeNonPlain | src/utils/cache.decorator.ts:30 | the escape of any other string is itself not plain |
| JsonText.EscapeGrows | src/utils/cache.decorator.ts:30 | escaping a string that is not plain makes it longer |
| CacheDecorator.TtlOf | src/utils/cache.decorator.ts:44 | `options.ttl \|\| 3600`: the given ttl unless it is absent or zero, and then an hour; never zero |
| CacheDecorator.CacheKeyInjective | src/utils/cache.decorator.ts:29-30 | with a fixed key every call shares one entry; without one, two calls share an entry exactly when method and arguments agree |
| CacheDecorator.DecoratedKey | src/utils/cache.decorator.ts:29-30 | the decorator's key for a read is the hand-written key of the read with its argument JSON-escaped, and equals the hand-written key exactly when escaping changes nothing |
| CacheDecorator.EscapedUnchanged | src/utils/cache.decorator.ts:30 | escaping leaves a read unchanged exactly when its arguments are plain |
| CacheDecorator.Decorated | src/utils/cache.decorator.ts:27-49 | no connection: fails untouched; truthy cached document: returned without running the method; miss: the method runs, a null result is returned uncached, any other is cached for `TtlOf` seconds or refused when negative |
| CacheDecorator.Cached | src/utils/cache.decorator.ts:27-49 | the decorated call's answer and cache are as `Decorated` says, and the store is asked once exactly on a miss |
| CacheKeys.KeyOfInjective | src/services/assets.ts:8-32 | distinct cached reads have distinct hand-written keys |
| CacheKeys.Key3Injective | src/utils/cache.decorator.ts:30 | a generated key determines its prefix, method and argument text |
| CacheKeys.ArgTextInjective | src/services/assets.ts:18 | `["${id}"]` determines `id` |
| CacheKeys.KeyOfStringify | src/services/assets.ts:18 | the hand-written key `["${x}"]` is the decorator's key exactly when `x` is its own JSON escape |
| CacheKeys.OwnerKeys | src/services/assets.ts:53 | `owner && delete(...)`: nothing, or the list key of the owner itself and of no other site |
| CacheKeys.RowKeyNotGenerated | src/services/sites.ts:99 | `site:${id}` for an id without a colon is no `prefix:method:args` key |
| CacheKeys.ListKeyNotGenerated | src/services/sites.ts:101 | `sites:getAllSites` is no `prefix:method:args` key |
| CacheKeys.RowKeyInjective | src/services/sites.ts:99 | `site:${id}` determines `id` |
| Records.AssetJsonInjective | src/services/assets.ts:12-13 | two assets are cached as the same document only if they are the same asset |
| Records.SiteJsonInjective | src/services/site.ts:13-14 | the same for sites |
| Store.FindAsset | src/services/assets.ts:22-24 | `findUnique` finds a row with the id, or there is none |
| Store.FindSite | src/services/site.ts:23-25 | the same for sites |
| Store.OwnedBy | src/services/assets.ts:36-40 | exactly the assets whose owner is the site |
| Store.OfType | src/services/assets.ts:116-123 | exactly the assets whose type contains the text, ignoring ASCII case |
| Store.Named | src/services/site.ts:94-101 | exactly the sites whose name contains the text, ignoring ASCII case |
| Store.SiteIdList | src/services/sites.ts:94-96 | one id per site, in order |
| Store.EvalNull | src/services/assets.ts:22-28 | a read answers null exactly when a single-record lookup finds nothing; a non-null answer is truthy |
| StoreFacts.DetachPointwise | src/services/site.ts:59-61 | deleting a site nulls the owner of exactly its assets and leaves every other row as it was, in order |
| Store.Database.Run | src/services/assets.ts:12 | a read answers `Eval` of the current tables and is logged |
| Store.Database.FindAssetRow | src/services/assets.ts:60-62 | the row `findUnique` finds before an update |
| Store.Database.SelectSiteIds | src/services/sites.ts:94-96 | the ids of all sites |
| Store.Database.CreateAsset | src/services/assets.ts:46-48 | the tables and answer after `asset.create` |
| Store.Database.UpdateAsset | src/services/assets.ts:64-67 | the tables and answer after `asset.update` |
| Store.Database.DeleteAsset | src/services/assets.ts:81-83 | the tables and answer after `asset.delete` |
| Store.Database.CreateSite | src/services/site.ts:33-35 | the tables and answer after `site.create` |
| Store.Database.UpdateSite | src/services/site.ts:44-47 | the tables and answer after `site.update` |
| Store.Database.DeleteSite | src/services/site.ts:59-61 | the tables and answer after `site.delete` |
| StoreFacts.CreateAssetValid | src/services/assets.ts:46-48 | a create with a generated id keeps ids unique and owners existing |
| StoreFacts.UpdateAssetValid | src/services/assets.ts:64-67 | an update keeps ids unique and owners existing |
| StoreFacts.DeleteAssetValid | src/services/assets.ts:81-83 | a delete keeps ids unique and owners existing |
| StoreFacts.CreateSiteValid | src/services/site.ts:33-35 | a site create with a generated id keeps the tables well-formed |
| StoreFacts.UpdateSiteValid | src/services/site.ts:44-47 | a site update keeps the tables well-formed |
| StoreFacts.DeleteSiteValid | src/services/site.ts:59-61 | a site delete keeps the tables well-formed, detaching the site's assets |
| StoreFacts.CreateAssetThenRead | src/services/assets.ts:46-48 | the create succeeds exactly when the id is new and the owner exists, and the new asset is then found |
| StoreFacts.UpdateAssetThenRead | src/services/assets.ts:64-67 | the update succeeds exactly when the asset and any new owner exist, and the patched asset is then found |
| StoreFacts.DeleteAssetThenRead | src/services/assets.ts:81-83 | the delete succeeds exactly when the asset exists, and it is then gone |
| StoreFacts.CreateSiteThenRead | src/services/site.ts:33-35 | the create succeeds exactly when the id and the name are new, and the site is then found |
| StoreFacts.UpdateSiteThenRead | src/services/site.ts:44-47 | the update succeeds exactly when the site exists and a new name is free, and the patched site is then found |
| StoreFacts.DeleteSiteThenRead | src/services/site.ts:59-61 | the delete succeeds exactly when the site exists; it is then gone and owns no assets |
| StoreFacts.OfTypeAppend | src/services/assets.ts:116-123 | a new asset joins a by-type list exactly when its type matches |
| StoreFacts.OwnedByDetach | src/services/site.ts:59-61 | after a site delete the site owns nothing and other sites own what they did |
| StoreFacts.DetachKeepsIds | src/services/site.ts:59-61 | detaching a deleted site's assets keeps their ids distinct and well-formed |
| Freshness.PutKeepsFresh | src/services/assets.ts:13 | caching the store's answer under a read's own key keeps every covered family fresh |
| Freshness.PutKeepsSitesWithAssetsFresh | src/services/site.service.ts:12-29 | the same for the decorated site documents |
| Freshness.DeleteKeepsFresh | src/utils/redis.utils.ts:31-38 | deleting keys never makes an entry stale |
| Freshness.AdvanceKeepsFresh | src/utils/redis.utils.ts:8-9 | expiry never makes an entry stale |
| Freshness.NonPlainAbsent | src/services/assets.ts:18 | an argument that needs JSON escaping is no stored id and owns nothing |
| Freshness.EscapedEval | src/services/asset.service.ts:17-31 | in a well-formed store, a read by the escaped argument answers what the read by the argument does |
| Freshness.EscapedArg | src/services/asset.service.ts:17-31 | escaping leaves a plain argument alone; neither a non-plain argument nor its escape is a stored id or an owner |
| Freshness.DecoratedFresh | src/services/asset.service.ts:12-31 | a decorated asset or site read answers the store's document while the cache is fresh, and keeps it fresh |
| Freshness.FreshThroughWrite | src/services/assets.ts:50-54 | an entry stays fresh through a write when its answer is unchanged, its key is deleted, or it was null |
| Freshness.SitesUntouched | src/services/assets.ts:45-93 | asset writes leave the site reads fresh |
| Freshness.AssetsUntouched | src/services/site.ts:32-56 | site writes that leave the asset table alone keep the asset reads fresh |
| Freshness.CreateAssetInvalidates | src/services/assets.ts:51-54 | every covered asset read `createAsset` changes has its key deleted, or was null |
| Freshness.UpdateAssetInvalidates | src/services/assets.ts:70-75 | every covered asset read `updateAsset` changes has its key deleted |
| Freshness.DeleteAssetInvalidates | src/services/assets.ts:86-90 | every covered asset read `deleteAsset` changes has its key deleted |
| Freshness.CreateSiteInvalidates | src/services/site.ts:32-41 | every site read `createSite` changes has its key deleted, or was null |
| Freshness.UpdateSiteInvalidates | src/services/site.ts:43-56 | every site read `updateSite` changes has its key deleted |
| Freshness.DeleteSiteInvalidates | src/services/site.ts:58-70 | every site read `deleteSite` changes has its key deleted |
| Freshness.CreateAssetFresh | src/services/assets.ts:45-57 | after `createAsset` and its deletes, the asset and site reads are fresh again |
| Freshness.UpdateAssetFresh | src/services/assets.ts:59-78 | the same for `updateAsset` |
| Freshness.DeleteAssetFresh | src/services/assets.ts:80-93 | the same for `deleteAsset` |
| Freshness.CreateSiteFresh | src/services/site.ts:32-41 | after `createSite` and its delete, the site and asset reads are fresh |
| Freshness.UpdateSiteFresh | src/services/site.ts:43-56 | the same for `updateSite` |
| Freshness.DeleteSiteFresh | src/services/site.ts:58-70 | the same for `deleteSite`; the asset reads only when the site owned no assets |
| Freshness.CallCoherent | src/services/assets.ts:45-93 | a write whose failure leaves the tables alone, and whose success keeps them well-formed and the reads fresh once its keys are deleted, keeps the cache coherent |
| InlineRead.Load | src/services/assets.ts:7-29 | a hand-written read leaves the answer, the cache and the store log as `ReadThrough` says |
| InlineRead.ReadFresh | src/services/assets.ts:7-43 | a hand-written read answers the store's document while the cache is fresh, and keeps it fresh |
| AssetWrites.CreateAssetCoherent | src/services/assets.ts:45-57 | with the cache reachable, `createAsset` with a generated id keeps the tables well-formed and every covered read fresh |
| AssetWrites.UpdateAssetCoherent | src/services/assets.ts:59-78 | the same for `updateAsset` |
| AssetWrites.DeleteAssetCoherent | src/services/assets.ts:80-93 | the same for `deleteAsset` |
| AssetWrites.DeleteOwnerList | src/services/assets.ts:53 | deletes the owner's list when an owner is set, otherwise does nothing and passes |
| AssetWrites.InvalidateCreate | src/services/assets.ts:51-54 | with Redis reachable, deletes exactly the all-list and the owner's list and passes; otherwise fails and deletes nothing |
| AssetWrites.InvalidateUpdate | src/services/assets.ts:70-75 | the same for the record, the all-list and the old and new owners' lists |
| AssetWrites.InvalidateDelete | src/services/assets.ts:86-90 | the same for the record, the all-list and the deleted asset's owner's list |
| AssetWrites.CreateAsset | src/services/assets.ts:45-57 | store create, then the all-list and owner-list deletes; answer, cache and tables as `CreateAssetCall` |
| AssetWrites.UpdateAsset | src/services/assets.ts:59-78 | reads the old row, updates, deletes the record, the all-list and both owners' lists; as `UpdateAssetCall` |
| AssetWrites.DeleteAsset | src/services/assets.ts:80-93 | store delete, then the record, the all-list and the owner's list; as `DeleteAssetCall` |
| AssetsInline.ReadAfterUpdate | src/services/assets.ts:17-29 | from a coherent cache, `getAssetById` right after a successful `updateAsset` answers the updated asset |
| AssetsInline.ReadAfterDelete | src/services/assets.ts:80-93 | and after a successful `deleteAsset` it answers null |
| AssetsInline.AssetService.GetAllAssets | src/services/assets.ts:7-15 | cached for 3600 s under `assets:getAllAssets:[]`, even when empty; keeps the invariant and answers the store's list |
| AssetsInline.AssetService.GetAssetById | src/services/assets.ts:17-29 | cached for 3600 s only when found; keeps the invariant and answers the store's record |
| AssetsInline.AssetService.GetAssetsBySiteId | src/services/assets.ts:31-43 | cached for 1800 s; keeps the invariant and answers the store's list |
| AssetsInline.AssetService.GetAssetsWithSite | src/services/assets.ts:96-108 | cached for 1800 s; keeps the invariant, with no promise about the answer |
| AssetsInline.AssetService.GetAssetsByType | src/services/assets.ts:111-126 | cached for 1800 s; keeps the invariant, with no promise about the answer |
| AssetsInline.AssetService.CreateAsset | src/services/assets.ts:45-57 | as `CreateAssetCall`; restores the invariant when the cache is reachable |
| AssetsInline.AssetService.UpdateAsset | src/services/assets.ts:59-78 | as `UpdateAssetCall`; restores the invariant when the cache is reachable |
| AssetsInline.AssetService.DeleteAsset | src/services/assets.ts:80-93 | as `DeleteAssetCall`; restores the invariant when the cache is reachable |
| AssetsDecorated.AssetService.GetAllAssets | src/services/asset.service.ts:12-15 | as `Decorated` with prefix `assets` and ttl 3600; keeps the invariant and answers the store's list |
| AssetsDecorated.AssetService.GetAssetById | src/services/asset.service.ts:17-22 | as `Decorated` with prefix `asset` and ttl 3600, caching nothing for a missing id |
| AssetsDecorated.AssetService.GetAssetsBySiteId | src/services/asset.service.ts:24-31 | as `Decorated` with prefix `assets` and ttl 1800 |
| AssetsDecorated.AssetService.GetAssetsWithSite | src/services/asset.service.ts:84-91 | as `Decorated` with ttl 1800; keeps the invariant only |
| AssetsDecorated.AssetService.GetAssetsByType | src/services/asset.service.ts:94-104 | as `Decorated` with ttl 1800; keeps the invariant only |
| AssetsDecorated.AssetService.CachedRead | src/services/asset.service.ts:12-31 | a `@Cache({ keyPrefix, ttl })` read: answer, cache and store log as `Decorated`; keeps the invariant and answers the store's document for a covered read |
| AssetsDecorated.AssetService.CreateAsset | src/services/asset.service.ts:33-45 | as `CreateAssetCall`; restores the invariant when the cache is reachable |
| AssetsDecorated.AssetService.UpdateAsset | src/services/asset.service.ts:47-66 | as `UpdateAssetCall`; restores the invariant when the cache is reachable |
| AssetsDecorated.AssetService.DeleteAsset | src/services/asset.service.ts:68-81 | as `DeleteAssetCall`; restores the invariant when the cache is reachable |
| SitesInline.CreateSiteCoherent | src/services/site.ts:32-41 | with the cache reachable, `createSite` with a generated id keeps every covered read fresh |
| SitesInline.UpdateSiteCoherent | src/services/site.ts:43-56 | the same for `updateSite` |
| SitesInline.DeleteSiteCoherent | src/services/site.ts:58-70 | the same for `deleteSite` of a site that owns no assets |
| SitesInline.InvalidateSite | src/services/site.ts:50-53 | with Redis reachable, deletes exactly the record and the all-list and passes; otherwise fails and deletes nothing |
| SitesInline.SiteService.GetAllSites | src/services/site.ts:8-16 | cached for 3600 s under `sites:getAllSites:[]`; keeps the invariant and answers the store's list |
| SitesInline.SiteService.GetSiteById | src/services/site.ts:18-30 | cached for 3600 s only when found; keeps the invariant and answers the store's record |
| SitesInline.SiteService.GetSiteWithAssets | src/services/site.ts:72-87 | cached for 1800 s only when found; keeps the invariant |
| SitesInline.SiteService.GetSitesByName | src/services/site.ts:89-104 | cached for 1800 s; keeps the invariant |
| SitesInline.SiteService.CreateSite | src/services/site.ts:32-41 | store create, then the all-list delete; restores the invariant when the cache is reachable |
| SitesInline.SiteService.UpdateSite | src/services/site.ts:43-56 | update, then the record and all-list deletes; restores the invariant when the cache is reachable |
| SitesInline.SiteService.DeleteSite | src/services/site.ts:58-70 | delete, then the same two deletes; restores the invariant when the site owned no assets |
| SitesDecorated.AllSitesReadFresh | src/services/site.service.ts:12-19 | the decorated `getAllSites` answers the store's sites with assets while that key is fresh, and keeps it fresh |
| SitesDecorated.SiteByIdReadFresh | src/services/site.service.ts:21-29 | the same for `getSiteById` |
| SitesDecorated.SiteService.GetAllSites | src/services/site.service.ts:12-19 | as `Decorated` with prefix `sites` and ttl 3600; keeps its invariant |
| SitesDecorated.SiteService.GetSiteById | src/services/site.service.ts:21-29 | as `Decorated` with prefix `site` and ttl 3600; keeps its invariant |
| SitesDecorated.SiteService.CreateSite | src/services/site.service.ts:31-38 | only the store changes; answers the new site with its assets |
| SitesDecorated.SiteService.UpdateSite | src/services/site.service.ts:40-48 | only the store changes; answers the updated site with its assets |
| SitesDecorated.SiteService.DeleteSite | src/services/site.service.ts:50-57 | only the store changes; answers the deleted site with the assets it had |
| SitesUncached.InvalidationMissesReads | src/services/sites.ts:92-102 | in a well-formed store no key `invalidateCache` deletes is a `prefix:method:args` key |
| SitesUncached.DeletedSiteNotInvalidated | src/services/sites.ts:80-99 | after `deleteSite`, the deleted site's own `site:<id>` is not among the deletes |
| SitesUncached.InvalidateCache | src/services/sites.ts:92-102 | lists the ids, deletes `site:<id>` for each in turn, then `sites:getAllSites`; a lost connection fails at the first delete with nothing removed |
| SitesUncached.SiteService.GetAllSites | src/services/sites.ts:36-43 | the store's sites with assets; the cache is not touched |
| SitesUncached.SiteService.GetSiteById | src/services/sites.ts:45-53 | the store's site with assets, or null; the cache is not touched |
| SitesUncached.SiteService.Finish | src/services/sites.ts:62-64 | a failed store write returns its error with nothing else done; a successful one runs `invalidateCache` and answers the write's document, or the invalidation's failure |
| SitesUncached.SiteService.CreateSite | src/services/sites.ts:55-65 | store create, then `invalidateCache`; answers the site with its assets or the invalidation's failure |
| SitesUncached.SiteService.UpdateSite | src/services/sites.ts:67-78 | the same for an update |
| SitesUncached.SiteService.DeleteSite | src/services/sites.ts:80-90 | the same for a delete, answering the assets the site had |
| Staleness.AssetWritesMiss | src/services/assets.ts:51-54 | no asset write deletes a `getAssetsByType` or `getAssetsWithSite` key |
| Staleness.SiteWritesMiss | src/services/site.ts:38-66 | no site write deletes a `getSiteWithAssets`, `getSitesByName` or `getAssetsBySiteId` key |
| Staleness.SiteKeyNotAssetKey | src/services/assets.ts:51-54 | no asset write deletes a site record key |
| Staleness.SiteWithAssetsGrows | src/services/site.service.ts:21-28 | a site's document with its assets changes when the site gains an asset |
| Staleness.CreateAssetChangesSite | src/services/assets.ts:45-50 | creating an asset for a site changes the store's answer for that site with its assets |
| Staleness.CreateAssetLeavesSiteWithAssetsStale | src/services/assets.ts:45-57 | after `createAsset` for a site, the decorated service's cached site with assets is still served without the new asset, so its freshness is broken |
| Staleness.StaleThroughDelete | src/utils/redis.utils.ts:31-38 | an entry a write changed but did not delete is still a hit, and no longer the store's answer |
| Staleness.CreateAssetLeavesTypedListStale | src/services/assets.ts:111-126 | after `createAsset` of a matching type, a cached by-type list is still served without the new asset |
| Staleness.DeleteSiteLeavesOwnedListStale | src/services/site.ts:58-70 | after deleting a site that owned assets, its cached asset list is still served though the store lists none |
| Staleness.OutageLeavesDeletedAssetCached | src/services/assets.ts:80-93 | a `deleteAsset` while Redis is unreachable deletes the row, fails, and leaves the asset served from the cache |
| Staleness.DecoratedCreateSiteLeavesListStale | src/services/site.service.ts:31-38 | after the decorated service's `createSite`, its cached site list lacks the new site |
| Staleness.SiteListsDiffer | src/services/site.service.ts:12-19 | once the store holds a site, the site list with assets and the one without them differ |
| Staleness.SharedKeyConflict | src/services/site.service.ts:12-19 | the decorated service caches its list with assets under `sites:getAllSites:[]`, which breaks the freshness `site.ts` relies on |
| Staleness.SharedKeyConflictBack | src/services/site.ts:8-16 | `site.ts` caches its list without assets under the same key, which breaks the decorated service's freshness |
| Staleness.UncachedUpdateLeavesSiteStale | src/services/sites.ts:67-78 | after the uncached service's `updateSite`, a site cached by `site.ts` is still served as it was |

## Left out

- JSON text: cached documents are kept as parsed documents. `JSON.stringify`/`JSON.parse` of stored values is taken to be an exact round trip. Only the `JSON.stringify` of key arguments is written out, as text.
- Dates: `createdAt` is an integer that the caller supplies, together with the new id. The store's clock and UUID generation are outside the model. `IdShape` assumes that a generated id is a non-empty UUID: plain JSON text with no colon.
- Prisma errors: only `NotFound`, `UniqueViolation` and `ForeignKeyViolation` are modelled. Other database failures are not.
- Site delete: the schema is not in the source, so the model assumes the owner reference is set to null on delete. A restricting foreign key would make `deleteSite` fail instead.
- Unique site names: the model assumes the schema makes `name` unique, so the store refuses a duplicate name with a conflict. The schema itself is not part of this model.
- Cache failures: `RedisUtils` rethrows every Redis error and no service catches it, so the call fails with `CacheUnavailable` after any store write it has already made.
- `sites.ts` declares the asset field as `type`; the model uses the store's `assetType` throughout. The declared return type does not change what is returned.
- `createSite`/`updateSite` payloads carry only the columns the types allow. `updateAsset` passes its `Partial<Asset>` to the store unchanged, so a patch carrying `id` would re-key the row and one carrying `createdAt` would rewrite the date; the model's `AssetPatch` does not include these columns, so such patches are not modelled.
- Values of `undefined` and non-string decorator arguments are not modelled: every decorated method in the code takes string ids or names.
- Case-insensitive `contains` folds ASCII letters only. Unicode case folding and collation are not modelled.
- `Promise.all`: the deletes in a group run concurrently. Here they run in sequence, with the same connection state for all of them. A connection lost midway through a group is not modelled.
- Concurrent service calls: the race between a read-through and a write is not modelled. Calls are sequential.
- Redis connection events, retries and reconnection (`src/config/redis.ts`): the connection is a flag that the environment sets.
- Numeric ttls that are not integers, and `NaN`, are not modelled.
- Logging (`console.log`, `console.error`) is left out, as are the controllers, the routes and the server bootstrap.
- AssetsInline.AssetService.GetAssetsWithSite, AssetsInline.AssetService.GetAssetsByType, AssetsDecorated.AssetService.GetAssetsWithSite, AssetsDecorated.AssetService.GetAssetsByType: these promise only the invariant, because no write deletes their keys. `Staleness` shows they can be served stale.
- SitesInline.SiteService.GetSiteWithAssets, SitesInline.SiteService.GetSitesByName: the same, for the site reads that no write invalidates.
- SitesInline.SiteService.DeleteSite, SitesInline.DeleteSiteCoherent: the invariant is restored only when the site owned no assets. `Staleness.DeleteSiteLeavesOwnedListStale` shows the other case.
- The write methods restore the invariant only when Redis is reachable. `Staleness.OutageLeavesDeletedAssetCached` shows what an outage leaves behind.

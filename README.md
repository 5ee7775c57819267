# Station catalog of the Cogeco streaming media service

This Dafny project models the catalog core of an Android media-browser
service for the Cogeco radio stations. The core has two parts.

- `StationsProvider` downloads a JSON document listing the stations and
  translates each entry into a metadata record. It keeps the records in a
  map keyed by media id and regroups them into a map from media id to a
  list of records, which it serves once initialized. A three-state flag
  (NON_INITIALIZED, INITIALIZING, INITIALIZED) guards loading. Any failure
  sends the flag back to NON_INITIALIZED so the next request retries.
- `CogecoStreamingService` answers browse requests with one playable item
  per record. It looks up a record and its stream URL by media id, and it
  records the current media id when playback starts.

Modules:

- `Numbers` models Java `int` narrowing and `String.valueOf(int)`, with its
  decimal inverse.
- `Json` models the `org.json` accessors the core calls. Each accessor
  returns `Result`, and `Err` stands for a `JSONException`.
- `Urls` models `lastIndexOf`, the base path of the catalog URL, and the
  `startsWith("http")` resolution of relative URLs.
- `Stations` models the translation of one entry and the pass over the
  data array. `Retrieve` is a pure function for one fetching pass, and the
  `StationsProvider` class is proved against it.
- `Streaming` models the `CogecoStreamingService` class: loading children,
  the two look-ups, and the `currentMediaId` updates.

The network fetch (`fetchJSONFromUrl`) is an input. `RetrieveMedia`,
`RetrieveMediaAsync` and `OnLoadChildren` take its outcome as a parameter
`doc`, where `None` stands for the `null` the fetch returns on any error.

ConcurrentHashMap iteration order is unspecified. So every loop over a map
picks an arbitrary remaining key. Results that depend on the order are
stated as multisets, or as properties that hold whatever the order.

### Stored records outlive the document they came from

`retrieveMediaAsync`, which runs `retrieveMedia`, is documented as caching
the track information for future reference
(src/android/StationsProvider.java:91-94). But `mMusicListById` is
never cleared, and the code puts records into it one by one until the first
entry that raises `JSONException`. So a failed pass leaves the records it
already put. After a later successful pass, `buildListById` regroups the whole
map, and those records are served beside the new ones, even when the new
document no longer lists them.

`Stations.StaleRecordSurvivesRetry` shows this for two passes against the
catalog's base path. `Stations.RetrieveStores` proves that no pass ever
removes a stored id. A later entry with the same id does replace the record
stored under it.

## Model

| member | source | states |
|---|---|---|
| Numbers.IntValue | src/android/StationsProvider.java:191 | `getInt` narrows a JSON number to a Java int: the result is an int32; it is unchanged when already an int32; it is congruent modulo 2^32 within the long range; it saturates beyond the long range |
| Numbers.ValueOfRoundTrip | src/android/StationsProvider.java:191 | the decimal string `String.valueOf` gives for an id parses back to that id |
| Numbers.ValueOfInjective | src/android/StationsProvider.java:191 | distinct ids give distinct media id strings |
| Json.GetInt | src/android/StationsProvider.java:191 | `getInt` succeeds exactly when the key holds a number; the result is a Java int, equal to the number when that is already in range |
| Urls.LastIndexOf | src/android/StationsProvider.java:140 | the result is -1 or an index holding the character, and no later index holds it |
| Urls.BasePath | src/android/StationsProvider.java:140-141 | the base path is the prefix up to and including the last '/'; it is empty exactly when there is no '/'; no '/' follows it |
| Urls.BasePathOfSplit | src/android/StationsProvider.java:140-141 | when a URL is a part ending in '/' followed by a part with no '/', its base path is the first part |
| Urls.ResolveAbsoluteBase | src/android/StationsProvider.java:183-189 | against an absolute base path every resolved URL is absolute, and resolving it again changes nothing |
| Stations.CatalogBasePath | src/android/StationsProvider.java:140-141 | the base path of the catalog URL is `https://api.cogecolive.com/` |
| Stations.BuildFromJsonSpec | src/android/StationsProvider.java:169-200 | translating an entry succeeds exactly when it has a string name, an images.logo.ori string, a first stream object with a url string and an integer id; the record then holds the decimal id, the resolved stream url, the resolved logo and the name |
| Stations.MediaIdIsDecimalId | src/android/StationsProvider.java:191 | the media id of a translated record parses back to the entry's id narrowed to an int |
| Stations.OnlyFirstStreamMatters | src/android/StationsProvider.java:177-178 | streams after the first never change the translation |
| Stations.CatalogRecordUrls | src/android/StationsProvider.java:180-189 | a catalog record's media URI is the first stream's url when it starts with "http", and `https://api.cogecolive.com/` followed by the url otherwise; the art URI is the logo's ori by the same rule |
| Stations.CatalogRecordUrlsAbsolute | src/android/StationsProvider.java:183-189 | against the catalog's base path, both URLs of every translated record are absolute |
| Stations.SampleStationBuilds | src/android/StationsProvider.java:169-200 | a concrete entry with id 7 and absolute URLs translates, against any base path, to the record with media id "7" and its two URLs |
| Stations.FirstFailure | src/android/StationsProvider.java:148-152 | the loop stops at the first entry that raises: all entries before it translate, and it does not |
| Stations.Records | src/android/StationsProvider.java:148-152 | the records of the entries put before the loop stopped, in order |
| Stations.PutAllKeys | src/android/StationsProvider.java:151 | after the puts the stored ids are the earlier ids together with the ids of the records put |
| Stations.PutAllLastWins | src/android/StationsProvider.java:151 | among records sharing an id, the one put last is the one stored |
| Stations.PutAllKeepsOthers | src/android/StationsProvider.java:151 | an id that no record put carries keeps its earlier record |
| Stations.PutAllConsistent | src/android/StationsProvider.java:150-151 | every record stays stored under its own media id |
| Stations.GroupByIdPartitions | src/android/StationsProvider.java:119-132 | the grouped view has the same ids as the map, each group holds one record, and a record is in group k exactly when it is stored and its id is k |
| Stations.RetrieveSucceedsIff | src/android/StationsProvider.java:135-166 | a pass succeeds exactly when the fetch returned a document whose data array exists and whose entries all translate |
| Stations.RetrieveStores | src/android/StationsProvider.java:146-152 | a pass, failed or not, never removes a stored id and keeps every record under its own id |
| Stations.RetrieveLastWins | src/android/StationsProvider.java:148-152 | after a successful pass the id of every entry is stored, holding the record of the last entry with that id |
| Stations.StaleRecordSurvivesRetry | src/android/StationsProvider.java:135-166 | against the catalog's base path, a record put by a pass that failed on a later entry is still served after a following successful pass whose document lists no station |
| Stations.StationsProvider.constructor | src/android/StationsProvider.java:66-74 | a new provider is NON_INITIALIZED with no stored records |
| Stations.StationsProvider.GetStationsList | src/android/StationsProvider.java:80-85 | the list is empty unless INITIALIZED; once INITIALIZED it is the grouped view of the stored records |
| Stations.StationsProvider.IsInitialized | src/android/StationsProvider.java:87-89 | true exactly in state INITIALIZED; when false the station list is empty |
| Stations.StationsProvider.BuildListById | src/android/StationsProvider.java:119-132 | the new station list is the grouped view of the stored records; nothing else changes |
| Stations.StationsProvider.PutEntries | src/android/StationsProvider.java:148-152 | the loop reports failure exactly when some entry does not translate, and the map becomes the earlier map with the records before that entry put in order |
| Stations.StationsProvider.RetrieveMedia | src/android/StationsProvider.java:135-166 | only a call that finds NON_INITIALIZED fetches; otherwise nothing changes. A fetching call leaves the map as the pass computes it, becomes INITIALIZED exactly when the pass succeeds, returns to NON_INITIALIZED otherwise, and never stays INITIALIZING |
| Stations.StationsProvider.RetrieveMediaAsync | src/android/StationsProvider.java:95-117 | the callback's success flag is whether the catalog ends INITIALIZED; an INITIALIZED catalog answers true without fetching |
| Streaming.ToItems | src/android/CogecoStreamingService.java:197-209 | one item per record of a group, in order, each built from that record |
| Streaming.AppendGroup | src/android/CogecoStreamingService.java:197-209 | the inner loop appends the items of a group, in order, to the list built so far |
| Streaming.ItemsOverRemove | src/android/CogecoStreamingService.java:191-210 | the items of all groups do not depend on which group the iteration visits first |
| Streaming.ItemsOverSize | src/android/CogecoStreamingService.java:191-210 | the number of items equals the total size of the groups visited |
| Streaming.GroupedSize | src/android/StationsProvider.java:119-132 | the total group size of the grouped view equals the number of stored ids |
| Streaming.GroupedItemsAreStored | src/android/CogecoStreamingService.java:197-208 | every item built from the grouped view is the item of the record stored under its media id |
| Streaming.AllItemsPlayable | src/android/CogecoStreamingService.java:206 | every item built is flagged playable |
| Streaming.GroupedItems | src/android/CogecoStreamingService.java:186-213 | the grouped view yields as many items as stored records, each matching the record stored under its id, and the item of every stored record occurs exactly once |
| Streaming.LoadedItems | src/android/CogecoStreamingService.java:186-213 | a list holding the catalog's items is empty before initialization; after it, every item is playable and built from the record under its id, and the item of every stored record occurs exactly once |
| Streaming.GroupedItemOnce | src/android/CogecoStreamingService.java:191-210 | the item of a stored record occurs exactly once among the items of the grouped view |
| Streaming.GroupedMatch | src/android/CogecoStreamingService.java:273-288 | in the grouped view a record carries id `id` exactly when it is the one stored under `id`, and no record matches exactly when `id` is not stored |
| Streaming.CogecoStreamingService.constructor | src/android/CogecoStreamingService.java:90-106 | the service starts with a fresh NON_INITIALIZED provider and no current media id |
| Streaming.CogecoStreamingService.StationById | src/android/CogecoStreamingService.java:273-288 | the record a look-up should find is a stored one, present only when initialized, and carries the id looked up |
| Streaming.CogecoStreamingService.LoadChildrenImpl | src/android/CogecoStreamingService.java:186-213 | the items are exactly the items of all groups, as a multiset, whatever the visiting order; all are playable; there are none before initialization; after it every item is built from the record stored under its id, and every stored record's item occurs exactly once |
| Streaming.CogecoStreamingService.GetMediametaData | src/android/CogecoStreamingService.java:273-288 | the result is a listed record carrying the id, or null exactly when no listed record carries it; it is the record stored under the id |
| Streaming.CogecoStreamingService.GetMediaUrl | src/android/CogecoStreamingService.java:290-305 | the result is "" when no listed record carries the id, and otherwise the media URI of a listed record carrying it; it is the URI of the record stored under the id |
| Streaming.CogecoStreamingService.OnLoadChildren | src/android/CogecoStreamingService.java:148-184 | an initialized catalog is answered at once and nothing changes; otherwise the catalog is retrieved; on failure the answer is empty and the current id is kept; on success the current id becomes "1", station "1" and its URL go to the player, and the answer is the catalog's items |
| Streaming.CogecoStreamingService.OnPlayFromMediaId | src/android/CogecoStreamingService.java:232-242 | the requested id becomes current, and the player gets its record and URL |
| Streaming.CogecoStreamingService.OnPlay | src/android/CogecoStreamingService.java:217-221 | the player gets the record and URL of the current id; with no current id it gets no record and an empty URL |

## Left out

- `fetchJSONFromUrl`: the HTTP request, the ISO-8859-1 decoding and the JSON parsing are not modelled. The parsed document, or `None` for the `null` it returns on any error, is a parameter.
- Concurrency is not modelled: the `AsyncTask` thread, `synchronized` and `volatile`. The background task runs to completion inside `RetrieveMediaAsync`, and the callback is applied to its result right away.
- Iteration order of `ConcurrentHashMap` is not modelled. Every map loop picks an arbitrary remaining key, and `GetMediametaData` and `GetMediaUrl` state which record wins only in terms of the stored map, where ids are unique.
- The Android media plumbing is not modelled: `MediaSessionCompat`, `setActive`, `setMetadata`, `Result.detach` and `sendResult`, and the `PlaybackManager` calls `play`, `setMediaUrl`, `stop`, `pause` and `isPlaying`. The record and URL handed to `setMediaUrl` and `play` are returned as a `PlayRequest` value.
- The other session callbacks do nothing with the catalog and are not modelled: pause, stop, skip, seek, custom action and play from search.
- `buildFromJSON` also looks up `images.logo` into `coloredImages` and never uses it. That lookup is the same as the `image` lookup, so dropping it changes no outcome. The unused `JSON_*` and `CUSTOM_METADATA_TRACK_SOURCE` constants are left out.
- `getString`: `org.json` coerces non-string values to strings, and a JSON null to "null". `Json.GetString` accepts only JSON strings and raises the exception otherwise. So the "exactly when ... a string" clauses of `Stations.BuildFromJsonSpec` and `Stations.RetrieveSucceedsIff` are stricter than the library: an entry whose `url`, `ori` or `name` is not a string fails the whole pass in the model.
- Json.GetInt: `org.json` also accepts numeric strings and fractional numbers, but `Json.GetInt` accepts only integer numbers.
- The `tracks == null` branch of `retrieveMedia` is not modelled, because `getJSONArray` never returns `null`.
- `mStationLists` starts as `null` in the source and as an empty map in the model. It is never read before it is first built.
- The `callback != null` check in `retrieveMediaAsync` is not modelled. The service always passes a callback.
- The source stores each record wrapped as `new MutableMediaMetadata(musicId, item)` (src/android/StationsProvider.java:151) and unwraps `m.metadata` in `buildListById` (:122-123). The model stores the bare `Metadata` record.
- `MediaItem` is modelled as its media id, title, icon URI, media URI and flags. `Uri.parse` is taken as the identity.

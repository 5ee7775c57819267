/**
  The station catalog: translation of one JSON station into a metadata
  record, the keyed index of records, and the StationsProvider object with
  its three-state load machine.
 */
module Stations {

  import opened Wrappers
  import opened Json
  import Numbers
  import Urls

  /** CATALOG_URL, written as its host part and its query part. */
  const CatalogHost: string := "https://api.cogecolive.com/"
  const CatalogQuery: string := "stations?with=streams,images"
  const CatalogUrl: string := CatalogHost + CatalogQuery

  datatype State = NonInitialized | Initializing | Initialized

  /** The four keys of a MediaMetadataCompat that the catalog sets. */
  datatype Metadata = Metadata(mediaId: string, mediaUri: string, albumArtUri: string, title: string)

  /** The base path of the catalog URL: everything up to its last '/'. */
  lemma CatalogBasePath()
    ensures Urls.BasePath(CatalogUrl) == "https://api.cogecolive.com/"
  {
    assert '/' !in CatalogQuery;
    Urls.BasePathOfSplit(CatalogHost, CatalogQuery);
  }

  // ---------------------------------------------------------------------------
  // Translation of one station entry

  /**
    A station entry carries every field the translation reads: a string
    name, an images.logo object with a string ori, a non-empty streams array
    whose first element is an object with a string url, and an integer id.
   */
  predicate IsStation(json: JsonObject) {
    && "name" in json && json["name"].JString?
    && "images" in json && json["images"].JObject?
    && "logo" in json["images"].fields && json["images"].fields["logo"].JObject?
    && "ori" in json["images"].fields["logo"].fields
    && json["images"].fields["logo"].fields["ori"].JString?
    && "streams" in json && json["streams"].JArray?
    && |json["streams"].elems| > 0 && json["streams"].elems[0].JObject?
    && "url" in json["streams"].elems[0].fields
    && json["streams"].elems[0].fields["url"].JString?
    && "id" in json && json["id"].JInt?
  }

  /** buildFromJSON: one station entry as a metadata record. */
  function BuildFromJson(json: JsonObject, basePath: string): Result<Metadata> {
    var title :- GetString(json, "name");
    var images :- GetJsonObject(json, "images");
    var image :- GetJsonObject(images, "logo");
    var streams :- GetJsonArray(json, "streams");
    var stream :- GetJsonObjectAt(streams, 0);
    var source :- GetString(stream, "url");
    var iconUrl :- GetString(image, "ori");
    var id :- GetInt(json, "id");
    Ok(Metadata(Numbers.ValueOf(id), Urls.Resolve(basePath, source), Urls.Resolve(basePath, iconUrl), title))
  }

  /**
    The translation succeeds exactly on station entries. Its record has as
    media id the decimal form of the id, as title the name, and as media and
    art URIs the first stream's url and the logo's ori, each resolved
    against the base path.
   */
  lemma BuildFromJsonSpec(json: JsonObject, basePath: string)
    ensures BuildFromJson(json, basePath).Ok? <==> IsStation(json)
    ensures IsStation(json) ==> BuildFromJson(json, basePath).value == Metadata(
              Numbers.ValueOf(Numbers.IntValue(json["id"].n)),
              Urls.Resolve(basePath, json["streams"].elems[0].fields["url"].s),
              Urls.Resolve(basePath, json["images"].fields["logo"].fields["ori"].s),
              json["name"].s)
  {
  }

  /** The media id of a record reads back as the entry's id narrowed to a Java int. */
  lemma MediaIdIsDecimalId(json: JsonObject, basePath: string)
    requires BuildFromJson(json, basePath).Ok?
    ensures Numbers.ParseInt(BuildFromJson(json, basePath).value.mediaId) == Numbers.IntValue(json["id"].n)
  {
    BuildFromJsonSpec(json, basePath);
    Numbers.ValueOfRoundTrip(Numbers.IntValue(json["id"].n));
  }

  /** Only the first stream is read: the streams after it never change the record. */
  lemma OnlyFirstStreamMatters(json: JsonObject, basePath: string, others: seq<JValue>)
    requires "streams" in json && json["streams"].JArray? && |json["streams"].elems| > 0
    ensures BuildFromJson(json["streams" := JArray([json["streams"].elems[0]] + others)], basePath)
         == BuildFromJson(json, basePath)
  {
    var json' := json["streams" := JArray([json["streams"].elems[0]] + others)];
    BuildFromJsonSpec(json, basePath);
    BuildFromJsonSpec(json', basePath);
    assert IsStation(json') <==> IsStation(json);
  }

  /** Against the catalog's own base path both URLs of a record are absolute. */
  lemma CatalogRecordUrlsAbsolute(json: JsonObject)
    requires BuildFromJson(json, Urls.BasePath(CatalogUrl)).Ok?
    ensures Urls.IsAbsolute(BuildFromJson(json, Urls.BasePath(CatalogUrl)).value.mediaUri)
    ensures Urls.IsAbsolute(BuildFromJson(json, Urls.BasePath(CatalogUrl)).value.albumArtUri)
  {
    var base := Urls.BasePath(CatalogUrl);
    BuildFromJsonSpec(json, base);
    CatalogBasePath();
    assert Urls.IsAbsolute(base);
    Urls.ResolveAbsoluteBase(base, json["streams"].elems[0].fields["url"].s);
    Urls.ResolveAbsoluteBase(base, json["images"].fields["logo"].fields["ori"].s);
  }

  /**
    The URLs of a catalog record: the stream url and the logo's ori are kept
    when they start with "http" and are otherwise placed under
    https://api.cogecolive.com/.
   */
  lemma CatalogRecordUrls(json: JsonObject)
    requires IsStation(json)
    ensures var r := BuildFromJson(json, Urls.BasePath(CatalogUrl));
            var url := json["streams"].elems[0].fields["url"].s;
            var ori := json["images"].fields["logo"].fields["ori"].s;
            && r.Ok?
            && r.value.mediaUri == (if "http" <= url then url else "https://api.cogecolive.com/" + url)
            && r.value.albumArtUri == (if "http" <= ori then ori else "https://api.cogecolive.com/" + ori)
  {
    BuildFromJsonSpec(json, Urls.BasePath(CatalogUrl));
    CatalogBasePath();
  }

  /** Entry j of the data array: tracks.getJSONObject(j), then buildFromJSON. */
  function BuildEntry(tracks: seq<JValue>, j: int, basePath: string): Result<Metadata> {
    var obj :- GetJsonObjectAt(tracks, j);
    BuildFromJson(obj, basePath)
  }

  /** The translation of every entry of the data array, in document order. */
  function Entries(tracks: seq<JValue>, basePath: string): seq<Result<Metadata>> {
    seq(|tracks|, i requires 0 <= i < |tracks| => BuildEntry(tracks, i, basePath))
  }

  /** The index of the first failed translation at or after `from`, or |es| when there is none. */
  function FirstFailure(es: seq<Result<Metadata>>, from: nat): (r: nat)
    requires from <= |es|
    ensures from <= r <= |es|
    ensures forall i :: from <= i < r ==> es[i].Ok?
    ensures r < |es| ==> es[r].Err?
    decreases |es| - from
  {
    if from == |es| then from
    else if es[from].Err? then from
    else FirstFailure(es, from + 1)
  }

  /** The records of the first n translations, all of which succeeded. */
  function Records(es: seq<Result<Metadata>>, n: nat): (rs: seq<Metadata>)
    requires n <= |es|
    requires forall i :: 0 <= i < n ==> es[i].Ok?
    ensures |rs| == n
    ensures forall i :: 0 <= i < n ==> rs[i] == es[i].value
  {
    if n == 0 then [] else Records(es, n - 1) + [es[n - 1].value]
  }

  /** The first failure is the index before which all succeed and at which one fails. */
  lemma FirstFailureAt(es: seq<Result<Metadata>>, j: nat)
    requires j <= |es|
    requires forall i :: 0 <= i < j ==> es[i].Ok?
    requires j < |es| ==> es[j].Err?
    ensures FirstFailure(es, 0) == j
  {
  }

  // ---------------------------------------------------------------------------
  // The map from media id to record, and the grouped view

  /** Every record is stored under its own media id. */
  predicate KeysConsistent(byId: map<string, Metadata>) {
    forall k :: k in byId ==> byId[k].mediaId == k
  }

  /** The records put one after another, each under its media id. */
  function PutAll(byId: map<string, Metadata>, rs: seq<Metadata>): map<string, Metadata> {
    if |rs| == 0 then byId
    else PutAll(byId, rs[..|rs| - 1])[rs[|rs| - 1].mediaId := rs[|rs| - 1]]
  }

  /** The stored ids are the earlier ones together with the ids of the records put. */
  lemma {:induction false} PutAllKeys(byId: map<string, Metadata>, rs: seq<Metadata>)
    ensures PutAll(byId, rs).Keys == byId.Keys + set m | m in rs :: m.mediaId
  {
    if |rs| > 0 {
      PutAllKeys(byId, rs[..|rs| - 1]);
      assert forall m :: m in rs <==> m in rs[..|rs| - 1] || m == rs[|rs| - 1];
    }
  }

  lemma PutAllSnoc(byId: map<string, Metadata>, rs: seq<Metadata>, m: Metadata)
    ensures PutAll(byId, rs + [m]) == PutAll(byId, rs)[m.mediaId := m]
  {
    assert (rs + [m])[..|rs|] == rs;
  }

  /** Putting one more translated entry. */
  lemma PutAllRecordsStep(byId: map<string, Metadata>, es: seq<Result<Metadata>>, j: nat)
    requires j < |es|
    requires forall i :: 0 <= i <= j ==> es[i].Ok?
    ensures PutAll(byId, Records(es, j + 1)) == PutAll(byId, Records(es, j))[es[j].value.mediaId := es[j].value]
  {
    PutAllSnoc(byId, Records(es, j), es[j].value);
  }

  /** Among records sharing an id, the last one put is the one stored. */
  lemma {:induction false} PutAllLastWins(byId: map<string, Metadata>, rs: seq<Metadata>, i: nat)
    requires i < |rs|
    requires forall j :: i < j < |rs| ==> rs[j].mediaId != rs[i].mediaId
    ensures rs[i].mediaId in PutAll(byId, rs) && PutAll(byId, rs)[rs[i].mediaId] == rs[i]
  {
    if i < |rs| - 1 {
      PutAllLastWins(byId, rs[..|rs| - 1], i);
      PutAllSnoc(byId, rs[..|rs| - 1], rs[|rs| - 1]);
      assert rs[..|rs| - 1] + [rs[|rs| - 1]] == rs;
    }
  }

  /** An id no record carries keeps the value it had before. */
  lemma {:induction false} PutAllKeepsOthers(byId: map<string, Metadata>, rs: seq<Metadata>, k: string)
    requires k in byId
    requires forall j :: 0 <= j < |rs| ==> rs[j].mediaId != k
    ensures k in PutAll(byId, rs) && PutAll(byId, rs)[k] == byId[k]
  {
    if |rs| > 0 {
      PutAllKeepsOthers(byId, rs[..|rs| - 1], k);
    }
  }

  lemma {:induction false} PutAllConsistent(byId: map<string, Metadata>, rs: seq<Metadata>)
    requires KeysConsistent(byId)
    ensures KeysConsistent(PutAll(byId, rs))
  {
    if |rs| > 0 {
      PutAllConsistent(byId, rs[..|rs| - 1]);
    }
  }

  /** buildListById's result: each id mapped to the list of its one record. */
  function GroupById(byId: map<string, Metadata>): map<string, seq<Metadata>> {
    map k | k in byId :: [byId[k]]
  }

  /**
    The grouped view holds the same records as the map: one group per id,
    and a record lies in a group exactly when it is stored and the group is
    that of its id.
   */
  lemma GroupByIdPartitions(byId: map<string, Metadata>)
    requires KeysConsistent(byId)
    ensures GroupById(byId).Keys == byId.Keys
    ensures forall k :: k in GroupById(byId) ==> |GroupById(byId)[k]| == 1
    ensures forall k, m :: k in GroupById(byId) && m in GroupById(byId)[k] <==> m in byId.Values && m.mediaId == k
  {
    var g := GroupById(byId);
    forall k, m
      ensures k in g && m in g[k] <==> m in byId.Values && m.mediaId == k
    {
      if m in byId.Values && m.mediaId == k {
        var k' :| k' in byId && byId[k'] == m;
        assert k' == k;
      }
    }
  }

  // ---------------------------------------------------------------------------
  // One attempt of retrieveMedia, as a function

  /** What one fetching pass of retrieveMedia leaves behind. */
  datatype Outcome = Outcome(succeeded: bool, musicListById: map<string, Metadata>)

  /**
    A pass over the fetched document: no document, or a missing data array,
    fails at once; otherwise the entries are put in order until the first one
    that does not translate, and the pass succeeds when there is none.
   */
  function Retrieve(byId: map<string, Metadata>, doc: Option<JsonObject>, basePath: string): Outcome {
    match doc
    case None => Outcome(false, byId)
    case Some(obj) =>
      match GetJsonArray(obj, "data")
      case Err(_) => Outcome(false, byId)
      case Ok(tracks) =>
        var es := Entries(tracks, basePath);
        var f := FirstFailure(es, 0);
        Outcome(f == |es|, PutAll(byId, Records(es, f)))
  }

  /** A pass succeeds exactly when there is a document whose data entries all translate. */
  lemma RetrieveSucceedsIff(byId: map<string, Metadata>, doc: Option<JsonObject>, basePath: string)
    ensures Retrieve(byId, doc, basePath).succeeded <==>
              && doc.Some? && "data" in doc.value && doc.value["data"].JArray?
              && forall i :: 0 <= i < |doc.value["data"].elems| ==>
                   doc.value["data"].elems[i].JObject? && IsStation(doc.value["data"].elems[i].fields)
  {
    if doc.Some? && "data" in doc.value && doc.value["data"].JArray? {
      var tracks := doc.value["data"].elems;
      var es := Entries(tracks, basePath);
      var f := FirstFailure(es, 0);
      if f < |tracks| {
        assert BuildEntry(tracks, f, basePath).Err?;
        if tracks[f].JObject? {
          BuildFromJsonSpec(tracks[f].fields, basePath);
        }
      } else {
        forall i | 0 <= i < |tracks| ensures tracks[i].JObject? && IsStation(tracks[i].fields) {
          assert es[i].Ok?;
          assert BuildEntry(tracks, i, basePath).Ok?;
          BuildFromJsonSpec(tracks[i].fields, basePath);
        }
      }
    }
  }

  /** A pass never removes a stored record and keeps every record under its own id. */
  lemma RetrieveStores(byId: map<string, Metadata>, doc: Option<JsonObject>, basePath: string)
    requires KeysConsistent(byId)
    ensures byId.Keys <= Retrieve(byId, doc, basePath).musicListById.Keys
    ensures KeysConsistent(Retrieve(byId, doc, basePath).musicListById)
  {
    if doc.Some? && GetJsonArray(doc.value, "data").Ok? {
      var es := Entries(doc.value["data"].elems, basePath);
      var rs := Records(es, FirstFailure(es, 0));
      PutAllConsistent(byId, rs);
      PutAllKeys(byId, rs);
    }
  }

  /**
    After a success every entry's record is stored, and among entries sharing
    an id the later one in document order is the one stored.
   */
  lemma RetrieveLastWins(byId: map<string, Metadata>, doc: Option<JsonObject>, basePath: string)
    ensures Retrieve(byId, doc, basePath).succeeded ==>
              var es := Entries(doc.value["data"].elems, basePath);
              var stored := Retrieve(byId, doc, basePath).musicListById;
              forall i :: 0 <= i < |es| && (forall j :: i < j < |es| ==> es[j].value.mediaId != es[i].value.mediaId) ==>
                es[i].value.mediaId in stored && stored[es[i].value.mediaId] == es[i].value
  {
    if doc.Some? && GetJsonArray(doc.value, "data").Ok? {
      var es := Entries(doc.value["data"].elems, basePath);
      var f := FirstFailure(es, 0);
      var rs := Records(es, f);
      if f == |es| {
        forall i | 0 <= i < |es| && forall j :: i < j < |es| ==> es[j].value.mediaId != es[i].value.mediaId
          ensures es[i].value.mediaId in PutAll(byId, rs) && PutAll(byId, rs)[es[i].value.mediaId] == es[i].value
        {
          PutAllLastWins(byId, rs, i);
        }
      }
    }
  }

  /** A well-formed station entry with id 7 and absolute URLs. */
  function SampleStation(): JsonObject {
    map["id" := JInt(7), "name" := JString("Station"),
        "images" := JObject(map["logo" := JObject(map["ori" := JString("http://i")])]),
        "streams" := JArray([JObject(map["url" := JString("http://s")])])]
  }

  lemma SampleStationBuilds(basePath: string)
    ensures BuildFromJson(SampleStation(), basePath) == Ok(Metadata("7", "http://s", "http://i", "Station"))
  {
    assert Numbers.ValueOf(7) == "7";
  }

  /**
    The map is never cleared: a record put by a pass that failed on a later
    entry is still served after a following pass succeeds, even when the
    successful document lists no station at all.
   */
  lemma StaleRecordSurvivesRetry()
    ensures var first := Retrieve(map[], Some(map["data" := JArray([JObject(SampleStation()), JNull])]), Urls.BasePath(CatalogUrl));
            var second := Retrieve(first.musicListById, Some(map["data" := JArray([])]), Urls.BasePath(CatalogUrl));
            && !first.succeeded && second.succeeded
            && "7" in GroupById(second.musicListById)
  {
    var base := Urls.BasePath(CatalogUrl);
    var tracks := [JObject(SampleStation()), JNull];
    SampleStationBuilds(base);
    var es := Entries(tracks, base);
    assert es[0] == BuildEntry(tracks, 0, base);
    assert es[1] == BuildEntry(tracks, 1, base);
    assert FirstFailure(es, 0) == 1;
    var rs := Records(es, 1);
    assert rs == [Metadata("7", "http://s", "http://i", "Station")];
    assert rs[..0] == [];
    assert "7" in PutAll(map[], rs);
    var empty: seq<Result<Metadata>> := [];
    assert Entries([], base) == empty;
  }

  // ---------------------------------------------------------------------------
  // The provider object

  class StationsProvider {
    var stationLists: map<string, seq<Metadata>>
    var musicListById: map<string, Metadata>
    var currentState: State

    /**
      Between calls the state is never INITIALIZING, every record sits under
      its own id, and once INITIALIZED the grouped view is the one built from
      the current map.
     */
    ghost predicate Valid()
      reads this
    {
      && currentState != Initializing
      && KeysConsistent(musicListById)
      && (currentState == Initialized ==> stationLists == GroupById(musicListById))
    }

    constructor ()
      ensures Valid()
      ensures currentState == NonInitialized && musicListById == map[] && stationLists == map[]
    {
      musicListById := map[];
      stationLists := map[];
      currentState := NonInitialized;
    }

    /** getStationsList: empty unless INITIALIZED, then the last grouped view built. */
    function GetStationsList(): (r: map<string, seq<Metadata>>)
      reads this
      ensures currentState != Initialized ==> r == map[]
      ensures Valid() && currentState == Initialized ==> r == GroupById(musicListById)
    {
      if currentState != Initialized then map[] else stationLists
    }

    function IsInitialized(): (b: bool)
      reads this
      ensures b <==> currentState == Initialized
      ensures !b ==> GetStationsList() == map[]
    {
      currentState == Initialized
    }

    /** buildListById: regroup every stored record under its id into a fresh map. */
    method BuildListById()
      requires KeysConsistent(musicListById)
      modifies this`stationLists
      ensures stationLists == GroupById(musicListById)
    {
      var stations: map<string, seq<Metadata>> := map[];
      var remaining := musicListById.Keys;
      while remaining != {}
        invariant remaining <= musicListById.Keys
        invariant stations == map k | k in musicListById.Keys - remaining :: [musicListById[k]]
        decreases remaining
      {
        var key :| key in remaining;
        ghost var done := musicListById.Keys - remaining;
        var m := musicListById[key];
        var id := m.mediaId;
        assert id == key && id !in stations;
        if id !in stations {
          stations := stations[id := []];
        }
        assert [] + [m] == [m];
        stations := stations[id := stations[id] + [m]];
        assert stations == (map k | k in done :: [musicListById[k]])[key := [m]];
        assert musicListById.Keys - (remaining - {key}) == done + {key};
        remaining := remaining - {key};
      }
      stationLists := stations;
    }

    /**
      The for loop of retrieveMedia: put the record of each entry of the
      data array under its id, stopping at the first entry whose translation
      raises a JSONException and reporting that failure.
     */
    method PutEntries(data: seq<JValue>, path: string) returns (failed: bool)
      requires KeysConsistent(musicListById)
      modifies this`musicListById
      ensures KeysConsistent(musicListById)
      ensures var es := Entries(data, path);
              && failed == (FirstFailure(es, 0) < |es|)
              && musicListById == PutAll(old(musicListById), Records(es, FirstFailure(es, 0)))
    {
      ghost var es := Entries(data, path);
      ghost var start := musicListById;
      assert |es| == |data|;
      var j := 0;
      failed := false;
      while j < |data| && !failed
        invariant 0 <= j <= |data|
        invariant forall i :: 0 <= i < j ==> es[i].Ok?
        invariant failed ==> j < |data| && es[j].Err?
        invariant musicListById == PutAll(start, Records(es, j))
        decreases |data| - j, if failed then 0 else 1
      {
        // tracks.getJSONObject(j) and buildFromJSON raise the same exception
        var item := BuildEntry(data, j, path);
        assert es[j] == item;
        if item.Err? {
          failed := true;
        } else {
          PutAllRecordsStep(start, es, j);
          musicListById := musicListById[item.value.mediaId := item.value];
          j := j + 1;
        }
      }
      FirstFailureAt(es, j);
      PutAllConsistent(start, Records(es, j));
    }

    /**
      retrieveMedia, with the network fetch replaced by its outcome `doc`
      (None when fetchJSONFromUrl returned null). Only a call that finds the
      state NON_INITIALIZED uses the fetch; it reports so in `fetched`.
     */
    method RetrieveMedia(doc: Option<JsonObject>) returns (fetched: bool)
      requires Valid()
      modifies this
      ensures Valid()
      ensures fetched <==> old(currentState) == NonInitialized
      ensures !fetched ==> currentState == old(currentState) && musicListById == old(musicListById)
                           && stationLists == old(stationLists)
      ensures fetched ==>
                var outcome := Retrieve(old(musicListById), doc, Urls.BasePath(CatalogUrl));
                && musicListById == outcome.musicListById
                && currentState == (if outcome.succeeded then Initialized else NonInitialized)
                && (!outcome.succeeded ==> stationLists == old(stationLists))
    {
      fetched := false;
      if currentState == NonInitialized {
        currentState := Initializing;
        var path := Urls.BasePath(CatalogUrl);
        fetched := true;
        if doc.Some? {
          var tracks := GetJsonArray(doc.value, "data");
          if tracks.Ok? {
            var failed := PutEntries(tracks.value, path);
            if !failed {
              BuildListById();
              currentState := Initialized;
            }
          }
        }
        // the finally block: anything short of full success allows a retry
        if currentState != Initialized {
          currentState := NonInitialized;
        }
      }
    }

    /**
      retrieveMediaAsync, with the background task run to completion: success
      at once when already INITIALIZED, otherwise whether retrieveMedia left
      the catalog INITIALIZED.
     */
    method RetrieveMediaAsync(doc: Option<JsonObject>) returns (success: bool, fetched: bool)
      requires Valid()
      modifies this
      ensures Valid()
      ensures success <==> currentState == Initialized
      ensures fetched <==> old(currentState) != Initialized
      ensures old(currentState) == Initialized ==>
                currentState == Initialized && musicListById == old(musicListById)
                && stationLists == old(stationLists)
      ensures fetched ==>
                var outcome := Retrieve(old(musicListById), doc, Urls.BasePath(CatalogUrl));
                && musicListById == outcome.musicListById
                && (success <==> outcome.succeeded)
                && (!success ==> stationLists == old(stationLists))
    {
      if currentState == Initialized {
        return true, false;
      }
      fetched := RetrieveMedia(doc);
      success := currentState == Initialized;
    }
  }
}

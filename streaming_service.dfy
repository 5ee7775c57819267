/**
  The browsing service's use of the catalog: flattening the grouped view
  into playable media items, the two linear lookups by media id, and the
  handlers that set the current media id.
 */
module Streaming {

  import opened Wrappers
  import opened Json
  import opened Stations

  /** MediaItem.FLAG_PLAYABLE. */
  const FlagPlayable: int := 2

  /** A MediaItem: the description built from a record, and its flags. */
  datatype MediaItem = MediaItem(mediaId: string, title: string, iconUri: string, mediaUri: string, flags: int)

  /** What the player is handed: the session metadata and the URL to stream. */
  datatype PlayRequest = PlayRequest(metadata: Option<Metadata>, url: string)

  /** The playable item loadChildrenImpl builds from one record. */
  function ToItem(st: Metadata): MediaItem {
    MediaItem(st.mediaId, st.title, st.albumArtUri, st.mediaUri, FlagPlayable)
  }

  /** The items of one group, in the group's order. */
  function ToItems(group: seq<Metadata>): (items: seq<MediaItem>)
    ensures |items| == |group|
    ensures forall i :: 0 <= i < |group| ==> items[i] == ToItem(group[i])
  {
    if |group| == 0 then [] else ToItems(group[..|group| - 1]) + [ToItem(group[|group| - 1])]
  }

  // ---------------------------------------------------------------------------
  // Sums over the groups, in no particular order

  ghost function Pick(ks: set<string>): (k: string)
    requires ks != {}
    ensures k in ks
  {
    var k :| k in ks; k
  }

  /** The items of the groups with the given keys, as a multiset. */
  ghost function ItemsOver(stations: map<string, seq<Metadata>>, ks: set<string>): multiset<MediaItem>
    requires ks <= stations.Keys
    decreases ks
  {
    if ks == {} then multiset{}
    else
      var k := Pick(ks);
      multiset(ToItems(stations[k])) + ItemsOver(stations, ks - {k})
  }

  /** The total size of the groups with the given keys. */
  ghost function SizeOver(stations: map<string, seq<Metadata>>, ks: set<string>): nat
    requires ks <= stations.Keys
    decreases ks
  {
    if ks == {} then 0
    else
      var k := Pick(ks);
      |stations[k]| + SizeOver(stations, ks - {k})
  }

  /** Every item of every group. */
  ghost function AllItems(stations: map<string, seq<Metadata>>): multiset<MediaItem> {
    ItemsOver(stations, stations.Keys)
  }

  /** The sum of the group sizes. */
  ghost function TotalSize(stations: map<string, seq<Metadata>>): nat {
    SizeOver(stations, stations.Keys)
  }

  /** The sum does not depend on which group is taken first. */
  lemma {:induction false} ItemsOverRemove(stations: map<string, seq<Metadata>>, ks: set<string>, k: string)
    requires ks <= stations.Keys && k in ks
    ensures ItemsOver(stations, ks) == multiset(ToItems(stations[k])) + ItemsOver(stations, ks - {k})
    decreases ks
  {
    var j := Pick(ks);
    if j != k {
      ItemsOverRemove(stations, ks - {j}, k);
      ItemsOverRemove(stations, ks - {k}, j);
      assert ks - {j} - {k} == ks - {k} - {j};
    }
  }

  /** There are as many items as records in the groups. */
  lemma {:induction false} ItemsOverSize(stations: map<string, seq<Metadata>>, ks: set<string>)
    requires ks <= stations.Keys
    ensures |ItemsOver(stations, ks)| == SizeOver(stations, ks)
    decreases ks
  {
    if ks != {} {
      ItemsOverSize(stations, ks - {Pick(ks)});
    }
  }

  /** In the grouped view of a consistent map there is one item per stored record. */
  lemma {:induction false} GroupedSize(byId: map<string, Metadata>, ks: set<string>)
    requires KeysConsistent(byId) && ks <= byId.Keys
    ensures SizeOver(GroupById(byId), ks) == |ks|
    decreases ks
  {
    if ks != {} {
      var k := Pick(ks);
      GroupedSize(byId, ks - {k});
    }
  }

  /** Every item of the grouped view is the item of the record stored under its media id. */
  lemma {:induction false} GroupedItemsAreStored(byId: map<string, Metadata>, ks: set<string>)
    requires KeysConsistent(byId) && ks <= byId.Keys
    ensures forall it :: it in ItemsOver(GroupById(byId), ks) ==>
              it.mediaId in ks && it == ToItem(byId[it.mediaId])
    decreases ks
  {
    if ks != {} {
      var k := Pick(ks);
      GroupedItemsAreStored(byId, ks - {k});
      assert ToItems(GroupById(byId)[k]) == [ToItem(byId[k])];
    }
  }

  /** The item of each stored record occurs exactly once in the grouped view. */
  lemma GroupedItemOnce(byId: map<string, Metadata>, k: string)
    requires KeysConsistent(byId) && k in byId
    ensures AllItems(GroupById(byId))[ToItem(byId[k])] == 1
  {
    var g := GroupById(byId);
    assert g.Keys == byId.Keys;
    ItemsOverRemove(g, g.Keys, k);
    assert ToItems(g[k]) == [ToItem(byId[k])];
    GroupedItemsAreStored(byId, byId.Keys - {k});
    assert ToItem(byId[k]) !in ItemsOver(g, g.Keys - {k});
  }

  // ---------------------------------------------------------------------------
  // Matching records by media id

  /** md is one of the records in the groups with the given keys. */
  ghost predicate Listed(stations: map<string, seq<Metadata>>, ks: set<string>, md: Metadata) {
    exists k, i :: k in ks && k in stations && 0 <= i < |stations[k]| && stations[k][i] == md
  }

  /** No record in the groups with the given keys has media id `id`. */
  ghost predicate NoneMatch(stations: map<string, seq<Metadata>>, ks: set<string>, id: string) {
    forall k, i :: k in ks && k in stations && 0 <= i < |stations[k]| ==> stations[k][i].mediaId != id
  }

  lemma ListedGrow(stations: map<string, seq<Metadata>>, ks: set<string>, k: string, i: int, md: Metadata)
    requires k in stations
    requires Listed(stations, ks, md) || (0 <= i < |stations[k]| && stations[k][i] == md)
    ensures Listed(stations, ks + {k}, md)
  {
  }

  /**
    In the grouped view of a consistent map, the records with a given
    media id are exactly the record stored under that id.
   */
  lemma GroupedMatch(byId: map<string, Metadata>, id: string)
    requires KeysConsistent(byId)
    ensures forall md :: Listed(GroupById(byId), byId.Keys, md) && md.mediaId == id <==> id in byId && md == byId[id]
    ensures NoneMatch(GroupById(byId), byId.Keys, id) <==> id !in byId
  {
    var g := GroupById(byId);
    if id in byId {
      assert g[id][0] == byId[id];
    }
  }

  /** The inner loop of loadChildrenImpl: one playable item per record of a group, appended in order. */
  method AppendGroup(items: seq<MediaItem>, group: seq<Metadata>) returns (r: seq<MediaItem>)
    ensures r == items + ToItems(group)
  {
    r := items;
    for i := 0 to |group|
      invariant r == items + ToItems(group[..i])
    {
      var st := group[i];
      assert group[..i + 1][..i] == group[..i];
      r := r + [ToItem(st)];
    }
    assert group[..|group|] == group;
  }

  /**
    What a list holding exactly the items of the catalog's groups says about
    the catalog: one playable item per stored record, each built from the
    record stored under its media id, and nothing before initialization.
   */
  lemma LoadedItems(byId: map<string, Metadata>, initialized: bool,
                    stations: map<string, seq<Metadata>>, items: seq<MediaItem>)
    requires KeysConsistent(byId)
    requires stations == if initialized then GroupById(byId) else map[]
    requires multiset(items) == AllItems(stations)
    ensures |items| == TotalSize(stations)
    ensures forall it :: it in items ==> it.flags == FlagPlayable
    ensures !initialized ==> items == []
    ensures initialized ==> |items| == |byId|
    ensures initialized ==> forall it :: it in items ==> it.mediaId in byId && it == ToItem(byId[it.mediaId])
    ensures initialized ==> forall k :: k in byId ==> multiset(items)[ToItem(byId[k])] == 1
  {
    ItemsOverSize(stations, stations.Keys);
    AllItemsPlayable(stations);
    if initialized {
      GroupedItems(byId);
    }
  }

  // ---------------------------------------------------------------------------
  // The service object

  class CogecoStreamingService {
    const provider: StationsProvider
    var currentMediaId: Option<string>

    ghost predicate Valid()
      reads this, provider
    {
      provider.Valid()
    }

    /** onCreate's part in the catalog: a fresh provider, no current media id. */
    constructor ()
      ensures Valid() && fresh(provider)
      ensures provider.currentState == NonInitialized && provider.musicListById == map[]
      ensures currentMediaId == None
    {
      provider := new StationsProvider();
      currentMediaId := None;
    }

    /** The record a lookup by id should find: the stored one, once the catalog is INITIALIZED. */
    function StationById(id: string): (r: Option<Metadata>)
      reads this, provider
      ensures r.Some? ==> r.value in provider.musicListById.Values && provider.IsInitialized()
      ensures Valid() && r.Some? ==> r.value.mediaId == id
    {
      if provider.IsInitialized() && id in provider.musicListById then Some(provider.musicListById[id]) else None
    }

    /**
      loadChildrenImpl: one playable item per record of every group. The
      groups are visited in no particular order, so the result is stated as
      a multiset.
     */
    method LoadChildrenImpl(parentMediaId: string) returns (mediaItems: seq<MediaItem>)
      requires Valid()
      ensures multiset(mediaItems) == AllItems(provider.GetStationsList())
      ensures |mediaItems| == TotalSize(provider.GetStationsList())
      ensures forall it :: it in mediaItems ==> it.flags == FlagPlayable
      ensures !provider.IsInitialized() ==> mediaItems == []
      ensures provider.IsInitialized() ==> |mediaItems| == |provider.musicListById|
      ensures provider.IsInitialized() ==>
                forall it :: it in mediaItems ==> it.mediaId in provider.musicListById && it == ToItem(provider.musicListById[it.mediaId])
      ensures provider.IsInitialized() ==>
                forall k :: k in provider.musicListById ==> multiset(mediaItems)[ToItem(provider.musicListById[k])] == 1
    {
      var stationsList := provider.GetStationsList();
      mediaItems := [];
      var remaining := stationsList.Keys;
      while remaining != {}
        invariant remaining <= stationsList.Keys
        invariant multiset(mediaItems) + ItemsOver(stationsList, remaining) == AllItems(stationsList)
        decreases remaining
      {
        var key :| key in remaining;
        var tmpStations := stationsList[key];
        ItemsOverRemove(stationsList, remaining, key);
        ghost var before := mediaItems;
        mediaItems := AppendGroup(mediaItems, tmpStations);
        assert multiset(mediaItems) == multiset(before) + multiset(ToItems(tmpStations));
        remaining := remaining - {key};
      }
      LoadedItems(provider.musicListById, provider.IsInitialized(), stationsList, mediaItems);
    }

    /**
      getMediametaData: the record with media id `id`, or None (null) when
      no group holds one. When several match, the one visited last is kept,
      but the visiting order is unspecified.
     */
    method GetMediametaData(id: string) returns (metaData: Option<Metadata>)
      requires Valid()
      ensures metaData.Some? ==> metaData.value.mediaId == id && Listed(provider.GetStationsList(), provider.GetStationsList().Keys, metaData.value)
      ensures metaData.None? <==> NoneMatch(provider.GetStationsList(), provider.GetStationsList().Keys, id)
      ensures metaData == StationById(id)
    {
      metaData := None;
      var stationsList := provider.GetStationsList();
      var remaining := stationsList.Keys;
      while remaining != {}
        invariant remaining <= stationsList.Keys
        invariant metaData.Some? ==> metaData.value.mediaId == id && Listed(stationsList, stationsList.Keys - remaining, metaData.value)
        invariant metaData.None? ==> NoneMatch(stationsList, stationsList.Keys - remaining, id)
        decreases remaining
      {
        var key :| key in remaining;
        ghost var done := stationsList.Keys - remaining;
        var tmpStations := stationsList[key];
        for i := 0 to |tmpStations|
          invariant metaData.Some? ==>
                      metaData.value.mediaId == id &&
                      (Listed(stationsList, done, metaData.value) || metaData.value in tmpStations[..i])
          invariant metaData.None? ==>
                      NoneMatch(stationsList, done, id) && forall j :: 0 <= j < i ==> tmpStations[j].mediaId != id
        {
          var st := tmpStations[i];
          if st.mediaId == id {
            metaData := Some(st);
          }
        }
        if metaData.Some? && !Listed(stationsList, done, metaData.value) {
          var i :| 0 <= i < |tmpStations| && tmpStations[i] == metaData.value;
          ListedGrow(stationsList, done, key, i, metaData.value);
        } else if metaData.Some? {
          ListedGrow(stationsList, done, key, 0, metaData.value);
        }
        assert stationsList.Keys - (remaining - {key}) == done + {key};
        remaining := remaining - {key};
      }
      if provider.IsInitialized() {
        GroupedMatch(provider.musicListById, id);
      }
    }

    /**
      getMediaUrl: the media URI of the record with media id `id`, or ""
      when no group holds one.
     */
    method GetMediaUrl(id: string) returns (url: string)
      requires Valid()
      ensures NoneMatch(provider.GetStationsList(), provider.GetStationsList().Keys, id) ==> url == ""
      ensures !NoneMatch(provider.GetStationsList(), provider.GetStationsList().Keys, id) ==>
                exists md :: Listed(provider.GetStationsList(), provider.GetStationsList().Keys, md) && md.mediaId == id && url == md.mediaUri
      ensures url == if StationById(id).Some? then StationById(id).value.mediaUri else ""
    {
      url := "";
      ghost var found: Option<Metadata> := None;
      var stationsList := provider.GetStationsList();
      var remaining := stationsList.Keys;
      while remaining != {}
        invariant remaining <= stationsList.Keys
        invariant found.Some? ==> found.value.mediaId == id && url == found.value.mediaUri
                                  && Listed(stationsList, stationsList.Keys - remaining, found.value)
        invariant found.None? ==> url == "" && NoneMatch(stationsList, stationsList.Keys - remaining, id)
        decreases remaining
      {
        var key :| key in remaining;
        ghost var done := stationsList.Keys - remaining;
        var tmpStations := stationsList[key];
        for i := 0 to |tmpStations|
          invariant found.Some? ==>
                      found.value.mediaId == id && url == found.value.mediaUri &&
                      (Listed(stationsList, done, found.value) || found.value in tmpStations[..i])
          invariant found.None? ==>
                      url == "" && NoneMatch(stationsList, done, id) && forall j :: 0 <= j < i ==> tmpStations[j].mediaId != id
        {
          var st := tmpStations[i];
          if st.mediaId == id {
            url := st.mediaUri;
            found := Some(st);
          }
        }
        if found.Some? && !Listed(stationsList, done, found.value) {
          var i :| 0 <= i < |tmpStations| && tmpStations[i] == found.value;
          ListedGrow(stationsList, done, key, i, found.value);
        } else if found.Some? {
          ListedGrow(stationsList, done, key, 0, found.value);
        }
        assert stationsList.Keys - (remaining - {key}) == done + {key};
        remaining := remaining - {key};
      }
      if provider.IsInitialized() {
        GroupedMatch(provider.musicListById, id);
      }
    }

    /**
      onLoadChildren, with the catalog fetch replaced by its outcome `doc`.
      An INITIALIZED catalog is answered at once. Otherwise the catalog is
      retrieved: on failure the answer is an empty list; on success the
      current media id becomes "1", station "1" is handed to the player, and
      the children are loaded.
     */
    method OnLoadChildren(parentMediaId: string, doc: Option<JsonObject>)
      returns (mediaItems: seq<MediaItem>, play: Option<PlayRequest>)
      requires Valid()
      modifies this`currentMediaId, provider
      ensures Valid()
      ensures old(provider.IsInitialized()) ==>
                && provider.currentState == old(provider.currentState)
                && provider.musicListById == old(provider.musicListById)
                && provider.stationLists == old(provider.stationLists)
                && currentMediaId == old(currentMediaId) && play.None?
      ensures !old(provider.IsInitialized()) ==>
                var outcome := Retrieve(old(provider.musicListById), doc, Urls.BasePath(CatalogUrl));
                && provider.musicListById == outcome.musicListById
                && (provider.IsInitialized() <==> outcome.succeeded)
      ensures provider.IsInitialized() ==> multiset(mediaItems) == AllItems(provider.GetStationsList())
      ensures !provider.IsInitialized() ==> mediaItems == [] && currentMediaId == old(currentMediaId) && play.None?
      ensures !provider.IsInitialized() ==> provider.stationLists == old(provider.stationLists)
      ensures !old(provider.IsInitialized()) && provider.IsInitialized() ==>
                && currentMediaId == Some("1")
                && play == Some(PlayRequest(StationById("1"), if StationById("1").Some? then StationById("1").value.mediaUri else ""))
    {
      play := None;
      if !provider.IsInitialized() {
        var success, fetched := provider.RetrieveMediaAsync(doc);
        if success {
          currentMediaId := Some("1");
          var metadata := GetMediametaData("1");
          var url := GetMediaUrl("1");
          play := Some(PlayRequest(metadata, url));
          mediaItems := LoadChildrenImpl(parentMediaId);
        } else {
          mediaItems := [];
        }
      } else {
        mediaItems := LoadChildrenImpl(parentMediaId);
      }
    }

    /**
      onPlayFromMediaId: the requested id becomes the current media id, and
      its record and URL are handed to the player.
     */
    method OnPlayFromMediaId(mediaId: string) returns (play: PlayRequest)
      requires Valid()
      modifies this`currentMediaId
      ensures Valid()
      ensures currentMediaId == Some(mediaId)
      ensures play == PlayRequest(StationById(mediaId), if StationById(mediaId).Some? then StationById(mediaId).value.mediaUri else "")
    {
      currentMediaId := Some(mediaId);
      var metadata := GetMediametaData(mediaId);
      var url := GetMediaUrl(mediaId);
      play := PlayRequest(metadata, url);
    }

    /**
      onPlay: the current media id's record and URL are handed to the player.
      While no id is current (null), no record has a matching id, so the
      player gets no record and an empty URL.
     */
    method OnPlay() returns (play: PlayRequest)
      requires Valid()
      ensures currentMediaId.None? ==> play == PlayRequest(None, "")
      ensures currentMediaId.Some? ==>
                var id := currentMediaId.value;
                play == PlayRequest(StationById(id), if StationById(id).Some? then StationById(id).value.mediaUri else "")
    {
      match currentMediaId {
        case None =>
          play := PlayRequest(None, "");
        case Some(id) =>
          var metadata := GetMediametaData(id);
          var url := GetMediaUrl(id);
          play := PlayRequest(metadata, url);
      }
    }
  }

  /** Every item built from the groups is playable. */
  lemma {:induction false} ItemsOverPlayable(stations: map<string, seq<Metadata>>, ks: set<string>, it: MediaItem)
    requires ks <= stations.Keys
    requires it in ItemsOver(stations, ks)
    ensures it.flags == FlagPlayable
    decreases ks
  {
    var k := Pick(ks);
    if it !in multiset(ToItems(stations[k])) {
      ItemsOverPlayable(stations, ks - {k}, it);
    }
  }

  lemma AllItemsPlayable(stations: map<string, seq<Metadata>>)
    ensures forall it :: it in AllItems(stations) ==> it.flags == FlagPlayable
  {
    forall it | it in AllItems(stations) ensures it.flags == FlagPlayable {
      ItemsOverPlayable(stations, stations.Keys, it);
    }
  }

  /**
    The items of the grouped view of a consistent map: one per stored
    record, each built from the record stored under its media id, and the
    item of every stored record occurs exactly once.
   */
  lemma GroupedItems(byId: map<string, Metadata>)
    requires KeysConsistent(byId)
    ensures |AllItems(GroupById(byId))| == |byId|
    ensures forall it :: it in AllItems(GroupById(byId)) ==> it.mediaId in byId && it == ToItem(byId[it.mediaId])
    ensures forall k :: k in byId ==> AllItems(GroupById(byId))[ToItem(byId[k])] == 1
  {
    var g := GroupById(byId);
    assert g.Keys == byId.Keys;
    ItemsOverSize(g, byId.Keys);
    GroupedSize(byId, byId.Keys);
    GroupedItemsAreStored(byId, byId.Keys);
    forall k | k in byId ensures AllItems(g)[ToItem(byId[k])] == 1 {
      GroupedItemOnce(byId, k);
    }
  }
}

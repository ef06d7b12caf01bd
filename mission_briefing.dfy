/**
 * `MissionBriefingViewModel`: the stop list of a mission being prepared,
 * its title and its extraction choice, with drag-and-drop reordering, the
 * extraction toggle, the initial load (draft restore, custom id list or
 * template itinerary), the draft auto-save, the launch of the mission
 * through the preference store and the table of external booking links.
 */
module MissionBriefing {
  import opened Wrappers
  import opened Text
  import opened Lists
  import opened Domain
  import SmartArrange
  import DataStore
  import PreferenceManager

  const CUSTOM_CARGO := "custom_cargo"

  /** The default airport location of a briefing. */
  const AIRPORT_LOCATION := GeoPoint(41.6693, 44.9547)

  // ---------------------------------------------------------------------
  // Drag-and-drop reordering

  /** `moveStop`'s list: the element at `from` taken out and put back at `to`. */
  function Moved<T>(list: seq<T>, from: int, to: int): (r: seq<T>)
    ensures |r| == |list|
    ensures multiset(r) == multiset(list)
    ensures 0 <= from < |list| && 0 <= to < |list| ==> r[to] == list[from]
    ensures !(0 <= from < |list| && 0 <= to < |list|) ==> r == list
  {
    if 0 <= from < |list| && 0 <= to < |list| then
      var removed := list[..from] + list[from + 1..];
      assert list == list[..from] + [list[from]] + list[from + 1..];
      assert multiset(list) == multiset(removed) + multiset{list[from]};
      assert removed == removed[..to] + removed[to..];
      assert multiset(removed) == multiset(removed[..to]) + multiset(removed[to..]);
      removed[..to] + [list[from]] + removed[to..]
    else list
  }

  /** Dropping an item where it was picked up changes nothing. */
  lemma MoveToSameIndex<T>(list: seq<T>, i: int)
    ensures Moved(list, i, i) == list
  {
    if 0 <= i < |list| {
      var removed := list[..i] + list[i + 1..];
      assert removed[..i] == list[..i] && removed[i..] == list[i + 1..];
      assert list == list[..i] + [list[i]] + list[i + 1..];
    }
  }

  /** Moving an item back to where it came from restores the list. */
  lemma MoveBack<T>(list: seq<T>, a: int, b: int)
    ensures Moved(Moved(list, a, b), b, a) == list
  {
    if 0 <= a < |list| && 0 <= b < |list| {
      var x := list[a];
      var removed := list[..a] + list[a + 1..];
      var moved := Moved(list, a, b);
      assert moved == removed[..b] + [x] + removed[b..];
      assert moved[..b] == removed[..b] && moved[b + 1..] == removed[b..];
      assert moved[..b] + moved[b + 1..] == removed;
      assert removed[..a] == list[..a] && removed[a..] == list[a + 1..];
      assert list == list[..a] + [x] + list[a + 1..];
    }
  }

  /** Everything but the moved item keeps its relative order. */
  lemma MoveKeepsOthersInOrder<T>(list: seq<T>, from: int, to: int)
    requires 0 <= from < |list| && 0 <= to < |list|
    ensures var r := Moved(list, from, to); r[..to] + r[to + 1..] == list[..from] + list[from + 1..]
  {
    var removed := list[..from] + list[from + 1..];
    var r := Moved(list, from, to);
    assert r[..to] == removed[..to] && r[to + 1..] == removed[to..];
    assert removed[..to] + removed[to..] == removed;
  }

  // ---------------------------------------------------------------------
  // Extraction toggle

  /** The other extraction choice. */
  function Toggled(x: ExtractionType): (r: ExtractionType)
    ensures r != x
  {
    if x == RETURN_TO_FOB then AIRPORT_EXTRACTION else RETURN_TO_FOB
  }

  /** Toggling twice is the identity. */
  lemma ToggleTwice(x: ExtractionType)
    ensures Toggled(Toggled(x)) == x
  {
  }

  // ---------------------------------------------------------------------
  // Loading

  /** The ids of a custom mission: `split(",")`, `trim()`, non-integers dropped. */
  function ParseIds(s: string): (ids: seq<int>)
    ensures forall i | 0 <= i < |ids| :: IsInt32(ids[i])
  {
    MapToIntOrNull(TrimAll(Split(s, ',')))
  }

  /** A comma-joined id list parses back to itself. */
  lemma ParseIdsOfJoined(ids: seq<int>)
    requires forall i | 0 <= i < |ids| :: IsInt32(ids[i])
    ensures ParseIds(JoinInts(ids)) == ids
  {
    if ids == [] {
      EmptyIdText();
      assert TrimAll([""]) == [""] by {
        assert Trim("") == "";
      }
    } else {
      SplitJoinInts(ids);
      TrimAllOfIntStrings(ids);
      MapToIntOrNullOfIntStrings(ids);
    }
  }

  /** A template itinerary as stops: ids from 9000 on, one per node, in order. */
  function TemplateStops(itinerary: seq<BattleNode>, lookup: Lookup): (stops: seq<LocationEntity>)
    ensures |stops| == |itinerary|
    ensures forall i | 0 <= i < |stops| :: stops[i] == TemplateStop(itinerary[i], i, lookup)
  {
    seq(|itinerary|, i requires 0 <= i < |itinerary| => TemplateStop(itinerary[i], i, lookup))
  }

  function TemplateStop(node: BattleNode, index: int, lookup: Lookup): (e: LocationEntity)
    ensures e.id == index + 9000 && e.kind == "Target" && e.region == "Objective"
    ensures e.nameEn == lookup(node.title, "en") && e.descEn == lookup(node.description, "en")
    ensures node.location.None? ==> e.latitude == 0.0 && e.longitude == 0.0
    ensures node.location.Some? ==> e.latitude == node.location.value.latitude && e.longitude == node.location.value.longitude
    ensures e.imageUrl == node.imageUrl.GetOr("")
  {
    var loc := node.location;
    NewLocation(index + 9000, "Target", "Objective",
      if loc.Some? then loc.value.latitude else 0.0,
      if loc.Some? then loc.value.longitude else 0.0,
      node.imageUrl.GetOr(""), lookup(node.title, "en"), lookup(node.description, "en"))
  }

  /** Template stop ids are pairwise distinct. */
  lemma TemplateIdsDistinct(itinerary: seq<BattleNode>, lookup: Lookup)
    ensures var stops := TemplateStops(itinerary, lookup);
      forall i, j | 0 <= i < j < |stops| :: stops[i].id != stops[j].id
  {
  }

  /** The position of a stop's id in the draft id list. */
  function DraftRank(draftIds: seq<int>): LocationEntity -> real {
    (e: LocationEntity) => IndexOf(draftIds, e.id) as real
  }

  /** What a load puts on screen. */
  datatype Loaded = Loaded(stops: seq<LocationEntity>, title: string)

  /**
   * `restoreOrLoadData` and `loadFreshData`. The database query, the trip
   * lookup and the translation are parameters.
   */
  function Load(tripId: string, initialIds: string, draftIds: seq<int>,
                locationsByIds: seq<int> -> seq<LocationEntity>,
                tripById: string -> Option<TripPath>, lookup: Lookup): Loaded
  {
    if draftIds != [] && tripId == CUSTOM_CARGO then
      Loaded(SortBy(locationsByIds(draftIds), DraftRank(draftIds)), "RESTORED SESSION")
    else if tripId == CUSTOM_CARGO then
      Loaded(locationsByIds(ParseIds(initialIds)), "CUSTOM LOADOUT")
    else
      match tripById(tripId)
      case Some(trip) => Loaded(TemplateStops(trip.itinerary, lookup), lookup(trip.title, "en"))
      case None => Loaded([], "FIXED MISSION")
  }

  /**
   * A restored draft shows the stops the database returns, ordered by
   * their position in the draft list; stops at the same position keep the
   * database order.
   */
  lemma RestoredDraftIsInDraftOrder(tripId: string, initialIds: string, draftIds: seq<int>,
                                    locationsByIds: seq<int> -> seq<LocationEntity>,
                                    tripById: string -> Option<TripPath>, lookup: Lookup, v: real)
    requires draftIds != [] && tripId == CUSTOM_CARGO
    ensures var r := Load(tripId, initialIds, draftIds, locationsByIds, tripById, lookup);
      && r.title == "RESTORED SESSION"
      && multiset(r.stops) == multiset(locationsByIds(draftIds))
      && SortedBy(r.stops, DraftRank(draftIds))
      && Filter(r.stops, KeyIs(DraftRank(draftIds), v)) == Filter(locationsByIds(draftIds), KeyIs(DraftRank(draftIds), v))
  {
    SortByIsSorted(locationsByIds(draftIds), DraftRank(draftIds));
    SortByIsStable(locationsByIds(draftIds), DraftRank(draftIds), v);
  }

  /** Without a draft, a custom mission queries exactly the parsed ids. */
  lemma CustomLoadQueriesParsedIds(initialIds: string, draftIds: seq<int>,
                                   locationsByIds: seq<int> -> seq<LocationEntity>,
                                   tripById: string -> Option<TripPath>, lookup: Lookup)
    requires draftIds == []
    ensures var r := Load(CUSTOM_CARGO, initialIds, draftIds, locationsByIds, tripById, lookup);
      r == Loaded(locationsByIds(ParseIds(initialIds)), "CUSTOM LOADOUT")
  {
  }

  /** A template trip ignores any draft and shows one stop per itinerary node. */
  lemma TemplateLoadIgnoresDraft(tripId: string, initialIds: string, draftIds: seq<int>,
                                 locationsByIds: seq<int> -> seq<LocationEntity>,
                                 tripById: string -> Option<TripPath>, lookup: Lookup)
    requires tripId != CUSTOM_CARGO
    ensures var r := Load(tripId, initialIds, draftIds, locationsByIds, tripById, lookup);
      && r == Load(tripId, initialIds, [], locationsByIds, tripById, lookup)
      && (tripById(tripId).None? ==> r == Loaded([], "FIXED MISSION"))
      && (tripById(tripId).Some? ==> |r.stops| == |tripById(tripId).value.itinerary|)
  {
  }

  // ---------------------------------------------------------------------
  // External links

  const LINK_KEYS := ["skyscanner", "booking", "airbnb", "bolt", "localrent"]

  /** `openExternalLink`'s URL for a link key. */
  function ExternalLinkUrl(key: string): (url: string)
    ensures url == "https://google.com" <==> key !in LINK_KEYS
  {
    match key
    case "skyscanner" => "https://www.skyscanner.net"
    case "booking" => "https://www.booking.com/city/ge/tbilisi.html"
    case "airbnb" => "https://www.airbnb.com/s/Tbilisi--Georgia"
    case "bolt" => "https://bolt.eu"
    case "localrent" => "https://localrent.com/en/georgia/"
    case _ => "https://google.com"
  }

  /** Distinct link keys open distinct sites. */
  lemma LinkUrlsDistinct(a: string, b: string)
    requires a in LINK_KEYS && b in LINK_KEYS && a != b
    ensures ExternalLinkUrl(a) != ExternalLinkUrl(b)
  {
  }

  // ---------------------------------------------------------------------
  // Launching the mission

  /**
   * The store after `finalizeMission`: the stop ids saved as the active
   * loadout, the extraction choice saved, the journey on the road with this
   * trip, and the draft dropped.
   */
  function Launched(p: DataStore.Prefs, ids: seq<int>, x: ExtractionType, tripId: string): DataStore.Prefs {
    PreferenceManager.ClearedDraft(
      PreferenceManager.WithState(PreferenceManager.SavedExtraction(PreferenceManager.SavedLoadout(p, ids), x), ON_THE_ROAD, Some(tripId)))
  }

  /**
   * After the launch the store reads back the stops' ids as the loadout and
   * the chosen extraction, the user is on the road with this trip, and there
   * is no draft left to restore.
   */
  lemma LaunchReadsBack(p: DataStore.Prefs, ids: seq<int>, x: ExtractionType, tripId: string)
    requires forall i | 0 <= i < |ids| :: IsInt32(ids[i])
    ensures var q := Launched(p, ids, x, tripId);
      && PreferenceManager.ActiveLoadoutOf(q) == Some(ids)
      && PreferenceManager.ExtractionOf(q) == Some(x)
      && PreferenceManager.SessionOf(q).Some?
      && PreferenceManager.SessionOf(q).value.state == ON_THE_ROAD
      && PreferenceManager.SessionOf(q).value.activePathId == Some(tripId)
      && PreferenceManager.DraftOf(q) == PreferenceManager.Draft([], "", "")
  {
    LaunchKeepsLoadout(p, ids, x, tripId);
    LaunchKeepsExtraction(p, ids, x, tripId);
    LaunchGoesOnTheRoad(p, ids, x, tripId);
    PreferenceManager.ClearDraftRemovesDraftKeys(
      PreferenceManager.WithState(PreferenceManager.SavedExtraction(PreferenceManager.SavedLoadout(p, ids), x),
        ON_THE_ROAD, Some(tripId)));
  }

  lemma LaunchKeepsLoadout(p: DataStore.Prefs, ids: seq<int>, x: ExtractionType, tripId: string)
    requires forall i | 0 <= i < |ids| :: IsInt32(ids[i])
    ensures PreferenceManager.ActiveLoadoutOf(Launched(p, ids, x, tripId)) == Some(ids)
  {
    var l := PreferenceManager.SavedLoadout(p, ids);
    var e := PreferenceManager.SavedExtraction(l, x);
    var r := PreferenceManager.WithState(e, ON_THE_ROAD, Some(tripId));
    PreferenceManager.LoadoutRoundTrip(p, ids);
    PreferenceManager.ClearDraftRemovesDraftKeys(r);
    assert DataStore.GetStr(Launched(p, ids, x, tripId), DataStore.KEY_ACTIVE_LOADOUT)
        == DataStore.GetStr(l, DataStore.KEY_ACTIVE_LOADOUT);
  }

  lemma LaunchKeepsExtraction(p: DataStore.Prefs, ids: seq<int>, x: ExtractionType, tripId: string)
    ensures PreferenceManager.ExtractionOf(Launched(p, ids, x, tripId)) == Some(x)
  {
    var l := PreferenceManager.SavedLoadout(p, ids);
    var e := PreferenceManager.SavedExtraction(l, x);
    var r := PreferenceManager.WithState(e, ON_THE_ROAD, Some(tripId));
    PreferenceManager.ExtractionRoundTrip(l, x);
    PreferenceManager.ClearDraftRemovesDraftKeys(r);
    assert DataStore.GetStr(Launched(p, ids, x, tripId), DataStore.KEY_EXTRACTION_TYPE)
        == DataStore.GetStr(e, DataStore.KEY_EXTRACTION_TYPE);
  }

  lemma LaunchGoesOnTheRoad(p: DataStore.Prefs, ids: seq<int>, x: ExtractionType, tripId: string)
    ensures var s := PreferenceManager.SessionOf(Launched(p, ids, x, tripId));
      s.Some? && s.value.state == ON_THE_ROAD && s.value.activePathId == Some(tripId)
  {
    var e := PreferenceManager.SavedExtraction(PreferenceManager.SavedLoadout(p, ids), x);
    var r := PreferenceManager.WithState(e, ON_THE_ROAD, Some(tripId));
    var q := Launched(p, ids, x, tripId);
    PreferenceManager.UpdateStateWithPath(e, ON_THE_ROAD, tripId);
    PreferenceManager.ClearDraftRemovesDraftKeys(r);
    assert DataStore.GetStr(q, DataStore.KEY_STATE) == DataStore.GetStr(r, DataStore.KEY_STATE);
    assert DataStore.GetStr(q, DataStore.KEY_ACTIVE_TRIP) == DataStore.GetStr(r, DataStore.KEY_ACTIVE_TRIP);
    assert DataStore.GetBool(q, DataStore.KEY_IS_PRO) == DataStore.GetBool(r, DataStore.KEY_IS_PRO);
    assert DataStore.GetBool(q, DataStore.KEY_HAS_SEEN_TUTORIAL) == DataStore.GetBool(r, DataStore.KEY_HAS_SEEN_TUTORIAL);
    assert DataStore.GetStr(q, DataStore.KEY_LANGUAGE) == DataStore.GetStr(r, DataStore.KEY_LANGUAGE);
  }

  // ---------------------------------------------------------------------
  // The view model's state

  class Briefing {
    var stops: seq<LocationEntity>
    var tripTitle: string
    var extractionType: ExtractionType

    constructor ()
      ensures stops == [] && tripTitle == "MISSION BRIEFING" && extractionType == RETURN_TO_FOB
    {
      stops := [];
      tripTitle := "MISSION BRIEFING";
      extractionType := RETURN_TO_FOB;
    }

    /** `moveStop`: remove the item at `fromIndex` and insert it at `toIndex`. */
    method MoveStop(fromIndex: int, toIndex: int)
      modifies this
      ensures stops == Moved(old(stops), fromIndex, toIndex)
      ensures tripTitle == old(tripTitle) && extractionType == old(extractionType)
    {
      var list := stops;
      if 0 <= fromIndex < |list| && 0 <= toIndex < |list| {
        var item := list[fromIndex];
        list := list[..fromIndex] + list[fromIndex + 1..];
        list := list[..toIndex] + [item] + list[toIndex..];
        stops := list;
      }
    }

    method ToggleExtraction()
      modifies this
      ensures extractionType == Toggled(old(extractionType))
      ensures stops == old(stops) && tripTitle == old(tripTitle)
    {
      extractionType := if extractionType == RETURN_TO_FOB then AIRPORT_EXTRACTION else RETURN_TO_FOB;
    }

    /**
     * `optimizeLoadout`: the stops in greedy nearest-neighbour order from the
     * FOB, or from the airport when no FOB is set, then saved as the draft.
     */
    method OptimizeLoadout(fob: Option<GeoPoint>, airport: GeoPoint, dist: SmartArrange.Distance,
                           store: PreferenceManager.Store, tripId: string)
      modifies this, store
      ensures stops == SmartArrange.Greedy(fob.GetOr(airport), old(stops), dist)
      ensures multiset(stops) == multiset(old(stops))
      ensures tripTitle == old(tripTitle) && extractionType == old(extractionType)
      ensures store.prefs == PreferenceManager.SavedDraft(old(store.prefs), RouteIds(stops), tripTitle, tripId)
    {
      var optimized := SmartArrange.Arrange(fob.GetOr(airport), stops, dist);
      SmartArrange.GreedyIsPermutation(fob.GetOr(airport), stops, dist);
      stops := optimized;
      AutoSave(store, tripId);
    }

    /**
     * `restoreOrLoadData`: fill the stops and the title. A restored draft is
     * left as stored; a fresh load (`loadFreshData`) ends by saving the draft.
     */
    method RestoreOrLoadData(tripId: string, initialIds: string, draftIds: seq<int>,
                             locationsByIds: seq<int> -> seq<LocationEntity>,
                             tripById: string -> Option<TripPath>, lookup: Lookup,
                             store: PreferenceManager.Store)
      modifies this, store
      ensures Loaded(stops, tripTitle) == Load(tripId, initialIds, draftIds, locationsByIds, tripById, lookup)
      ensures extractionType == old(extractionType)
      ensures |draftIds| > 0 && tripId == CUSTOM_CARGO ==> store.prefs == old(store.prefs)
      ensures !(|draftIds| > 0 && tripId == CUSTOM_CARGO) ==>
                store.prefs == PreferenceManager.SavedDraft(old(store.prefs), RouteIds(stops), tripTitle, tripId)
    {
      if |draftIds| > 0 && tripId == CUSTOM_CARGO {
        stops := SortBy(locationsByIds(draftIds), DraftRank(draftIds));
        tripTitle := "RESTORED SESSION";
      } else if tripId == CUSTOM_CARGO {
        var ids := ParseIds(initialIds);
        stops := locationsByIds(ids);
        tripTitle := "CUSTOM LOADOUT";
      } else {
        var trip := tripById(tripId);
        tripTitle := if trip.Some? then lookup(trip.value.title, "en") else "FIXED MISSION";
        stops := if trip.Some? then TemplateStops(trip.value.itinerary, lookup) else [];
      }
      if !(|draftIds| > 0 && tripId == CUSTOM_CARGO) {
        AutoSave(store, tripId);
      }
    }

    /**
     * `autoSave`: the stop ids and the title saved as the draft. The source
     * passes no trip id; the screen's own trip id is stored with them.
     */
    method AutoSave(store: PreferenceManager.Store, tripId: string)
      modifies store
      ensures store.prefs == PreferenceManager.SavedDraft(old(store.prefs), RouteIds(stops), tripTitle, tripId)
    {
      store.SaveDraftMission(RouteIds(stops), tripTitle, tripId);
    }

    /** `finalizeMission`: save the loadout and the extraction, go on the road with the trip, drop the draft. */
    method FinalizeMission(store: PreferenceManager.Store, tripId: string)
      modifies store
      ensures store.prefs == Launched(old(store.prefs), RouteIds(stops), extractionType, tripId)
    {
      var finalIds := RouteIds(stops);
      store.SaveActiveLoadout(finalIds);
      store.SaveExtractionType(extractionType);
      store.UpdateState(ON_THE_ROAD, Some(tripId));
      store.ClearDraft();
    }
  }
}

/**
 * `BattleViewModel`: the trip being driven, its itinerary extended with the
 * base-camp start and the extraction end, where the map opens, the action
 * the engaged target's card offers, and the mission edits the screen makes
 * through the preference store.
 *
 * The user's position is a parameter (the location updates with latitude
 * 0.0 already dropped), and so is the distance to the target.
 */
module Battle {
  import opened Wrappers
  import opened Lists
  import opened Domain
  import opened DataStore
  import opened PreferenceManager
  import MissionBriefing

  // ---------------------------------------------------------------------
  // currentTrip

  /** `loadoutIds.mapNotNull { id -> unorderedEntities.find { it.id == id } }`. */
  function OrderedEntities(loadoutIds: seq<int>, unordered: seq<LocationEntity>): seq<LocationEntity> {
    MapNotNull(loadoutIds, RowFor(unordered))
  }

  /** `unorderedEntities.find { it.id == id }` as a function of the id. */
  function RowFor(unordered: seq<LocationEntity>): int -> Option<LocationEntity> {
    (id: int) => FindById(unordered, id)
  }

  /**
   * Loadout order, not query order: one entity per loadout id that has a
   * row, in loadout order, each the first row stored under that id.
   */
  lemma OrderedEntitiesFollowLoadout(loadoutIds: seq<int>, unordered: seq<LocationEntity>)
    ensures var r := OrderedEntities(loadoutIds, unordered);
      var kept := Filter(loadoutIds, Found(unordered));
      && |r| == |kept|
      && forall i | 0 <= i < |r| :: Some(r[i]) == FindById(unordered, kept[i])
  {
    MapNotNullFollowsFilter(loadoutIds, RowFor(unordered), Found(unordered));
  }

  /** The entities' ids are the loadout ids that have a row, in loadout order. */
  lemma OrderedEntitiesIds(loadoutIds: seq<int>, unordered: seq<LocationEntity>)
    ensures RouteIds(OrderedEntities(loadoutIds, unordered)) == Filter(loadoutIds, Found(unordered))
  {
    OrderedEntitiesFollowLoadout(loadoutIds, unordered);
  }

  /** With a row for every loadout id, the entities come in exactly the loadout's order. */
  lemma OrderedEntitiesAllFound(loadoutIds: seq<int>, unordered: seq<LocationEntity>)
    requires forall i | 0 <= i < |loadoutIds| :: HasStop(unordered, loadoutIds[i])
    ensures RouteIds(OrderedEntities(loadoutIds, unordered)) == loadoutIds
  {
    OrderedEntitiesIds(loadoutIds, unordered);
    FilterAll(loadoutIds, Found(unordered));
  }

  /** The node a custom-trip stop becomes. */
  function CustomNode(e: LocationEntity): BattleNode {
    BattleNode(English(e.nameEn), English(e.descEn), "D1", None, None, Some(GeoPoint(e.latitude, e.longitude)))
  }

  const CUSTOM_IMAGE := "https://images.pexels.com/photos/1036808/pexels-photo-1036808.jpeg"

  /** The custom trip: one node per stop of the loadout that has a row, in loadout order. */
  function CustomCargoTrip(loadoutIds: seq<int>, unordered: seq<LocationEntity>): (t: TripPath)
    ensures t.id == MissionBriefing.CUSTOM_CARGO && t.category == URBAN && t.difficulty == NORMAL
    ensures t.totalRideTimeMinutes == 0 && t.durationDays == 1
    ensures |t.itinerary| == |Filter(loadoutIds, Found(unordered))|
    ensures forall i | 0 <= i < |t.itinerary| ::
      t.itinerary[i] == CustomNode(FindById(unordered, Filter(loadoutIds, Found(unordered))[i]).value)
  {
    var ordered := OrderedEntities(loadoutIds, unordered);
    OrderedEntitiesFollowLoadout(loadoutIds, unordered);
    TripPath(MissionBriefing.CUSTOM_CARGO, English("CUSTOM MISSION"), English("User defined."), CUSTOM_IMAGE,
      URBAN, NORMAL, 0, 1, false, false, false, [],
      seq(|ordered|, i requires 0 <= i < |ordered| => CustomNode(ordered[i])))
  }

  /** The trip id of the screen: the navigation argument, or the custom trip without one. */
  function TripIdOf(navArg: Option<string>): string {
    navArg.GetOr(MissionBriefing.CUSTOM_CARGO)
  }

  /**
   * The trip before extension: the custom trip from the saved loadout, or
   * what `getTripById` returns for any other id.
   */
  function BaseTrip(tripId: string, loadoutIds: seq<int>, unordered: seq<LocationEntity>, stored: Option<TripPath>): (r: Option<TripPath>)
    ensures tripId == MissionBriefing.CUSTOM_CARGO ==> r == Some(CustomCargoTrip(loadoutIds, unordered))
    ensures tripId != MissionBriefing.CUSTOM_CARGO ==> r == stored
  {
    if tripId == MissionBriefing.CUSTOM_CARGO then Some(CustomCargoTrip(loadoutIds, unordered)) else stored
  }

  const FOB_IMAGE := "https://images.pexels.com/photos/271624/pexels-photo-271624.jpeg"
  const AIRPORT_IMAGE := "https://upload.wikimedia.org/wikipedia/commons/7/75/Tbilisi_Airport_Terminal.jpg"
  const AIRPORT := GeoPoint(41.6693, 44.9547)

  function FobStart(fob: GeoPoint): BattleNode {
    BattleNode(English("BASE CAMP (FOB)"), English("Operation Start."), "START", Some(FOB_IMAGE), None, Some(fob))
  }

  const AIRPORT_END := BattleNode(English("AIRPORT EXTRACTION"), English("Returning to terminal."), "END",
                                  Some(AIRPORT_IMAGE), None, Some(AIRPORT))

  function ReturnToBase(fob: GeoPoint): BattleNode {
    BattleNode(English("RETURN TO BASE"), English("Mission complete."), "END", Some(FOB_IMAGE), None, Some(fob))
  }

  /** The number of end nodes: one for the airport, one for a return to an existing base, else none. */
  function EndCount(fob: Option<GeoPoint>, extraction: ExtractionType): nat {
    if extraction == AIRPORT_EXTRACTION || fob.Some? then 1 else 0
  }

  /**
   * The extended itinerary: the base-camp start when there is a base, the
   * itinerary unchanged, then the airport end for an airport extraction, or
   * else the return to base when there is one.
   */
  function Extended(itinerary: seq<BattleNode>, fob: Option<GeoPoint>, extraction: ExtractionType): (r: seq<BattleNode>)
    ensures |r| == (if fob.Some? then 1 else 0) + |itinerary| + EndCount(fob, extraction)
    ensures fob.Some? ==> r[0] == FobStart(fob.value) && r[1..1 + |itinerary|] == itinerary
    ensures fob.None? ==> r[..|itinerary|] == itinerary
    ensures extraction == AIRPORT_EXTRACTION ==> r[|r| - 1] == AIRPORT_END
    ensures extraction == RETURN_TO_FOB && fob.Some? ==> r[|r| - 1] == ReturnToBase(fob.value)
    ensures extraction == RETURN_TO_FOB && fob.None? ==> r == itinerary
  {
    var start := if fob.Some? then [FobStart(fob.value)] else [];
    var end := if extraction == AIRPORT_EXTRACTION then [AIRPORT_END]
               else if fob.Some? then [ReturnToBase(fob.value)] else [];
    assert (start + itinerary + end)[|start|..|start| + |itinerary|] == itinerary;
    start + itinerary + end
  }

  /** `extendedItinerary`, built with `add` and `addAll` on a mutable list. */
  method ExtendItinerary(itinerary: seq<BattleNode>, fob: Option<GeoPoint>, extraction: ExtractionType)
    returns (extended: seq<BattleNode>)
    ensures extended == Extended(itinerary, fob, extraction)
  {
    extended := [];
    if fob.Some? {
      extended := extended + [FobStart(fob.value)];
    }
    extended := extended + itinerary;
    if extraction == AIRPORT_EXTRACTION {
      extended := extended + [AIRPORT_END];
    } else if fob.Some? {
      extended := extended + [ReturnToBase(fob.value)];
    }
  }

  /** `currentTrip`: the base trip with its itinerary extended; nothing while there is no base trip. */
  function CurrentTrip(mission: MissionState, base: Option<TripPath>): (r: Option<TripPath>)
    ensures r.None? <==> base.None?
    ensures r.Some? ==> r.value == base.value.(itinerary := Extended(base.value.itinerary, mission.fobLocation, mission.extractionType))
  {
    if base.None? then None
    else Some(base.value.(itinerary := Extended(base.value.itinerary, mission.fobLocation, mission.extractionType)))
  }

  /** Extending never drops or reorders a node of the trip. */
  lemma ExtensionKeepsItinerary(mission: MissionState, base: TripPath)
    ensures var t := CurrentTrip(mission, Some(base)).value;
      var off := if mission.fobLocation.Some? then 1 else 0;
      && |t.itinerary| >= |base.itinerary| + off
      && t.itinerary[off..off + |base.itinerary|] == base.itinerary
  {
  }

  // ---------------------------------------------------------------------
  // getInitialMapCenter

  /** Freedom Square, Tbilisi. */
  const TBILISI_CENTER := GeoPoint(41.6930, 44.8015)

  /** `firstOrNull { it.location != null }?.location`. */
  function FirstLocation(nodes: seq<BattleNode>): (r: Option<GeoPoint>)
    ensures r.None? <==> forall i | 0 <= i < |nodes| :: nodes[i].location.None?
    ensures r.Some? ==> exists i | 0 <= i < |nodes| ::
      nodes[i].location == r && forall j | 0 <= j < i :: nodes[j].location.None?
  {
    if nodes == [] then None
    else if nodes[0].location.Some? then nodes[0].location
    else
      var r := FirstLocation(nodes[1..]);
      assert forall i | 1 <= i < |nodes| :: nodes[i] == nodes[1..][i - 1];
      r
  }

  /** `getInitialMapCenter`: the first located node of the trip, else the city centre. */
  function InitialMapCenter(trip: Option<TripPath>): (c: GeoPoint)
    ensures trip.None? ==> c == TBILISI_CENTER
    ensures trip.Some? && FirstLocation(trip.value.itinerary).Some? ==> c == FirstLocation(trip.value.itinerary).value
    ensures trip.Some? && FirstLocation(trip.value.itinerary).None? ==> c == TBILISI_CENTER
  {
    if trip.Some? && FirstLocation(trip.value.itinerary).Some? then FirstLocation(trip.value.itinerary).value
    else TBILISI_CENTER
  }

  /** With a base camp set, the map opens on it: the start node is the first one and it has a location. */
  lemma MapOpensOnBase(mission: MissionState, base: TripPath)
    requires mission.fobLocation.Some?
    ensures InitialMapCenter(CurrentTrip(mission, Some(base))) == mission.fobLocation.value
  {
    var t := CurrentTrip(mission, Some(base)).value;
    assert t.itinerary[0].location == mission.fobLocation;
  }

  /** With an airport extraction the trip always has a located node, so the map opens on a node of the trip. */
  lemma AirportTripHasLocatedNode(mission: MissionState, base: TripPath)
    requires mission.extractionType == AIRPORT_EXTRACTION
    ensures FirstLocation(CurrentTrip(mission, Some(base)).value.itinerary).Some?
  {
    var t := CurrentTrip(mission, Some(base)).value;
    var last := |t.itinerary| - 1;
    assert t.itinerary[last] == AIRPORT_END;
    assert t.itinerary[last].location.Some?;
  }

  // ---------------------------------------------------------------------
  // determineAction

  /** The navigation intents the actions carry. */
  datatype Intent = MapsIntent(start: GeoPoint, target: GeoPoint, mode: string) | BoltIntent(target: GeoPoint)

  /** `TacticalAction`; the icon is not part of this model. */
  datatype TacticalAction = Idle | Execute(caption: string, colorHex: int, intent: Option<Intent>)

  /** Where the user starts from: the current position, else the base camp. */
  function StartPoint(userLocation: Option<GeoPoint>, fob: Option<GeoPoint>): (r: Option<GeoPoint>)
    ensures r.None? <==> userLocation.None? && fob.None?
    ensures userLocation.Some? ==> r == userLocation
  {
    if userLocation.Some? then userLocation else fob
  }

  /**
   * `determineAction`: idle unless the target is engaged, located and there
   * is a start point; then secure when next to it, walk when close, drive
   * with a rental car, else call a taxi, the first rule that applies.
   */
  function DetermineAction(node: BattleNode, status: TargetStatus, distanceKm: real, profile: LogisticsProfile,
                           userLocation: Option<GeoPoint>, fob: Option<GeoPoint>): (a: TacticalAction)
    ensures a.Idle? <==> status != ENGAGED || node.location.None? || StartPoint(userLocation, fob).None?
    ensures a.Execute? && distanceKm < 0.2 ==> a == Execute("SECURE OBJECTIVE", 0xFF4CAF50, None)
    ensures a.Execute? && 0.2 <= distanceKm < 1.5 ==>
      a == Execute("WALK TO TARGET", 0xFFFFFFFF, Some(MapsIntent(StartPoint(userLocation, fob).value, node.location.value, "walking")))
    ensures a.Execute? && 1.5 <= distanceKm && profile.transportStrategy == DRIVER_RENTAL ==>
      a == Execute("DRIVE TO TARGET", 0xFF2196F3, Some(MapsIntent(StartPoint(userLocation, fob).value, node.location.value, "driving")))
    ensures a.Execute? && 1.5 <= distanceKm && profile.transportStrategy != DRIVER_RENTAL ==>
      a == Execute("CALL BOLT", 0xFF32BB78, Some(BoltIntent(node.location.value)))
  {
    if status != ENGAGED || node.location.None? then Idle
    else
      match StartPoint(userLocation, fob)
      case None => Idle
      case Some(start) =>
        if distanceKm < 0.2 then Execute("SECURE OBJECTIVE", 0xFF4CAF50, None)
        else if distanceKm < 1.5 then Execute("WALK TO TARGET", 0xFFFFFFFF, Some(MapsIntent(start, node.location.value, "walking")))
        else if profile.transportStrategy == DRIVER_RENTAL then
          Execute("DRIVE TO TARGET", 0xFF2196F3, Some(MapsIntent(start, node.location.value, "driving")))
        else Execute("CALL BOLT", 0xFF32BB78, Some(BoltIntent(node.location.value)))
  }

  /** Within walking range the transport profile plays no part: the distance rules come first. */
  lemma CloseTargetsIgnoreTransport(node: BattleNode, status: TargetStatus, distanceKm: real,
                                    p: LogisticsProfile, q: LogisticsProfile,
                                    userLocation: Option<GeoPoint>, fob: Option<GeoPoint>)
    requires distanceKm < 1.5
    ensures DetermineAction(node, status, distanceKm, p, userLocation, fob)
         == DetermineAction(node, status, distanceKm, q, userLocation, fob)
  {
  }

  /** Only an action that leaves the spot carries an intent, and every navigation starts at the start point. */
  lemma NavigationStartsAtStartPoint(node: BattleNode, status: TargetStatus, distanceKm: real, profile: LogisticsProfile,
                                     userLocation: Option<GeoPoint>, fob: Option<GeoPoint>)
    ensures var a := DetermineAction(node, status, distanceKm, profile, userLocation, fob);
      && (a.Execute? && a.intent.None? <==> a.Execute? && distanceKm < 0.2)
      && (a.Execute? && a.intent.Some? && a.intent.value.MapsIntent? ==>
            a.intent.value.start == StartPoint(userLocation, fob).value && a.intent.value.target == node.location.value)
  {
  }

  // ---------------------------------------------------------------------
  // Mission edits

  /** `setFob`: positions at latitude 0.0 are ignored. */
  method SetFob(store: Store, location: GeoPoint)
    modifies store
    ensures location.latitude != 0.0 ==> store.prefs == WithFob(old(store.prefs), location)
    ensures location.latitude == 0.0 ==> store.prefs == old(store.prefs)
  {
    if location.latitude != 0.0 {
      store.SetFobLocation(location);
    }
  }

  /** `engageTarget(idx)`. */
  method EngageTarget(store: Store, idx: int)
    modifies store
    ensures store.prefs == WithActiveTarget(old(store.prefs), Some(idx))
  {
    store.SetActiveTarget(Some(idx));
  }

  /** `neutralizeTarget(idx)`. */
  method NeutralizeTarget(store: Store, idx: int)
    modifies store
    ensures store.prefs == WithTargetComplete(old(store.prefs), idx)
  {
    store.MarkTargetComplete(idx);
  }

  /** `abortMission`: back to browsing, then the mission data cleared. */
  method AbortMission(store: Store)
    modifies store
    ensures store.prefs == ClearedMission(WithState(old(store.prefs), BROWSING, None))
  {
    store.UpdateState(BROWSING, None);
    store.ClearCurrentMissionData();
  }

  /** After an abort the user is browsing, with no active trip, base camp or target. */
  lemma AbortEndsJourney(p: Prefs)
    ensures var q := ClearedMission(WithState(p, BROWSING, None));
      && SessionOf(q).Some? && SessionOf(q).value.state == BROWSING && SessionOf(q).value.activePathId == None
      && FobOf(q) == None && ActiveIndexOf(q) == None && CompletedOf(q) == Some({})
  {
    var w := WithState(p, BROWSING, None);
    ClearMissionLeavesNothing(w);
    UserJourneyStateRoundTrip(BROWSING);
    assert GetStr(ClearedMission(w), KEY_STATE) == Some(UserJourneyStateName(BROWSING));
  }
}

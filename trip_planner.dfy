/**
 * `AdventureViewModel` (the trip planner): the route being planned or
 * driven, its editing operations, the live-trip bookkeeping of the active
 * card, the proximity search over the inventory, the leg distance map and
 * the loadout recovery that rebuilds the route when a trip is reopened.
 *
 * Distances are arbitrary functions of two points: the Haversine formula and
 * the road winding factor are not part of this model.
 */
module TripPlanner {
  import opened Wrappers
  import opened Text
  import opened Lists
  import opened Domain
  import opened DataStore
  import opened PreferenceManager
  import SmartArrange
  import MissionBriefing
  import Passport

  /** Card ids that are not locations: the home base, the return to base, the end of a base-less trip. */
  const HOME_NODE := -1
  const RETURN_NODE := -2
  const FINISH_NODE := -3

  /** Template stops are numbered from here, one per itinerary node. */
  const TEMPLATE_ID_BASE := 10000

  const NEARBY_LIMIT := 15
  const RESULTS_LIMIT := 60

  /** The fallback user position (central Tbilisi). */
  const DEFAULT_USER_LOCATION := GeoPoint(41.7125, 44.7930)

  /** The start point `optimizeRoute` uses without a base. */
  const OPTIMIZE_FALLBACK := GeoPoint(41.7, 44.8)

  const CUSTOM_TITLE := LocalizedString("CUSTOM TRIP", "ინდივიდუალური ტური", "ИНДИВИДУАЛЬНЫЙ ТУР", "", "", "", "")

  // ---------------------------------------------------------------------
  // Route editing

  /** `addStop(loc)`: append unless a stop with the same id is already there. */
  function WithStop(route: seq<LocationEntity>, loc: LocationEntity): (r: seq<LocationEntity>)
    ensures HasStop(r, loc.id)
    ensures route <= r && |r| <= |route| + 1
    ensures forall id :: HasStop(r, id) <==> HasStop(route, id) || id == loc.id
  {
    if HasStop(route, loc.id) then route
    else
      var r := route + [loc];
      assert r[|route|] == loc;
      assert forall i | 0 <= i < |route| :: r[i] == route[i];
      r
  }

  /** Adding the same stop twice is adding it once. */
  lemma AddStopIdempotent(route: seq<LocationEntity>, loc: LocationEntity)
    ensures WithStop(WithStop(route, loc), loc) == WithStop(route, loc)
  {
  }

  /** Adding a stop keeps the route free of duplicate ids. */
  lemma AddStopKeepsIdsUnique(route: seq<LocationEntity>, loc: LocationEntity)
    requires UniqueIds(route)
    ensures UniqueIds(WithStop(route, loc))
  {
    var r := WithStop(route, loc);
    if !HasStop(route, loc.id) {
      forall i, j | 0 <= i < j < |r| ensures r[i].id != r[j].id {
        if j == |route| {
          assert r[i] == route[i];
        } else {
          assert r[i] == route[i] && r[j] == route[j];
        }
      }
    }
  }

  function IdIsNot(id: int): LocationEntity -> bool {
    (e: LocationEntity) => e.id != id
  }

  /** `removeStop(id)`: keep the stops with another id. */
  function WithoutStop(route: seq<LocationEntity>, id: int): (r: seq<LocationEntity>)
    ensures !HasStop(r, id)
    ensures forall other | other != id :: HasStop(r, other) <==> HasStop(route, other)
    ensures |r| <= |route|
  {
    var r := Filter(route, IdIsNot(id));
    forall other | other != id && HasStop(route, other) ensures HasStop(r, other) {
      var i :| 0 <= i < |route| && route[i].id == other;
      assert route[i] in r;
    }
    forall other | HasStop(r, other) ensures HasStop(route, other) {
      var i :| 0 <= i < |r| && r[i].id == other;
      assert r[i] in route;
    }
    r
  }

  /** Removing an id that is not on the route changes nothing. */
  lemma RemoveAbsentStop(route: seq<LocationEntity>, id: int)
    requires !HasStop(route, id)
    ensures WithoutStop(route, id) == route
  {
    FilterAll(route, IdIsNot(id));
  }

  /** Removing a stop just added restores the route. */
  lemma RemoveUndoesAdd(route: seq<LocationEntity>, loc: LocationEntity)
    requires !HasStop(route, loc.id)
    ensures WithoutStop(WithStop(route, loc), loc.id) == route
  {
    var p := IdIsNot(loc.id);
    assert WithStop(route, loc) == route + [loc];
    FilterConcat(route, [loc], p);
    FilterSingleton(loc, p);
    RemoveAbsentStop(route, loc.id);
  }

  /**
   * The other stops keep their order: any selection of stops that never
   * picks the removed id sees the same sequence before and after.
   */
  lemma RemoveKeepsOthersInOrder(route: seq<LocationEntity>, id: int, q: LocationEntity -> bool)
    requires forall e :: q(e) ==> e.id != id
    ensures Filter(WithoutStop(route, id), q) == Filter(route, q)
  {
    FilterFilter(route, IdIsNot(id), q, q);
  }

  /** Removing keeps the route free of duplicate ids. */
  lemma {:induction false} RemoveKeepsIdsUnique(route: seq<LocationEntity>, id: int)
    requires UniqueIds(route)
    ensures UniqueIds(WithoutStop(route, id))
  {
    if route != [] {
      var rest := route[1..];
      UniqueTail(route);
      RemoveKeepsIdsUnique(rest, id);
      WithoutStopStep(route, id);
      if route[0].id != id {
        assert !HasStop(rest, route[0].id);
        UniqueCons(route[0], WithoutStop(rest, id));
      }
    }
  }

  /** Dropping the first stop keeps the ids distinct. */
  lemma UniqueTail(route: seq<LocationEntity>)
    requires route != [] && UniqueIds(route)
    ensures UniqueIds(route[1..])
  {
    var rest := route[1..];
    forall i, j | 0 <= i < j < |rest| ensures rest[i].id != rest[j].id {
      assert rest[i] == route[i + 1] && rest[j] == route[j + 1];
    }
  }

  /** A stop whose id is not in a route with distinct ids can go in front. */
  lemma UniqueCons(x: LocationEntity, tail: seq<LocationEntity>)
    requires UniqueIds(tail) && !HasStop(tail, x.id)
    ensures UniqueIds([x] + tail)
  {
    var r := [x] + tail;
    forall i, j | 0 <= i < j < |r| ensures r[i].id != r[j].id {
      assert r[j] == tail[j - 1];
      if i > 0 {
        assert r[i] == tail[i - 1];
      }
    }
  }

  /** `removeStop` looks at the first stop, then at the rest. */
  lemma WithoutStopStep(route: seq<LocationEntity>, id: int)
    requires route != []
    ensures WithoutStop(route, id) ==
      if route[0].id != id then [route[0]] + WithoutStop(route[1..], id) else WithoutStop(route[1..], id)
  {
    assert Filter(route, IdIsNot(id)) ==
      if IdIsNot(id)(route[0]) then [route[0]] + Filter(route[1..], IdIsNot(id)) else Filter(route[1..], IdIsNot(id));
  }

  // ---------------------------------------------------------------------
  // Live-trip bookkeeping

  /** The planner is live when the session is on the road with this trip. */
  predicate IsLive(session: UserSession, tripId: string) {
    session.state == ON_THE_ROAD && session.activePathId == Some(tripId)
  }

  /**
   * `activeId`: the card the live screen highlights. A missing stored index
   * means the base card with a base and the first position without; the
   * index one past the route is the return card with a base and the finish
   * card without; any other index highlights nothing.
   */
  function ActiveId(live: bool, activeNodeIndex: Option<int>, hasBase: bool, route: seq<LocationEntity>): (r: Option<int>)
    ensures !live ==> r == None
    ensures live && activeNodeIndex.None? ==>
      r == if hasBase then Some(HOME_NODE) else if |route| > 0 then Some(route[0].id) else Some(FINISH_NODE)
    ensures live && activeNodeIndex == Some(HOME_NODE) ==> r == Some(HOME_NODE)
    ensures forall i | 0 <= i < |route| :: live && activeNodeIndex == Some(i) ==> r == Some(route[i].id)
    ensures live && activeNodeIndex == Some(|route|) ==> r == Some(if hasBase then RETURN_NODE else FINISH_NODE)
    ensures live && activeNodeIndex.Some? && (activeNodeIndex.value < HOME_NODE || activeNodeIndex.value > |route|) ==> r == None
  {
    if live then
      var idx := activeNodeIndex.GetOr(if hasBase then -1 else 0);
      if idx == -1 then Some(HOME_NODE)
      else if 0 <= idx < |route| then Some(route[idx].id)
      else if idx == |route| then Some(if hasBase then RETURN_NODE else FINISH_NODE)
      else None
    else None
  }

  /** `markCheckIn`'s next index: the first position after the base, else the position after the stop. */
  function CheckInIndex(nodeId: int, route: seq<LocationEntity>): (r: int)
    ensures 0 <= r <= |route|
    ensures nodeId == HOME_NODE ==> r == 0
    ensures nodeId != HOME_NODE && !HasStop(route, nodeId) ==> r == 0
    ensures nodeId != HOME_NODE && HasStop(route, nodeId) ==>
      0 < r && route[r - 1].id == nodeId && forall j | 0 <= j < r - 1 :: route[j].id != nodeId
  {
    if nodeId == HOME_NODE then 0 else IndexOfStop(route, nodeId) + 1
  }

  /** `onCardClicked`'s index: -1 for the base, one past the route for either end card, else the stop's position. */
  function CardIndex(nodeId: int, route: seq<LocationEntity>): (r: int)
    ensures nodeId == HOME_NODE ==> r == -1
    ensures nodeId == RETURN_NODE || nodeId == FINISH_NODE ==> r == |route|
    ensures nodeId !in {HOME_NODE, RETURN_NODE, FINISH_NODE} ==>
      -1 <= r < |route| && (r == -1 <==> !HasStop(route, nodeId)) && (0 <= r ==> route[r].id == nodeId)
  {
    if nodeId == HOME_NODE then -1
    else if nodeId == RETURN_NODE || nodeId == FINISH_NODE then |route|
    else IndexOfStop(route, nodeId)
  }

  /** The card a live screen highlights once the preferences hold `p`. */
  function ActiveCard(p: Prefs, hasBase: bool, route: seq<LocationEntity>): Option<int> {
    ActiveId(true, ActiveIndexOf(p), hasBase, route)
  }

  /** Stops are locations: their ids are never one of the card sentinels. */
  predicate LocationIds(route: seq<LocationEntity>) {
    forall i | 0 <= i < |route| :: route[i].id >= 0
  }

  /** The cards a live screen shows: the base card with a base, every stop, and one end card. */
  predicate IsCard(nodeId: int, hasBase: bool, route: seq<LocationEntity>) {
    HasStop(route, nodeId)
    || (hasBase && (nodeId == HOME_NODE || nodeId == RETURN_NODE))
    || (!hasBase && nodeId == FINISH_NODE)
  }

  /**
   * Clicking a card makes it the highlighted one: the stored index (-1
   * stored for the base) reads back to exactly that card.
   */
  lemma CardClickActivatesCard(p: Prefs, hasBase: bool, route: seq<LocationEntity>, nodeId: int)
    requires UniqueIds(route) && LocationIds(route)
    requires IsCard(nodeId, hasBase, route)
    ensures ActiveCard(WithActiveTarget(p, Some(CardIndex(nodeId, route))), hasBase, route) == Some(nodeId)
  {
    var idx := CardIndex(nodeId, route);
    ActiveTargetSentinel(p, idx);
    if HasStop(route, nodeId) {
      var k :| 0 <= k < |route| && route[k].id == nodeId;
      assert nodeId >= 0;
      assert route[idx].id == nodeId;
    }
  }

  /** Without a base, the base card's index falls back to the first position. */
  lemma HomeClickWithoutBase(p: Prefs, route: seq<LocationEntity>)
    ensures ActiveCard(WithActiveTarget(p, Some(CardIndex(HOME_NODE, route))), false, route)
      == if |route| > 0 then Some(route[0].id) else Some(FINISH_NODE)
  {
    ActiveTargetSentinel(p, -1);
  }

  /** The preferences after `markCheckIn(nodeId)`: the id marked complete, then the next index stored. */
  function CheckedIn(p: Prefs, nodeId: int, route: seq<LocationEntity>): Prefs {
    WithActiveTarget(WithTargetComplete(p, nodeId), Some(CheckInIndex(nodeId, route)))
  }

  /** The card after position `k`: the next stop, or the end card. */
  function NextCard(k: nat, hasBase: bool, route: seq<LocationEntity>): int
    requires k < |route|
  {
    if k + 1 < |route| then route[k + 1].id else if hasBase then RETURN_NODE else FINISH_NODE
  }

  /**
   * Checking in at the stop in position `k` marks it complete and moves the
   * highlight to the next card.
   */
  lemma CheckInAdvances(p: Prefs, hasBase: bool, route: seq<LocationEntity>, k: nat)
    requires UniqueIds(route) && LocationIds(route) && k < |route|
    requires IsInt32(route[k].id)
    ensures ActiveCard(CheckedIn(p, route[k].id, route), hasBase, route) == Some(NextCard(k, hasBase, route))
    ensures CompletedOf(p).Some? ==>
      CompletedOf(CheckedIn(p, route[k].id, route)) == Some(CompletedOf(p).value + {route[k].id})
  {
    var id := route[k].id;
    var marked := WithTargetComplete(p, id);
    assert CheckInIndex(id, route) == k + 1 by {
      assert HasStop(route, id);
    }
    ActiveTargetSentinel(marked, k + 1);
    MarkCompleteAddsId(p, id);
    assert GetStrSet(CheckedIn(p, id, route), KEY_COMPLETED_NODES) == GetStrSet(marked, KEY_COMPLETED_NODES);
  }

  /** Checking in at the base moves the highlight to the first stop, or to the end card. */
  lemma CheckInAtBase(p: Prefs, hasBase: bool, route: seq<LocationEntity>)
    ensures ActiveCard(CheckedIn(p, HOME_NODE, route), hasBase, route)
      == if |route| > 0 then Some(route[0].id) else Some(if hasBase then RETURN_NODE else FINISH_NODE)
  {
    ActiveTargetSentinel(WithTargetComplete(p, HOME_NODE), 0);
  }

  // ---------------------------------------------------------------------
  // Search

  /** `actualUserLoc`: a reported position at latitude 0.0 counts as no fix. */
  function ActualUserLocation(userLoc: GeoPoint): (r: GeoPoint)
    ensures r.latitude != 0.0
    ensures userLoc.latitude != 0.0 ==> r == userLoc
  {
    if userLoc.latitude != 0.0 then userLoc else DEFAULT_USER_LOCATION
  }

  /** `proximityRef`: the last stop, else the base, else the user. */
  function ProximityRef(route: seq<LocationEntity>, baseLoc: Option<GeoPoint>, userLoc: GeoPoint): (r: GeoPoint)
    ensures |route| > 0 ==> r == SmartArrange.PositionOf(route[|route| - 1])
    ensures route == [] && baseLoc.Some? ==> r == baseLoc.value
    ensures route == [] && baseLoc.None? ==> r == userLoc
  {
    if |route| > 0 then SmartArrange.PositionOf(route[|route| - 1])
    else if baseLoc.Some? then baseLoc.value
    else userLoc
  }

  function NotOnRoute(ids: seq<int>): LocationEntity -> bool {
    (e: LocationEntity) => e.id !in ids
  }

  function DistanceFrom(ref: GeoPoint, dist: SmartArrange.Distance): LocationEntity -> real {
    (e: LocationEntity) => dist(ref, SmartArrange.PositionOf(e))
  }

  /**
   * `proximitySorted`: the inventory items not on the route, nearest to the
   * reference first (a stable sort, so equal distances keep inventory order).
   */
  function ProximitySorted(inventory: seq<LocationEntity>, route: seq<LocationEntity>, ref: GeoPoint,
                           dist: SmartArrange.Distance): (r: seq<LocationEntity>)
    ensures multiset(r) == multiset(Filter(inventory, NotOnRoute(RouteIds(route))))
    ensures SortedBy(r, DistanceFrom(ref, dist))
    ensures forall i | 0 <= i < |r| :: r[i] in inventory && !HasStop(route, r[i].id)
    ensures forall v: real :: Filter(r, KeyIs(DistanceFrom(ref, dist), v))
                           == Filter(Filter(inventory, NotOnRoute(RouteIds(route))), KeyIs(DistanceFrom(ref, dist), v))
  {
    var candidates := Filter(inventory, NotOnRoute(RouteIds(route)));
    var r := SortBy(candidates, DistanceFrom(ref, dist));
    SortByIsSorted(candidates, DistanceFrom(ref, dist));
    forall v: real ensures Filter(r, KeyIs(DistanceFrom(ref, dist), v)) == Filter(candidates, KeyIs(DistanceFrom(ref, dist), v)) {
      SortByIsStable(candidates, DistanceFrom(ref, dist), v);
    }
    forall i | 0 <= i < |r| ensures r[i] in inventory && !HasStop(route, r[i].id) {
      assert r[i] in multiset(candidates);
      assert r[i] in candidates;
    }
    r
  }

  /** The case-insensitive match on the English, Georgian and Russian names and the region. */
  function MatchesQuery(query: string): LocationEntity -> bool {
    (e: LocationEntity) =>
      ContainsIgnoreCase(e.nameEn, query) || ContainsIgnoreCase(e.nameKa, query)
      || ContainsIgnoreCase(e.nameRu, query) || ContainsIgnoreCase(e.region, query)
  }

  /** `finalSearchResults`: every candidate for an empty query, the matching ones otherwise. */
  function SearchResults(sorted: seq<LocationEntity>, query: string): (r: seq<LocationEntity>)
    ensures query == "" ==> r == sorted
    ensures query != "" ==> r == Filter(sorted, MatchesQuery(query))
  {
    if query == "" then sorted else Filter(sorted, MatchesQuery(query))
  }

  /**
   * The two lists the planner shows: at most 15 nearby recommendations and
   * at most 60 search results, none of them on the route, each drawn from
   * the inventory, nearest first, and matching a non-empty query.
   */
  lemma SearchListsProperties(inventory: seq<LocationEntity>, route: seq<LocationEntity>, ref: GeoPoint,
                              dist: SmartArrange.Distance, query: string)
    ensures var sorted := ProximitySorted(inventory, route, ref, dist);
      var nearby := Take(sorted, NEARBY_LIMIT);
      var results := Take(SearchResults(sorted, query), RESULTS_LIMIT);
      && |nearby| <= NEARBY_LIMIT && |results| <= RESULTS_LIMIT
      && (forall i | 0 <= i < |nearby| :: nearby[i] in inventory && !HasStop(route, nearby[i].id))
      && (forall i | 0 <= i < |results| :: results[i] in inventory && !HasStop(route, results[i].id))
      && (query != "" ==> forall i | 0 <= i < |results| :: MatchesQuery(query)(results[i]))
      && (query == "" ==> results == Take(sorted, RESULTS_LIMIT))
      && SortedBy(nearby, DistanceFrom(ref, dist))
      && SortedBy(results, DistanceFrom(ref, dist))
  {
    var key := DistanceFrom(ref, dist);
    var sorted := ProximitySorted(inventory, route, ref, dist);
    var found := SearchResults(sorted, query);
    var results := Take(found, RESULTS_LIMIT);
    var nearby := Take(sorted, NEARBY_LIMIT);
    if query != "" {
      FilterKeepsSorted(sorted, MatchesQuery(query), key);
    }
    TakeKeepsSorted(sorted, NEARBY_LIMIT, key);
    TakeKeepsSorted(found, RESULTS_LIMIT, key);
    forall i | 0 <= i < |results| ensures results[i] in inventory && !HasStop(route, results[i].id) {
      assert results[i] == found[i];
      if query != "" {
        assert found[i] in sorted;
      }
    }
    forall i | 0 <= i < |nearby| ensures nearby[i] in inventory && !HasStop(route, nearby[i].id) {
      assert nearby[i] == sorted[i];
    }
    forall i | 0 <= i < |results| && query != "" ensures MatchesQuery(query)(results[i]) {
      assert results[i] == found[i];
    }
  }

  /** Every candidate that matches the query is a search result (before the cap of 60). */
  lemma SearchFindsEveryMatch(inventory: seq<LocationEntity>, route: seq<LocationEntity>, ref: GeoPoint,
                              dist: SmartArrange.Distance, query: string, e: LocationEntity)
    requires e in inventory && !HasStop(route, e.id)
    requires query == "" || MatchesQuery(query)(e)
    ensures e in SearchResults(ProximitySorted(inventory, route, ref, dist), query)
  {
    var ids := RouteIds(route);
    var candidates := Filter(inventory, NotOnRoute(ids));
    var i :| 0 <= i < |inventory| && inventory[i] == e;
    assert e in candidates;
    var sorted := ProximitySorted(inventory, route, ref, dist);
    assert e in multiset(sorted);
  }

  // ---------------------------------------------------------------------
  // Leg distances

  /** `calculateRoadEstimateKm`. */
  type RoadDistance = (GeoPoint, GeoPoint) -> real

  /** Where the leg to the stop at position `k` starts: the start point, then each stop in turn. */
  function LegStart(route: seq<LocationEntity>, start: GeoPoint, k: nat): GeoPoint
    requires k <= |route|
  {
    if k == 0 then start else SmartArrange.PositionOf(route[k - 1])
  }

  /** The `-1` entry: from the user to the base, when there is one. */
  function BaseLeg(baseLoc: Option<GeoPoint>, userLoc: GeoPoint, road: RoadDistance): map<int, real> {
    if baseLoc.Some? then map[HOME_NODE := road(userLoc, baseLoc.value)] else map[]
  }

  /** `m` after the `forEach` has written the legs of the first `n` stops (a repeated id keeps its last leg). */
  function Legs(m: map<int, real>, route: seq<LocationEntity>, start: GeoPoint, road: RoadDistance, n: nat): map<int, real>
    requires n <= |route|
    decreases n
  {
    if n == 0 then m
    else Legs(m, route, start, road, n - 1)[route[n - 1].id := road(LegStart(route, start, n - 1), SmartArrange.PositionOf(route[n - 1]))]
  }

  /** `distMap`: the base leg, every stop's leg, and the leg back to the base from the last stop. */
  function DistanceMapOf(route: seq<LocationEntity>, baseLoc: Option<GeoPoint>, userLoc: GeoPoint,
                         road: RoadDistance): map<int, real>
  {
    var legs := Legs(BaseLeg(baseLoc, userLoc, road), route, baseLoc.GetOr(userLoc), road, |route|);
    if baseLoc.Some? && |route| > 0 then
      legs[RETURN_NODE := road(SmartArrange.PositionOf(route[|route| - 1]), baseLoc.value)]
    else legs
  }

  /** The ids of the first `n` stops. */
  function StopIds(route: seq<LocationEntity>, n: nat): set<int>
    requires n <= |route|
  {
    set i | 0 <= i < n :: route[i].id
  }

  lemma {:induction false} LegsKeys(m: map<int, real>, route: seq<LocationEntity>, start: GeoPoint, road: RoadDistance, n: nat)
    requires n <= |route|
    ensures Legs(m, route, start, road, n).Keys == m.Keys + StopIds(route, n)
    decreases n
  {
    if n > 0 {
      LegsKeys(m, route, start, road, n - 1);
      assert StopIds(route, n) == StopIds(route, n - 1) + {route[n - 1].id};
    }
  }

  /** A key no stop among the first `n` has keeps its entry. */
  lemma {:induction false} LegsKeepOtherKeys(m: map<int, real>, route: seq<LocationEntity>, start: GeoPoint,
                                           road: RoadDistance, n: nat, key: int)
    requires n <= |route| && key in m && key !in StopIds(route, n)
    ensures key in Legs(m, route, start, road, n) && Legs(m, route, start, road, n)[key] == m[key]
    decreases n
  {
    if n > 0 {
      assert key !in StopIds(route, n - 1);
      LegsKeepOtherKeys(m, route, start, road, n - 1, key);
    }
  }

  /** With distinct ids, every stop's entry is its own leg. */
  lemma {:induction false} LegsValues(m: map<int, real>, route: seq<LocationEntity>, start: GeoPoint,
                                    road: RoadDistance, n: nat, k: nat)
    requires UniqueIds(route) && k < n <= |route|
    ensures route[k].id in Legs(m, route, start, road, n)
    ensures Legs(m, route, start, road, n)[route[k].id] == road(LegStart(route, start, k), SmartArrange.PositionOf(route[k]))
    decreases n
  {
    if k < n - 1 {
      LegsValues(m, route, start, road, n - 1, k);
    }
  }

  /** The keys of `distMap`: -1 with a base, every stop id, and -2 with a base and a non-empty route. */
  lemma DistanceMapKeys(route: seq<LocationEntity>, baseLoc: Option<GeoPoint>, userLoc: GeoPoint, road: RoadDistance)
    ensures DistanceMapOf(route, baseLoc, userLoc, road).Keys ==
      (if baseLoc.Some? then {HOME_NODE} else {})
      + StopIds(route, |route|)
      + (if baseLoc.Some? && |route| > 0 then {RETURN_NODE} else {})
  {
    LegsKeys(BaseLeg(baseLoc, userLoc, road), route, baseLoc.GetOr(userLoc), road, |route|);
  }

  /**
   * The values of `distMap` for a route of distinct locations: the user to
   * the base, each stop from the one before it (the first from the base, or
   * from the user without one), and the last stop back to the base.
   */
  lemma DistanceMapValues(route: seq<LocationEntity>, baseLoc: Option<GeoPoint>, userLoc: GeoPoint, road: RoadDistance)
    requires UniqueIds(route) && LocationIds(route)
    ensures var m := DistanceMapOf(route, baseLoc, userLoc, road);
      && (forall k | 0 <= k < |route| :: route[k].id in m
            && m[route[k].id] == road(LegStart(route, baseLoc.GetOr(userLoc), k), SmartArrange.PositionOf(route[k])))
      && (baseLoc.Some? ==> HOME_NODE in m && m[HOME_NODE] == road(userLoc, baseLoc.value))
      && (baseLoc.Some? && |route| > 0 ==>
            RETURN_NODE in m && m[RETURN_NODE] == road(SmartArrange.PositionOf(route[|route| - 1]), baseLoc.value))
  {
    var init := BaseLeg(baseLoc, userLoc, road);
    var start := baseLoc.GetOr(userLoc);
    forall k | 0 <= k < |route| ensures route[k].id in Legs(init, route, start, road, |route|)
      && Legs(init, route, start, road, |route|)[route[k].id] == road(LegStart(route, start, k), SmartArrange.PositionOf(route[k]))
    {
      LegsValues(init, route, start, road, |route|, k);
    }
    if baseLoc.Some? {
      assert HOME_NODE !in StopIds(route, |route|);
      LegsKeepOtherKeys(init, route, start, road, |route|, HOME_NODE);
    }
  }

  /** The `distMap` loop: the base leg, then each stop's leg from `prevPoint`, then the way back. */
  method DistanceMap(route: seq<LocationEntity>, baseLoc: Option<GeoPoint>, userLoc: GeoPoint, road: RoadDistance)
    returns (distMap: map<int, real>)
    ensures distMap == DistanceMapOf(route, baseLoc, userLoc, road)
  {
    distMap := map[];
    if baseLoc.Some? {
      distMap := distMap[HOME_NODE := road(userLoc, baseLoc.value)];
    }
    ghost var start := baseLoc.GetOr(userLoc);
    var prevPoint := if baseLoc.Some? then baseLoc.value else userLoc;
    var k := 0;
    while k < |route|
      invariant 0 <= k <= |route|
      invariant distMap == Legs(BaseLeg(baseLoc, userLoc, road), route, start, road, k)
      invariant prevPoint == LegStart(route, start, k)
    {
      var curr := SmartArrange.PositionOf(route[k]);
      distMap := distMap[route[k].id := road(prevPoint, curr)];
      prevPoint := curr;
      k := k + 1;
    }
    if baseLoc.Some? && |route| > 0 {
      distMap := distMap[RETURN_NODE := road(prevPoint, baseLoc.value)];
    }
  }

  // ---------------------------------------------------------------------
  // Loading and loadout recovery

  /** The stop built for itinerary node `idx` of a template trip. */
  function TemplateEntity(node: BattleNode, idx: int): LocationEntity {
    var position := node.location.GetOr(GeoPoint(0.0, 0.0));
    NewLocation(idx + TEMPLATE_ID_BASE, "POI", "Georgia", position.latitude, position.longitude,
      node.imageUrl.GetOr(""), node.title.en, node.description.en)
  }

  /** `trip?.itinerary?.mapIndexed { ... } ?: emptyList()`: one stop per node, numbered from 10000. */
  function TemplateEntities(trip: Option<TripPath>): (r: seq<LocationEntity>)
    ensures trip.None? ==> r == []
    ensures trip.Some? ==> |r| == |trip.value.itinerary|
    ensures forall i | 0 <= i < |r| ::
      (&& r[i].id == TEMPLATE_ID_BASE + i
       && r[i].nameEn == trip.value.itinerary[i].title.en
       && r[i].descEn == trip.value.itinerary[i].description.en
       && r[i].kind == "POI" && r[i].region == "Georgia")
  {
    if trip.None? then []
    else
      var nodes := trip.value.itinerary;
      seq(|nodes|, i requires 0 <= i < |nodes| => TemplateEntity(nodes[i], i))
  }

  /** Template stops have distinct location ids. */
  lemma TemplateIdsDistinct(trip: Option<TripPath>)
    ensures UniqueIds(TemplateEntities(trip)) && LocationIds(TemplateEntities(trip))
  {
  }

  /** A saved id resolves against the template stops from 10000 on, against the database rows below. */
  function ResolveId(id: int, templates: seq<LocationEntity>, dbEntities: seq<LocationEntity>): Option<LocationEntity> {
    if id >= TEMPLATE_ID_BASE then FindById(templates, id) else FindById(dbEntities, id)
  }

  function Resolvable(templates: seq<LocationEntity>, dbEntities: seq<LocationEntity>): int -> bool {
    (id: int) => ResolveId(id, templates, dbEntities).Some?
  }

  /** The recovered route: `mapNotNull` of the saved ids over `ResolveId`. */
  function Resolved(loadout: seq<int>, templates: seq<LocationEntity>, dbEntities: seq<LocationEntity>): seq<LocationEntity> {
    MapNotNull(loadout, Resolver(templates, dbEntities))
  }

  function Resolver(templates: seq<LocationEntity>, dbEntities: seq<LocationEntity>): int -> Option<LocationEntity> {
    (id: int) => ResolveId(id, templates, dbEntities)
  }

  /** One stop per saved id that resolves, in saved order, each the stop that id resolves to. */
  lemma ResolvedFollowsLoadout(loadout: seq<int>, templates: seq<LocationEntity>, dbEntities: seq<LocationEntity>)
    ensures var r := Resolved(loadout, templates, dbEntities);
      var kept := Filter(loadout, Resolvable(templates, dbEntities));
      && |r| == |kept|
      && forall i | 0 <= i < |r| :: Some(r[i]) == ResolveId(kept[i], templates, dbEntities)
  {
    MapNotNullFollowsFilter(loadout, Resolver(templates, dbEntities), Resolvable(templates, dbEntities));
  }

  /**
   * The recovered route's ids are the saved ids that resolve, in saved
   * order, and each stop comes from the side its number belongs to.
   */
  lemma ResolvedIds(loadout: seq<int>, templates: seq<LocationEntity>, dbEntities: seq<LocationEntity>)
    ensures var r := Resolved(loadout, templates, dbEntities);
      && RouteIds(r) == Filter(loadout, Resolvable(templates, dbEntities))
      && forall i | 0 <= i < |r| :: if r[i].id >= TEMPLATE_ID_BASE then r[i] in templates else r[i] in dbEntities
  {
    ResolvedFollowsLoadout(loadout, templates, dbEntities);
  }

  /** When every saved id resolves, the recovered route has exactly the saved ids, in order. */
  lemma ResolvedAll(loadout: seq<int>, templates: seq<LocationEntity>, dbEntities: seq<LocationEntity>)
    requires forall i | 0 <= i < |loadout| :: Resolvable(templates, dbEntities)(loadout[i])
    ensures RouteIds(Resolved(loadout, templates, dbEntities)) == loadout
  {
    ResolvedIds(loadout, templates, dbEntities);
    FilterAll(loadout, Resolvable(templates, dbEntities));
  }

  /** Stops with distinct template-range ids, saved by their ids, resolve back to themselves. */
  lemma {:induction false} ResolvedTemplatesFrom(ts: seq<LocationEntity>, dbEntities: seq<LocationEntity>, k: nat)
    requires UniqueIds(ts) && forall i | 0 <= i < |ts| :: ts[i].id >= TEMPLATE_ID_BASE
    requires k <= |ts|
    ensures Resolved(RouteIds(ts)[k..], ts, dbEntities) == ts[k..]
    decreases |ts| - k
  {
    if k < |ts| {
      ResolvedTemplatesFrom(ts, dbEntities, k + 1);
      var ids := RouteIds(ts);
      assert ids[k..] == [ids[k]] + ids[k + 1..];
      TemplateResolvesToItself(ts, dbEntities, k);
      MapNotNullConsSome(ids[k], ids[k + 1..], Resolver(ts, dbEntities), ts[k], ts[k + 1..]);
      assert ts[k..] == [ts[k]] + ts[k + 1..];
    }
  }

  /** A template-range stop with a unique id is what its id resolves to. */
  lemma TemplateResolvesToItself(ts: seq<LocationEntity>, dbEntities: seq<LocationEntity>, k: nat)
    requires UniqueIds(ts) && k < |ts| && ts[k].id >= TEMPLATE_ID_BASE
    ensures Resolver(ts, dbEntities)(ts[k].id) == Some(ts[k])
  {
    assert IndexOfStop(ts, ts[k].id) == k;
  }

  function BelowTemplates(): int -> bool {
    (id: int) => id < TEMPLATE_ID_BASE
  }

  /** The recovery path runs when a loadout is saved and it belongs to this trip (or the custom trip). */
  predicate Recovers(session: UserSession, tripId: string, savedLoadout: seq<int>) {
    |savedLoadout| > 0 && (session.activePathId == Some(tripId) || tripId == MissionBriefing.CUSTOM_CARGO)
  }

  function TitleOf(trip: Option<TripPath>): Option<LocalizedString> {
    if trip.Some? then Some(trip.value.title) else None
  }

  datatype Loaded = Loaded(route: seq<LocationEntity>, titleData: Option<LocalizedString>)

  /**
   * `loadDataWithRecovery`: the route and title the planner opens with.
   * `locationsByIds` is the database query `getLocationsByIds`.
   */
  function LoadData(tripId: string, paramIds: string, trip: Option<TripPath>, session: UserSession,
                    savedLoadout: seq<int>, locationsByIds: seq<int> -> seq<LocationEntity>): (r: Loaded)
    ensures Recovers(session, tripId, savedLoadout) ==>
      var dbEntities := locationsByIds(Filter(savedLoadout, BelowTemplates()));
      && RouteIds(r.route) == Filter(savedLoadout, Resolvable(TemplateEntities(trip), dbEntities))
      && r.titleData == TitleOf(trip)
    ensures !Recovers(session, tripId, savedLoadout) && tripId == MissionBriefing.CUSTOM_CARGO ==>
      r == Loaded(locationsByIds(MapToIntOrNull(Split(paramIds, ','))), Some(CUSTOM_TITLE))
    ensures !Recovers(session, tripId, savedLoadout) && tripId != MissionBriefing.CUSTOM_CARGO ==>
      r == Loaded(TemplateEntities(trip), TitleOf(trip))
  {
    if Recovers(session, tripId, savedLoadout) then
      var dbEntities := locationsByIds(Filter(savedLoadout, BelowTemplates()));
      ResolvedIds(savedLoadout, TemplateEntities(trip), dbEntities);
      Loaded(Resolved(savedLoadout, TemplateEntities(trip), dbEntities), TitleOf(trip))
    else if tripId == MissionBriefing.CUSTOM_CARGO then
      Loaded(locationsByIds(MapToIntOrNull(Split(paramIds, ','))), Some(CUSTOM_TITLE))
    else
      Loaded(TemplateEntities(trip), TitleOf(trip))
  }

  /** A custom trip opened with a comma-joined id list asks the database for exactly those ids. */
  lemma CustomTripQueriesJoinedIds(ids: seq<int>)
    requires |ids| > 0 && forall i | 0 <= i < |ids| :: IsInt32(ids[i])
    ensures MapToIntOrNull(Split(JoinInts(ids), ',')) == ids
  {
    SplitJoinInts(ids);
    MapToIntOrNullOfIntStrings(ids);
  }

  /** Reopening a live template trip whose saved loadout is its own template route gives that route back. */
  lemma TemplateRouteRecovered(tripId: string, paramIds: string, trip: Option<TripPath>, session: UserSession,
                               locationsByIds: seq<int> -> seq<LocationEntity>)
    requires session.activePathId == Some(tripId) && |TemplateEntities(trip)| > 0
    ensures LoadData(tripId, paramIds, trip, session, RouteIds(TemplateEntities(trip)), locationsByIds).route
      == TemplateEntities(trip)
  {
    var ts := TemplateEntities(trip);
    var db := locationsByIds(Filter(RouteIds(ts), BelowTemplates()));
    TemplateIdsDistinct(trip);
    ResolvedTemplatesFrom(ts, db, 0);
    assert RouteIds(ts)[0..] == RouteIds(ts) && ts[0..] == ts;
  }

  /** `locTitle?.get(session.language) ?: "ADVENTURE"`. */
  function ScreenTitle(titleData: Option<LocalizedString>, language: string, lookup: Lookup): (r: string)
    ensures titleData.None? ==> r == "ADVENTURE"
    ensures titleData.Some? ==> r == lookup(titleData.value, language)
  {
    if titleData.Some? then lookup(titleData.value, language) else "ADVENTURE"
  }

  // ---------------------------------------------------------------------
  // Mode changes

  /**
   * The preferences after `toggleMode`: going live saves the route's ids as
   * the loadout, puts the session on the road with this trip and points the
   * active index at the base (-1) or the first stop (0); leaving live
   * returns the session to browsing.
   */
  function ModeToggled(p: Prefs, live: bool, hasBase: bool, route: seq<LocationEntity>, tripId: string): Prefs {
    if !live then
      WithActiveTarget(WithState(SavedLoadout(p, RouteIds(route)), ON_THE_ROAD, Some(tripId)),
        Some(if hasBase then HOME_NODE else 0))
    else WithState(p, BROWSING, Some(tripId))
  }

  /** Every stop id fits a Kotlin `Int`. */
  predicate Int32Ids(route: seq<LocationEntity>) {
    forall i | 0 <= i < |route| :: IsInt32(route[i].id)
  }

  /**
   * Going live: the session is live for this trip, the saved loadout reads
   * back as the route's ids, and the first card (the base, else the first
   * stop, else the finish card) is highlighted.
   */
  lemma GoingLive(p: Prefs, hasBase: bool, route: seq<LocationEntity>, tripId: string)
    requires Int32Ids(route)
    ensures var q := ModeToggled(p, false, hasBase, route, tripId);
      && SessionOf(q).Some? && IsLive(SessionOf(q).value, tripId)
      && ActiveLoadoutOf(q) == Some(RouteIds(route))
      && ActiveCard(q, hasBase, route)
         == if hasBase then Some(HOME_NODE) else if |route| > 0 then Some(route[0].id) else Some(FINISH_NODE)
  {
    var ids := RouteIds(route);
    var saved := SavedLoadout(p, ids);
    var onRoad := WithState(saved, ON_THE_ROAD, Some(tripId));
    var q := ModeToggled(p, false, hasBase, route, tripId);
    LoadoutRoundTrip(p, ids);
    UpdateStateWithPath(saved, ON_THE_ROAD, tripId);
    assert GetStr(q, KEY_ACTIVE_LOADOUT) == GetStr(saved, KEY_ACTIVE_LOADOUT);
    assert GetStr(q, KEY_STATE) == GetStr(onRoad, KEY_STATE);
    assert GetStr(q, KEY_ACTIVE_TRIP) == GetStr(onRoad, KEY_ACTIVE_TRIP);
    ActiveTargetSentinel(onRoad, 0);
  }

  /** Leaving live: the session is browsing again, so the planner is no longer live. */
  lemma LeavingLive(p: Prefs, hasBase: bool, route: seq<LocationEntity>, tripId: string)
    ensures var q := ModeToggled(p, true, hasBase, route, tripId);
      SessionOf(q).Some? && !IsLive(SessionOf(q).value, tripId)
  {
    UpdateStateWithPath(p, BROWSING, tripId);
  }

  /**
   * Resuming a template trip: going live with the unedited template route
   * and reopening the planner rebuilds the same route from the saved loadout.
   */
  lemma TemplateTripResumes(p: Prefs, hasBase: bool, trip: Option<TripPath>, tripId: string, paramIds: string,
                            locationsByIds: seq<int> -> seq<LocationEntity>)
    requires |TemplateEntities(trip)| > 0 && IsInt32(TEMPLATE_ID_BASE + |TemplateEntities(trip)|)
    ensures var q := ModeToggled(p, false, hasBase, TemplateEntities(trip), tripId);
      && SessionOf(q).Some? && ActiveLoadoutOf(q).Some?
      && LoadData(tripId, paramIds, trip, SessionOf(q).value, ActiveLoadoutOf(q).value, locationsByIds).route
         == TemplateEntities(trip)
  {
    var ts := TemplateEntities(trip);
    GoingLive(p, hasBase, ts, tripId);
    var q := ModeToggled(p, false, hasBase, ts, tripId);
    TemplateRouteRecovered(tripId, paramIds, trip, SessionOf(q).value, locationsByIds);
  }

  /** The preferences after `completeMission`: the session browsing with no trip change, the mission data cleared. */
  function MissionCompleted(p: Prefs): Prefs {
    ClearedMission(WithState(p, BROWSING, None))
  }

  /** After completing the mission the planner is not live, and no base, index or loadout remains. */
  lemma CompletingEndsMission(p: Prefs, tripId: string)
    ensures var q := MissionCompleted(p);
      && SessionOf(q).Some? && !IsLive(SessionOf(q).value, tripId)
      && SessionOf(q).value.activePathId == None
      && FobOf(q) == None && ActiveIndexOf(q) == None && ActiveLoadoutOf(q) == Some([])
  {
    var browsing := WithState(p, BROWSING, None);
    UpdateStateWithoutPath(p, BROWSING);
    ClearMissionLeavesNothing(browsing);
    var q := MissionCompleted(p);
    assert GetStr(q, KEY_STATE) == GetStr(browsing, KEY_STATE);
  }

  /** The stamp `completeMission` files: keyed by the trip id and the time, titled with the screen title. */
  function MissionStamp(tripId: string, title: string, now: int): (stamp: PassportEntity)
    ensures stamp.regionId == tripId + "_" + IntToString(now)
    ensures stamp.regionName == title && stamp.tripTitle == title && stamp.dateUnlocked == now
  {
    PassportEntity(tripId + "_" + IntToString(now), title, now, title)
  }

  // ---------------------------------------------------------------------
  // The view model

  class Planner {
    const tripId: string
    var route: seq<LocationEntity>
    var titleData: Option<LocalizedString>
    var searchQuery: string
    var isLoading: bool
    var showSlamAnimation: bool

    constructor (tripId: string)
      ensures this.tripId == tripId
      ensures route == [] && titleData == None && searchQuery == "" && isLoading && !showSlamAnimation
    {
      this.tripId := tripId;
      route := [];
      titleData := None;
      searchQuery := "";
      isLoading := true;
      showSlamAnimation := false;
    }

    /** `loadDataWithRecovery`: rebuild a saved loadout, else load the template or the custom id list. */
    method LoadDataWithRecovery(paramIds: string, trip: Option<TripPath>, session: UserSession,
                                savedLoadout: seq<int>, locationsByIds: seq<int> -> seq<LocationEntity>)
      modifies this
      ensures Loaded(route, titleData) == LoadData(tripId, paramIds, trip, session, savedLoadout, locationsByIds)
      ensures !isLoading && searchQuery == old(searchQuery) && showSlamAnimation == old(showSlamAnimation)
    {
      isLoading := true;
      titleData := TitleOf(trip);
      if |savedLoadout| > 0 && (session.activePathId == Some(tripId) || tripId == MissionBriefing.CUSTOM_CARGO) {
        var dbEntities := locationsByIds(Filter(savedLoadout, BelowTemplates()));
        var templateEntities := TemplateEntities(trip);
        route := Resolved(savedLoadout, templateEntities, dbEntities);
      } else {
        LoadTemplate(paramIds, trip, locationsByIds);
      }
      isLoading := false;
    }

    /** `loadTemplate`: the custom trip's parsed id list, or the trip's template stops. */
    method LoadTemplate(paramIds: string, trip: Option<TripPath>, locationsByIds: seq<int> -> seq<LocationEntity>)
      modifies this
      ensures tripId == MissionBriefing.CUSTOM_CARGO ==>
        route == locationsByIds(MapToIntOrNull(Split(paramIds, ','))) && titleData == Some(CUSTOM_TITLE)
      ensures tripId != MissionBriefing.CUSTOM_CARGO ==>
        route == TemplateEntities(trip) && titleData == old(titleData)
      ensures isLoading == old(isLoading) && searchQuery == old(searchQuery)
      ensures showSlamAnimation == old(showSlamAnimation)
    {
      if tripId == MissionBriefing.CUSTOM_CARGO {
        var ids := MapToIntOrNull(Split(paramIds, ','));
        route := locationsByIds(ids);
        titleData := Some(CUSTOM_TITLE);
      } else {
        route := TemplateEntities(trip);
      }
    }

    method AddStop(loc: LocationEntity)
      modifies this
      ensures route == WithStop(old(route), loc)
      ensures titleData == old(titleData) && searchQuery == old(searchQuery)
      ensures isLoading == old(isLoading) && showSlamAnimation == old(showSlamAnimation)
    {
      if !(exists i | 0 <= i < |route| :: route[i].id == loc.id) {
        route := route + [loc];
      }
    }

    method RemoveStop(id: int)
      modifies this
      ensures route == WithoutStop(old(route), id)
      ensures titleData == old(titleData) && searchQuery == old(searchQuery)
      ensures isLoading == old(isLoading) && showSlamAnimation == old(showSlamAnimation)
    {
      route := Filter(route, IdIsNot(id));
    }

    method OnSearchQuery(q: string)
      modifies this
      ensures searchQuery == q
      ensures route == old(route) && titleData == old(titleData)
      ensures isLoading == old(isLoading) && showSlamAnimation == old(showSlamAnimation)
    {
      searchQuery := q;
    }

    /** `optimizeRoute`: the greedy nearest-neighbour order from the base, or from the fallback point. */
    method OptimizeRoute(baseLoc: Option<GeoPoint>, dist: SmartArrange.Distance)
      modifies this
      ensures route == SmartArrange.Greedy(baseLoc.GetOr(OPTIMIZE_FALLBACK), old(route), dist)
      ensures multiset(route) == multiset(old(route))
      ensures titleData == old(titleData) && searchQuery == old(searchQuery)
      ensures isLoading == old(isLoading) && showSlamAnimation == old(showSlamAnimation)
    {
      var start := if baseLoc.Some? then baseLoc.value else OPTIMIZE_FALLBACK;
      SmartArrange.GreedyIsPermutation(start, route, dist);
      route := SmartArrange.Arrange(start, route, dist);
    }

    /** `toggleMode`, given whether the screen is live and has a base. */
    method ToggleMode(store: Store, live: bool, hasBase: bool)
      modifies store
      ensures store.prefs == ModeToggled(old(store.prefs), live, hasBase, route, tripId)
    {
      if !live {
        var ids := RouteIds(route);
        store.SaveActiveLoadout(ids);
        store.UpdateState(ON_THE_ROAD, Some(tripId));
        store.SetActiveTarget(Some(if hasBase then HOME_NODE else 0));
      } else {
        store.UpdateState(BROWSING, Some(tripId));
      }
    }

    /** `markCheckIn`: mark the card complete, then point the active index past it. */
    method MarkCheckIn(store: Store, nodeId: int)
      modifies store
      ensures store.prefs == CheckedIn(old(store.prefs), nodeId, route)
    {
      store.MarkTargetComplete(nodeId);
      var nextIdx := if nodeId == HOME_NODE then 0 else IndexOfStop(route, nodeId) + 1;
      store.SetActiveTarget(Some(nextIdx));
    }

    /** `onCardClicked`: store the clicked card's index. */
    method OnCardClicked(store: Store, nodeId: int)
      modifies store
      ensures store.prefs == WithActiveTarget(old(store.prefs), Some(CardIndex(nodeId, route)))
    {
      var idx := if nodeId == HOME_NODE then -1
        else if nodeId == RETURN_NODE || nodeId == FINISH_NODE then |route|
        else IndexOfStop(route, nodeId);
      store.SetActiveTarget(Some(idx));
    }

    /**
     * `completeMission`: start the stamp animation, file the trip's stamp in
     * the passport, leave the trip and clear the mission data.
     */
    method CompleteMission(store: Store, passport: Passport.PassportRepository, title: string, now: int)
      returns (stamp: PassportEntity)
      modifies this, store, passport
      ensures stamp == MissionStamp(tripId, title, now)
      ensures passport.stamps == Passport.Inserted(old(passport.stamps), stamp)
      ensures store.prefs == MissionCompleted(old(store.prefs))
      ensures showSlamAnimation
      ensures route == old(route) && titleData == old(titleData) && searchQuery == old(searchQuery)
      ensures isLoading == old(isLoading)
    {
      showSlamAnimation := true;
      stamp := PassportEntity(tripId + "_" + IntToString(now), title, now, title);
      passport.AddStamp(stamp);
      store.UpdateState(BROWSING, None);
      store.ClearCurrentMissionData();
    }

    /** `setBaseCamp`: store the base camp, which then reads back at that point. */
    method SetBaseCamp(store: Store, location: GeoPoint)
      modifies store
      ensures store.prefs == WithFob(old(store.prefs), location)
      ensures FobOf(store.prefs) == Some(location)
    {
      store.SetFobLocation(location);
      SetFobReadsBack(old(store.prefs), location);
    }

    /** `onBackCleanup`: leaving the editor discards the mission data; a live trip keeps it. */
    method OnBackCleanup(store: Store, live: bool)
      modifies store
      ensures store.prefs == if live then old(store.prefs) else ClearedMission(old(store.prefs))
    {
      if !live {
        store.ClearCurrentMissionData();
      }
    }
  }
}

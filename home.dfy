/**
 * `HomeViewModel`: the mission thread shown for a trip (touchdown, one
 * activity per itinerary node with a transport bridge between consecutive
 * located nodes, extraction, and an optional debriefing), the transport mode
 * of a bridge, the home screen's grouping of trips by category, and the
 * screen the app opens on.
 *
 * String resources and distances are parameters; the Haversine distance
 * and the decimal formatting of coordinates in map links are not part of
 * this model.
 */
module Home {
  import opened Wrappers
  import opened Lists
  import opened Domain
  import opened PreferenceManager
  import opened SmartArrange

  /** The string resources the thread uses. */
  datatype ResId = STEP_INFILTRATION | STEP_SECURE_ASSETS | STEP_EXTRACTION | STEP_RETURN_BASE
                 | STEP_DEBRIEFING | STEP_RATE_US | MODE_WALK | DESC_WALK | MODE_FLEET | DESC_FLEET

  /** `LocaleUtils.getLocalizedContext(context, lang).getString(id)`. */
  type Resources = (string, ResId) -> string

  /** A Google Maps directions link between two points. */
  datatype MapsLink = MapsLink(origin: GeoPoint, destination: GeoPoint, travelMode: string)

  const PLAY_STORE := "https://play.google.com"

  datatype MissionStep =
    | AirportProtocol(title: string, description: string, entryPoint: EntryPoint)
    | Activity(title: string, description: string, node: BattleNode)
    | TacticalBridge(title: string, description: string, walkUrl: Option<MapsLink>, driveUrl: Option<MapsLink>,
                     distanceKm: real, primaryMode: string)
    | Extraction(title: string, description: string)
    | PremiumExperience(title: string, description: string, actionUrl: string)

  /** The language used for a thread: the given one, or "en" when it is empty. */
  function SafeLang(lang: string): (r: string)
    ensures r != ""
    ensures lang != "" ==> r == lang
  {
    if lang == "" then "en" else lang
  }

  /** The profile's transport is a car the user drives. */
  predicate HasCar(profile: LogisticsProfile) {
    profile.transportType == RENTAL_4X4 || profile.transportType == OWN_CAR
  }

  /**
   * `calculateTacticalBridge`: walking under 0.3 km, otherwise the fleet
   * card, driving with a car of one's own or a rental, chartered without.
   */
  function Bridge(start: GeoPoint, end: GeoPoint, profile: LogisticsProfile, lang: string,
                  res: Resources, dist: Distance): (b: MissionStep)
    ensures b.TacticalBridge? && b.distanceKm == dist(start, end)
    ensures dist(start, end) < 0.3 ==>
      b.primaryMode == "WALK" && b.walkUrl == Some(MapsLink(start, end, "walking")) && b.driveUrl == None
    ensures dist(start, end) >= 0.3 ==>
      b.walkUrl == None && b.driveUrl == Some(MapsLink(start, end, "driving"))
    ensures dist(start, end) >= 0.3 ==> (b.primaryMode == "DRIVE" <==> HasCar(profile))
    ensures dist(start, end) >= 0.3 ==> (b.primaryMode == "CHARTER" <==> !HasCar(profile))
  {
    var distance := dist(start, end);
    if distance < 0.3 then
      TacticalBridge(res(lang, MODE_WALK), res(lang, DESC_WALK), Some(MapsLink(start, end, "walking")), None, distance, "WALK")
    else
      TacticalBridge(res(lang, MODE_FLEET), res(lang, DESC_FLEET), None, Some(MapsLink(start, end, "driving")), distance,
        if HasCar(profile) then "DRIVE" else "CHARTER")
  }

  /** Node `i` and the next one both have a location, so a bridge joins them. */
  predicate Bridged(nodes: seq<BattleNode>, i: nat) {
    i + 1 < |nodes| && nodes[i].location.Some? && nodes[i + 1].location.Some?
  }

  /** The steps `forEachIndexed` adds for node `i`: its activity, then a bridge to the next one when both are located. */
  function StepsAt(nodes: seq<BattleNode>, i: nat, profile: LogisticsProfile, lang: string,
                   get: Lookup, res: Resources, dist: Distance): seq<MissionStep>
    requires i < |nodes|
  {
    [Activity(get(nodes[i].title, lang), get(nodes[i].description, lang), nodes[i])]
      + if Bridged(nodes, i) then [Bridge(nodes[i].location.value, nodes[i + 1].location.value, profile, lang, res, dist)] else []
  }

  /** The steps of the first `k` nodes. */
  function StepsUpTo(nodes: seq<BattleNode>, k: nat, profile: LogisticsProfile, lang: string,
                     get: Lookup, res: Resources, dist: Distance): seq<MissionStep>
    requires k <= |nodes|
  {
    if k == 0 then [] else StepsUpTo(nodes, k - 1, profile, lang, get, res, dist) + StepsAt(nodes, k - 1, profile, lang, get, res, dist)
  }

  /** The thread `generateThread` returns, for an already safe language. */
  function Thread(trip: TripPath, profile: LogisticsProfile, includeDebriefing: bool, lang: string,
                  get: Lookup, res: Resources, dist: Distance): seq<MissionStep>
  {
    [AirportProtocol(res(lang, STEP_INFILTRATION), res(lang, STEP_SECURE_ASSETS), profile.entryPoint)]
      + StepsUpTo(trip.itinerary, |trip.itinerary|, profile, lang, get, res, dist)
      + [Extraction(res(lang, STEP_EXTRACTION), res(lang, STEP_RETURN_BASE))]
      + if includeDebriefing then [PremiumExperience(res(lang, STEP_DEBRIEFING), res(lang, STEP_RATE_US), PLAY_STORE)] else []
  }

  /** `generateThread`: the thread built step by step in a mutable list. */
  method GenerateThread(trip: TripPath, profile: LogisticsProfile, includeDebriefing: bool, lang: string,
                        get: Lookup, res: Resources, dist: Distance) returns (thread: seq<MissionStep>)
    ensures thread == Thread(trip, profile, includeDebriefing, SafeLang(lang), get, res, dist)
  {
    var safeLang := if lang == "" then "en" else lang;
    var nodes := trip.itinerary;
    var head := AirportProtocol(res(safeLang, STEP_INFILTRATION), res(safeLang, STEP_SECURE_ASSETS), profile.entryPoint);
    thread := [head];
    var index := 0;
    while index < |nodes|
      invariant 0 <= index <= |nodes|
      invariant thread == [head] + StepsUpTo(nodes, index, profile, safeLang, get, res, dist)
    {
      var node := nodes[index];
      thread := thread + [Activity(get(node.title, safeLang), get(node.description, safeLang), node)];
      if index < |nodes| - 1 {
        var nextNode := nodes[index + 1];
        if node.location.Some? && nextNode.location.Some? {
          thread := thread + [Bridge(node.location.value, nextNode.location.value, profile, safeLang, res, dist)];
        }
      }
      index := index + 1;
    }
    thread := thread + [Extraction(res(safeLang, STEP_EXTRACTION), res(safeLang, STEP_RETURN_BASE))];
    if includeDebriefing {
      thread := thread + [PremiumExperience(res(safeLang, STEP_DEBRIEFING), res(safeLang, STEP_RATE_US), PLAY_STORE)];
    }
  }

  // ---------------------------------------------------------------------
  // The shape of a thread

  /** The number of bridges among the first `k` nodes. */
  function BridgeCount(nodes: seq<BattleNode>, k: nat): nat
    requires k <= |nodes|
  {
    if k == 0 then 0 else BridgeCount(nodes, k - 1) + if Bridged(nodes, k - 1) then 1 else 0
  }

  /** The nodes of the activity steps, in order. */
  function ActivityNodes(steps: seq<MissionStep>): seq<BattleNode> {
    if steps == [] then []
    else (if steps[0].Activity? then [steps[0].node] else []) + ActivityNodes(steps[1..])
  }

  lemma {:induction false} ActivityNodesConcat(a: seq<MissionStep>, b: seq<MissionStep>)
    ensures ActivityNodes(a + b) == ActivityNodes(a) + ActivityNodes(b)
  {
    if a == [] {
      assert a + b == b;
    } else {
      assert (a + b)[0] == a[0] && (a + b)[1..] == a[1..] + b;
      ActivityNodesConcat(a[1..], b);
    }
  }

  /** The first `k` nodes give `k` activities, one per node in order, and one more step per bridge. */
  lemma {:induction false} StepsUpToShape(nodes: seq<BattleNode>, k: nat, profile: LogisticsProfile, lang: string,
                                          get: Lookup, res: Resources, dist: Distance)
    requires k <= |nodes|
    ensures |StepsUpTo(nodes, k, profile, lang, get, res, dist)| == k + BridgeCount(nodes, k)
    ensures ActivityNodes(StepsUpTo(nodes, k, profile, lang, get, res, dist)) == nodes[..k]
  {
    if k > 0 {
      var prev := StepsUpTo(nodes, k - 1, profile, lang, get, res, dist);
      var at := StepsAt(nodes, k - 1, profile, lang, get, res, dist);
      assert StepsUpTo(nodes, k, profile, lang, get, res, dist) == prev + at;
      assert BridgeCount(nodes, k) == BridgeCount(nodes, k - 1) + if Bridged(nodes, k - 1) then 1 else 0;
      StepsUpToShape(nodes, k - 1, profile, lang, get, res, dist);
      StepsAtActivity(nodes, k - 1, profile, lang, get, res, dist);
      ActivityNodesConcat(prev, at);
      assert nodes[..k] == nodes[..k - 1] + [nodes[k - 1]];
    }
  }

  /** The steps of one node hold exactly that node's activity. */
  lemma StepsAtActivity(nodes: seq<BattleNode>, i: nat, profile: LogisticsProfile, lang: string,
                        get: Lookup, res: Resources, dist: Distance)
    requires i < |nodes|
    ensures |StepsAt(nodes, i, profile, lang, get, res, dist)| == 1 + if Bridged(nodes, i) then 1 else 0
    ensures ActivityNodes(StepsAt(nodes, i, profile, lang, get, res, dist)) == [nodes[i]]
  {
    var at := StepsAt(nodes, i, profile, lang, get, res, dist);
    assert at[0].Activity? && at[0].node == nodes[i];
    if Bridged(nodes, i) {
      var rest := at[1..];
      assert |rest| == 1 && rest[0].TacticalBridge?;
      NotAnActivity(rest[0]);
      assert rest == [rest[0]];
    } else {
      assert at[1..] == [];
    }
  }

  /** A step other than an activity contributes no node. */
  lemma NotAnActivity(step: MissionStep)
    requires !step.Activity?
    ensures ActivityNodes([step]) == []
  {
    assert [step][1..] == [];
  }

  /**
   * A thread starts with the touchdown step, holds one activity per node in
   * itinerary order, ends with the extraction or, when asked for, the
   * debriefing after it, and has n + 2 + bridges + [debriefing] steps.
   */
  lemma ThreadShape(trip: TripPath, profile: LogisticsProfile, includeDebriefing: bool, lang: string,
                    get: Lookup, res: Resources, dist: Distance)
    ensures var t := Thread(trip, profile, includeDebriefing, lang, get, res, dist);
      var n := |trip.itinerary|;
      && |t| == n + 2 + BridgeCount(trip.itinerary, n) + (if includeDebriefing then 1 else 0)
      && t[0] == AirportProtocol(res(lang, STEP_INFILTRATION), res(lang, STEP_SECURE_ASSETS), profile.entryPoint)
      && ActivityNodes(t) == trip.itinerary
      && (includeDebriefing ==> t[|t| - 1].PremiumExperience? && t[|t| - 2].Extraction?)
      && (!includeDebriefing ==> t[|t| - 1].Extraction?)
  {
    var nodes := trip.itinerary;
    var head := AirportProtocol(res(lang, STEP_INFILTRATION), res(lang, STEP_SECURE_ASSETS), profile.entryPoint);
    var body := StepsUpTo(nodes, |nodes|, profile, lang, get, res, dist);
    var ext := Extraction(res(lang, STEP_EXTRACTION), res(lang, STEP_RETURN_BASE));
    var tail := if includeDebriefing then [PremiumExperience(res(lang, STEP_DEBRIEFING), res(lang, STEP_RATE_US), PLAY_STORE)] else [];
    assert Thread(trip, profile, includeDebriefing, lang, get, res, dist) == [head] + body + [ext] + tail;
    StepsUpToShape(nodes, |nodes|, profile, lang, get, res, dist);
    FrameActivities(head, body, ext, tail);
    assert nodes[..|nodes|] == nodes;
  }

  /** The steps around the node steps add no activity. */
  lemma FrameActivities(head: MissionStep, body: seq<MissionStep>, ext: MissionStep, tail: seq<MissionStep>)
    requires !head.Activity? && !ext.Activity?
    requires tail == [] || (|tail| == 1 && !tail[0].Activity?)
    ensures ActivityNodes([head] + body + [ext] + tail) == ActivityNodes(body)
  {
    ActivityNodesConcat([head], body);
    ActivityNodesConcat([head] + body, [ext]);
    ActivityNodesConcat([head] + body + [ext], tail);
    NotAnActivity(head);
    NotAnActivity(ext);
    if tail == [] {
      assert ActivityNodes(tail) == [];
    } else {
      assert tail == [tail[0]];
      NotAnActivity(tail[0]);
    }
  }

  /** An itinerary with no located node has no bridge. */
  lemma {:induction false} NoLocationsNoBridges(nodes: seq<BattleNode>, k: nat)
    requires k <= |nodes|
    requires forall i | 0 <= i < |nodes| :: nodes[i].location.None?
    ensures BridgeCount(nodes, k) == 0
  {
    if k > 0 {
      NoLocationsNoBridges(nodes, k - 1);
    }
  }

  /** Every node and its successor that both have a location are bridged: n - 1 bridges when all are located. */
  lemma {:induction false} AllLocatedAllBridged(nodes: seq<BattleNode>, k: nat)
    requires 0 < k <= |nodes|
    requires forall i | 0 <= i < |nodes| :: nodes[i].location.Some?
    ensures BridgeCount(nodes, k) == if k == |nodes| then k - 1 else k
  {
    if k > 1 {
      AllLocatedAllBridged(nodes, k - 1);
    }
  }

  // ---------------------------------------------------------------------
  // missionThread and previewThread

  /** `missionThread`: empty without an active trip or when it is not listed, else its thread with the debriefing. */
  function MissionThread(pathId: Option<string>, lang: string, trips: seq<TripPath>, profile: LogisticsProfile,
                         get: Lookup, res: Resources, dist: Distance): (r: seq<MissionStep>)
    ensures pathId.None? ==> r == []
    ensures pathId.Some? && FindTrip(trips, pathId.value).None? ==> r == []
    ensures pathId.Some? && FindTrip(trips, pathId.value).Some? ==>
      r == Thread(FindTrip(trips, pathId.value).value, profile, true, SafeLang(lang), get, res, dist)
  {
    if pathId.None? then []
    else
      match FindTrip(trips, pathId.value)
      case None => []
      case Some(trip) => Thread(trip, profile, true, SafeLang(lang), get, res, dist)
  }

  /** `previewThread`: the pending trip's thread without the debriefing. */
  function PreviewThread(pendingTripId: Option<string>, lang: string, trips: seq<TripPath>, profile: LogisticsProfile,
                         get: Lookup, res: Resources, dist: Distance): (r: seq<MissionStep>)
    ensures pendingTripId.None? ==> r == []
    ensures pendingTripId.Some? && FindTrip(trips, pendingTripId.value).None? ==> r == []
    ensures pendingTripId.Some? && FindTrip(trips, pendingTripId.value).Some? ==>
      r == Thread(FindTrip(trips, pendingTripId.value).value, profile, false, SafeLang(lang), get, res, dist)
  {
    if pendingTripId.None? then []
    else
      match FindTrip(trips, pendingTripId.value)
      case None => []
      case Some(trip) => Thread(trip, profile, false, SafeLang(lang), get, res, dist)
  }

  /** A listed trip's preview is its mission thread without the final debriefing step. */
  lemma PreviewIsThreadWithoutDebriefing(id: string, lang: string, trips: seq<TripPath>, profile: LogisticsProfile,
                                         get: Lookup, res: Resources, dist: Distance)
    requires FindTrip(trips, id).Some?
    ensures var m := MissionThread(Some(id), lang, trips, profile, get, res, dist);
      PreviewThread(Some(id), lang, trips, profile, get, res, dist) == m[..|m| - 1]
  {
    var trip := FindTrip(trips, id).value;
    var l := SafeLang(lang);
    var nodes := trip.itinerary;
    var front := [AirportProtocol(res(l, STEP_INFILTRATION), res(l, STEP_SECURE_ASSETS), profile.entryPoint)]
      + StepsUpTo(nodes, |nodes|, profile, l, get, res, dist)
      + [Extraction(res(l, STEP_EXTRACTION), res(l, STEP_RETURN_BASE))];
    assert Thread(trip, profile, false, l, get, res, dist) == front + [];
    assert Thread(trip, profile, true, l, get, res, dist)
        == front + [PremiumExperience(res(l, STEP_DEBRIEFING), res(l, STEP_RATE_US), PLAY_STORE)];
    assert (front + [PremiumExperience(res(l, STEP_DEBRIEFING), res(l, STEP_RATE_US), PLAY_STORE)])[..|front|] == front;
  }

  // ---------------------------------------------------------------------
  // Grouping by category

  /** The group name of a trip: its category's enum name. */
  function CategoryOf(t: TripPath): string {
    RouteCategoryName(t.category)
  }

  /** The distinct category names, in order of first appearance (`groupBy`'s key order). */
  function Categories(trips: seq<TripPath>): (keys: seq<string>)
    ensures forall i, j | 0 <= i < j < |keys| :: keys[i] != keys[j]
    ensures forall k :: k in keys <==> exists i | 0 <= i < |trips| :: CategoryOf(trips[i]) == k
    decreases |trips|
  {
    if trips == [] then []
    else
      var front := trips[..|trips| - 1];
      var keys := Categories(front);
      var c := CategoryOf(trips[|trips| - 1]);
      assert forall i | 0 <= i < |front| :: front[i] == trips[i];
      if c in keys then keys else keys + [c]
  }

  /** The index of the first trip of category `c`, or -1 when no trip has it. */
  function FirstIndexOf(trips: seq<TripPath>, c: string): (k: int)
    ensures -1 <= k < |trips|
    ensures k == -1 <==> forall m | 0 <= m < |trips| :: CategoryOf(trips[m]) != c
    ensures k >= 0 ==> CategoryOf(trips[k]) == c && forall m | 0 <= m < k :: CategoryOf(trips[m]) != c
    decreases |trips|
  {
    if trips == [] then -1
    else
      var front := trips[..|trips| - 1];
      var f := FirstIndexOf(front, c);
      assert forall i | 0 <= i < |front| :: front[i] == trips[i];
      if f >= 0 then f
      else if CategoryOf(trips[|trips| - 1]) == c then |trips| - 1
      else -1
  }

  /** The category names come in the order in which their first trips appear. */
  lemma {:induction false} CategoriesInFirstAppearanceOrder(trips: seq<TripPath>)
    ensures var keys := Categories(trips);
      forall i, j | 0 <= i < j < |keys| :: 0 <= FirstIndexOf(trips, keys[i]) < FirstIndexOf(trips, keys[j])
    decreases |trips|
  {
    if trips != [] {
      var front := trips[..|trips| - 1];
      var c := CategoryOf(trips[|trips| - 1]);
      var prev := Categories(front);
      CategoriesInFirstAppearanceOrder(front);
      FirstIndexExtends(trips, prev);
      if c !in prev {
        forall k | k in prev ensures 0 <= FirstIndexOf(trips, k) < |trips| - 1 {
        }
        assert FirstIndexOf(trips, c) == |trips| - 1;
      }
    }
  }

  /** A category already met among all trips but the last keeps its first index. */
  lemma FirstIndexExtends(trips: seq<TripPath>, prev: seq<string>)
    requires trips != [] && prev == Categories(trips[..|trips| - 1])
    ensures forall k | k in prev :: 0 <= FirstIndexOf(trips, k) < |trips| - 1
                                  && FirstIndexOf(trips, k) == FirstIndexOf(trips[..|trips| - 1], k)
  {
    var front := trips[..|trips| - 1];
    forall k | k in prev
      ensures 0 <= FirstIndexOf(front, k) && FirstIndexOf(trips, k) == FirstIndexOf(front, k)
    {
      var i :| 0 <= i < |front| && CategoryOf(front[i]) == k;
    }
  }

  function InCategory(name: string): TripPath -> bool {
    (t: TripPath) => CategoryOf(t) == name
  }

  /** `sortedByDescending { it.name == "GUIDE" }` as an ascending stable sort on 0 for "GUIDE", 1 for the rest. */
  function GuideRank(): string -> real {
    (k: string) => if k == "GUIDE" then 0.0 else 1.0
  }

  datatype Group = Group(name: string, trips: seq<TripPath>)

  /** The home screen's groups: one per category, "GUIDE" first, each with its trips in list order. */
  function Grouped(trips: seq<TripPath>): (r: seq<Group>)
    ensures |r| == |Categories(trips)|
    ensures forall i | 0 <= i < |r| :: r[i].name == SortBy(Categories(trips), GuideRank())[i]
    ensures forall i | 0 <= i < |r| :: r[i].trips == Filter(trips, InCategory(r[i].name))
  {
    var keys := SortBy(Categories(trips), GuideRank());
    seq(|keys|, i requires 0 <= i < |keys| => Group(keys[i], Filter(trips, InCategory(keys[i]))))
  }

  /** Every trip is in the group of its category. */
  lemma GroupingKeepsEveryTrip(trips: seq<TripPath>, i: nat)
    requires i < |trips|
    ensures var r := Grouped(trips);
      exists g | 0 <= g < |r| :: r[g].name == CategoryOf(trips[i]) && trips[i] in r[g].trips
  {
    var keys := Categories(trips);
    var sorted := SortBy(keys, GuideRank());
    var c := CategoryOf(trips[i]);
    assert c in keys;
    assert c in multiset(keys);
    assert c in multiset(sorted);
    var g :| 0 <= g < |sorted| && sorted[g] == c;
    assert Grouped(trips)[g].name == c;
  }

  /** The rank sort puts a "GUIDE" name, when there is one, first. */
  lemma GuideSortsFirst(keys: seq<string>)
    requires "GUIDE" in keys
    ensures SortBy(keys, GuideRank())[0] == "GUIDE"
  {
    var sorted := SortBy(keys, GuideRank());
    SortByIsSorted(keys, GuideRank());
    assert "GUIDE" in multiset(sorted);
    var g :| 0 <= g < |sorted| && sorted[g] == "GUIDE";
  }

  lemma CategoryNameNotGuide(c: RouteCategory)
    ensures RouteCategoryName(c) != "GUIDE"
  {
    assert RouteCategoryName(c)[0] != 'G';
  }

  /** Sorting names none of which is "GUIDE" leaves them in place: the sort is stable and their ranks are equal. */
  lemma RankSortWithoutGuide(keys: seq<string>)
    requires forall i | 0 <= i < |keys| :: keys[i] != "GUIDE"
    ensures SortBy(keys, GuideRank()) == keys
  {
    var sorted := SortBy(keys, GuideRank());
    var p := KeyIs(GuideRank(), 1.0);
    SortByIsStable(keys, GuideRank(), 1.0);
    assert forall i | 0 <= i < |keys| :: p(keys[i]);
    forall i | 0 <= i < |sorted|
      ensures p(sorted[i])
    {
      assert sorted[i] in multiset(keys);
    }
    FilterAll(keys, p);
    FilterAll(sorted, p);
  }

  /**
   * No trip is ever in a "GUIDE" group: categories are `RouteCategory` names,
   * and "GUIDE" is not one, so the groups keep their order of first appearance.
   */
  lemma GuideFirstNeverApplies(trips: seq<TripPath>)
    ensures "GUIDE" !in Categories(trips)
    ensures SortBy(Categories(trips), GuideRank()) == Categories(trips)
    ensures var r := Grouped(trips);
      forall i, j | 0 <= i < j < |r| :: 0 <= FirstIndexOf(trips, r[i].name) < FirstIndexOf(trips, r[j].name)
  {
    GuideFirstNeverAppliesKeys(trips);
    CategoriesInFirstAppearanceOrder(trips);
  }

  /** "GUIDE" is not a category name, so the rank sort leaves the categories in place. */
  lemma GuideFirstNeverAppliesKeys(trips: seq<TripPath>)
    ensures "GUIDE" !in Categories(trips)
    ensures SortBy(Categories(trips), GuideRank()) == Categories(trips)
  {
    var keys := Categories(trips);
    forall j | 0 <= j < |keys|
      ensures keys[j] != "GUIDE"
    {
      assert keys[j] in keys;
      var i :| 0 <= i < |trips| && CategoryOf(trips[i]) == keys[j];
      CategoryNameNotGuide(trips[i].category);
    }
    RankSortWithoutGuide(keys);
  }

  /** `HomeUiState`. */
  datatype HomeUiState = HomeUiState(groupedPaths: seq<Group>, isLoading: bool)

  const INITIAL_UI := HomeUiState([], true)

  /** A non-empty trip list replaces the groups and ends loading; an empty one changes nothing. */
  function OnTrips(state: HomeUiState, trips: seq<TripPath>): (r: HomeUiState)
    ensures trips == [] ==> r == state
    ensures trips != [] ==> !r.isLoading && r.groupedPaths == Grouped(trips)
  {
    if trips == [] then state else state.(groupedPaths := Grouped(trips), isLoading := false)
  }

  /** `groupedPaths.values.flatten()`. */
  function Flatten(groups: seq<Group>): seq<TripPath> {
    if groups == [] then [] else groups[0].trips + Flatten(groups[1..])
  }

  /** One trip gives one group holding exactly that trip, and loading ends. */
  lemma SingleTripGroups(state: HomeUiState, t: TripPath)
    ensures var r := OnTrips(state, [t]);
      && !r.isLoading && |r.groupedPaths| == 1
      && r.groupedPaths[0].name == CategoryOf(t) && r.groupedPaths[0].trips == [t]
      && Flatten(r.groupedPaths) == [t]
  {
    var keys := Categories([t]);
    assert [t][..0] == [] && [t][0] == t;
    assert Categories([]) == [];
    assert keys == [] + [CategoryOf(t)];
    FilterSingleton(t, InCategory(CategoryOf(t)));
    GuideFirstNeverApplies([t]);
    var r := OnTrips(state, [t]);
    assert r.groupedPaths[1..] == [];
  }

  // ---------------------------------------------------------------------
  // The start screen

  /** Where the app opens: the battle screen of the trip on the road, else home. */
  function InitialDestination(session: UserSession): (d: string)
    ensures session.state == ON_THE_ROAD && session.activePathId.Some? ==> d == "battle/" + session.activePathId.value
    ensures !(session.state == ON_THE_ROAD && session.activePathId.Some?) ==> d == "home"
  {
    if session.state == ON_THE_ROAD && session.activePathId.Some? then "battle/" + session.activePathId.value else "home"
  }
}

/**
 * The app's domain records and enums (the `domain/model` package, the Room
 * entities and the enums the view models use), each enum with its Kotlin
 * `name` and `valueOf`.
 *
 * Where the app's own declarations disagree with how the code uses them,
 * the records here follow the use: `BattleNode` carries an optional
 * `location`, `TripPath` titles and descriptions are `LocalizedString`s,
 * `LogisticsProfile` carries `transportStrategy` and `vehicleStatus`, and
 * `MissionState` carries `extractionType`.
 */
module Domain {
  import opened Wrappers
  import opened Lists

  datatype GeoPoint = GeoPoint(latitude: real, longitude: real)

  /** A row of the `locations` table; `kind` is the entity's `type` column. */
  datatype LocationEntity = LocationEntity(
    id: int,
    kind: string,
    region: string,
    latitude: real,
    longitude: real,
    imageUrl: string,
    nameEn: string, nameKa: string, nameRu: string, nameTr: string, nameHy: string, nameIw: string, nameAr: string,
    descEn: string, descKa: string, descRu: string, descTr: string, descHy: string, descIw: string, descAr: string)

  /** A `LocationEntity` built with named arguments: every other translation takes its default "". */
  function NewLocation(id: int, kind: string, region: string, latitude: real, longitude: real,
                       imageUrl: string, nameEn: string, descEn: string): (e: LocationEntity)
    ensures e.id == id && e.kind == kind && e.region == region && e.nameEn == nameEn && e.descEn == descEn
    ensures e.nameKa == e.nameRu == e.nameTr == e.nameHy == e.nameIw == e.nameAr == ""
    ensures e.descKa == e.descRu == e.descTr == e.descHy == e.descIw == e.descAr == ""
  {
    LocationEntity(id, kind, region, latitude, longitude, imageUrl,
      nameEn, "", "", "", "", "", "", descEn, "", "", "", "", "", "")
  }

  /** A text in the app's seven languages. */
  datatype LocalizedString = LocalizedString(en: string, ka: string, ru: string, tr: string,
                                             hy: string, iw: string, ar: string)

  /** `LocalizedString(en)`: the other languages left empty. */
  function English(en: string): LocalizedString {
    LocalizedString(en, "", "", "", "", "", "")
  }

  /**
   * `LocalizedString.get(lang)`. Its body is not part of this model, so the
   * operations that translate take it as a parameter.
   */
  type Lookup = (LocalizedString, string) -> string

  datatype BattleNode = BattleNode(
    title: LocalizedString,
    description: LocalizedString,
    timeLabel: string,
    imageUrl: Option<string>,
    alertType: Option<string>,
    location: Option<GeoPoint>)

  datatype TripPath = TripPath(
    id: string,
    title: LocalizedString,
    description: LocalizedString,
    imageUrl: string,
    category: RouteCategory,
    difficulty: Difficulty,
    totalRideTimeMinutes: int,
    durationDays: int,
    hasSnowWarning: bool,
    isLocked: bool,
    isPremium: bool,
    route: seq<GeoPoint>,
    itinerary: seq<BattleNode>)

  /** A row of the `passport_stamps` table; `dateUnlocked` is epoch milliseconds. */
  datatype PassportEntity = PassportEntity(regionId: string, regionName: string, dateUnlocked: int, tripTitle: string)

  datatype LogisticsProfile = LogisticsProfile(
    transportStrategy: TransportStrategy,
    vehicleStatus: VehicleStatus,
    entryPoint: EntryPoint,
    exitPoint: EntryPoint,
    startDate: Option<int>,
    endDate: Option<int>,
    isByAir: bool,
    needsAccommodation: bool,
    needsEsim: bool,
    needsFlight: bool,
    needsTransport: bool,
    transportType: TransportType)

  /** `LogisticsProfile()` with every parameter at its default. */
  const DEFAULT_PROFILE := LogisticsProfile(PASSENGER_URBAN, NONE, AIRPORT_TBS, AIRPORT_TBS, None, None,
                                            true, false, false, false, false, RENTAL_4X4)

  // ---------------------------------------------------------------------
  // Lists of locations, by id

  /** `route.map { it.id }`. */
  function RouteIds(route: seq<LocationEntity>): (ids: seq<int>)
    ensures |ids| == |route|
    ensures forall i | 0 <= i < |route| :: ids[i] == route[i].id
  {
    seq(|route|, i requires 0 <= i < |route| => route[i].id)
  }

  /** `route.any { it.id == id }`. */
  predicate HasStop(route: seq<LocationEntity>, id: int) {
    exists i | 0 <= i < |route| :: route[i].id == id
  }

  predicate UniqueIds(route: seq<LocationEntity>) {
    forall i, j | 0 <= i < j < |route| :: route[i].id != route[j].id
  }

  /** Whether an id has a location among `locations`. */
  function Found(locations: seq<LocationEntity>): int -> bool {
    (id: int) => HasStop(locations, id)
  }

  /** `route.indexOfFirst { it.id == id }`. */
  function IndexOfStop(route: seq<LocationEntity>, id: int): (i: int)
    ensures -1 <= i < |route|
    ensures i == -1 <==> !HasStop(route, id)
    ensures 0 <= i ==> route[i].id == id && forall j | 0 <= j < i :: route[j].id != id
  {
    var ids := RouteIds(route);
    var i := IndexOf(ids, id);
    assert HasStop(route, id) ==> id in ids by {
      if HasStop(route, id) {
        var k :| 0 <= k < |route| && route[k].id == id;
        assert ids[k] == id;
      }
    }
    i
  }

  /** `find { it.id == id }`: the first stop with that id. */
  function FindById(s: seq<LocationEntity>, id: int): (r: Option<LocationEntity>)
    ensures r.None? <==> !HasStop(s, id)
    ensures r.Some? ==> r.value.id == id && r.value in s
    ensures r.Some? ==> exists i | 0 <= i < |s| :: s[i] == r.value && forall j | 0 <= j < i :: s[j].id != id
  {
    var i := IndexOfStop(s, id);
    if i == -1 then None else Some(s[i])
  }

  /** `trips.find { it.id == id }`: the first trip with that id. */
  function FindTrip(trips: seq<TripPath>, id: string): (r: Option<TripPath>)
    ensures r.None? <==> forall i | 0 <= i < |trips| :: trips[i].id != id
    ensures r.Some? ==> r.value.id == id && r.value in trips
    ensures r.Some? ==> exists i | 0 <= i < |trips| :: trips[i] == r.value && forall j | 0 <= j < i :: trips[j].id != id
  {
    var ids := seq(|trips|, i requires 0 <= i < |trips| => trips[i].id);
    var i := IndexOf(ids, id);
    assert (exists k | 0 <= k < |trips| :: trips[k].id == id) ==> id in ids by {
      if exists k | 0 <= k < |trips| :: trips[k].id == id {
        var k :| 0 <= k < |trips| && trips[k].id == id;
        assert ids[k] == id;
      }
    }
    if i == -1 then None
    else
      assert forall j | 0 <= j < i :: trips[j].id == ids[j];
      Some(trips[i])
  }

  // ---------------------------------------------------------------------
  // Enums with `name` / `valueOf`

  datatype RouteCategory = RELIGIOUS | WINE_CELLAR | WINE_REGION | MOUNTAIN | HIKING | URBAN
    | URBAN_EXPLORER | COASTAL | HISTORICAL | CULTURE | NATURE | CAPITAL

  function RouteCategoryName(c: RouteCategory): string {
    match c
    case RELIGIOUS => "RELIGIOUS"
    case WINE_CELLAR => "WINE_CELLAR"
    case WINE_REGION => "WINE_REGION"
    case MOUNTAIN => "MOUNTAIN"
    case HIKING => "HIKING"
    case URBAN => "URBAN"
    case URBAN_EXPLORER => "URBAN_EXPLORER"
    case COASTAL => "COASTAL"
    case HISTORICAL => "HISTORICAL"
    case CULTURE => "CULTURE"
    case NATURE => "NATURE"
    case CAPITAL => "CAPITAL"
  }

  /** `RouteCategory.valueOf(s)`; `None` where Kotlin throws. */
  function RouteCategoryValueOf(s: string): (r: Option<RouteCategory>)
    ensures r.Some? ==> RouteCategoryName(r.value) == s
    ensures r.None? ==> forall c: RouteCategory :: RouteCategoryName(c) != s
  {
    if s == "RELIGIOUS" then Some(RELIGIOUS)
    else if s == "WINE_CELLAR" then Some(WINE_CELLAR)
    else if s == "WINE_REGION" then Some(WINE_REGION)
    else if s == "MOUNTAIN" then Some(MOUNTAIN)
    else if s == "HIKING" then Some(HIKING)
    else if s == "URBAN" then Some(URBAN)
    else if s == "URBAN_EXPLORER" then Some(URBAN_EXPLORER)
    else if s == "COASTAL" then Some(COASTAL)
    else if s == "HISTORICAL" then Some(HISTORICAL)
    else if s == "CULTURE" then Some(CULTURE)
    else if s == "NATURE" then Some(NATURE)
    else if s == "CAPITAL" then Some(CAPITAL)
    else None
  }

  datatype Difficulty = RELAXED | NORMAL | EXPLORER | WARRIOR

  function DifficultyName(d: Difficulty): string {
    match d
    case RELAXED => "RELAXED"
    case NORMAL => "NORMAL"
    case EXPLORER => "EXPLORER"
    case WARRIOR => "WARRIOR"
  }

  function DifficultyValueOf(s: string): (r: Option<Difficulty>)
    ensures r.Some? ==> DifficultyName(r.value) == s
    ensures r.None? ==> forall d: Difficulty :: DifficultyName(d) != s
  {
    if s == "RELAXED" then Some(RELAXED)
    else if s == "NORMAL" then Some(NORMAL)
    else if s == "EXPLORER" then Some(EXPLORER)
    else if s == "WARRIOR" then Some(WARRIOR)
    else None
  }

  datatype EntryPoint = AIRPORT_TBS | AIRPORT_KUT | AIRPORT_BUS | LAND_TURKEY | LAND_ARMENIA
    | LAND_AZERBAIJAN | LAND_RUSSIA | CITY_CENTER

  function EntryPointName(e: EntryPoint): string {
    match e
    case AIRPORT_TBS => "AIRPORT_TBS"
    case AIRPORT_KUT => "AIRPORT_KUT"
    case AIRPORT_BUS => "AIRPORT_BUS"
    case LAND_TURKEY => "LAND_TURKEY"
    case LAND_ARMENIA => "LAND_ARMENIA"
    case LAND_AZERBAIJAN => "LAND_AZERBAIJAN"
    case LAND_RUSSIA => "LAND_RUSSIA"
    case CITY_CENTER => "CITY_CENTER"
  }

  function EntryPointValueOf(s: string): (r: Option<EntryPoint>)
    ensures r.Some? ==> EntryPointName(r.value) == s
    ensures r.None? ==> forall e: EntryPoint :: EntryPointName(e) != s
  {
    if s == "AIRPORT_TBS" then Some(AIRPORT_TBS)
    else if s == "AIRPORT_KUT" then Some(AIRPORT_KUT)
    else if s == "AIRPORT_BUS" then Some(AIRPORT_BUS)
    else if s == "LAND_TURKEY" then Some(LAND_TURKEY)
    else if s == "LAND_ARMENIA" then Some(LAND_ARMENIA)
    else if s == "LAND_AZERBAIJAN" then Some(LAND_AZERBAIJAN)
    else if s == "LAND_RUSSIA" then Some(LAND_RUSSIA)
    else if s == "CITY_CENTER" then Some(CITY_CENTER)
    else None
  }

  datatype TransportType = RENTAL_4X4 | TAXI | PUBLIC_TRANSPORT | OWN_CAR

  function TransportTypeName(t: TransportType): string {
    match t
    case RENTAL_4X4 => "RENTAL_4X4"
    case TAXI => "TAXI"
    case PUBLIC_TRANSPORT => "PUBLIC_TRANSPORT"
    case OWN_CAR => "OWN_CAR"
  }

  function TransportTypeValueOf(s: string): (r: Option<TransportType>)
    ensures r.Some? ==> TransportTypeName(r.value) == s
    ensures r.None? ==> forall t: TransportType :: TransportTypeName(t) != s
  {
    if s == "RENTAL_4X4" then Some(RENTAL_4X4)
    else if s == "TAXI" then Some(TAXI)
    else if s == "PUBLIC_TRANSPORT" then Some(PUBLIC_TRANSPORT)
    else if s == "OWN_CAR" then Some(OWN_CAR)
    else None
  }

  datatype TransportStrategy = PASSENGER_URBAN | PASSENGER_BUDGET | DRIVER_RENTAL | DRIVER_OWNER

  function TransportStrategyName(t: TransportStrategy): string {
    match t
    case PASSENGER_URBAN => "PASSENGER_URBAN"
    case PASSENGER_BUDGET => "PASSENGER_BUDGET"
    case DRIVER_RENTAL => "DRIVER_RENTAL"
    case DRIVER_OWNER => "DRIVER_OWNER"
  }

  function TransportStrategyValueOf(s: string): (r: Option<TransportStrategy>)
    ensures r.Some? ==> TransportStrategyName(r.value) == s
    ensures r.None? ==> forall t: TransportStrategy :: TransportStrategyName(t) != s
  {
    if s == "PASSENGER_URBAN" then Some(PASSENGER_URBAN)
    else if s == "PASSENGER_BUDGET" then Some(PASSENGER_BUDGET)
    else if s == "DRIVER_RENTAL" then Some(DRIVER_RENTAL)
    else if s == "DRIVER_OWNER" then Some(DRIVER_OWNER)
    else None
  }

  datatype VehicleStatus = NONE | TO_BE_ACQUIRED

  function VehicleStatusName(v: VehicleStatus): string {
    match v
    case NONE => "NONE"
    case TO_BE_ACQUIRED => "TO_BE_ACQUIRED"
  }

  function VehicleStatusValueOf(s: string): (r: Option<VehicleStatus>)
    ensures r.Some? ==> VehicleStatusName(r.value) == s
    ensures r.None? ==> forall v: VehicleStatus :: VehicleStatusName(v) != s
  {
    if s == "NONE" then Some(NONE)
    else if s == "TO_BE_ACQUIRED" then Some(TO_BE_ACQUIRED)
    else None
  }

  datatype ExtractionType = RETURN_TO_FOB | AIRPORT_EXTRACTION

  function ExtractionTypeName(x: ExtractionType): string {
    match x
    case RETURN_TO_FOB => "RETURN_TO_FOB"
    case AIRPORT_EXTRACTION => "AIRPORT_EXTRACTION"
  }

  function ExtractionTypeValueOf(s: string): (r: Option<ExtractionType>)
    ensures r.Some? ==> ExtractionTypeName(r.value) == s
    ensures r.None? ==> forall x: ExtractionType :: ExtractionTypeName(x) != s
  {
    if s == "RETURN_TO_FOB" then Some(RETURN_TO_FOB)
    else if s == "AIRPORT_EXTRACTION" then Some(AIRPORT_EXTRACTION)
    else None
  }

  datatype UserJourneyState = BROWSING | ON_THE_ROAD

  function UserJourneyStateName(u: UserJourneyState): string {
    match u
    case BROWSING => "BROWSING"
    case ON_THE_ROAD => "ON_THE_ROAD"
  }

  function UserJourneyStateValueOf(s: string): (r: Option<UserJourneyState>)
    ensures r.Some? ==> UserJourneyStateName(r.value) == s
    ensures r.None? ==> forall u: UserJourneyState :: UserJourneyStateName(u) != s
  {
    if s == "BROWSING" then Some(BROWSING)
    else if s == "ON_THE_ROAD" then Some(ON_THE_ROAD)
    else None
  }

  datatype TargetStatus = AVAILABLE | ENGAGED | NEUTRALIZED

  // Every enum name parses back to its constant.

  lemma RouteCategoryRoundTrip(c: RouteCategory)
    ensures RouteCategoryValueOf(RouteCategoryName(c)) == Some(c)
  {
    match c
    case RELIGIOUS =>
    case WINE_CELLAR =>
    case WINE_REGION =>
    case MOUNTAIN =>
    case HIKING =>
    case URBAN =>
    case URBAN_EXPLORER =>
    case COASTAL =>
    case HISTORICAL =>
    case CULTURE =>
    case NATURE =>
    case CAPITAL =>
  }

  lemma DifficultyRoundTrip(d: Difficulty)
    ensures DifficultyValueOf(DifficultyName(d)) == Some(d)
  {
  }

  lemma EntryPointRoundTrip(e: EntryPoint)
    ensures EntryPointValueOf(EntryPointName(e)) == Some(e)
  {
  }

  lemma TransportTypeRoundTrip(t: TransportType)
    ensures TransportTypeValueOf(TransportTypeName(t)) == Some(t)
  {
  }

  lemma TransportStrategyRoundTrip(t: TransportStrategy)
    ensures TransportStrategyValueOf(TransportStrategyName(t)) == Some(t)
  {
  }

  lemma VehicleStatusRoundTrip(v: VehicleStatus)
    ensures VehicleStatusValueOf(VehicleStatusName(v)) == Some(v)
  {
  }

  lemma ExtractionTypeRoundTrip(x: ExtractionType)
    ensures ExtractionTypeValueOf(ExtractionTypeName(x)) == Some(x)
  {
  }

  lemma UserJourneyStateRoundTrip(u: UserJourneyState)
    ensures UserJourneyStateValueOf(UserJourneyStateName(u)) == Some(u)
  {
  }
}

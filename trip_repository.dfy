/**
 * `TripRepositoryImpl`: turning stored trips into domain trips (with or
 * without their itinerary), and the records `refreshTrips` builds from the
 * bundled location and template files, with their defaults for missing
 * fields and the custom-trip sandbox placed first.
 *
 * The queries of the database are parameters: the rows they return are
 * given, and the parsing of the files is not part of this model.
 */
module TripRepository {
  import opened Wrappers
  import opened Text
  import opened Lists
  import opened Domain
  import LocationUtils

  /**
   * A row of the `trips` table, with the per-language title and description
   * columns grouped as `LocalizedString`s.
   */
  datatype TripEntity = TripEntity(
    id: string,
    title: LocalizedString,
    description: LocalizedString,
    imageUrl: string,
    category: string,
    difficulty: string,
    durationDays: int,
    isLocked: bool,
    isPremium: bool,
    hasSnowWarning: bool,
    targetIds: seq<int>)

  // ---------------------------------------------------------------------
  // mapEntityToDomain

  /** The itinerary node shown for a location. */
  function NodeOf(loc: LocationEntity): (n: BattleNode)
    ensures n.title.en == loc.nameEn && n.description.en == loc.descEn
    ensures n.timeLabel == "POI" && n.imageUrl == Some(loc.imageUrl) && n.alertType == None
    ensures n.location == Some(GeoPoint(loc.latitude, loc.longitude))
  {
    BattleNode(
      LocalizedString(loc.nameEn, loc.nameKa, loc.nameRu, loc.nameTr, loc.nameHy, loc.nameIw, loc.nameAr),
      LocalizedString(loc.descEn, loc.descKa, loc.descRu, loc.descTr, loc.descHy, loc.descIw, loc.descAr),
      "POI", Some(loc.imageUrl), None, Some(GeoPoint(loc.latitude, loc.longitude)))
  }

  /**
   * `targetIds.mapNotNull { id -> locations.find { it.id == id }?.let { ... } }`:
   * one node per target id that has a location, in target order.
   */
  function Itinerary(targetIds: seq<int>, locations: seq<LocationEntity>): seq<BattleNode> {
    MapNotNull(targetIds, NodeFor(locations))
  }

  /** The node for an id: from the first location with that id, if any. */
  function NodeFor(locations: seq<LocationEntity>): int -> Option<BattleNode> {
    (id: int) => match FindById(locations, id)
      case None => None
      case Some(e) => Some(NodeOf(e))
  }

  /** The itinerary has one node per target id that has a location, in target order. */
  lemma ItineraryFollowsTargets(targetIds: seq<int>, locations: seq<LocationEntity>)
    ensures |Itinerary(targetIds, locations)| <= |targetIds|
    ensures NodesOfIds(Itinerary(targetIds, locations), Filter(targetIds, Found(locations)), locations)
  {
    MapNotNullFollowsFilter(targetIds, NodeFor(locations), Found(locations));
  }

  /** Node `i` comes from id `i` of `ids` when the node list and the id list line up one to one. */
  predicate NodesOfIds(nodes: seq<BattleNode>, ids: seq<int>, locations: seq<LocationEntity>) {
    && |nodes| == |ids|
    && forall i | 0 <= i < |nodes| :: FindById(locations, ids[i]).Some? && nodes[i] == NodeOf(FindById(locations, ids[i]).value)
  }

  /** With a location for every target id, the itinerary has one node per id, in target order. */
  lemma ItineraryAllFound(targetIds: seq<int>, locations: seq<LocationEntity>)
    requires forall i | 0 <= i < |targetIds| :: HasStop(locations, targetIds[i])
    ensures var r := Itinerary(targetIds, locations);
      |r| == |targetIds| && forall i | 0 <= i < |r| :: r[i] == NodeOf(FindById(locations, targetIds[i]).value)
  {
    ItineraryFollowsTargets(targetIds, locations);
    FilterAll(targetIds, Found(locations));
  }

  /** The itinerary of two id lists one after the other is the two itineraries one after the other. */
  lemma ItineraryConcat(a: seq<int>, b: seq<int>, locations: seq<LocationEntity>)
    ensures Itinerary(a + b, locations) == Itinerary(a, locations) + Itinerary(b, locations)
  {
    MapNotNullConcat(a, b, NodeFor(locations));
  }

  /** `RouteCategory.valueOf` with `CULTURE` where it throws. */
  function CategoryOrCulture(s: string): (c: RouteCategory)
    ensures (exists k: RouteCategory :: RouteCategoryName(k) == s) ==> RouteCategoryName(c) == s
    ensures (forall k: RouteCategory :: RouteCategoryName(k) != s) ==> c == CULTURE
  {
    RouteCategoryValueOf(s).GetOr(CULTURE)
  }

  /** `Difficulty.valueOf` with `NORMAL` where it throws. */
  function DifficultyOrNormal(s: string): (d: Difficulty)
    ensures (exists k: Difficulty :: DifficultyName(k) == s) ==> DifficultyName(d) == s
    ensures (forall k: Difficulty :: DifficultyName(k) != s) ==> d == NORMAL
  {
    DifficultyValueOf(s).GetOr(NORMAL)
  }

  /**
   * `mapEntityToDomain`: the trip with its itinerary only when full details
   * are asked for; `locations` is what `getLocationsByIds(targetIds)`
   * returns. `durationDays * 60` is `Int` arithmetic.
   */
  function MapEntityToDomain(entity: TripEntity, loadFullDetails: bool, locations: seq<LocationEntity>): (t: TripPath)
    requires IsInt32(entity.durationDays)
    ensures t.id == entity.id && t.title == entity.title && t.description == entity.description
    ensures t.imageUrl == entity.imageUrl && t.durationDays == entity.durationDays
    ensures t.category == CategoryOrCulture(entity.category) && t.difficulty == DifficultyOrNormal(entity.difficulty)
    ensures IsInt32(entity.durationDays * 60) ==> t.totalRideTimeMinutes == entity.durationDays * 60
    ensures t.hasSnowWarning == entity.hasSnowWarning && t.isLocked == entity.isLocked && t.isPremium == entity.isPremium
    ensures t.route == []
    ensures !loadFullDetails ==> t.itinerary == []
    ensures loadFullDetails ==> t.itinerary == Itinerary(entity.targetIds, locations)
  {
    TripPath(entity.id, entity.title, entity.description, entity.imageUrl,
      CategoryOrCulture(entity.category), DifficultyOrNormal(entity.difficulty),
      WrapInt32(entity.durationDays * 60), entity.durationDays,
      entity.hasSnowWarning, entity.isLocked, entity.isPremium, [],
      if loadFullDetails then Itinerary(entity.targetIds, locations) else [])
  }

  /** `getAvailableTrips`: every stored trip, in order, as a summary without itinerary. */
  function AvailableTrips(entities: seq<TripEntity>): (r: seq<TripPath>)
    requires forall i | 0 <= i < |entities| :: IsInt32(entities[i].durationDays)
    ensures |r| == |entities|
    ensures forall i | 0 <= i < |r| :: r[i].id == entities[i].id && r[i].itinerary == []
  {
    seq(|entities|, i requires 0 <= i < |entities| => MapEntityToDomain(entities[i], false, []))
  }

  /** `getTripById`: `None` when the row is missing, the full trip otherwise. */
  function TripById(entity: Option<TripEntity>, locations: seq<LocationEntity>): (r: Option<TripPath>)
    requires entity.Some? ==> IsInt32(entity.value.durationDays)
    ensures r.None? <==> entity.None?
    ensures r.Some? ==> r.value.id == entity.value.id
    ensures r.Some? ==> r.value.itinerary == Itinerary(entity.value.targetIds, locations)
  {
    if entity.None? then None else Some(MapEntityToDomain(entity.value, true, locations))
  }

  /** A summary and a full load of the same row differ only in the itinerary. */
  lemma SummaryIsFullWithoutItinerary(entity: TripEntity, locations: seq<LocationEntity>)
    requires IsInt32(entity.durationDays)
    ensures MapEntityToDomain(entity, false, locations)
         == MapEntityToDomain(entity, true, locations).(itinerary := [])
  {
  }

  // ---------------------------------------------------------------------
  // refreshTrips: the bundled locations

  /** A record of `master_locations.json`; `None` is a missing field. */
  datatype RawLocationDto = RawLocationDto(
    id: int,
    name: Option<string>,
    region: Option<string>,
    lat: Option<real>,
    lng: Option<real>,
    image: Option<string>,
    category: Option<string>,
    descEn: Option<string>, descKa: Option<string>, descRu: Option<string>, descTr: Option<string>,
    descHy: Option<string>, descIw: Option<string>, descAr: Option<string>)

  /**
   * The location row for a record. The one `name` fills every name column;
   * only the English one has a default, "Place".
   */
  function LocationFromDto(dto: RawLocationDto): (e: LocationEntity)
    ensures e.id == dto.id && e.kind == dto.category.GetOr("POI") && e.region == dto.region.GetOr("Georgia")
    ensures e.latitude == dto.lat.GetOr(0.0) && e.longitude == dto.lng.GetOr(0.0) && e.imageUrl == dto.image.GetOr("")
    ensures e.nameEn == dto.name.GetOr("Place")
    ensures e.nameKa == e.nameRu == e.nameTr == e.nameHy == e.nameIw == e.nameAr == dto.name.GetOr("")
    ensures e.descEn == dto.descEn.GetOr("") && e.descKa == dto.descKa.GetOr("") && e.descRu == dto.descRu.GetOr("")
    ensures e.descTr == dto.descTr.GetOr("") && e.descHy == dto.descHy.GetOr("")
    ensures e.descIw == dto.descIw.GetOr("") && e.descAr == dto.descAr.GetOr("")
  {
    var name := dto.name.GetOr("");
    LocationEntity(dto.id, dto.category.GetOr("POI"), dto.region.GetOr("Georgia"),
      dto.lat.GetOr(0.0), dto.lng.GetOr(0.0), dto.image.GetOr(""),
      dto.name.GetOr("Place"), name, name, name, name, name, name,
      dto.descEn.GetOr(""), dto.descKa.GetOr(""), dto.descRu.GetOr(""), dto.descTr.GetOr(""),
      dto.descHy.GetOr(""), dto.descIw.GetOr(""), dto.descAr.GetOr(""))
  }

  /** A bundled location shows the same name in every language: its record's name, or "Place". */
  lemma BundledNameInEveryLanguage(dto: RawLocationDto, lang: string)
    ensures LocationUtils.DisplayName(LocationFromDto(dto), lang) == dto.name.GetOr("Place")
  {
  }

  /** The rows inserted from the bundled locations: `None` (no insert) when the file holds none. */
  function LocationsToInsert(raw: seq<RawLocationDto>): (r: Option<seq<LocationEntity>>)
    ensures r.None? <==> raw == []
    ensures r.Some? ==> |r.value| == |raw| && forall i | 0 <= i < |raw| :: r.value[i] == LocationFromDto(raw[i])
  {
    if raw == [] then None
    else Some(seq(|raw|, i requires 0 <= i < |raw| => LocationFromDto(raw[i])))
  }

  // ---------------------------------------------------------------------
  // refreshTrips: the bundled templates

  /** The per-language text fields of a template; `None` is a missing field. */
  datatype OptionalTexts = OptionalTexts(en: Option<string>, ka: Option<string>, ru: Option<string>, tr: Option<string>,
                                         hy: Option<string>, iw: Option<string>, ar: Option<string>)

  /** The texts with "" for every missing field but the English one, which takes `enDefault`. */
  function Texts(t: OptionalTexts, enDefault: string): (r: LocalizedString)
    ensures r.en == t.en.GetOr(enDefault) && r.ka == t.ka.GetOr("") && r.ru == t.ru.GetOr("")
    ensures r.tr == t.tr.GetOr("") && r.hy == t.hy.GetOr("") && r.iw == t.iw.GetOr("") && r.ar == t.ar.GetOr("")
  {
    LocalizedString(t.en.GetOr(enDefault), t.ka.GetOr(""), t.ru.GetOr(""), t.tr.GetOr(""),
      t.hy.GetOr(""), t.iw.GetOr(""), t.ar.GetOr(""))
  }

  /** A record of `mission_templates.json`. */
  datatype TripTemplateDto = TripTemplateDto(
    id: string,
    image: Option<string>,
    category: Option<string>,
    difficulty: Option<string>,
    durationDays: Option<int>,
    sequence: Option<seq<int>>,
    title: OptionalTexts,
    description: OptionalTexts)

  function HasId(): TripTemplateDto -> bool {
    (t: TripTemplateDto) => t.id != ""
  }

  /** The row for a template: `None` for an empty id, else the template with its defaults. */
  function TemplateEntity(t: TripTemplateDto): (r: Option<TripEntity>)
    ensures r.None? <==> t.id == ""
    ensures r.Some? ==>
      && r.value.id == t.id && r.value.imageUrl == t.image.GetOr("")
      && r.value.category == t.category.GetOr("CULTURE") && r.value.difficulty == t.difficulty.GetOr("NORMAL")
      && r.value.durationDays == t.durationDays.GetOr(1) && r.value.targetIds == t.sequence.GetOr([])
      && r.value.title == Texts(t.title, "Trip") && r.value.description == Texts(t.description, "")
      && !r.value.isLocked && !r.value.isPremium && !r.value.hasSnowWarning
  {
    if t.id != "" then
      Some(TripEntity(t.id, Texts(t.title, "Trip"), Texts(t.description, ""), t.image.GetOr(""),
        t.category.GetOr("CULTURE"), t.difficulty.GetOr("NORMAL"), t.durationDays.GetOr(1),
        false, false, false, t.sequence.GetOr([])))
    else None
  }

  /** `templates.mapNotNull { ... }`. */
  function TemplateEntities(templates: seq<TripTemplateDto>): seq<TripEntity> {
    MapNotNull(templates, TemplateEntity)
  }

  /** One row per template with an id, in file order, none with an empty id. */
  lemma TemplateEntitiesFollowTemplates(templates: seq<TripTemplateDto>)
    ensures var r := TemplateEntities(templates); var kept := Filter(templates, HasId());
      && |r| == |kept| <= |templates|
      && (forall i | 0 <= i < |r| :: Some(r[i]) == TemplateEntity(kept[i]))
      && forall i | 0 <= i < |r| :: r[i].id != ""
  {
    MapNotNullFollowsFilter(templates, TemplateEntity, HasId());
  }

  /** The custom-trip entry every refresh puts first. */
  const SANDBOX := TripEntity(
    "meta_sandbox",
    LocalizedString("BUILD YOUR DREAM TRIP", "ააწყე შენი ტური", "СОЗДАЙ СВОЙ ТУР", "HAYALİNDEKİ TURU YAP",
                    "ՍՏԵՂԾԻՐ ՔՈ ՏՈՒՐԸ", "בנה את הטיול שלך", "اصنع رحلتك"),
    LocalizedString("Fabricate a custom journey from 800+ locations.",
                    "შექმენით ინდივიდუალური მარშრუტი 800+ ადგილიდან.",
                    "Создайте свой маршрут из 800+ мест.",
                    "800+ noktadan özel rota oluştur.",
                    "Ստեղწեք անհատական երთუღი 800+ վայրերից:",
                    "צור מסלול מותאם אישית מ-800+ מיקומים.",
                    "اصنع مسارًا مخصصًا من أكثر من 800 موقع."),
    "https://images.pexels.com/photos/32307/pexels-photo.jpg",
    "GUIDE", "RELAXED", 1, false, false, false, [])

  /** The rows `refreshTrips` inserts: the templates' rows behind the sandbox, added at index 0. */
  method TripsToInsert(templates: seq<TripTemplateDto>) returns (entities: seq<TripEntity>)
    ensures |entities| == |Filter(templates, HasId())| + 1
    ensures entities[0] == SANDBOX && entities[1..] == TemplateEntities(templates)
  {
    entities := TemplateEntities(templates);
    TemplateEntitiesFollowTemplates(templates);
    entities := [SANDBOX] + entities;
  }

  /** Template rows never collide with the sandbox's id: the sandbox keeps its place unless a template is named like it. */
  lemma SandboxFirstAndOnce(templates: seq<TripTemplateDto>)
    requires forall i | 0 <= i < |templates| :: templates[i].id != SANDBOX.id
    ensures var r := [SANDBOX] + TemplateEntities(templates);
      forall i | 1 <= i < |r| :: r[i].id != SANDBOX.id
  {
    var f := Filter(templates, HasId());
    var r := [SANDBOX] + TemplateEntities(templates);
    TemplateEntitiesFollowTemplates(templates);
    forall i | 1 <= i < |r|
      ensures r[i].id != SANDBOX.id
    {
      assert Some(r[i]) == TemplateEntity(f[i - 1]);
      assert f[i - 1] in templates;
    }
  }

  /**
   * The sandbox's category "GUIDE" is no `RouteCategory`, so the domain trip
   * it becomes is filed under `CULTURE`.
   */
  lemma SandboxBecomesCulture(locations: seq<LocationEntity>)
    ensures MapEntityToDomain(SANDBOX, false, locations).category == CULTURE
    ensures MapEntityToDomain(SANDBOX, false, locations).difficulty == RELAXED
  {
    assert RouteCategoryValueOf("GUIDE") == None;
    assert DifficultyValueOf("RELAXED") == Some(RELAXED);
  }
}

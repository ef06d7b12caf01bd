/**
 * `LogisticsProfileManager`: the traveller's logistics profile stored
 * field by field in a preferences map. Enums are stored by name and parsed
 * back with a fixed fallback for missing or unknown names; dates are only
 * written when present.
 */
module LogisticsProfileManager {
  import opened Wrappers
  import opened Domain
  import opened DataStore

  /** `valueOf(prefs[key] ?: fallback.name)`, with `fallback` on an unknown name. */
  function StrategyOf(p: Prefs): (r: TransportStrategy)
    ensures GetStr(p, KEY_STRATEGY).Some? && TransportStrategyValueOf(GetStr(p, KEY_STRATEGY).value).Some?
      ==> r == TransportStrategyValueOf(GetStr(p, KEY_STRATEGY).value).value
    ensures GetStr(p, KEY_STRATEGY).None? || TransportStrategyValueOf(GetStr(p, KEY_STRATEGY).value).None?
      ==> r == PASSENGER_URBAN
  {
    TransportStrategyValueOf(GetStr(p, KEY_STRATEGY).GetOr(TransportStrategyName(PASSENGER_URBAN))).GetOr(PASSENGER_URBAN)
  }

  function VehicleStatusOf(p: Prefs): (r: VehicleStatus)
    ensures GetStr(p, KEY_VEHICLE_STATUS).Some? && VehicleStatusValueOf(GetStr(p, KEY_VEHICLE_STATUS).value).Some?
      ==> r == VehicleStatusValueOf(GetStr(p, KEY_VEHICLE_STATUS).value).value
    ensures GetStr(p, KEY_VEHICLE_STATUS).None? || VehicleStatusValueOf(GetStr(p, KEY_VEHICLE_STATUS).value).None?
      ==> r == NONE
  {
    VehicleStatusValueOf(GetStr(p, KEY_VEHICLE_STATUS).GetOr(VehicleStatusName(NONE))).GetOr(NONE)
  }

  /** An entry or exit point under `key`, falling back to Tbilisi airport. */
  function PointOf(p: Prefs, key: Key): (r: EntryPoint)
    ensures GetStr(p, key).Some? && EntryPointValueOf(GetStr(p, key).value).Some?
      ==> r == EntryPointValueOf(GetStr(p, key).value).value
    ensures GetStr(p, key).None? || EntryPointValueOf(GetStr(p, key).value).None?
      ==> r == AIRPORT_TBS
  {
    EntryPointValueOf(GetStr(p, key).GetOr(EntryPointName(AIRPORT_TBS))).GetOr(AIRPORT_TBS)
  }

  function TransportTypeOf(p: Prefs): (r: TransportType)
    ensures GetStr(p, KEY_TRANSPORT_TYPE).Some? && TransportTypeValueOf(GetStr(p, KEY_TRANSPORT_TYPE).value).Some?
      ==> r == TransportTypeValueOf(GetStr(p, KEY_TRANSPORT_TYPE).value).value
    ensures GetStr(p, KEY_TRANSPORT_TYPE).None? || TransportTypeValueOf(GetStr(p, KEY_TRANSPORT_TYPE).value).None?
      ==> r == TAXI
  {
    TransportTypeValueOf(GetStr(p, KEY_TRANSPORT_TYPE).GetOr(TransportTypeName(TAXI))).GetOr(TAXI)
  }

  /** `logisticsProfile`: the stored profile, field by field. */
  function ProfileOf(p: Prefs): (r: LogisticsProfile)
    ensures r.startDate == GetLong(p, KEY_START_DATE) && r.endDate == GetLong(p, KEY_END_DATE)
    ensures GetBool(p, KEY_IS_BY_AIR).None? ==> r.isByAir
    ensures GetBool(p, KEY_NEEDS_FLIGHT).None? ==> !r.needsFlight
    ensures GetBool(p, KEY_NEEDS_TRANSPORT).None? ==> !r.needsTransport
    ensures GetBool(p, KEY_NEEDS_ACCOMMODATION).None? ==> !r.needsAccommodation
    ensures GetBool(p, KEY_NEEDS_ESIM).None? ==> !r.needsEsim
  {
    LogisticsProfile(
      StrategyOf(p),
      VehicleStatusOf(p),
      PointOf(p, KEY_ENTRY_POINT),
      PointOf(p, KEY_EXIT_POINT),
      GetLong(p, KEY_START_DATE),
      GetLong(p, KEY_END_DATE),
      GetBool(p, KEY_IS_BY_AIR).GetOr(true),
      GetBool(p, KEY_NEEDS_ACCOMMODATION).GetOr(false),
      GetBool(p, KEY_NEEDS_ESIM).GetOr(false),
      GetBool(p, KEY_NEEDS_FLIGHT).GetOr(false),
      GetBool(p, KEY_NEEDS_TRANSPORT).GetOr(false),
      TransportTypeOf(p))
  }

  /** What `saveFullProfile` writes under `k`, if anything: the dates only when present. */
  function WrittenValue(profile: LogisticsProfile, k: Key): Option<Value> {
    match k
    case KEY_STRATEGY => Some(Str(TransportStrategyName(profile.transportStrategy)))
    case KEY_VEHICLE_STATUS => Some(Str(VehicleStatusName(profile.vehicleStatus)))
    case KEY_ENTRY_POINT => Some(Str(EntryPointName(profile.entryPoint)))
    case KEY_EXIT_POINT => Some(Str(EntryPointName(profile.exitPoint)))
    case KEY_START_DATE => if profile.startDate.Some? then Some(LongV(profile.startDate.value)) else None
    case KEY_END_DATE => if profile.endDate.Some? then Some(LongV(profile.endDate.value)) else None
    case KEY_IS_BY_AIR => Some(Bool(profile.isByAir))
    case KEY_NEEDS_FLIGHT => Some(Bool(profile.needsFlight))
    case KEY_NEEDS_TRANSPORT => Some(Bool(profile.needsTransport))
    case KEY_NEEDS_ACCOMMODATION => Some(Bool(profile.needsAccommodation))
    case KEY_NEEDS_ESIM => Some(Bool(profile.needsEsim))
    case KEY_TRANSPORT_TYPE => Some(Str(TransportTypeName(profile.transportType)))
    case _ => None
  }

  /** `saveFullProfile`'s new map, written field by field. */
  function SavedProfile(p: Prefs, profile: LogisticsProfile): Prefs {
    var q := p[KEY_STRATEGY := Str(TransportStrategyName(profile.transportStrategy))]
              [KEY_VEHICLE_STATUS := Str(VehicleStatusName(profile.vehicleStatus))]
              [KEY_ENTRY_POINT := Str(EntryPointName(profile.entryPoint))]
              [KEY_EXIT_POINT := Str(EntryPointName(profile.exitPoint))];
    var withStart := if profile.startDate.Some? then q[KEY_START_DATE := LongV(profile.startDate.value)] else q;
    var withEnd := if profile.endDate.Some? then withStart[KEY_END_DATE := LongV(profile.endDate.value)] else withStart;
    withEnd[KEY_IS_BY_AIR := Bool(profile.isByAir)]
           [KEY_NEEDS_FLIGHT := Bool(profile.needsFlight)]
           [KEY_NEEDS_TRANSPORT := Bool(profile.needsTransport)]
           [KEY_NEEDS_ACCOMMODATION := Bool(profile.needsAccommodation)]
           [KEY_NEEDS_ESIM := Bool(profile.needsEsim)]
           [KEY_TRANSPORT_TYPE := Str(TransportTypeName(profile.transportType))]
  }

  /** An empty store reads as the fallback profile. */
  lemma EmptyStoreFallbacks()
    ensures ProfileOf(map[]) == LogisticsProfile(PASSENGER_URBAN, NONE, AIRPORT_TBS, AIRPORT_TBS, None, None,
                                                 true, false, false, false, false, TAXI)
  {
  }

  /**
   * The fallback transport type (`TAXI`) is not the data class default
   * (`RENTAL_4X4`): an empty store does not read as `LogisticsProfile()`.
   */
  lemma EmptyStoreIsNotDefaultProfile()
    ensures ProfileOf(map[]) != DEFAULT_PROFILE
    ensures ProfileOf(map[]) == DEFAULT_PROFILE.(transportType := TAXI)
  {
    EmptyStoreFallbacks();
  }

  /** A lookup in the saved map: a written key holds what was written, any other key is untouched. */
  lemma SavedLookup(p: Prefs, profile: LogisticsProfile, k: Key)
    ensures WrittenValue(profile, k).Some? ==>
      k in SavedProfile(p, profile) && SavedProfile(p, profile)[k] == WrittenValue(profile, k).value
    ensures WrittenValue(profile, k).None? ==>
      (k in SavedProfile(p, profile) <==> k in p) && (k in p ==> SavedProfile(p, profile)[k] == p[k])
  {
    if WrittenValue(profile, k).Some? {
      SavedWrittenKey(p, profile, k);
    } else {
      SavedOtherKey(p, profile, k);
    }
  }

  lemma SavedWrittenKey(p: Prefs, profile: LogisticsProfile, k: Key)
    requires WrittenValue(profile, k).Some?
    ensures k in SavedProfile(p, profile) && SavedProfile(p, profile)[k] == WrittenValue(profile, k).value
  {
  }

  lemma SavedOtherKey(p: Prefs, profile: LogisticsProfile, k: Key)
    requires WrittenValue(profile, k).None?
    ensures k in SavedProfile(p, profile) <==> k in p
    ensures k in p ==> SavedProfile(p, profile)[k] == p[k]
  {
  }

  /** The strategy and vehicle status read back as saved. */
  lemma SavedStrategyReadsBack(p: Prefs, profile: LogisticsProfile)
    ensures StrategyOf(SavedProfile(p, profile)) == profile.transportStrategy
    ensures VehicleStatusOf(SavedProfile(p, profile)) == profile.vehicleStatus
  {
    TransportStrategyRoundTrip(profile.transportStrategy);
    VehicleStatusRoundTrip(profile.vehicleStatus);
    SavedLookup(p, profile, KEY_STRATEGY);
    SavedLookup(p, profile, KEY_VEHICLE_STATUS);
    assert GetStr(SavedProfile(p, profile), KEY_STRATEGY) == Some(TransportStrategyName(profile.transportStrategy));
    assert GetStr(SavedProfile(p, profile), KEY_VEHICLE_STATUS) == Some(VehicleStatusName(profile.vehicleStatus));
  }

  /** The entry and exit points and the transport type read back as saved. */
  lemma SavedPointsReadBack(p: Prefs, profile: LogisticsProfile)
    ensures PointOf(SavedProfile(p, profile), KEY_ENTRY_POINT) == profile.entryPoint
    ensures PointOf(SavedProfile(p, profile), KEY_EXIT_POINT) == profile.exitPoint
    ensures TransportTypeOf(SavedProfile(p, profile)) == profile.transportType
  {
    EntryPointRoundTrip(profile.entryPoint);
    EntryPointRoundTrip(profile.exitPoint);
    TransportTypeRoundTrip(profile.transportType);
    SavedLookup(p, profile, KEY_ENTRY_POINT);
    SavedLookup(p, profile, KEY_EXIT_POINT);
    SavedLookup(p, profile, KEY_TRANSPORT_TYPE);
    assert GetStr(SavedProfile(p, profile), KEY_ENTRY_POINT) == Some(EntryPointName(profile.entryPoint));
    assert GetStr(SavedProfile(p, profile), KEY_EXIT_POINT) == Some(EntryPointName(profile.exitPoint));
    assert GetStr(SavedProfile(p, profile), KEY_TRANSPORT_TYPE) == Some(TransportTypeName(profile.transportType));
  }

  /** The flags read back as saved. */
  lemma SavedFlagsReadBack(p: Prefs, profile: LogisticsProfile)
    ensures GetBool(SavedProfile(p, profile), KEY_IS_BY_AIR) == Some(profile.isByAir)
    ensures GetBool(SavedProfile(p, profile), KEY_NEEDS_FLIGHT) == Some(profile.needsFlight)
    ensures GetBool(SavedProfile(p, profile), KEY_NEEDS_TRANSPORT) == Some(profile.needsTransport)
    ensures GetBool(SavedProfile(p, profile), KEY_NEEDS_ACCOMMODATION) == Some(profile.needsAccommodation)
    ensures GetBool(SavedProfile(p, profile), KEY_NEEDS_ESIM) == Some(profile.needsEsim)
  {
    SavedLookup(p, profile, KEY_IS_BY_AIR);
    SavedLookup(p, profile, KEY_NEEDS_FLIGHT);
    SavedLookup(p, profile, KEY_NEEDS_TRANSPORT);
    SavedLookup(p, profile, KEY_NEEDS_ACCOMMODATION);
    SavedLookup(p, profile, KEY_NEEDS_ESIM);
  }

  /** Each date reads back as saved, or as before when the profile has none. */
  lemma SavedDatesReadBack(p: Prefs, profile: LogisticsProfile)
    ensures GetLong(SavedProfile(p, profile), KEY_START_DATE)
         == if profile.startDate.Some? then profile.startDate else GetLong(p, KEY_START_DATE)
    ensures GetLong(SavedProfile(p, profile), KEY_END_DATE)
         == if profile.endDate.Some? then profile.endDate else GetLong(p, KEY_END_DATE)
  {
    SavedLookup(p, profile, KEY_START_DATE);
    SavedLookup(p, profile, KEY_END_DATE);
  }

  /** A profile with both dates reads back unchanged after it is saved. */
  lemma SaveThenLoad(p: Prefs, profile: LogisticsProfile)
    requires profile.startDate.Some? && profile.endDate.Some?
    ensures ProfileOf(SavedProfile(p, profile)) == profile
  {
    SavedStrategyReadsBack(p, profile);
    SavedPointsReadBack(p, profile);
    SavedFlagsReadBack(p, profile);
    SavedDatesReadBack(p, profile);
  }

  /** Without dates, a save keeps the stored dates and replaces every other field. */
  lemma SaveWithoutDatesKeepsDates(p: Prefs, profile: LogisticsProfile)
    requires profile.startDate.None? && profile.endDate.None?
    ensures ProfileOf(SavedProfile(p, profile))
         == profile.(startDate := ProfileOf(p).startDate, endDate := ProfileOf(p).endDate)
  {
    SavedStrategyReadsBack(p, profile);
    SavedPointsReadBack(p, profile);
    SavedFlagsReadBack(p, profile);
    SavedDatesReadBack(p, profile);
  }

  /** Saving the same profile twice leaves the store as after one save. */
  lemma SaveTwice(p: Prefs, profile: LogisticsProfile)
    ensures SavedProfile(SavedProfile(p, profile), profile) == SavedProfile(p, profile)
  {
    var once := SavedProfile(p, profile);
    var twice := SavedProfile(once, profile);
    forall k ensures (k in twice <==> k in once) && (k in once ==> twice[k] == once[k]) {
      SavedLookup(p, profile, k);
      SavedLookup(once, profile, k);
    }
  }

  class Manager {
    var prefs: Prefs

    constructor (initial: Prefs)
      ensures prefs == initial
    {
      prefs := initial;
    }

    method SaveFullProfile(profile: LogisticsProfile)
      modifies this
      ensures prefs == SavedProfile(old(prefs), profile)
    {
      prefs := prefs[KEY_STRATEGY := Str(TransportStrategyName(profile.transportStrategy))];
      prefs := prefs[KEY_VEHICLE_STATUS := Str(VehicleStatusName(profile.vehicleStatus))];
      prefs := prefs[KEY_ENTRY_POINT := Str(EntryPointName(profile.entryPoint))];
      prefs := prefs[KEY_EXIT_POINT := Str(EntryPointName(profile.exitPoint))];
      if profile.startDate.Some? {
        prefs := prefs[KEY_START_DATE := LongV(profile.startDate.value)];
      }
      if profile.endDate.Some? {
        prefs := prefs[KEY_END_DATE := LongV(profile.endDate.value)];
      }
      prefs := prefs[KEY_IS_BY_AIR := Bool(profile.isByAir)];
      prefs := prefs[KEY_NEEDS_FLIGHT := Bool(profile.needsFlight)];
      prefs := prefs[KEY_NEEDS_TRANSPORT := Bool(profile.needsTransport)];
      prefs := prefs[KEY_NEEDS_ACCOMMODATION := Bool(profile.needsAccommodation)];
      prefs := prefs[KEY_NEEDS_ESIM := Bool(profile.needsEsim)];
      prefs := prefs[KEY_TRANSPORT_TYPE := Str(TransportTypeName(profile.transportType))];
    }
  }
}

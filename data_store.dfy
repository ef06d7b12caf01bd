/**
 * A preferences store as the app's `DataStore<Preferences>` presents it: a
 * map from typed keys to values. A key holding a value of another
 * type reads as absent.
 */
module DataStore {
  import opened Wrappers

  datatype Value =
    | Str(s: string)
    | Bool(b: bool)
    | Dbl(d: real)
    | IntV(i: int)
    | LongV(l: int)
    | StrSet(ss: set<string>)

  /** The app's preference keys: `PreferenceManager`'s, then `LogisticsProfileManager`'s. */
  datatype Key =
    | KEY_STATE
    | KEY_ACTIVE_TRIP
    | KEY_IS_PRO
    | KEY_HAS_SEEN_TUTORIAL
    | KEY_LANGUAGE
    | KEY_FOB_LAT
    | KEY_FOB_LNG
    | KEY_HAS_FOB
    | KEY_COMPLETED_NODES
    | KEY_ACTIVE_TARGET_IDX
    | KEY_ACTIVE_LOADOUT
    | KEY_EXTRACTION_TYPE
    | KEY_DRAFT_IDS
    | KEY_DRAFT_TITLE
    | KEY_DRAFT_TRIP_ID
    | KEY_ENTRY_POINT
    | KEY_EXIT_POINT
    | KEY_START_DATE
    | KEY_END_DATE
    | KEY_STRATEGY
    | KEY_VEHICLE_STATUS
    | KEY_IS_BY_AIR
    | KEY_NEEDS_FLIGHT
    | KEY_NEEDS_TRANSPORT
    | KEY_NEEDS_ACCOMMODATION
    | KEY_NEEDS_ESIM
    | KEY_TRANSPORT_TYPE

  /** The name each key is stored under. */
  function KeyName(k: Key): string {
    match k
    case KEY_STATE => "journey_state"
    case KEY_ACTIVE_TRIP => "active_trip_id"
    case KEY_IS_PRO => "is_pro_user"
    case KEY_HAS_SEEN_TUTORIAL => "has_seen_tutorial"
    case KEY_LANGUAGE => "user_language"
    case KEY_FOB_LAT => "mission_fob_lat"
    case KEY_FOB_LNG => "mission_fob_lng"
    case KEY_HAS_FOB => "mission_has_fob"
    case KEY_COMPLETED_NODES => "mission_completed_nodes"
    case KEY_ACTIVE_TARGET_IDX => "mission_active_target_idx"
    case KEY_ACTIVE_LOADOUT => "mission_active_loadout"
    case KEY_EXTRACTION_TYPE => "mission_extraction_type"
    case KEY_DRAFT_IDS => "draft_mission_ids"
    case KEY_DRAFT_TITLE => "draft_mission_title"
    case KEY_DRAFT_TRIP_ID => "draft_trip_id"
    case KEY_ENTRY_POINT => "logistics_entry_point"
    case KEY_EXIT_POINT => "logistics_exit_point"
    case KEY_START_DATE => "logistics_start_date"
    case KEY_END_DATE => "logistics_end_date"
    case KEY_STRATEGY => "logistics_strategy"
    case KEY_VEHICLE_STATUS => "logistics_vehicle_status"
    case KEY_IS_BY_AIR => "logistics_is_by_air"
    case KEY_NEEDS_FLIGHT => "logistics_needs_flight"
    case KEY_NEEDS_TRANSPORT => "logistics_needs_transport"
    case KEY_NEEDS_ACCOMMODATION => "logistics_needs_accommodation"
    case KEY_NEEDS_ESIM => "logistics_needs_esim"
    case KEY_TRANSPORT_TYPE => "logistics_transport_type"
  }

  type Prefs = map<Key, Value>

  function GetStr(p: Prefs, k: Key): (r: Option<string>)
    ensures r.Some? <==> k in p && p[k].Str?
    ensures r.Some? ==> p[k] == Str(r.value)
  {
    if k in p && p[k].Str? then Some(p[k].s) else None
  }

  function GetBool(p: Prefs, k: Key): (r: Option<bool>)
    ensures r.Some? <==> k in p && p[k].Bool?
    ensures r.Some? ==> p[k] == Bool(r.value)
  {
    if k in p && p[k].Bool? then Some(p[k].b) else None
  }

  function GetDbl(p: Prefs, k: Key): (r: Option<real>)
    ensures r.Some? <==> k in p && p[k].Dbl?
    ensures r.Some? ==> p[k] == Dbl(r.value)
  {
    if k in p && p[k].Dbl? then Some(p[k].d) else None
  }

  function GetInt(p: Prefs, k: Key): (r: Option<int>)
    ensures r.Some? <==> k in p && p[k].IntV?
    ensures r.Some? ==> p[k] == IntV(r.value)
  {
    if k in p && p[k].IntV? then Some(p[k].i) else None
  }

  function GetLong(p: Prefs, k: Key): (r: Option<int>)
    ensures r.Some? <==> k in p && p[k].LongV?
    ensures r.Some? ==> p[k] == LongV(r.value)
  {
    if k in p && p[k].LongV? then Some(p[k].l) else None
  }

  function GetStrSet(p: Prefs, k: Key): (r: Option<set<string>>)
    ensures r.Some? <==> k in p && p[k].StrSet?
    ensures r.Some? ==> p[k] == StrSet(r.value)
  {
    if k in p && p[k].StrSet? then Some(p[k].ss) else None
  }
}

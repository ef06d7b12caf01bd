/**
 * `PreferenceManager`: the journey state, the active mission (base camp,
 * completed targets, active target, loadout, extraction) and the mission
 * draft, kept in a preferences map. Each decoder is a function of the map
 * (`None` where the Kotlin flow would throw); each `edit { }` block is a
 * method of `Store` specified by a function of the old map.
 */
module PreferenceManager {
  import opened Wrappers
  import opened Text
  import opened Lists
  import opened Domain
  import opened DataStore

  const DRAFT_KEYS := {KEY_DRAFT_IDS, KEY_DRAFT_TITLE, KEY_DRAFT_TRIP_ID}

  datatype UserSession = UserSession(
    state: UserJourneyState,
    activePathId: Option<string>,
    isProUser: bool,
    activeStepIndex: int,
    hasSeenTutorial: bool,
    language: string)

  datatype MissionState = MissionState(
    tripId: string,
    fobLocation: Option<GeoPoint>,
    completedNodeIndices: set<int>,
    activeNodeIndex: Option<int>,
    extractionType: ExtractionType)

  datatype Draft = Draft(ids: seq<int>, title: string, tripId: string)

  // ---------------------------------------------------------------------
  // Decoders

  /** `userSession`; `None` where the stored journey state is not a state name. */
  function SessionOf(p: Prefs): (r: Option<UserSession>)
    ensures GetStr(p, KEY_STATE).None? ==> r.Some? && r.value.state == BROWSING
    ensures r.Some? ==> r.value.activePathId == GetStr(p, KEY_ACTIVE_TRIP)
    ensures r.Some? && GetStr(p, KEY_LANGUAGE).None? ==> r.value.language == "en"
  {
    match UserJourneyStateValueOf(GetStr(p, KEY_STATE).GetOr(UserJourneyStateName(BROWSING)))
    case None => None
    case Some(state) =>
      Some(UserSession(state, GetStr(p, KEY_ACTIVE_TRIP), GetBool(p, KEY_IS_PRO).GetOr(false), 0,
                       GetBool(p, KEY_HAS_SEEN_TUTORIAL).GetOr(false), GetStr(p, KEY_LANGUAGE).GetOr("en")))
  }

  /** The base camp: present exactly when the has-base flag is set. */
  function FobOf(p: Prefs): (r: Option<GeoPoint>)
    ensures r.Some? <==> GetBool(p, KEY_HAS_FOB) == Some(true)
  {
    if GetBool(p, KEY_HAS_FOB).GetOr(false) then
      Some(GeoPoint(GetDbl(p, KEY_FOB_LAT).GetOr(0.0), GetDbl(p, KEY_FOB_LNG).GetOr(0.0)))
    else None
  }

  /** The values of the entries that are `Int`s. */
  function ParsedSet(ss: set<string>): set<int> {
    set s | s in ss && ToIntOrNull(s).Some? :: ToIntOrNull(s).value
  }

  /** The completed targets; `None` where a stored entry is not an `Int` (`toInt` throws). */
  function CompletedOf(p: Prefs): (r: Option<set<int>>)
    ensures GetStrSet(p, KEY_COMPLETED_NODES).None? ==> r == Some({})
    ensures r.Some? && GetStrSet(p, KEY_COMPLETED_NODES).Some? ==>
      r.value == ParsedSet(GetStrSet(p, KEY_COMPLETED_NODES).value)
    ensures r.Some? ==> forall n | n in r.value :: IsInt32(n)
  {
    match GetStrSet(p, KEY_COMPLETED_NODES)
    case None => Some({})
    case Some(ss) =>
      if forall s | s in ss :: ToIntOrNull(s).Some? then Some(ParsedSet(ss)) else None
  }

  /** The active target index; a stored -1 means none. */
  function ActiveIndexOf(p: Prefs): (r: Option<int>)
    ensures r != Some(-1)
    ensures r.None? <==> GetInt(p, KEY_ACTIVE_TARGET_IDX) in {None, Some(-1)}
  {
    match GetInt(p, KEY_ACTIVE_TARGET_IDX)
    case None => None
    case Some(i) => if i == -1 then None else Some(i)
  }

  /** The extraction choice; `None` where the stored text is not a name (`valueOf` throws). */
  function ExtractionOf(p: Prefs): (r: Option<ExtractionType>)
    ensures GetStr(p, KEY_EXTRACTION_TYPE).None? ==> r == Some(RETURN_TO_FOB)
  {
    ExtractionTypeValueOf(GetStr(p, KEY_EXTRACTION_TYPE).GetOr(ExtractionTypeName(RETURN_TO_FOB)))
  }

  /** `missionState`. */
  function MissionStateOf(p: Prefs): (r: Option<MissionState>)
    ensures r.Some? <==> CompletedOf(p).Some? && ExtractionOf(p).Some?
    ensures r.Some? ==> r.value.fobLocation == FobOf(p) && r.value.activeNodeIndex == ActiveIndexOf(p)
    ensures r.Some? ==> r.value.tripId == GetStr(p, KEY_ACTIVE_TRIP).GetOr("")
  {
    match (CompletedOf(p), ExtractionOf(p))
    case (Some(done), Some(x)) =>
      Some(MissionState(GetStr(p, KEY_ACTIVE_TRIP).GetOr(""), FobOf(p), done, ActiveIndexOf(p), x))
    case _ => None
  }

  /** `map { it.toInt() }`: every piece must be an `Int`, else the flow throws. */
  function ToInts(pieces: seq<string>): (r: Option<seq<int>>)
    ensures r.Some? <==> forall i | 0 <= i < |pieces| :: ToIntOrNull(pieces[i]).Some?
    ensures r.Some? ==> |r.value| == |pieces|
  {
    if pieces == [] then Some([])
    else
      var head := ToIntOrNull(pieces[0]);
      var rest := ToInts(pieces[1..]);
      assert forall i | 1 <= i < |pieces| :: pieces[i] == pieces[1..][i - 1];
      if head.Some? && rest.Some? then Some([head.value] + rest.value) else None
  }

  function NonEmpty(): string -> bool {
    (s: string) => s != ""
  }

  /** `activeLoadout`: split, drop empty pieces, `toInt` each. */
  function ActiveLoadoutOf(p: Prefs): (r: Option<seq<int>>)
    ensures GetStr(p, KEY_ACTIVE_LOADOUT).None? ==> r == Some([])
  {
    match GetStr(p, KEY_ACTIVE_LOADOUT)
    case None => Some([])
    case Some(s) => ToInts(Filter(Split(s, ','), NonEmpty()))
  }

  /** `draftMissionData`: the draft ids keep only pieces that are `Int`s. */
  function DraftOf(p: Prefs): (r: Draft)
    ensures GetStr(p, KEY_DRAFT_IDS).None? ==> r.ids == []
    ensures forall i | 0 <= i < |r.ids| :: IsInt32(r.ids[i])
  {
    Draft(
      match GetStr(p, KEY_DRAFT_IDS) case None => [] case Some(s) => MapToIntOrNull(Split(s, ',')),
      GetStr(p, KEY_DRAFT_TITLE).GetOr(""),
      GetStr(p, KEY_DRAFT_TRIP_ID).GetOr(""))
  }

  // ---------------------------------------------------------------------
  // Edits

  function SavedDraft(p: Prefs, ids: seq<int>, title: string, tripId: string): Prefs {
    p[KEY_DRAFT_IDS := Str(JoinInts(ids))][KEY_DRAFT_TITLE := Str(title)][KEY_DRAFT_TRIP_ID := Str(tripId)]
  }

  function ClearedDraft(p: Prefs): Prefs {
    p - DRAFT_KEYS
  }

  function SavedLoadout(p: Prefs, ids: seq<int>): Prefs {
    p[KEY_ACTIVE_LOADOUT := Str(JoinInts(ids))]
  }

  function SavedExtraction(p: Prefs, x: ExtractionType): Prefs {
    p[KEY_EXTRACTION_TYPE := Str(ExtractionTypeName(x))]
  }

  function WithFob(p: Prefs, location: GeoPoint): Prefs {
    p[KEY_HAS_FOB := Bool(true)][KEY_FOB_LAT := Dbl(location.latitude)][KEY_FOB_LNG := Dbl(location.longitude)]
  }

  /** `setActiveTarget(index)`: null is stored as -1. */
  function WithActiveTarget(p: Prefs, index: Option<int>): Prefs {
    p[KEY_ACTIVE_TARGET_IDX := IntV(index.GetOr(-1))]
  }

  function WithTargetComplete(p: Prefs, locationId: int): Prefs {
    var current := GetStrSet(p, KEY_COMPLETED_NODES).GetOr({});
    p[KEY_COMPLETED_NODES := StrSet(current + {IntToString(locationId)})]
  }

  /** `updateState(state, pathId)`: a null path id leaves the active trip alone. */
  function WithState(p: Prefs, state: UserJourneyState, pathId: Option<string>): Prefs {
    var q := p[KEY_STATE := Str(UserJourneyStateName(state))];
    if pathId.Some? then q[KEY_ACTIVE_TRIP := Str(pathId.value)] else q
  }

  function ClearedMission(p: Prefs): Prefs {
    (p[KEY_HAS_FOB := Bool(false)] - {KEY_FOB_LAT, KEY_FOB_LNG})
      [KEY_COMPLETED_NODES := StrSet({})][KEY_ACTIVE_TARGET_IDX := IntV(-1)]
      - {KEY_ACTIVE_TRIP, KEY_ACTIVE_LOADOUT}
  }

  function WithLanguage(p: Prefs, langCode: string): Prefs {
    p[KEY_LANGUAGE := Str(langCode)]
  }

  function WithTutorialSeen(p: Prefs, seen: bool): Prefs {
    p[KEY_HAS_SEEN_TUTORIAL := Bool(seen)]
  }

  // ---------------------------------------------------------------------
  // What the edits promise

  /** A saved loadout reads back as the same list; the empty list as the empty list. */
  lemma LoadoutRoundTrip(p: Prefs, ids: seq<int>)
    requires forall i | 0 <= i < |ids| :: IsInt32(ids[i])
    ensures ActiveLoadoutOf(SavedLoadout(p, ids)) == Some(ids)
  {
    var s := JoinInts(ids);
    assert GetStr(SavedLoadout(p, ids), KEY_ACTIVE_LOADOUT) == Some(s);
    if ids == [] {
      EmptyIdText();
      assert Filter([""], NonEmpty()) == [];
    } else {
      SplitJoinInts(ids);
      FilterKeepsPrinted(ids);
      ToIntsOfIntStrings(ids);
    }
  }

  lemma FilterKeepsPrinted(ids: seq<int>)
    ensures Filter(IntStrings(ids), NonEmpty()) == IntStrings(ids)
  {
    KeepAll(IntStrings(ids), NonEmpty());
  }

  lemma {:induction false} KeepAll<T>(s: seq<T>, p: T -> bool)
    requires forall i | 0 <= i < |s| :: p(s[i])
    ensures Filter(s, p) == s
  {
    if s != [] {
      KeepAll(s[1..], p);
      assert s == [s[0]] + s[1..];
    }
  }

  lemma {:induction false} ToIntsOfIntStrings(ids: seq<int>)
    requires forall i | 0 <= i < |ids| :: IsInt32(ids[i])
    ensures ToInts(IntStrings(ids)) == Some(ids)
  {
    if ids != [] {
      assert IntStrings(ids)[1..] == IntStrings(ids[1..]);
      ToIntsOfIntStrings(ids[1..]);
      IntToStringRoundTrip(ids[0]);
      assert IntStrings(ids)[0] == IntToString(ids[0]);
      assert [ids[0]] + ids[1..] == ids;
    }
  }

  /** A saved draft reads back as the same ids, title and trip. */
  lemma DraftRoundTrip(p: Prefs, ids: seq<int>, title: string, tripId: string)
    requires forall i | 0 <= i < |ids| :: IsInt32(ids[i])
    ensures DraftOf(SavedDraft(p, ids, title, tripId)) == Draft(ids, title, tripId)
  {
    var q := SavedDraft(p, ids, title, tripId);
    assert GetStr(q, KEY_DRAFT_IDS) == Some(JoinInts(ids));
    if ids == [] {
      EmptyIdText();
    } else {
      SplitJoinInts(ids);
      MapToIntOrNullOfIntStrings(ids);
    }
  }

  /** `clearDraft` removes exactly the three draft keys and then reads as an empty draft. */
  lemma ClearDraftRemovesDraftKeys(p: Prefs)
    ensures ClearedDraft(p).Keys == p.Keys - DRAFT_KEYS
    ensures forall k | k in ClearedDraft(p) :: ClearedDraft(p)[k] == p[k]
    ensures DraftOf(ClearedDraft(p)) == Draft([], "", "")
  {
  }

  /** `setActiveTarget(-1)` and `setActiveTarget(null)` store the same thing; both read back as null. */
  lemma ActiveTargetSentinel(p: Prefs, i: int)
    ensures WithActiveTarget(p, Some(-1)) == WithActiveTarget(p, None)
    ensures ActiveIndexOf(WithActiveTarget(p, None)) == None
    ensures i != -1 ==> ActiveIndexOf(WithActiveTarget(p, Some(i))) == Some(i)
  {
  }

  /** Marking a target complete adds its id to the completed set, once. */
  lemma MarkCompleteAddsId(p: Prefs, id: int)
    requires IsInt32(id)
    ensures WithTargetComplete(WithTargetComplete(p, id), id) == WithTargetComplete(p, id)
    ensures CompletedOf(p).Some? ==> CompletedOf(WithTargetComplete(p, id)) == Some(CompletedOf(p).value + {id})
  {
    var q := WithTargetComplete(p, id);
    var before := GetStrSet(p, KEY_COMPLETED_NODES).GetOr({});
    var t := IntToString(id);
    assert GetStrSet(q, KEY_COMPLETED_NODES) == Some(before + {t});
    IntToStringRoundTrip(id);
    if CompletedOf(p).Some? {
      assert forall s | s in before :: ToIntOrNull(s).Some?;
      assert forall s | s in before + {t} :: ToIntOrNull(s).Some?;
      assert ParsedSet({}) == {};
      assert CompletedOf(p).value == ParsedSet(before);
      ParsedSetAdd(before, t);
    }
  }

  lemma ParsedSetAdd(ss: set<string>, t: string)
    requires ToIntOrNull(t).Some?
    ensures ParsedSet(ss + {t}) == ParsedSet(ss) + {ToIntOrNull(t).value}
  {
    var a := ParsedSet(ss + {t});
    var b := ParsedSet(ss) + {ToIntOrNull(t).value};
    forall n | n in b ensures n in a {
      if n != ToIntOrNull(t).value {
        var s :| s in ss && ToIntOrNull(s).Some? && ToIntOrNull(s).value == n;
        assert s in ss + {t};
      } else {
        assert t in ss + {t};
      }
    }
  }

  /** Setting the base camp makes it read back at that point. */
  lemma SetFobReadsBack(p: Prefs, location: GeoPoint)
    ensures FobOf(WithFob(p, location)) == Some(location)
  {
  }

  /** After `clearCurrentMissionData` no mission is left. */
  lemma ClearMissionLeavesNothing(p: Prefs)
    ensures var q := ClearedMission(p);
      && FobOf(q) == None
      && CompletedOf(q) == Some({})
      && ActiveIndexOf(q) == None
      && KEY_ACTIVE_TRIP !in q && KEY_ACTIVE_LOADOUT !in q
      && ActiveLoadoutOf(q) == Some([])
  {
    assert ParsedSet({}) == {};
  }

  /** `updateState(s, null)` changes the journey state and keeps the active trip. */
  lemma UpdateStateWithoutPath(p: Prefs, state: UserJourneyState)
    ensures var q := WithState(p, state, None);
      && GetStr(q, KEY_ACTIVE_TRIP) == GetStr(p, KEY_ACTIVE_TRIP)
      && SessionOf(q).Some? && SessionOf(q).value.state == state
  {
    UserJourneyStateRoundTrip(state);
  }

  /** `updateState(s, id)` makes `id` the active trip. */
  lemma UpdateStateWithPath(p: Prefs, state: UserJourneyState, pathId: string)
    ensures var q := WithState(p, state, Some(pathId));
      SessionOf(q).Some? && SessionOf(q).value.state == state && SessionOf(q).value.activePathId == Some(pathId)
  {
    UserJourneyStateRoundTrip(state);
  }

  /** A saved extraction choice reads back. */
  lemma ExtractionRoundTrip(p: Prefs, x: ExtractionType)
    ensures ExtractionOf(SavedExtraction(p, x)) == Some(x)
  {
    ExtractionTypeRoundTrip(x);
  }

  // ---------------------------------------------------------------------
  // The store

  class Store {
    var prefs: Prefs

    constructor (initial: Prefs)
      ensures prefs == initial
    {
      prefs := initial;
    }

    method SaveDraftMission(ids: seq<int>, title: string, tripId: string)
      modifies this
      ensures prefs == SavedDraft(old(prefs), ids, title, tripId)
    {
      prefs := prefs[KEY_DRAFT_IDS := Str(JoinInts(ids))];
      prefs := prefs[KEY_DRAFT_TITLE := Str(title)];
      prefs := prefs[KEY_DRAFT_TRIP_ID := Str(tripId)];
    }

    method ClearDraft()
      modifies this
      ensures prefs == ClearedDraft(old(prefs))
    {
      prefs := prefs - {KEY_DRAFT_IDS};
      prefs := prefs - {KEY_DRAFT_TITLE};
      prefs := prefs - {KEY_DRAFT_TRIP_ID};
    }

    method SaveActiveLoadout(ids: seq<int>)
      modifies this
      ensures prefs == SavedLoadout(old(prefs), ids)
    {
      prefs := prefs[KEY_ACTIVE_LOADOUT := Str(JoinInts(ids))];
    }

    method SaveExtractionType(x: ExtractionType)
      modifies this
      ensures prefs == SavedExtraction(old(prefs), x)
    {
      prefs := prefs[KEY_EXTRACTION_TYPE := Str(ExtractionTypeName(x))];
    }

    method SetFobLocation(location: GeoPoint)
      modifies this
      ensures prefs == WithFob(old(prefs), location)
    {
      prefs := prefs[KEY_HAS_FOB := Bool(true)];
      prefs := prefs[KEY_FOB_LAT := Dbl(location.latitude)];
      prefs := prefs[KEY_FOB_LNG := Dbl(location.longitude)];
    }

    method SetActiveTarget(index: Option<int>)
      modifies this
      ensures prefs == WithActiveTarget(old(prefs), index)
    {
      prefs := prefs[KEY_ACTIVE_TARGET_IDX := IntV(if index.Some? then index.value else -1)];
    }

    method MarkTargetComplete(locationId: int)
      modifies this
      ensures prefs == WithTargetComplete(old(prefs), locationId)
    {
      var currentSet := if KEY_COMPLETED_NODES in prefs && prefs[KEY_COMPLETED_NODES].StrSet?
        then prefs[KEY_COMPLETED_NODES].ss else {};
      prefs := prefs[KEY_COMPLETED_NODES := StrSet(currentSet + {IntToString(locationId)})];
    }

    method UpdateState(state: UserJourneyState, pathId: Option<string>)
      modifies this
      ensures prefs == WithState(old(prefs), state, pathId)
    {
      prefs := prefs[KEY_STATE := Str(UserJourneyStateName(state))];
      if pathId.Some? {
        prefs := prefs[KEY_ACTIVE_TRIP := Str(pathId.value)];
      }
    }

    method ClearCurrentMissionData()
      modifies this
      ensures prefs == ClearedMission(old(prefs))
    {
      prefs := prefs[KEY_HAS_FOB := Bool(false)];
      prefs := prefs - {KEY_FOB_LAT};
      prefs := prefs - {KEY_FOB_LNG};
      prefs := prefs[KEY_COMPLETED_NODES := StrSet({})];
      prefs := prefs[KEY_ACTIVE_TARGET_IDX := IntV(-1)];
      prefs := prefs - {KEY_ACTIVE_TRIP};
      prefs := prefs - {KEY_ACTIVE_LOADOUT};
    }

    method UpdateLanguage(langCode: string)
      modifies this
      ensures prefs == WithLanguage(old(prefs), langCode)
    {
      prefs := prefs[KEY_LANGUAGE := Str(langCode)];
    }

    method SetHasSeenTutorial(seen: bool)
      modifies this
      ensures prefs == WithTutorialSeen(old(prefs), seen)
    {
      prefs := prefs[KEY_HAS_SEEN_TUTORIAL := Bool(seen)];
    }
  }
}

/**
 * `PathDetailsViewModel`: the detail screen of a trip in the user's
 * language, with its stats and one timeline item per itinerary node.
 *
 * Lengths are counted in characters; Kotlin counts UTF-16 code units, and
 * the two agree on text without characters outside the Basic Multilingual
 * Plane.
 */
module PathDetails {
  import opened Wrappers
  import opened Text
  import opened Domain

  datatype PathStats = PathStats(driveTime: string, intensity: Difficulty, hasSnowWarning: bool, durationDays: int)

  datatype TimelineUiModel = TimelineUiModel(
    id: string,
    title: string,
    shortSummary: string,
    fullDescription: string,
    imageUrl: string,
    highlights: seq<string>)

  datatype PathDetailsUiState = PathDetailsUiState(
    tripId: string,
    title: string,
    stats: PathStats,
    timelineItems: seq<TimelineUiModel>,
    isLoading: bool)

  /** `PathDetailsUiState(isLoading = true)`. */
  const LOADING := PathDetailsUiState("", "", PathStats("", RELAXED, false, 0), [], true)

  const SUMMARY_LENGTH := 60

  /** The card summary: the description itself up to 60 characters, else its first 60 and an ellipsis. */
  function ShortSummary(description: string): (r: string)
    ensures |r| <= SUMMARY_LENGTH + 3
    ensures |description| <= SUMMARY_LENGTH ==> r == description
    ensures |description| > SUMMARY_LENGTH ==> |r| == SUMMARY_LENGTH + 3 && r[..SUMMARY_LENGTH] <= description && r[SUMMARY_LENGTH..] == "..."
  {
    if |description| > SUMMARY_LENGTH then description[..SUMMARY_LENGTH] + "..." else description
  }

  /** The timeline id of node `index`. */
  function NodeId(index: nat): string {
    "node_" + IntToString(index)
  }

  /** Distinct nodes get distinct timeline ids. */
  lemma NodeIdInjective(a: nat, b: nat)
    requires NodeId(a) == NodeId(b)
    ensures a == b
  {
    assert NodeId(a)[5..] == IntToString(a);
    assert NodeId(b)[5..] == IntToString(b);
    IntToStringInjective(a, b);
  }

  /** The drive time: whole hours, `Int` division truncating toward zero, then "h". */
  function DriveTime(totalRideTimeMinutes: int): (r: string)
    ensures totalRideTimeMinutes >= 0 ==> r == IntToString(totalRideTimeMinutes / 60) + "h"
    ensures totalRideTimeMinutes < 0 ==> r == IntToString(-((-totalRideTimeMinutes) / 60)) + "h"
  {
    IntToString(TruncDiv(totalRideTimeMinutes, 60)) + "h"
  }

  /** The timeline item of node `index`. */
  function TimelineItem(trip: TripPath, index: nat, lang: string, get: Lookup): (item: TimelineUiModel)
    requires index < |trip.itinerary|
    ensures var node := trip.itinerary[index];
      && item.id == NodeId(index)
      && item.title == get(node.title, lang)
      && item.fullDescription == get(node.description, lang)
      && item.shortSummary == ShortSummary(item.fullDescription)
      && item.imageUrl == node.imageUrl.GetOr(trip.imageUrl)
      && |item.highlights| <= 1
      && (item.highlights == [] <==> node.alertType.None?)
  {
    var node := trip.itinerary[index];
    var description := get(node.description, lang);
    TimelineUiModel(NodeId(index), get(node.title, lang), ShortSummary(description), description,
      node.imageUrl.GetOr(trip.imageUrl), if node.alertType.Some? then [node.alertType.value] else [])
  }

  /** `mapToUiState`: the trip's title and stats, and one timeline item per node, in itinerary order. */
  function MapToUiState(trip: TripPath, lang: string, get: Lookup): (s: PathDetailsUiState)
    ensures !s.isLoading && s.tripId == trip.id && s.title == get(trip.title, lang)
    ensures s.stats == PathStats(DriveTime(trip.totalRideTimeMinutes), trip.difficulty, trip.hasSnowWarning, trip.durationDays)
    ensures |s.timelineItems| == |trip.itinerary|
    ensures forall i | 0 <= i < |s.timelineItems| :: s.timelineItems[i] == TimelineItem(trip, i, lang, get)
  {
    PathDetailsUiState(trip.id, get(trip.title, lang),
      PathStats(DriveTime(trip.totalRideTimeMinutes), trip.difficulty, trip.hasSnowWarning, trip.durationDays),
      seq(|trip.itinerary|, i requires 0 <= i < |trip.itinerary| => TimelineItem(trip, i, lang, get)),
      false)
  }

  /** Timeline items have pairwise distinct ids. */
  lemma TimelineIdsDistinct(trip: TripPath, lang: string, get: Lookup, i: nat, j: nat)
    requires i < j < |trip.itinerary|
    ensures MapToUiState(trip, lang, get).timelineItems[i].id != MapToUiState(trip, lang, get).timelineItems[j].id
  {
    if NodeId(i) == NodeId(j) {
      NodeIdInjective(i, j);
    }
  }

  /** `uiState`: the screen for the trip with this id, or the loading screen while it is not listed. */
  function UiState(tripId: string, lang: string, trips: seq<TripPath>, get: Lookup): (s: PathDetailsUiState)
    ensures FindTrip(trips, tripId).None? ==> s == LOADING
    ensures FindTrip(trips, tripId).Some? ==> s == MapToUiState(FindTrip(trips, tripId).value, lang, get)
    ensures s.isLoading <==> (forall i | 0 <= i < |trips| :: trips[i].id != tripId)
  {
    match FindTrip(trips, tripId)
    case None => LOADING
    case Some(trip) => MapToUiState(trip, lang, get)
  }

  /** The screen's trip id: the navigation argument, or "" without one. */
  function TripIdOf(navArg: Option<string>): string {
    navArg.GetOr("")
  }
}

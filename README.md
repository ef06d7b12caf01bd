# SakartveloGuide core, modelled in Dafny

SakartveloGuide is a travel guide to Georgia. It has two parts:

- **Two offline enrichment scripts.** They rewrite the app's master list of locations:
  - `update_locations_popularity.py` gives each location a `popularity` (5 to 100) and a `priority` (1 to 10), computed from its name, English description, category and region;
  - `update_images.py` gives each location an `image`. That is a photo found near its coordinates; failing that, it is a LoremFlickr placeholder whose keywords come from the name, category and region.
- **An Android app** that turns trips and locations into missions. The user:
  - picks stops, or starts from a trip template;
  - orders the stops with a greedy nearest-neighbour pass from a base camp (FOB);
  - answers an eight-step logistics wizard before leaving;
  - drives the trip target by target;
  - collects a passport stamp at the end.

  The app keeps its state in two preference stores:
  - the journey and the active mission: base camp, completed targets, active target, loadout, extraction;
  - the logistics profile.

## How the model is built

There is one Dafny module per source file of the core, plus five shared ones:

| module | holds |
|---|---|
| `Wrappers` | `Option` |
| `Text` | strings, ASCII decimal integers, `split`/`joinToString`/`trim`, ASCII case folding |
| `Lists` | `filter`, `mapNotNull`, `take` and a stable `sortedBy` |
| `Domain` | the app's records and enums |
| `DataStore` | a preferences store as a map from typed keys to values |

How each kind of source code is modelled:

- **Pure code** becomes functions. A function's `ensures` says what the result means, and lemmas relate one function to another.
- **Imperative code** becomes methods whose loops carry invariants. Each method is proved to compute the declarative function. This covers:
  - the scripts' `+=` accumulation and their `for … break` loops;
  - the greedy `while` loop;
  - the thread and itinerary lists built with `add`;
  - the distance map filled in a `forEach`.
- **State the source updates in place** is a class with `modifies` clauses:
  - the preferences store (`PreferenceManager.Store`);
  - the briefing's stop list;
  - the trip planner;
  - the passport repository;
  - the wizard's remembered answers.

  Each method states its new state as a function of the old state. The lemmas about those functions state what the source promises: round trips, the sentinel, set union, what a clear leaves behind.

The model follows the code rather than its own declarations where the two disagree. Records carry the fields the code uses:

- `BattleNode.location`;
- `MissionState.extractionType`;
- `LogisticsProfile.transportStrategy`;
- localized titles on `TripPath`;
- the `MissionStep.TacticalBridge` step, which MissionStep.kt does not declare; it is modelled from its uses in HomeViewModel.kt.

Some behaviour of the code, as written, is proved and worth knowing:

- **The "GUIDE"-first ordering of the home screen never applies.** The only trip filed as "GUIDE" is the custom-trip sandbox. Its category is not a `RouteCategory`, so it becomes `CULTURE` (`TripRepository.SandboxBecomesCulture`). The groups are keyed by `RouteCategory` names, so they keep the order of their first trips (`Home.GuideFirstNeverApplies`, `Home.CategoriesInFirstAppearanceOrder`).
- **An empty logistics store does not read as the default profile.** It reads as `LogisticsProfile()`, except that the transport type is `TAXI` where the data class default says `RENTAL_4X4` (`LogisticsProfileManager.EmptyStoreIsNotDefaultProfile`).
- **Popularity never drops below 5**, the base score of an unknown category. A popularity of 0 is never produced.

## Model

| member | source | states |
|---|---|---|
| PopularityScores.BaseScore | scripts/update_locations_popularity.py:19-29 | exactly one of 40/30/20/10/5 applies, each one iff the category is the matching exact string (30 for either dining spelling) |
| PopularityScores.RawPopularity | scripts/update_locations_popularity.py:31-66 | the uncapped score is at least the smallest base (5) and at most 120, with each boost added at most once |
| PopularityScores.Popularity | scripts/update_locations_popularity.py:68-73 | popularity lies in [5, 100]; it is the capped raw score unless Fabrika-in-Tbilisi applies, which raises it to at least 90 |
| PopularityScores.TouristTier | scripts/update_locations_popularity.py:82-93 | the tier is 10, 8, 6, 4 or 1 for popularity in [80,∞), [60,80), [40,60), [20,40), below 20, each band in both directions |
| PopularityScores.Priority | scripts/update_locations_popularity.py:75-101 | priority lies in [1, 10]; it is 10 under the override, otherwise the larger of 8-if-essential and the tier; an essential place gets at least 8 |
| PopularityScores.Scored | scripts/update_locations_popularity.py:103-106 | scoring keeps every source field and the image; only popularity and priority are written |
| PopularityScores.FirstKeywordBoost | scripts/update_locations_popularity.py:49-57 | the `for … break` loop adds the amount exactly once if some keyword occurs in the text, nothing otherwise |
| PopularityScores.ComputePopularity | scripts/update_locations_popularity.py:14-73 | the step-by-step accumulation with `+=`, the cap and the override computes `Popularity` |
| PopularityScores.CalculateScores | scripts/update_locations_popularity.py:8-106 | the statement-by-statement method returns the declarative `Scored` record |
| PopularityScores.ScoreAll | scripts/update_locations_popularity.py:108-121 | a missing input file yields no output; otherwise one scored record per input record, in input order |
| PopularityScores.ScoringIsIdempotent | scripts/update_locations_popularity.py:8-12 | scoring a scored record changes nothing, since scores depend only on the four source fields |
| PopularityScores.ScoreAllIsIdempotent | scripts/update_locations_popularity.py:118-121 | re-running the pass over its own output gives every record back unchanged |
| PopularityScores.EmptyRegionHasNoBoost | scripts/update_locations_popularity.py:64-66 | an empty region contains no major region, so it gets no region boost |
| PopularityScores.AnanuriFortressExample | scripts/update_locations_popularity.py:20-93 | "Ananuri Fortress" as an attraction with empty description and region scores 60 with priority 8 |
| PopularityScores.AnanuriKeywords | scripts/update_locations_popularity.py:32-57 | its search text holds a high-value keyword ("fortress") and no hotspot name |
| PopularityScores.ShoppingOnlyExample | scripts/update_locations_popularity.py:24-93 | a shop with every other field empty scores 20 with priority 4 |
| PopularityScores.CentralPharmacyExample | scripts/update_locations_popularity.py:77-97 | "Central Pharmacy" in Shopping is essential, so its priority is exactly 8 |
| PopularityScores.PharmacyKeywords | scripts/update_locations_popularity.py:45-57 | its search text holds an essential keyword and no hotspot name |
| PopularityScores.FabrikaTbilisiExample | scripts/update_locations_popularity.py:72-73 | a "Fabrika" name in region "Tbilisi" has popularity at least 90 and priority 10, whatever its category and description |
| ImageResolver.FirstRuleSpec | scripts/update_images.py:53-65 | no keyword iff no rule's pattern occurs; otherwise the keyword of a firing rule all of whose predecessors do not fire |
| ImageResolver.FirstMatchWins | scripts/update_images.py:53-65 | a firing rule preceded only by rules that do not fire decides the keyword (first match wins) |
| ImageResolver.RuleConditions | scripts/update_images.py:54-65 | each of the six name rules fires exactly when the script's `or` of substring tests holds |
| ImageResolver.NameRulesAsWritten | scripts/update_images.py:54-65 | the rule table over the lower-cased name is the script's if/elif chain, from "vineyard" to "hotel" |
| ImageResolver.NameRuleKeywords | scripts/update_images.py:51-65 | the if/elif block appends exactly the first firing rule's keyword, or nothing |
| ImageResolver.KeywordPartsShape | scripts/update_images.py:45-84 | 1 to 3 parts; "georgia" last; the region just before it iff non-empty; the name keyword first if any rule fired, else the category entry when the category is in the table |
| ImageResolver.GetKeywords | scripts/update_images.py:45-84 | the append-by-append method returns the comma join of `KeywordParts` |
| ImageResolver.JoinedEndsWith | scripts/update_images.py:84 | a join of a non-empty list ends with its last part |
| ImageResolver.KeywordsEndWithGeorgia | scripts/update_images.py:82-84 | every keyword string ends with "georgia", so it is never empty |
| ImageResolver.LoremFlickrUrlShape | scripts/update_images.py:86-89 | the URL is the fixed prefix, then the keywords, then "?lock=", then the decimal id |
| ImageResolver.LoremFlickrUrlInjective | scripts/update_images.py:86-89 | for keywords without '?', equal URLs mean equal ids and equal keywords |
| ImageResolver.FirstThumbnailIndex | scripts/update_images.py:37-39 | the index of a page with a thumbnail, all earlier pages having none; none iff no page has one |
| ImageResolver.FirstThumbnailAt | scripts/update_images.py:37-39 | the first page with a thumbnail is the one the loop returns from |
| ImageResolver.GetWikiGeoPhoto | scripts/update_images.py:15-43 | a photo iff the geosearch succeeded with a titled first hit, the page request succeeded, and its first thumbnail has a source; that source is returned; every other path is `None` |
| ImageResolver.Resolved | scripts/update_images.py:91-110 | only the image changes; it is always set; it is the tier-1 photo when that is a non-empty string, otherwise the placeholder with id defaulting to 0 |
| ImageResolver.ProcessLocation | scripts/update_images.py:91-110 | the method with its `img` reassignments returns `Resolved` |
| ImageResolver.ResolvedIgnoresOldImage | scripts/update_images.py:92-109 | the previous image value has no influence on the result |
| ImageResolver.RunPipeline | scripts/update_images.py:112-129 | a missing input file yields no output; otherwise one resolved record per input, in input order |
| ImageResolver.MaraniExample | scripts/update_images.py:54-84 | "Old Marani" shop in Kakheti gives ["vineyard", "Kakheti", "georgia"] |
| ImageResolver.ShopWithoutNameExample | scripts/update_images.py:67-84 | a nameless shop without region gives "market,shop,georgia" |
| SmartArrange.FirstMinIndex | app/src/main/java/com/example/sakartveloguide/domain/usecase/SmartArrangeUseCase.kt:23-28 | the picked index has a smallest distance from the current point, and every earlier index is strictly farther (the first minimum) |
| SmartArrange.RemoveFirst | app/src/main/java/com/example/sakartveloguide/domain/usecase/SmartArrangeUseCase.kt:33 | removing a present element shortens the list by one; removing an absent one changes nothing |
| SmartArrange.RemoveFirstCount | app/src/main/java/com/example/sakartveloguide/domain/usecase/SmartArrangeUseCase.kt:33 | removing a present element drops exactly one copy of it and keeps every other element |
| SmartArrange.RemoveFirstAt | app/src/main/java/com/example/sakartveloguide/domain/usecase/SmartArrangeUseCase.kt:33 | when no earlier element equals the one at `i`, removing it by value removes exactly position `i` |
| SmartArrange.RemovePicksChosenIndex | app/src/main/java/com/example/sakartveloguide/domain/usecase/SmartArrangeUseCase.kt:23-33 | `remove(nearest)` takes out the very element `minByOrNull` picked |
| SmartArrange.Arrange | app/src/main/java/com/example/sakartveloguide/domain/usecase/SmartArrangeUseCase.kt:10-38 | the while loop that drains `remainingLocations` into `optimizedList` returns the greedy order |
| SmartArrange.GreedyIsPermutation | app/src/main/java/com/example/sakartveloguide/domain/usecase/SmartArrangeUseCase.kt:16-35 | the output holds exactly the input multiset |
| SmartArrange.GreedyOfEmpty | app/src/main/java/com/example/sakartveloguide/domain/usecase/SmartArrangeUseCase.kt:14 | an empty selection yields an empty list |
| SmartArrange.GreedyLength | app/src/main/java/com/example/sakartveloguide/domain/usecase/SmartArrangeUseCase.kt:16-35 | the output is as long as the input |
| SmartArrange.GreedyStartsNearest | app/src/main/java/com/example/sakartveloguide/domain/usecase/SmartArrangeUseCase.kt:19-28 | the first place is a nearest one to the start point |
| SmartArrange.GreedyEachStepNearest | app/src/main/java/com/example/sakartveloguide/domain/usecase/SmartArrangeUseCase.kt:21-33 | each place is no farther from the previous position than any place chosen after it |
| SmartArrange.GreedyBreaksTiesByInputOrder | app/src/main/java/com/example/sakartveloguide/domain/usecase/SmartArrangeUseCase.kt:23 | the first pick is an input element all of whose predecessors are strictly farther |
| MissionBriefing.Moved | app/src/main/java/com/example/sakartveloguide/presentation/builder/MissionBriefingViewmodel.kt:116-124 | with both indices in range the item from `from` lands at `to`; otherwise the list is unchanged; always the same length and the same multiset |
| MissionBriefing.MoveToSameIndex | app/src/main/java/com/example/sakartveloguide/presentation/builder/MissionBriefingViewmodel.kt:118-121 | moving an item to its own index is the identity |
| MissionBriefing.MoveBack | app/src/main/java/com/example/sakartveloguide/presentation/builder/MissionBriefingViewmodel.kt:118-121 | `moveStop(a,b)` then `moveStop(b,a)` restores the list |
| MissionBriefing.MoveKeepsOthersInOrder | app/src/main/java/com/example/sakartveloguide/presentation/builder/MissionBriefingViewmodel.kt:119-120 | the items other than the moved one keep their relative order |
| MissionBriefing.Toggled | app/src/main/java/com/example/sakartveloguide/presentation/builder/MissionBriefingViewmodel.kt:128-130 | toggling always changes the extraction type |
| MissionBriefing.ToggleTwice | app/src/main/java/com/example/sakartveloguide/presentation/builder/MissionBriefingViewmodel.kt:128-130 | toggling twice is the identity |
| MissionBriefing.ParseIds | app/src/main/java/com/example/sakartveloguide/presentation/builder/MissionBriefingViewmodel.kt:85 | every parsed id is a 32-bit `Int` |
| MissionBriefing.ParseIdsOfJoined | app/src/main/java/com/example/sakartveloguide/presentation/builder/MissionBriefingViewmodel.kt:85 | a comma-joined list of `Int` ids parses back to itself |
| MissionBriefing.TemplateStop | app/src/main/java/com/example/sakartveloguide/presentation/builder/MissionBriefingViewmodel.kt:92-97 | id `index + 9000`, type "Target", region "Objective", English title and description, coordinates or 0.0, image or "" |
| MissionBriefing.TemplateStops | app/src/main/java/com/example/sakartveloguide/presentation/builder/MissionBriefingViewmodel.kt:91-98 | one stop per itinerary node, in order |
| MissionBriefing.TemplateIdsDistinct | app/src/main/java/com/example/sakartveloguide/presentation/builder/MissionBriefingViewmodel.kt:93 | template stop ids are pairwise distinct |
| MissionBriefing.RestoredDraftIsInDraftOrder | app/src/main/java/com/example/sakartveloguide/presentation/builder/MissionBriefingViewmodel.kt:70-75 | a custom-cargo draft restores the queried stops, sorted by their position in the draft id list and stable among equals, titled "RESTORED SESSION" |
| MissionBriefing.CustomLoadQueriesParsedIds | app/src/main/java/com/example/sakartveloguide/presentation/builder/MissionBriefingViewmodel.kt:84-87 | without a draft, custom cargo loads exactly the parsed ids, titled "CUSTOM LOADOUT" |
| MissionBriefing.TemplateLoadIgnoresDraft | app/src/main/java/com/example/sakartveloguide/presentation/builder/MissionBriefingViewmodel.kt:88-98 | a template trip ignores the draft; an unknown trip gives no stops and "FIXED MISSION"; a known one gives one stop per node (also line 70) |
| MissionBriefing.ExternalLinkUrl | app/src/main/java/com/example/sakartveloguide/presentation/builder/MissionBriefingViewmodel.kt:141-149 | the URL is "https://google.com" iff the key is none of the five known ones |
| MissionBriefing.LinkUrlsDistinct | app/src/main/java/com/example/sakartveloguide/presentation/builder/MissionBriefingViewmodel.kt:142-147 | the five known keys open five different URLs |
| MissionBriefing.Briefing.constructor | app/src/main/java/com/example/sakartveloguide/presentation/builder/MissionBriefingViewmodel.kt:47-49 | a briefing starts with no stops, the title "MISSION BRIEFING" and RETURN_TO_FOB |
| MissionBriefing.Briefing.MoveStop | app/src/main/java/com/example/sakartveloguide/presentation/builder/MissionBriefingViewmodel.kt:116-124 | the stops become `Moved(old stops, from, to)`; the title and extraction are untouched |
| MissionBriefing.Briefing.ToggleExtraction | app/src/main/java/com/example/sakartveloguide/presentation/builder/MissionBriefingViewmodel.kt:128-132 | the extraction type flips; nothing else changes |
| MissionBriefing.Briefing.OptimizeLoadout | app/src/main/java/com/example/sakartveloguide/presentation/builder/MissionBriefingViewmodel.kt:105-113 | the stops become their greedy order from the FOB (the airport when no FOB is set), a permutation of the old stops; then their ids and the title are saved as the draft (`autoSave`, lines 157-159) |
| MissionBriefing.Briefing.RestoreOrLoadData | app/src/main/java/com/example/sakartveloguide/presentation/builder/MissionBriefingViewmodel.kt:65-100 | the stops and title are those of the draft restore, the custom load or the template load, by the same tests; a restored draft leaves the store as it was, a fresh load saves the loaded ids and title as the draft (also lines 157-159) |
| MissionBriefing.LaunchReadsBack | app/src/main/java/com/example/sakartveloguide/presentation/builder/MissionBriefingViewmodel.kt:162-171 | after the launch the store reads back the stops' ids as the loadout and the chosen extraction, the user is on the road with this trip, and no draft is left |
| MissionBriefing.Briefing.AutoSave | app/src/main/java/com/example/sakartveloguide/presentation/builder/MissionBriefingViewmodel.kt:157-159 | the stop ids and the title are stored as the draft, and nothing else in the store changes |
| MissionBriefing.Briefing.FinalizeMission | app/src/main/java/com/example/sakartveloguide/presentation/builder/MissionBriefingViewmodel.kt:162-171 | the store becomes the launched store for the current stops, extraction choice and trip |
| MissionBuilder.ToggledSelection | app/src/main/java/com/example/sakartveloguide/presentation/builder/MissionBuilderViewModel.kt:72-74 | the toggled id's membership flips and every other id's membership is unchanged |
| MissionBuilder.ToggleTwice | app/src/main/java/com/example/sakartveloguide/presentation/builder/MissionBuilderViewModel.kt:74 | toggling the same id twice restores the selection |
| MissionBuilder.ToggledFilter | app/src/main/java/com/example/sakartveloguide/presentation/builder/MissionBuilderViewModel.kt:78-79 | the filter is cleared iff the same choice was already active (or the choice is null); otherwise it becomes the choice |
| MissionBuilder.ChooseTwiceClears | app/src/main/java/com/example/sakartveloguide/presentation/builder/MissionBuilderViewModel.kt:78-79 | choosing the same filter twice from a cleared state clears it again |
| MissionBuilder.FilterSteps | app/src/main/java/com/example/sakartveloguide/presentation/builder/MissionBuilderViewModel.kt:50-53 | the two successive `filter` passes keep exactly the items of the active category and region, in inventory order |
| MissionBuilder.NoFilterKeepsInventory | app/src/main/java/com/example/sakartveloguide/presentation/builder/MissionBuilderViewModel.kt:50-53 | a null or empty category and region keep every inventory item |
| MissionBuilder.Builder.constructor | app/src/main/java/com/example/sakartveloguide/presentation/builder/MissionBuilderViewModel.kt:29-31 | nothing is selected and no filter is set at the start |
| MissionBuilder.Builder.ToggleLocation | app/src/main/java/com/example/sakartveloguide/presentation/builder/MissionBuilderViewModel.kt:72-76 | the selection becomes the toggled set; the filters are untouched |
| MissionBuilder.Builder.SetCategory | app/src/main/java/com/example/sakartveloguide/presentation/builder/MissionBuilderViewModel.kt:78 | the category becomes the toggled filter; the selection and region are untouched |
| MissionBuilder.Builder.SetRegion | app/src/main/java/com/example/sakartveloguide/presentation/builder/MissionBuilderViewModel.kt:79 | the region becomes the toggled filter; the selection and category are untouched |
| MissionBuilder.Builder.FilteredInventory | app/src/main/java/com/example/sakartveloguide/presentation/builder/MissionBuilderViewModel.kt:50-53 | the `var filtered` reassignments yield the inventory filtered by both active filters, in order |
| TripPlanner.WithStop | app/src/main/java/com/example/sakartveloguide/presentation/planner/TripPlannerViewModel.kt:281 | the result has the stop's id; it extends the old route by at most one stop; an id is present iff it was or is the added one |
| TripPlanner.AddStopIdempotent | app/src/main/java/com/example/sakartveloguide/presentation/planner/TripPlannerViewModel.kt:281 | adding the same stop twice is adding it once |
| TripPlanner.AddStopKeepsIdsUnique | app/src/main/java/com/example/sakartveloguide/presentation/planner/TripPlannerViewModel.kt:281 | adding keeps route ids unique |
| TripPlanner.WithoutStop | app/src/main/java/com/example/sakartveloguide/presentation/planner/TripPlannerViewModel.kt:282 | no stop with the id remains; every other id's presence is unchanged; the route does not grow |
| TripPlanner.RemoveAbsentStop | app/src/main/java/com/example/sakartveloguide/presentation/planner/TripPlannerViewModel.kt:282 | removing an id not on the route changes nothing |
| TripPlanner.RemoveUndoesAdd | app/src/main/java/com/example/sakartveloguide/presentation/planner/TripPlannerViewModel.kt:281-282 | removing a freshly added stop restores the route |
| TripPlanner.RemoveKeepsOthersInOrder | app/src/main/java/com/example/sakartveloguide/presentation/planner/TripPlannerViewModel.kt:282 | every selection of stops that avoids the removed id sees the same sequence before and after |
| TripPlanner.RemoveKeepsIdsUnique | app/src/main/java/com/example/sakartveloguide/presentation/planner/TripPlannerViewModel.kt:282 | removing keeps route ids unique |
| TripPlanner.ActiveId | app/src/main/java/com/example/sakartveloguide/presentation/planner/TripPlannerViewModel.kt:123-129 | not live gives null; a missing index means -1 with a base, else 0; -1 stays -1; an in-range index gives that stop's id; the size gives -2 with a base, else -3; anything else gives null |
| TripPlanner.CheckInIndex | app/src/main/java/com/example/sakartveloguide/presentation/planner/TripPlannerViewModel.kt:257 | 0 for the base card or an unknown id; otherwise one past the first stop with that id |
| TripPlanner.CardIndex | app/src/main/java/com/example/sakartveloguide/presentation/planner/TripPlannerViewModel.kt:263 | -1 for the base, the route size for either end card, otherwise the first position of the id (-1 when absent) |
| TripPlanner.CardClickActivatesCard | app/src/main/java/com/example/sakartveloguide/presentation/planner/TripPlannerViewModel.kt:123-129 | clicking any card the live screen shows makes exactly that card the active one (also lines 262-264) |
| TripPlanner.HomeClickWithoutBase | app/src/main/java/com/example/sakartveloguide/presentation/planner/TripPlannerViewModel.kt:124-127 | without a base, the stored -1 reads as the first stop (or the finish card) (also line 263) |
| TripPlanner.CheckInAdvances | app/src/main/java/com/example/sakartveloguide/presentation/planner/TripPlannerViewModel.kt:255-258 | checking in at stop k adds its id to the completed set and highlights the next stop or the end card |
| TripPlanner.CheckInAtBase | app/src/main/java/com/example/sakartveloguide/presentation/planner/TripPlannerViewModel.kt:257 | checking in at the base highlights the first stop, or the end card of an empty route |
| TripPlanner.ActualUserLocation | app/src/main/java/com/example/sakartveloguide/presentation/planner/TripPlannerViewModel.kt:100 | a reported position at latitude 0.0 is replaced by the Tbilisi fallback; any other is kept |
| TripPlanner.ProximityRef | app/src/main/java/com/example/sakartveloguide/presentation/planner/TripPlannerViewModel.kt:102 | the last stop, else the base, else the user position |
| TripPlanner.ProximitySorted | app/src/main/java/com/example/sakartveloguide/presentation/planner/TripPlannerViewModel.kt:103-104 | a permutation of the inventory items not on the route, sorted by distance from the reference, stably: the items at each distance keep their inventory order |
| TripPlanner.SearchResults | app/src/main/java/com/example/sakartveloguide/presentation/planner/TripPlannerViewModel.kt:106-111 | an empty query keeps every candidate; otherwise exactly the candidates matching the case-insensitive name or region test, in order |
| TripPlanner.SearchListsProperties | app/src/main/java/com/example/sakartveloguide/presentation/planner/TripPlannerViewModel.kt:103-111 | at most 15 nearby recommendations and at most 60 results, all drawn from the inventory and off the route, nearest first, matching a non-empty query (also line 137) |
| TripPlanner.SearchFindsEveryMatch | app/src/main/java/com/example/sakartveloguide/presentation/planner/TripPlannerViewModel.kt:103-111 | every inventory item off the route that matches the query is a search result before the cap |
| TripPlanner.LegsKeys | app/src/main/java/com/example/sakartveloguide/presentation/planner/TripPlannerViewModel.kt:116-120 | the loop's writes add exactly the ids of the visited stops as keys |
| TripPlanner.LegsKeepOtherKeys | app/src/main/java/com/example/sakartveloguide/presentation/planner/TripPlannerViewModel.kt:116-120 | keys no visited stop has keep their earlier entries |
| TripPlanner.LegsValues | app/src/main/java/com/example/sakartveloguide/presentation/planner/TripPlannerViewModel.kt:115-120 | with distinct ids each stop's entry is its leg from the previous point |
| TripPlanner.DistanceMapKeys | app/src/main/java/com/example/sakartveloguide/presentation/planner/TripPlannerViewModel.kt:113-121 | the keys are -1 with a base, every stop id, and -2 with a base and a non-empty route |
| TripPlanner.DistanceMapValues | app/src/main/java/com/example/sakartveloguide/presentation/planner/TripPlannerViewModel.kt:113-121 | the user-to-base leg, each stop's leg from the one before it (the first from the base or the user), the last stop back to the base |
| TripPlanner.DistanceMap | app/src/main/java/com/example/sakartveloguide/presentation/planner/TripPlannerViewModel.kt:113-121 | the `forEach` with `var prevPoint` computes `DistanceMapOf` |
| TripPlanner.TemplateEntities | app/src/main/java/com/example/sakartveloguide/presentation/planner/TripPlannerViewModel.kt:156-162 | no trip gives no stops; otherwise one stop per node with id 10000 + index, the English title and description, type "POI" and region "Georgia" (also lines 178-184) |
| TripPlanner.TemplateIdsDistinct | app/src/main/java/com/example/sakartveloguide/presentation/planner/TripPlannerViewModel.kt:156-162 | template stop ids are distinct and never card sentinels |
| TripPlanner.ResolvedFollowsLoadout | app/src/main/java/com/example/sakartveloguide/presentation/planner/TripPlannerViewModel.kt:163-166 | stop `i` of the recovered route is what the `i`-th resolvable saved id resolves to, so the route follows the saved order and skips ids that resolve to nothing |
| TripPlanner.ResolvedIds | app/src/main/java/com/example/sakartveloguide/presentation/planner/TripPlannerViewModel.kt:163-166 | the recovered route's ids are the saved ids that resolve, in saved order; ids from 10000 resolve among the template stops, smaller ones among the database rows |
| TripPlanner.ResolvedAll | app/src/main/java/com/example/sakartveloguide/presentation/planner/TripPlannerViewModel.kt:163-166 | when every saved id resolves, the route's ids are exactly the saved list |
| TripPlanner.ResolvedTemplatesFrom | app/src/main/java/com/example/sakartveloguide/presentation/planner/TripPlannerViewModel.kt:163-166 | template stops saved by their ids resolve back to themselves |
| TripPlanner.LoadData | app/src/main/java/com/example/sakartveloguide/presentation/planner/TripPlannerViewModel.kt:147-186 | a saved loadout for this trip (or custom cargo) is recovered with the trip's title; otherwise custom cargo queries the parsed ids with the "CUSTOM TRIP" title, and a template trip gets its template stops |
| TripPlanner.CustomTripQueriesJoinedIds | app/src/main/java/com/example/sakartveloguide/presentation/planner/TripPlannerViewModel.kt:174 | a comma-joined id list parses back to the same ids |
| TripPlanner.TemplateRouteRecovered | app/src/main/java/com/example/sakartveloguide/presentation/planner/TripPlannerViewModel.kt:154-166 | reopening a live template trip saved with its own template route rebuilds that route |
| TripPlanner.ScreenTitle | app/src/main/java/com/example/sakartveloguide/presentation/planner/TripPlannerViewModel.kt:132 | the localized title in the session language, or "ADVENTURE" without title data |
| TripPlanner.GoingLive | app/src/main/java/com/example/sakartveloguide/presentation/planner/TripPlannerViewModel.kt:247-251 | going live makes the session live for this trip, saves the route ids as the loadout and highlights the first card |
| TripPlanner.LeavingLive | app/src/main/java/com/example/sakartveloguide/presentation/planner/TripPlannerViewModel.kt:252 | leaving live returns the session to browsing, so the planner is no longer live |
| TripPlanner.TemplateTripResumes | app/src/main/java/com/example/sakartveloguide/presentation/planner/TripPlannerViewModel.kt:147-166 | going live with a template route and reopening the planner rebuilds the same route (also lines 247-251) |
| TripPlanner.CompletingEndsMission | app/src/main/java/com/example/sakartveloguide/presentation/planner/TripPlannerViewModel.kt:274-275 | after completing, the session browses with no active trip, and no base, index or loadout remains |
| TripPlanner.MissionStamp | app/src/main/java/com/example/sakartveloguide/presentation/planner/TripPlannerViewModel.kt:272 | the stamp's id is the trip id, "_" and the time; its name and title are the screen title; its date is the time |
| TripPlanner.Planner.constructor | app/src/main/java/com/example/sakartveloguide/presentation/planner/TripPlannerViewModel.kt:66-74 | the planner starts with no route, no title, an empty query, loading, and no animation |
| TripPlanner.Planner.LoadDataWithRecovery | app/src/main/java/com/example/sakartveloguide/presentation/planner/TripPlannerViewModel.kt:147-170 | route and title become `LoadData`'s, and loading ends |
| TripPlanner.Planner.LoadTemplate | app/src/main/java/com/example/sakartveloguide/presentation/planner/TripPlannerViewModel.kt:172-186 | custom cargo loads the parsed ids with the fixed title; any other trip loads its template stops and keeps the title |
| TripPlanner.Planner.AddStop | app/src/main/java/com/example/sakartveloguide/presentation/planner/TripPlannerViewModel.kt:281 | the route becomes `WithStop`; nothing else changes |
| TripPlanner.Planner.RemoveStop | app/src/main/java/com/example/sakartveloguide/presentation/planner/TripPlannerViewModel.kt:282 | the route becomes `WithoutStop`; nothing else changes |
| TripPlanner.Planner.OnSearchQuery | app/src/main/java/com/example/sakartveloguide/presentation/planner/TripPlannerViewModel.kt:280 | only the query changes |
| TripPlanner.Planner.OptimizeRoute | app/src/main/java/com/example/sakartveloguide/presentation/planner/TripPlannerViewModel.kt:293 | the route becomes its greedy order from the base, or from (41.7, 44.8) without one, a permutation of the old route |
| TripPlanner.Planner.ToggleMode | app/src/main/java/com/example/sakartveloguide/presentation/planner/TripPlannerViewModel.kt:247-253 | the preferences become `ModeToggled` |
| TripPlanner.Planner.MarkCheckIn | app/src/main/java/com/example/sakartveloguide/presentation/planner/TripPlannerViewModel.kt:255-260 | the id is marked complete, then the next index is stored |
| TripPlanner.Planner.OnCardClicked | app/src/main/java/com/example/sakartveloguide/presentation/planner/TripPlannerViewModel.kt:262-266 | the clicked card's index is stored as the active target |
| TripPlanner.Planner.CompleteMission | app/src/main/java/com/example/sakartveloguide/presentation/planner/TripPlannerViewModel.kt:268-276 | the animation starts, the stamp is `MissionStamp` and is filed in the passport under its id, replacing a stamp with that id, and the session leaves the trip with the mission data cleared |
| TripPlanner.Planner.SetBaseCamp | app/src/main/java/com/example/sakartveloguide/presentation/planner/TripPlannerViewModel.kt:292 | the base camp is stored and reads back at that point |
| TripPlanner.Planner.OnBackCleanup | app/src/main/java/com/example/sakartveloguide/presentation/planner/TripPlannerViewModel.kt:279 | editing clears the mission data; a live trip keeps it |
| PreferenceManager.SessionOf | app/src/main/java/com/example/sakartveloguide/data/local/PreferenceManager.kt:39-47 | with no stored state the session is BROWSING; the active path id is the stored trip id; the language defaults to "en" |
| PreferenceManager.FobOf | app/src/main/java/com/example/sakartveloguide/data/local/PreferenceManager.kt:51-52 | the base camp is present exactly when the has-base flag is true |
| PreferenceManager.CompletedOf | app/src/main/java/com/example/sakartveloguide/data/local/PreferenceManager.kt:53 | no stored set reads as empty; otherwise the parsed entries, all of them `Int`s |
| PreferenceManager.ActiveIndexOf | app/src/main/java/com/example/sakartveloguide/data/local/PreferenceManager.kt:54 | the active index is never -1: a stored -1 and a missing entry both read as null |
| PreferenceManager.ExtractionOf | app/src/main/java/com/example/sakartveloguide/data/local/PreferenceManager.kt:61 | a missing extraction reads as RETURN_TO_FOB |
| PreferenceManager.MissionStateOf | app/src/main/java/com/example/sakartveloguide/data/local/PreferenceManager.kt:49-63 | the state exists iff the completed set and extraction decode; it carries the base camp, the active index and the trip id (default "") |
| PreferenceManager.ToInts | app/src/main/java/com/example/sakartveloguide/data/local/PreferenceManager.kt:66 | `map { it.toInt() }` succeeds iff every piece is an `Int`, and keeps the length |
| PreferenceManager.ActiveLoadoutOf | app/src/main/java/com/example/sakartveloguide/data/local/PreferenceManager.kt:65-67 | a missing loadout reads as the empty list |
| PreferenceManager.DraftOf | app/src/main/java/com/example/sakartveloguide/data/local/PreferenceManager.kt:70-76 | missing draft ids read as empty; every draft id is an `Int` (non-numeric pieces are dropped) |
| PreferenceManager.LoadoutRoundTrip | app/src/main/java/com/example/sakartveloguide/data/local/PreferenceManager.kt:98-102 | a saved loadout of `Int`s reads back as the same list, the empty list included (also line 66) |
| PreferenceManager.ToIntsOfIntStrings | app/src/main/java/com/example/sakartveloguide/data/local/PreferenceManager.kt:66 | the printed ids parse back to the ids (also line 100) |
| PreferenceManager.DraftRoundTrip | app/src/main/java/com/example/sakartveloguide/data/local/PreferenceManager.kt:70-86 | a saved draft reads back as the same ids, title and trip id |
| PreferenceManager.ClearDraftRemovesDraftKeys | app/src/main/java/com/example/sakartveloguide/data/local/PreferenceManager.kt:88-96 | exactly the three draft keys are removed, every other entry is kept, and the draft reads as empty |
| PreferenceManager.ActiveTargetSentinel | app/src/main/java/com/example/sakartveloguide/data/local/PreferenceManager.kt:120-124 | `setActiveTarget(-1)` and `setActiveTarget(null)` store the same value, which reads back as null; any other index reads back as itself (also line 54) |
| PreferenceManager.MarkCompleteAddsId | app/src/main/java/com/example/sakartveloguide/data/local/PreferenceManager.kt:126-133 | marking the same target twice is marking it once, and the completed set gains exactly that id (also line 53) |
| PreferenceManager.SetFobReadsBack | app/src/main/java/com/example/sakartveloguide/data/local/PreferenceManager.kt:110-118 | a stored base camp reads back at that point (also line 52) |
| PreferenceManager.ClearMissionLeavesNothing | app/src/main/java/com/example/sakartveloguide/data/local/PreferenceManager.kt:144-156 | after clearing there is no base camp, an empty completed set, no active index, and no active trip or loadout |
| PreferenceManager.UpdateStateWithoutPath | app/src/main/java/com/example/sakartveloguide/data/local/PreferenceManager.kt:135-142 | `updateState(s, null)` sets the journey state and keeps the active trip |
| PreferenceManager.UpdateStateWithPath | app/src/main/java/com/example/sakartveloguide/data/local/PreferenceManager.kt:135-142 | `updateState(s, id)` sets the journey state and makes `id` the active trip |
| PreferenceManager.ExtractionRoundTrip | app/src/main/java/com/example/sakartveloguide/data/local/PreferenceManager.kt:104-108 | a saved extraction choice reads back (also line 61) |
| PreferenceManager.Store.constructor | app/src/main/java/com/example/sakartveloguide/data/local/PreferenceManager.kt:16-18 | the store starts with the given preferences |
| PreferenceManager.Store.SaveDraftMission | app/src/main/java/com/example/sakartveloguide/data/local/PreferenceManager.kt:78-86 | the three draft keys are written |
| PreferenceManager.Store.ClearDraft | app/src/main/java/com/example/sakartveloguide/data/local/PreferenceManager.kt:88-96 | the three draft keys are removed |
| PreferenceManager.Store.SaveActiveLoadout | app/src/main/java/com/example/sakartveloguide/data/local/PreferenceManager.kt:98-102 | the loadout is written as the comma-joined ids |
| PreferenceManager.Store.SaveExtractionType | app/src/main/java/com/example/sakartveloguide/data/local/PreferenceManager.kt:104-108 | the extraction is written by name |
| PreferenceManager.Store.SetFobLocation | app/src/main/java/com/example/sakartveloguide/data/local/PreferenceManager.kt:110-118 | the flag and both coordinates are written |
| PreferenceManager.Store.SetActiveTarget | app/src/main/java/com/example/sakartveloguide/data/local/PreferenceManager.kt:120-124 | the index is written, null as -1 |
| PreferenceManager.Store.MarkTargetComplete | app/src/main/java/com/example/sakartveloguide/data/local/PreferenceManager.kt:126-133 | the id's text joins the completed set |
| PreferenceManager.Store.UpdateState | app/src/main/java/com/example/sakartveloguide/data/local/PreferenceManager.kt:135-142 | the state is written, and the trip id when one is given |
| PreferenceManager.Store.ClearCurrentMissionData | app/src/main/java/com/example/sakartveloguide/data/local/PreferenceManager.kt:144-156 | the flag is cleared, the coordinates removed, the set emptied, the index set to -1, the trip and loadout removed |
| PreferenceManager.Store.UpdateLanguage | app/src/main/java/com/example/sakartveloguide/data/local/PreferenceManager.kt:158-160 | the language code is written |
| PreferenceManager.Store.SetHasSeenTutorial | app/src/main/java/com/example/sakartveloguide/data/local/PreferenceManager.kt:162-164 | the tutorial flag is written |
| LogisticsProfileManager.StrategyOf | app/src/main/java/com/example/sakartveloguide/data/local/LogisticsProfileManager.kt:38-40 | a stored valid name reads as that strategy; a missing or unknown one as PASSENGER_URBAN |
| LogisticsProfileManager.VehicleStatusOf | app/src/main/java/com/example/sakartveloguide/data/local/LogisticsProfileManager.kt:42-44 | a stored valid name reads as that status; a missing or unknown one as NONE |
| LogisticsProfileManager.PointOf | app/src/main/java/com/example/sakartveloguide/data/local/LogisticsProfileManager.kt:47-48 | a stored valid name reads as that point; a missing or unknown one as AIRPORT_TBS |
| LogisticsProfileManager.TransportTypeOf | app/src/main/java/com/example/sakartveloguide/data/local/LogisticsProfileManager.kt:58 | a stored valid name reads as that type; a missing or unknown one as TAXI |
| LogisticsProfileManager.ProfileOf | app/src/main/java/com/example/sakartveloguide/data/local/LogisticsProfileManager.kt:35-60 | the dates are the stored longs; a missing by-air flag reads true, and every missing `needs*` flag reads false |
| LogisticsProfileManager.EmptyStoreFallbacks | app/src/main/java/com/example/sakartveloguide/data/local/LogisticsProfileManager.kt:35-60 | an empty store reads as PASSENGER_URBAN, NONE, Tbilisi airport both ways, no dates, by air, no needs, TAXI |
| LogisticsProfileManager.EmptyStoreIsNotDefaultProfile | app/src/main/java/com/example/sakartveloguide/data/local/LogisticsProfileManager.kt:58 | the empty-store profile differs from the data-class default only in its transport type (TAXI against RENTAL_4X4) |
| LogisticsProfileManager.SavedLookup | app/src/main/java/com/example/sakartveloguide/data/local/LogisticsProfileManager.kt:62-82 | a written key holds the written value; every other key is untouched |
| LogisticsProfileManager.SavedStrategyReadsBack | app/src/main/java/com/example/sakartveloguide/data/local/LogisticsProfileManager.kt:39-44 | the strategy and vehicle status read back as saved (also lines 65-66) |
| LogisticsProfileManager.SavedPointsReadBack | app/src/main/java/com/example/sakartveloguide/data/local/LogisticsProfileManager.kt:47-48 | the entry and exit points and the transport type read back as saved (also lines 58, 69-70, 80) |
| LogisticsProfileManager.SavedFlagsReadBack | app/src/main/java/com/example/sakartveloguide/data/local/LogisticsProfileManager.kt:53-57 | the five flags read back as saved (also lines 75-79) |
| LogisticsProfileManager.SavedDatesReadBack | app/src/main/java/com/example/sakartveloguide/data/local/LogisticsProfileManager.kt:49-50 | each date reads back as saved, or as the old stored date when the profile has none (also lines 71-72) |
| LogisticsProfileManager.SaveThenLoad | app/src/main/java/com/example/sakartveloguide/data/local/LogisticsProfileManager.kt:35-82 | a profile with both dates reads back unchanged after a save |
| LogisticsProfileManager.SaveWithoutDatesKeepsDates | app/src/main/java/com/example/sakartveloguide/data/local/LogisticsProfileManager.kt:71-72 | a save without dates keeps the stored dates and replaces every other field |
| LogisticsProfileManager.SaveTwice | app/src/main/java/com/example/sakartveloguide/data/local/LogisticsProfileManager.kt:62-82 | saving the same profile twice leaves the store as after one save |
| LogisticsProfileManager.Manager.constructor | app/src/main/java/com/example/sakartveloguide/data/local/LogisticsProfileManager.kt:12-14 | the manager starts with the given preferences |
| LogisticsProfileManager.Manager.SaveFullProfile | app/src/main/java/com/example/sakartveloguide/data/local/LogisticsProfileManager.kt:62-82 | the field-by-field writes produce `SavedProfile` |
| LogisticsWizard.Ordinal | app/src/main/java/com/example/sakartveloguide/presentation/mission/LogisticsWizard.kt:37-46 | each of the eight steps has an ordinal below 8 (also lines 108-109) |
| LogisticsWizard.OrdinalInjective | app/src/main/java/com/example/sakartveloguide/presentation/mission/LogisticsWizard.kt:37-46 | distinct steps have distinct ordinals |
| LogisticsWizard.BackStep | app/src/main/java/com/example/sakartveloguide/presentation/mission/LogisticsWizard.kt:89-100 | back dismisses exactly on INTRO; from every other step it goes to a step with a smaller ordinal |
| LogisticsWizard.TopBarMatchesBackHandler | app/src/main/java/com/example/sakartveloguide/presentation/mission/LogisticsWizard.kt:113-125 | the top-bar back button, with its separate `if` and `when`, goes where the system back handler goes from every step (also lines 89-100) |
| LogisticsWizard.ForwardIncreasesOrdinal | app/src/main/java/com/example/sakartveloguide/presentation/mission/LogisticsWizard.kt:157-234 | every forward answer leads to a step with a larger ordinal than the step offering it |
| LogisticsWizard.TicketsBranches | app/src/main/java/com/example/sakartveloguide/presentation/mission/LogisticsWizard.kt:167-168 | confirmed tickets go to DATE_ENTRY, negative ones to ACQUIRE_TICKETS, and both lead back to TICKETS_CHECK (also lines 93-94) |
| LogisticsWizard.Recorded | app/src/main/java/com/example/sakartveloguide/presentation/mission/LogisticsWizard.kt:187-231 | the date answer sets `startDate`, ONLINE/OFFLINE set `needsEsim`, a strategy sets `transportStrategy`, SECURED/UNSECURED set `needsHotel`; the other answers record nothing |
| LogisticsWizard.LegacyType | app/src/main/java/com/example/sakartveloguide/presentation/mission/LogisticsWizard.kt:69-74 | the mapped type is a driving type iff the strategy is a driver strategy |
| LogisticsWizard.LegacyTypeInjective | app/src/main/java/com/example/sakartveloguide/presentation/mission/LogisticsWizard.kt:69-74 | different strategies map to different transport types |
| LogisticsWizard.EndDate | app/src/main/java/com/example/sakartveloguide/presentation/mission/LogisticsWizard.kt:66 | an end date exists iff a start date does, and lies `(durationDays − 1)` whole days after it |
| LogisticsWizard.EndDateAgreesOnRealisticDurations | app/src/main/java/com/example/sakartveloguide/presentation/mission/LogisticsWizard.kt:66 | for durations up to 24,856 days the `Int` arithmetic as written gives the intended end date |
| LogisticsWizard.EndDateOverflowExample | app/src/main/java/com/example/sakartveloguide/presentation/mission/LogisticsWizard.kt:66 | with 24,857 days the `Int` product wraps and the end date lies before the start |
| LogisticsWizard.FinalProfile | app/src/main/java/com/example/sakartveloguide/presentation/mission/LogisticsWizard.kt:65-87 | the profile carries the answers and the mapped type; the vehicle is TO_BE_ACQUIRED iff renting; every other field is at its default |
| LogisticsWizard.FinalProfileEndDateAsWritten | app/src/main/java/com/example/sakartveloguide/presentation/mission/LogisticsWizard.kt:66 | for trips of up to 24,856 days the profile's end date equals the `Int`-wrapping product as written |
| LogisticsWizard.AnswerKeepsDate | app/src/main/java/com/example/sakartveloguide/presentation/mission/LogisticsWizard.kt:185-231 | answering keeps a start date set past the date step |
| LogisticsWizard.BackKeepsDate | app/src/main/java/com/example/sakartveloguide/presentation/mission/LogisticsWizard.kt:89-100 | going back keeps a start date set past the date step |
| LogisticsWizard.ConfirmedProfileIsDated | app/src/main/java/com/example/sakartveloguide/presentation/mission/LogisticsWizard.kt:235-238 | a profile confirmed on the last screen carries both dates (also lines 66, 83-84) |
| LogisticsWizard.WalkThrough | app/src/main/java/com/example/sakartveloguide/presentation/mission/LogisticsWizard.kt:157-238 | a straight walk-through with tickets reaches CONFIRMATION, and the profile holds the chosen date, eSIM need, strategy and lodging need |
| LogisticsWizard.WalkThroughRun | app/src/main/java/com/example/sakartveloguide/presentation/mission/LogisticsWizard.kt:157-234 | the straight walk-through leaves exactly the four choices made as the answers |
| LogisticsWizard.RunStep | app/src/main/java/com/example/sakartveloguide/presentation/mission/LogisticsWizard.kt:157-234 | answering the first choice and then the rest is running the whole list |
| LogisticsWizard.Wizard.constructor | app/src/main/java/com/example/sakartveloguide/presentation/mission/LogisticsWizard.kt:57-63 | the wizard opens on INTRO with no date, no eSIM, PASSENGER_URBAN and no hotel |
| LogisticsWizard.Wizard.FinalizeProfile | app/src/main/java/com/example/sakartveloguide/presentation/mission/LogisticsWizard.kt:65-87 | one `FinalProfile` of the current answers goes to `onConfirm`; the step and answers are unchanged |
| LogisticsWizard.Wizard.Back | app/src/main/java/com/example/sakartveloguide/presentation/mission/LogisticsWizard.kt:113-125 | INTRO dismisses; any other step moves to its back step; the answers stay (also lines 89-100) |
| LogisticsWizard.Wizard.Choose | app/src/main/java/com/example/sakartveloguide/presentation/mission/LogisticsWizard.kt:157-238 | the step and answers become `Answered`'s, and confirming on the last screen hands over one profile |
| LogisticsWizard.Wizard.RogueMode | app/src/main/java/com/example/sakartveloguide/presentation/mission/LogisticsWizard.kt:131-135 | the start date becomes `now`, the strategy PASSENGER_URBAN, and one profile of those answers is confirmed, from any step |
| LocationUtils.IfEmpty | app/src/main/java/com/example/sakartveloguide/domain/util/LocationUtils.kt:6-11 | a non-empty text is kept; an empty one is replaced by the fallback |
| LocationUtils.DisplayName | app/src/main/java/com/example/sakartveloguide/domain/util/LocationUtils.kt:5-13 | for "ka", "ru", "tr", "hy", "iw" or "ar" with a non-empty translation, that translation; in every other case `nameEn` |
| LocationUtils.DisplayDesc | app/src/main/java/com/example/sakartveloguide/domain/util/LocationUtils.kt:15-23 | the same rule over the `desc*` fields, falling back to `descEn` |
| LocationUtils.DescFollowsNameRule | app/src/main/java/com/example/sakartveloguide/domain/util/LocationUtils.kt:5-23 | the description follows exactly the name's fallback rule |
| LocationUtils.UntranslatedShowsEnglish | app/src/main/java/com/example/sakartveloguide/domain/util/LocationUtils.kt:12 | "en", "" and every unknown code show the English name and description (also line 22) |
| LocationUtils.DisplayNameNonEmpty | app/src/main/java/com/example/sakartveloguide/domain/util/LocationUtils.kt:5-13 | with an English name the shown name is never empty, and is either the English name or the requested translation |
| LocationUtils.NewLocationShowsEnglish | app/src/main/java/com/example/sakartveloguide/domain/util/LocationUtils.kt:5-23 | a location with no translations shows its English texts in every language |
| Passport.ReplaceChar | app/src/main/java/com/example/sakartveloguide/domain/usecase/AddPassportStampUseCase.kt:16 | every underscore, and only an underscore, is replaced; the length is kept |
| Passport.CapitalizeFirst | app/src/main/java/com/example/sakartveloguide/domain/usecase/AddPassportStampUseCase.kt:18 | the first character is upper-cased and the rest are kept |
| Passport.StampNameShape | app/src/main/java/com/example/sakartveloguide/domain/usecase/AddPassportStampUseCase.kt:15-18 | the stamp name has the enum name's length and no underscore; past the first character it is the enum name lower-cased with spaces for underscores, and an upper-case first letter is kept |
| Passport.StampNameCase | app/src/main/java/com/example/sakartveloguide/domain/usecase/AddPassportStampUseCase.kt:15-18 | from an enum name starting with a capital, exactly the first letter of the stamp name is upper case |
| Passport.CategoryNameStartsUpper | app/src/main/java/com/example/sakartveloguide/domain/usecase/AddPassportStampUseCase.kt:12 | every category's enum name is non-empty and starts with an upper-case letter |
| Passport.RegionNameExamples | app/src/main/java/com/example/sakartveloguide/domain/usecase/AddPassportStampUseCase.kt:15-18 | WINE_CELLAR gives "Wine cellar" and URBAN_EXPLORER gives "Urban explorer" |
| Passport.Stamp | app/src/main/java/com/example/sakartveloguide/domain/usecase/AddPassportStampUseCase.kt:12-26 | the region id is the category's enum name; the region name has its length, no underscore and only its first letter in upper case; the date is the clock reading and the title the English title |
| Passport.PassportRepository.AddStamp | app/src/main/java/com/example/sakartveloguide/data/repository/PassportRepositoryImpl.kt:18-20 | the table becomes `Inserted` of the stamp: stored under its `regionId`, replacing any earlier stamp with that key, everything else kept |
| Passport.Inserted | app/src/main/java/com/example/sakartveloguide/data/local/dao/PassportDao.kt:15-16 | a `REPLACE` insert on the `regionId` primary key: the keys gain the stamp's region, that key holds the stamp, every other row is kept |
| Passport.InsertedKeepsKeying | app/src/main/java/com/example/sakartveloguide/data/local/entity/PassportEntity.kt:8 | a table whose rows sit under their own `regionId` keeps that property after an insert |
| Passport.InsertedCount | app/src/main/java/com/example/sakartveloguide/data/local/dao/PassportDao.kt:15-16 | an insert adds a row for a new region and keeps the row count for a region already stamped |
| Passport.LaterStampReplaces | app/src/main/java/com/example/sakartveloguide/data/local/dao/PassportDao.kt:15-16 | of two inserts with one region, only the second survives |
| Passport.SameCategoryKeepsOneStamp | app/src/main/java/com/example/sakartveloguide/domain/usecase/AddPassportStampUseCase.kt:12-26 | two completed trips of one category leave one stamp for it, built from the later trip |
| Passport.AddPassportStamp | app/src/main/java/com/example/sakartveloguide/domain/usecase/AddPassportStampUseCase.kt:11-31 | exactly one stamp, the one built from the trip, is inserted into the repository under the trip's category |
| TripRepository.NodeOf | app/src/main/java/com/example/sakartveloguide/data/repository/TripRepositoryImpl.kt:86-91 | a location's node carries its English name and description, the "POI" label, its image and its coordinates, and no alert |
| TripRepository.ItineraryFollowsTargets | app/src/main/java/com/example/sakartveloguide/data/repository/TripRepositoryImpl.kt:84-93 | node `i` is built from the location of the `i`-th target id that has one: one node per such id, in target order, never more nodes than ids |
| TripRepository.ItineraryAllFound | app/src/main/java/com/example/sakartveloguide/data/repository/TripRepositoryImpl.kt:84-93 | when every target id has a location, the itinerary has exactly one node per id, in id order |
| TripRepository.ItineraryConcat | app/src/main/java/com/example/sakartveloguide/data/repository/TripRepositoryImpl.kt:85-93 | the itinerary of two id lists in a row is the two itineraries in a row |
| TripRepository.CategoryOrCulture | app/src/main/java/com/example/sakartveloguide/data/repository/TripRepositoryImpl.kt:101 | a category name that exists is parsed to that category; every other string gives CULTURE |
| TripRepository.DifficultyOrNormal | app/src/main/java/com/example/sakartveloguide/data/repository/TripRepositoryImpl.kt:102 | a difficulty name that exists is parsed to that difficulty; every other string gives NORMAL |
| TripRepository.MapEntityToDomain | app/src/main/java/com/example/sakartveloguide/data/repository/TripRepositoryImpl.kt:82-107 | the trip keeps the row's id, texts, image, duration and flags; its ride time is days times 60 where that fits an Int; it carries the itinerary exactly when full details are asked for |
| TripRepository.AvailableTrips | app/src/main/java/com/example/sakartveloguide/data/repository/TripRepositoryImpl.kt:73-75 | one summary per stored row, in order, each with the row's id and no itinerary |
| TripRepository.TripById | app/src/main/java/com/example/sakartveloguide/data/repository/TripRepositoryImpl.kt:77-80 | a missing row gives no trip; a present row gives the trip with that id and its full itinerary |
| TripRepository.SummaryIsFullWithoutItinerary | app/src/main/java/com/example/sakartveloguide/data/repository/TripRepositoryImpl.kt:82-107 | a summary and a full load of the same row differ only in the itinerary (also lines 73-80) |
| TripRepository.LocationFromDto | app/src/main/java/com/example/sakartveloguide/data/repository/TripRepositoryImpl.kt:116-121 | the record's fields with the defaults "POI", "Georgia", 0.0 and ""; the one name fills every name column, with "Place" only for the English one |
| TripRepository.BundledNameInEveryLanguage | app/src/main/java/com/example/sakartveloguide/data/repository/TripRepositoryImpl.kt:119 | a bundled location shows its record's name, or "Place", in every language |
| TripRepository.LocationsToInsert | app/src/main/java/com/example/sakartveloguide/data/repository/TripRepositoryImpl.kt:115-123 | nothing is inserted from an empty file; otherwise one row per record, in order |
| TripRepository.Texts | app/src/main/java/com/example/sakartveloguide/data/repository/TripRepositoryImpl.kt:131-132 | missing texts become "", except the English one, which takes its own default |
| TripRepository.TemplateEntity | app/src/main/java/com/example/sakartveloguide/data/repository/TripRepositoryImpl.kt:127-134 | a template with an empty id gives no row; otherwise the row with defaults "CULTURE", "NORMAL", 1 day, no stops, title "Trip", and not locked, premium or snowy |
| TripRepository.TemplateEntitiesFollowTemplates | app/src/main/java/com/example/sakartveloguide/data/repository/TripRepositoryImpl.kt:127-135 | one row per template with an id, in file order, none with an empty id |
| TripRepository.TripsToInsert | app/src/main/java/com/example/sakartveloguide/data/repository/TripRepositoryImpl.kt:127-141 | the sandbox trip first, then the templates' rows in file order |
| TripRepository.SandboxFirstAndOnce | app/src/main/java/com/example/sakartveloguide/data/repository/TripRepositoryImpl.kt:137-141 | unless a template uses the sandbox's id, the sandbox's id appears only at the head |
| TripRepository.SandboxBecomesCulture | app/src/main/java/com/example/sakartveloguide/data/repository/TripRepositoryImpl.kt:101-102 | the sandbox's category "GUIDE" is not a category, so its trip is filed as CULTURE; its difficulty is RELAXED (also lines 137-138) |
| Battle.OrderedEntitiesFollowLoadout | app/src/main/java/com/example/sakartveloguide/presentation/battle/BattleViewModel.kt:58-60 | entity `i` is the first row stored under the `i`-th loadout id that has a row: loadout order, not the order the query returned |
| Battle.OrderedEntitiesIds | app/src/main/java/com/example/sakartveloguide/presentation/battle/BattleViewModel.kt:58-60 | the entities' ids are the loadout ids that have a row, in loadout order |
| Battle.OrderedEntitiesAllFound | app/src/main/java/com/example/sakartveloguide/presentation/battle/BattleViewModel.kt:57-60 | when every loadout id has a row, the entities' ids are exactly the loadout, in its order |
| Battle.CustomCargoTrip | app/src/main/java/com/example/sakartveloguide/presentation/battle/BattleViewModel.kt:53-67 | the custom trip has id "custom_cargo", URBAN, NORMAL, 0 minutes, 1 day, and one node per found stop in loadout order |
| Battle.BaseTrip | app/src/main/java/com/example/sakartveloguide/presentation/battle/BattleViewModel.kt:53-70 | the custom trip for "custom_cargo"; the stored trip for every other id |
| Battle.Extended | app/src/main/java/com/example/sakartveloguide/presentation/battle/BattleViewModel.kt:73-91 | the base-camp start first when there is a base, the itinerary unchanged, then the airport end for an airport extraction or else the return to base when there is one, and nothing else |
| Battle.ExtendItinerary | app/src/main/java/com/example/sakartveloguide/presentation/battle/BattleViewModel.kt:73-91 | the list built by the adds is the extended itinerary |
| Battle.CurrentTrip | app/src/main/java/com/example/sakartveloguide/presentation/battle/BattleViewModel.kt:72-93 | no trip without a base trip; otherwise the base trip with only its itinerary replaced by the extended one |
| Battle.ExtensionKeepsItinerary | app/src/main/java/com/example/sakartveloguide/presentation/battle/BattleViewModel.kt:73-91 | extension never drops or reorders a node of the trip |
| Battle.FirstLocation | app/src/main/java/com/example/sakartveloguide/presentation/battle/BattleViewModel.kt:104 | none exactly when no node has a location; else the location of the first located node |
| Battle.InitialMapCenter | app/src/main/java/com/example/sakartveloguide/presentation/battle/BattleViewModel.kt:101-109 | the first located node of the trip, else Freedom Square |
| Battle.MapOpensOnBase | app/src/main/java/com/example/sakartveloguide/presentation/battle/BattleViewModel.kt:101-105 | with a base camp the map opens on the base camp (also lines 77-79) |
| Battle.AirportTripHasLocatedNode | app/src/main/java/com/example/sakartveloguide/presentation/battle/BattleViewModel.kt:84-85 | with an airport extraction the trip always has a located node (also line 104) |
| Battle.StartPoint | app/src/main/java/com/example/sakartveloguide/presentation/battle/BattleViewModel.kt:113 | the user's position, else the base camp; none only when both are missing |
| Battle.DetermineAction | app/src/main/java/com/example/sakartveloguide/presentation/battle/BattleViewModel.kt:111-120 | idle exactly when the target is not engaged, has no location or there is no start point; otherwise secure under 0.2 km, walk under 1.5 km, drive with a rental car, else call a taxi, with those captions, colours and intents |
| Battle.CloseTargetsIgnoreTransport | app/src/main/java/com/example/sakartveloguide/presentation/battle/BattleViewModel.kt:114-117 | under 1.5 km the transport profile does not change the action |
| Battle.NavigationStartsAtStartPoint | app/src/main/java/com/example/sakartveloguide/presentation/battle/BattleViewModel.kt:113-118 | only the secure action carries no intent, and every maps intent runs from the start point to the target |
| Battle.SetFob | app/src/main/java/com/example/sakartveloguide/presentation/battle/BattleViewModel.kt:132 | a position at latitude 0.0 changes nothing; any other becomes the base camp |
| Battle.EngageTarget | app/src/main/java/com/example/sakartveloguide/presentation/battle/BattleViewModel.kt:133 | the given index becomes the active target |
| Battle.NeutralizeTarget | app/src/main/java/com/example/sakartveloguide/presentation/battle/BattleViewModel.kt:134 | the given index is marked complete |
| Battle.AbortMission | app/src/main/java/com/example/sakartveloguide/presentation/battle/BattleViewModel.kt:135 | the journey goes back to browsing, then the mission data is cleared |
| Battle.AbortEndsJourney | app/src/main/java/com/example/sakartveloguide/presentation/battle/BattleViewModel.kt:135 | after an abort the user is browsing with no active trip, base camp or target, and an empty completed set |
| Home.SafeLang | app/src/main/java/com/example/sakartveloguide/presentation/home/HomeViewModel.kt:89 | never empty; a non-empty language is kept (also lines 99, 167) |
| Home.Bridge | app/src/main/java/com/example/sakartveloguide/presentation/home/HomeViewModel.kt:191-201 | a bridge over the distance between the two points: walking with a walking link under 0.3 km; otherwise a driving link, DRIVE exactly when the profile has a rental or own car and CHARTER exactly when not |
| Home.GenerateThread | app/src/main/java/com/example/sakartveloguide/presentation/home/HomeViewModel.kt:165-189 | the list built step by step is the thread for the safe language |
| Home.ActivityNodesConcat | app/src/main/java/com/example/sakartveloguide/presentation/home/HomeViewModel.kt:173-181 | the activities of two step lists in a row are their activities in a row |
| Home.StepsUpToShape | app/src/main/java/com/example/sakartveloguide/presentation/home/HomeViewModel.kt:173-181 | the first k nodes give k activities, one per node in order, plus one step per bridge |
| Home.ThreadShape | app/src/main/java/com/example/sakartveloguide/presentation/home/HomeViewModel.kt:170-188 | a thread starts with the touchdown step, holds one activity per node in itinerary order, ends with the extraction or the debriefing after it, and has n + 2 + bridges (+ 1) steps |
| Home.NoLocationsNoBridges | app/src/main/java/com/example/sakartveloguide/presentation/home/HomeViewModel.kt:175-180 | an itinerary with no located node has no bridge |
| Home.AllLocatedAllBridged | app/src/main/java/com/example/sakartveloguide/presentation/home/HomeViewModel.kt:175-180 | with every node located, n nodes have n - 1 bridges |
| Home.MissionThread | app/src/main/java/com/example/sakartveloguide/presentation/home/HomeViewModel.kt:81-92 | empty without an active trip or when it is not listed; else the trip's thread with the debriefing |
| Home.PreviewThread | app/src/main/java/com/example/sakartveloguide/presentation/home/HomeViewModel.kt:94-101 | empty without a pending trip or when it is not listed; a listed pending trip gives its thread without the debriefing |
| Home.PreviewIsThreadWithoutDebriefing | app/src/main/java/com/example/sakartveloguide/presentation/home/HomeViewModel.kt:81-101 | a listed trip's preview is its mission thread without the last step (also lines 185-187) |
| Home.Categories | app/src/main/java/com/example/sakartveloguide/presentation/home/HomeViewModel.kt:126 | the distinct category names, each once, exactly those of the trips |
| Home.FirstIndexOf | app/src/main/java/com/example/sakartveloguide/presentation/home/HomeViewModel.kt:126 | the index of the first trip of a category, -1 iff no trip has it |
| Home.CategoriesInFirstAppearanceOrder | app/src/main/java/com/example/sakartveloguide/presentation/home/HomeViewModel.kt:126 | `groupBy` keys come in the order in which their first trips appear |
| Home.Grouped | app/src/main/java/com/example/sakartveloguide/presentation/home/HomeViewModel.kt:124-129 | one group per category, named by the GUIDE-rank sort of the categories, each holding exactly the trips of that category in list order |
| Home.GroupingKeepsEveryTrip | app/src/main/java/com/example/sakartveloguide/presentation/home/HomeViewModel.kt:126-128 | every trip is in the group named after its category |
| Home.GuideSortsFirst | app/src/main/java/com/example/sakartveloguide/presentation/home/HomeViewModel.kt:127 | the rank sort puts a "GUIDE" name first whenever one is among the keys; with `GuideFirstNeverApplies` the home groups never contain one |
| Home.CategoryNameNotGuide | app/src/main/java/com/example/sakartveloguide/presentation/home/HomeViewModel.kt:126 | no category's enum name is "GUIDE" |
| Home.RankSortWithoutGuide | app/src/main/java/com/example/sakartveloguide/presentation/home/HomeViewModel.kt:127 | sorting names none of which is "GUIDE" keeps their order |
| Home.GuideFirstNeverApplies | app/src/main/java/com/example/sakartveloguide/presentation/home/HomeViewModel.kt:126-128 | no category is "GUIDE", so the rank sort is the identity and the groups come in order of their first trips |
| Home.OnTrips | app/src/main/java/com/example/sakartveloguide/presentation/home/HomeViewModel.kt:124-131 | an empty list changes nothing; a non-empty one replaces the groups and ends loading |
| Home.SingleTripGroups | app/src/test/java/com/example/sakartveloguide/presentation/home/HomeViewModelTest.kt:76-77 | one trip gives one group holding only it, loading ends, and the flattened groups are that trip |
| Home.InitialDestination | app/src/main/java/com/example/sakartveloguide/presentation/home/HomeViewModel.kt:116-121 | "battle/" and the trip id when on the road with an active trip, else "home" |
| PathDetails.ShortSummary | app/src/main/java/com/example/sakartveloguide/presentation/detail/PathDetailsViewModel.kt:55-59 | at most 63 characters; a description of up to 60 is kept; a longer one becomes its first 60 characters and "..." |
| PathDetails.NodeIdInjective | app/src/main/java/com/example/sakartveloguide/presentation/detail/PathDetailsViewModel.kt:53 | distinct node indices give distinct timeline ids |
| PathDetails.DriveTime | app/src/main/java/com/example/sakartveloguide/presentation/detail/PathDetailsViewModel.kt:46 | the whole hours followed by "h", rounded toward zero for negative minutes as Kotlin `Int` division does |
| PathDetails.TimelineItem | app/src/main/java/com/example/sakartveloguide/presentation/detail/PathDetailsViewModel.kt:51-63 | node i's item has id "node_i", the node's title and description in the language, the short summary of that description, the node's image or else the trip's, and one highlight exactly when the node has an alert |
| PathDetails.MapToUiState | app/src/main/java/com/example/sakartveloguide/presentation/detail/PathDetailsViewModel.kt:41-67 | not loading; the trip's id, title in the language and stats; one timeline item per node, in itinerary order |
| PathDetails.TimelineIdsDistinct | app/src/main/java/com/example/sakartveloguide/presentation/detail/PathDetailsViewModel.kt:51-53 | the timeline items have pairwise distinct ids |
| PathDetails.UiState | app/src/main/java/com/example/sakartveloguide/presentation/detail/PathDetailsViewModel.kt:23-34 | the loading screen exactly when no listed trip has the id; otherwise the screen of that trip |

## Left out

- **Network calls in `get_wiki_geo_photo`.** The two Wikipedia requests are not modelled as I/O. The geo-search answer and the page-image answers are parameters, and the failure paths (an empty result, no thumbnail, an exception) are answers of those parameters. The tier-1 lookup that `process_location` consults is an arbitrary function of the coordinates.
- **Script plumbing.** The `ThreadPoolExecutor` is modelled only by its order guarantee. JSON loading and dumping, file existence checks and `tqdm` progress are left out; a missing input file is a parameter. The unused `random` import plays no part.
- **Floating point and distance.** Haversine distances, the road winding factor and the decimal formatting of coordinates in map links are not modelled. A distance is an arbitrary function of two points (`real`). Coordinates are `real` values compared exactly.
- **Case folding, white space and digits.** Python `.lower()` and Kotlin `lowercase`, `ignoreCase`, `titlecase` and `trim` are modelled on ASCII only, and so are the decimal digits that `toIntOrNull` and `toInt` accept. Unicode tables are left out. Kotlin on the JVM also parses other Unicode decimal digits (for example "٣" as 3), which the model reads as not a number. The app only parses strings it printed with `joinToString` of `Int`s, which are ASCII.
- **String lengths.** Lengths are counted in characters. Kotlin counts UTF-16 code units, and the two differ for characters outside the Basic Multilingual Plane.
- **`LocalizedString.get`** is not part of this model. Operations that translate take it as a `Lookup` parameter.
- **Android string resources** are a parameter of the home thread.
- **Clock reads.** `System.currentTimeMillis` in the passport stamp and in the wizard's "ROGUE MODE" is a parameter.
- **Wrong-type preference values.** A preference holding a value of another type reads as absent. The app's `DataStore` would throw there.
- **Long arithmetic.** It is unbounded in the model. The `Int` products that can wrap are modelled with a wrap:
  - the wizard's end date, as written, in `LogisticsWizard.EndDateAsWritten` (the profile itself uses the corrected date; see the `FinalProfile` line below);
  - `durationDays * 60`.
- **Room DAOs.** Queries are parameters: the rows a query returns are given, in the order given.
- **Gson parsing.** Parse failures and the `catch` in `refreshTrips` are left out. The parsed records are the input.
- **Coroutines and `Flow` operators.** `combine`, `stateIn`, `flatMapLatest`, `distinctUntilChanged`, `timeout` and concurrency in general are left out. Each state flow is modelled by the pure function of its inputs.
- **Intents, affiliates, haptics and sound.** These are left out:
  - the affiliate and navigation actions of the trip planner:
    - `launchFullTripIntent` (TripPlannerViewModel.kt:192-245);
    - `launchNavigation`, `onStayAction`, `onTransportAction`, `onFlightAction` and `onRentCarAction` (283-291);
  - the Battle screen's intent getters and `calculateDistance`;
  - the briefing's `openExternalLink` launch (its URL table is modelled);
  - `updateTransport`;
  - `onDragComplete`, which only calls `autoSave`;
  - every haptic and sound call.
- **Navigation events.** `onSlamAnimationComplete` and other navigation events are left out. `completeMission` reads the clock twice; the model reads it once, as the `now` parameter.
- **HomeViewModel handlers.** `onConfirmLogistics`, `startMission`, `onLanguageChange`, `onObjectiveSecured` and `onCompleteTrip` are left out, along with the splash flag and the exception fallback of the start-up sequence. They are store writes and platform calls outside the thread, grouping and start-screen logic that is modelled.
- **UI.** Compose screens, icons and colours are not modelled. The exception is the wizard's step machine and the caption and colour that an action carries.
- **Stale `SmartArrangeUseCase.kt`.** The duplicate at `domain/usecase/SmartArrangeUseCase.kt`, outside the app module, is not part of this model. It has no package and calls an undefined function.
- **`PassportRepository` persistence.** The repository is the `passport_stamps` table as a map from the `regionId` primary key to the row; `addStamp` overwrites a row with the same key, as Room's `REPLACE` does. The SQLite storage and the `getAllStamps` flow, with its `dateUnlocked` ordering, are left out.
- **JSON `null` in the scripts.** A field that is present with the value `null` is read like a missing one, as the empty string or 0. In Python, `loc.get('name', '')` returns `None` for a present `null`, so the scripts then stop with a `TypeError` (`(name + " " + desc_en).lower()`, update_locations_popularity.py:32) or an `AttributeError` (`.lower()`, update_images.py:48). The model returns a score or a URL for such a record instead of failing. This affects `PopularityScores.CalculateScores` and `ImageResolver.GetKeywords`.
- LogisticsWizard.Wizard.Choose: a choice that the current step does not offer changes nothing. In the app, a click on the outgoing screen during an `AnimatedContent` transition would still run that screen's callback; this is not modelled.
- LogisticsWizard.FinalProfile: the end date is the corrected `EndDate` of the Findings row, not the `Int`-wrapping product of LogisticsWizard.kt:66. The two agree for trips of up to 24,856 days (`FinalProfileEndDateAsWritten`); for longer trips the app's end date wraps and the model's does not. `LogisticsWizard.Wizard.FinalizeProfile` hands over this profile, so the same holds for it.
- MissionBriefing.Briefing.AutoSave: the source calls `saveDraftMission` with two arguments, where the store's function takes three. The model stores the screen's trip id as the third. Likewise, `draftMission` (MissionBriefingViewmodel.kt:68) does not exist in the store, so the draft ids are a parameter of `RestoreOrLoadData`.
- TripRepository.MapEntityToDomain: the ride time is stated only where days × 60 fits an `Int`. Beyond that the model wraps as Kotlin does, and the contract says nothing further.
- **Custom-trip node text.** `LocationEntity` has no `name` or `description`, yet the custom-trip nodes (BattleViewModel.kt:66) and the briefing's template stops use them. The model reads the English name and description instead.

## Findings

| source | as written | input that shows it | evidently intended | confidence | as-written member | corrected member |
|---|---|---|---|---|---|---|
| app/src/main/java/com/example/sakartveloguide/presentation/mission/LogisticsWizard.kt:66 | `(durationDays - 1) * 24 * 60 * 60` is computed in 32-bit `Int` arithmetic; only the final `* 1000L` widens to `Long` | `durationDays = 24857` with a start date: the product wraps to a negative number, so the end date falls before the start date | the end date is `startDate + (durationDays - 1)` whole days, computed in `Long` | not executed | LogisticsWizard.EndDateAsWritten, LogisticsWizard.EndDateOverflowExample | LogisticsWizard.EndDate, LogisticsWizard.EndDateAgreesOnRealisticDurations |

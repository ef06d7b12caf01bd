/**
 * The score calculator of `scripts/update_locations_popularity.py`:
 * `popularity` (5..100) and `priority` (1..10) of a location record derived
 * from its name, English description, category and region.
 *
 * `Popularity` and `Priority` state the rules declaratively; the method
 * `CalculateScores` follows the script step by step (accumulating with `+=`,
 * the two `for ... break` keyword loops, the cap and the override) and is
 * proved to compute them.
 */
module PopularityScores {
  import opened Wrappers
  import opened Text
  import opened LocationRecord

  const ATTRACTIONS := "Attractions & Activities"
  const DINING := "Dining & Nightlife"
  const RESTAURANT := "RESTAURANT"
  const SHOPPING := "Shopping"
  const ESSENTIAL_SERVICES := "Transportation & Essential Services"

  const HIGH_VALUE_KEYWORDS: seq<string> := [
    "museum", "castle", "fortress", "monastery", "cathedral", "church",
    "national park", "lake", "canyon", "waterfall", "cave", "palace",
    "bridge", "tower", "wine", "winery", "vineyard", "unesco", "heritage",
    "botanical garden", "ski resort", "resort"
  ]

  const SPECIFIC_HOTSPOTS: seq<string> := [
    "fabrika", "bassiani", "khinkali house", "rooms hotel", "stamba"
  ]

  const ESSENTIAL_KEYWORDS: seq<string> := [
    "pharmacy", "hospital", "clinic", "police", "station", "airport", "metro", "railway"
  ]

  const MAJOR_REGIONS: seq<string> := [
    "Tbilisi", "Batumi", "Kutaisi", "Kazbegi", "Mestia", "Sighnaghi", "Telavi", "Borjomi", "Gudauri"
  ]

  /** The exact-match category base score; exactly one of the five values applies. */
  function BaseScore(category: string): (r: int)
    ensures r in {40, 30, 20, 10, 5}
    ensures r == 40 <==> category == ATTRACTIONS
    ensures r == 30 <==> category == DINING || category == RESTAURANT
    ensures r == 20 <==> category == SHOPPING
    ensures r == 10 <==> category == ESSENTIAL_SERVICES
  {
    if category == ATTRACTIONS then 40
    else if category == DINING || category == RESTAURANT then 30
    else if category == SHOPPING then 20
    else if category == ESSENTIAL_SERVICES then 10
    else 5
  }

  /** The lower-cased `name + " " + desc_en` the keyword rules search. */
  function SearchText(name: string, desc: string): string {
    Lower(name + " " + desc)
  }

  predicate DescriptionBoost(desc: string) {
    |desc| > 60 && !Contains(desc, "Verified location")
  }

  predicate RegionBoost(region: string) {
    exists i | 0 <= i < |MAJOR_REGIONS| :: Contains(Lower(region), Lower(MAJOR_REGIONS[i]))
  }

  /** The manual correction for Fabrika in Tbilisi (case-sensitive substrings). */
  predicate FabrikaOverride(name: string, region: string) {
    Contains(name, "Fabrika") && Contains(region, "Tbilisi")
  }

  function Boost(applies: bool, amount: int): int {
    if applies then amount else 0
  }

  /** The accumulated score before the cap: every boost is added at most once. */
  function RawPopularity(name: string, desc: string, category: string, region: string): (r: int)
    ensures 5 <= r <= 120
  {
    var text := SearchText(name, desc);
    BaseScore(category)
      + Boost(ContainsAny(text, HIGH_VALUE_KEYWORDS), 20)
      + Boost(ContainsAny(text, SPECIFIC_HOTSPOTS), 40)
      + Boost(DescriptionBoost(desc), 10)
      + Boost(RegionBoost(region), 10)
  }

  /** Popularity: the raw score capped at 100, then raised to 90 by the override. */
  function Popularity(name: string, desc: string, category: string, region: string): (r: int)
    ensures 5 <= r <= 100
    ensures FabrikaOverride(name, region) ==> r >= 90
    ensures !FabrikaOverride(name, region) ==> r == Min(RawPopularity(name, desc, category, region), 100)
    ensures r >= Min(RawPopularity(name, desc, category, region), 100)
  {
    var capped := Min(RawPopularity(name, desc, category, region), 100);
    if FabrikaOverride(name, region) then Max(capped, 90) else capped
  }

  function Min(a: int, b: int): int { if a <= b then a else b }
  function Max(a: int, b: int): int { if a >= b then a else b }

  predicate IsEssential(name: string, desc: string, category: string) {
    category == ESSENTIAL_SERVICES || ContainsAny(SearchText(name, desc), ESSENTIAL_KEYWORDS)
  }

  /** The popularity-to-tier table. */
  function TouristTier(popularity: int): (r: int)
    ensures r in {10, 8, 6, 4, 1}
    ensures popularity >= 80 <==> r == 10
    ensures (60 <= popularity < 80) <==> r == 8
    ensures (40 <= popularity < 60) <==> r == 6
    ensures (20 <= popularity < 40) <==> r == 4
    ensures popularity < 20 <==> r == 1
  {
    if popularity >= 80 then 10
    else if popularity >= 60 then 8
    else if popularity >= 40 then 6
    else if popularity >= 20 then 4
    else 1
  }

  /** Priority: essential service (8) or tourist tier, whichever is higher; 10 for the override. */
  function Priority(name: string, desc: string, category: string, region: string): (r: int)
    ensures 1 <= r <= 10
    ensures FabrikaOverride(name, region) ==> r == 10
    ensures !FabrikaOverride(name, region) ==>
      r == Max(Boost(IsEssential(name, desc, category), 8), TouristTier(Popularity(name, desc, category, region)))
    ensures IsEssential(name, desc, category) ==> r >= 8
  {
    if FabrikaOverride(name, region) then 10
    else
      var tier := TouristTier(Popularity(name, desc, category, region));
      Min(Max(Boost(IsEssential(name, desc, category), 8), tier), 10)
  }

  /** The record `calculate_scores` returns: only `popularity` and `priority` change. */
  function Scored(loc: Record): (r: Record)
    ensures SameSource(r, loc) && r.image == loc.image
  {
    var name := TextOf(loc.name);
    var desc := TextOf(loc.descEn);
    var category := TextOf(loc.category);
    var region := TextOf(loc.region);
    loc.(popularity := Some(Popularity(name, desc, category, region)),
         priority := Some(Priority(name, desc, category, region)))
  }

  /**
   * One `for kw in keywords: if kw in text: popularity += amount; break`
   * loop: the amount once if some keyword occurs, nothing otherwise.
   */
  method FirstKeywordBoost(text: string, keywords: seq<string>, amount: int) returns (added: int)
    ensures added == Boost(ContainsAny(text, keywords), amount)
  {
    added := 0;
    var i := 0;
    while i < |keywords|
      invariant 0 <= i <= |keywords|
      invariant forall j | 0 <= j < i :: !Contains(text, keywords[j])
    {
      if Contains(text, keywords[i]) {
        added := amount;
        return;
      }
      i := i + 1;
    }
  }

  /** The popularity half of `calculate_scores`: the base score, the four boosts, the cap and the override. */
  method ComputePopularity(name: string, desc: string, category: string, region: string) returns (popularity: int)
    ensures popularity == Popularity(name, desc, category, region)
  {
    popularity := 0;

    if category == ATTRACTIONS {
      popularity := popularity + 40;
    } else if category == DINING || category == RESTAURANT {
      popularity := popularity + 30;
    } else if category == SHOPPING {
      popularity := popularity + 20;
    } else if category == ESSENTIAL_SERVICES {
      popularity := popularity + 10;
    } else {
      popularity := popularity + 5;
    }
    assert popularity == BaseScore(category);

    var text := Lower(name + " " + desc);

    var highValue := FirstKeywordBoost(text, HIGH_VALUE_KEYWORDS, 20);
    popularity := popularity + highValue;
    var hotspot := FirstKeywordBoost(text, SPECIFIC_HOTSPOTS, 40);
    popularity := popularity + hotspot;

    if |desc| > 60 && !Contains(desc, "Verified location") {
      popularity := popularity + 10;
    }

    if exists k | 0 <= k < |MAJOR_REGIONS| :: Contains(Lower(region), Lower(MAJOR_REGIONS[k])) {
      popularity := popularity + 10;
    }
    assert popularity == RawPopularity(name, desc, category, region);

    if popularity > 100 {
      popularity := 100;
    }

    if Contains(name, "Fabrika") && Contains(region, "Tbilisi") {
      popularity := Max(popularity, 90);
    }
  }

  /** `calculate_scores(loc)`, statement by statement. */
  method CalculateScores(loc: Record) returns (r: Record)
    ensures r == Scored(loc)
  {
    var name := TextOf(loc.name);
    var desc := TextOf(loc.descEn);
    var category := TextOf(loc.category);
    var region := TextOf(loc.region);

    var popularity := ComputePopularity(name, desc, category, region);
    var priority := 0;
    var text := Lower(name + " " + desc);

    var isEssential := category == ESSENTIAL_SERVICES
      || exists k | 0 <= k < |ESSENTIAL_KEYWORDS| :: Contains(text, ESSENTIAL_KEYWORDS[k]);

    if isEssential {
      priority := 8;
    }
    assert priority == Boost(IsEssential(name, desc, category), 8);

    var touristPriority := 0;
    if popularity >= 80 {
      touristPriority := 10;
    } else if popularity >= 60 {
      touristPriority := 8;
    } else if popularity >= 40 {
      touristPriority := 6;
    } else if popularity >= 20 {
      touristPriority := 4;
    } else {
      touristPriority := 1;
    }
    assert touristPriority == TouristTier(popularity);

    priority := Max(priority, touristPriority);
    priority := Min(priority, 10);

    if Contains(name, "Fabrika") && Contains(region, "Tbilisi") {
      priority := 10;
    }

    r := loc.(popularity := Some(popularity), priority := Some(priority));
  }

  /**
   * The loop of `main`: one scored record per input record, in input order.
   * `None` stands for a missing input file, which ends the run before any
   * record is touched.
   */
  method ScoreAll(input: Option<seq<Record>>) returns (output: Option<seq<Record>>)
    ensures input.None? <==> output.None?
    ensures input.Some? ==> |output.value| == |input.value|
    ensures input.Some? ==> forall k | 0 <= k < |input.value| :: output.value[k] == Scored(input.value[k])
  {
    if input.None? {
      return None;
    }
    var locations := input.value;
    var updated: seq<Record> := [];
    var i := 0;
    while i < |locations|
      invariant 0 <= i <= |locations|
      invariant |updated| == i
      invariant forall k | 0 <= k < i :: updated[k] == Scored(locations[k])
    {
      var scored := CalculateScores(locations[i]);
      updated := updated + [scored];
      i := i + 1;
    }
    output := Some(updated);
  }

  /** Scores depend only on the source fields, so scoring a scored record changes nothing. */
  lemma ScoringIsIdempotent(loc: Record)
    ensures Scored(Scored(loc)) == Scored(loc)
  {
  }

  /** Re-running the whole pass on its own output gives the same collection. */
  lemma ScoreAllIsIdempotent(locations: seq<Record>)
    ensures forall k | 0 <= k < |locations| :: Scored(Scored(locations[k])) == Scored(locations[k])
  {
  }

  // ---------------------------------------------------------------------
  // Worked examples

  /** A record without a region gets no region boost. */
  lemma EmptyRegionHasNoBoost()
    ensures !RegionBoost("")
  {
    forall j | 0 <= j < |MAJOR_REGIONS| ensures !Contains(Lower(""), Lower(MAJOR_REGIONS[j])) {
      NotContainsInEmpty(Lower(MAJOR_REGIONS[j]));
    }
  }

  /** "Ananuri Fortress", an attraction with no description or region: 40 + 20 = 60, tier 8. */
  lemma AnanuriFortressExample()
    ensures Popularity("Ananuri Fortress", "", ATTRACTIONS, "") == 60
    ensures Priority("Ananuri Fortress", "", ATTRACTIONS, "") == 8
  {
    AnanuriKeywords();
    assert !Contains("", "Fabrika");
    EmptyRegionHasNoBoost();
    assert RawPopularity("Ananuri Fortress", "", ATTRACTIONS, "") == 60;
  }

  /** The search text of "Ananuri Fortress" has a high-value keyword and no hotspot name. */
  lemma AnanuriKeywords()
    ensures ContainsAny(SearchText("Ananuri Fortress", ""), HIGH_VALUE_KEYWORDS)
    ensures !ContainsAny(SearchText("Ananuri Fortress", ""), SPECIFIC_HOTSPOTS)
  {
    var text := SearchText("Ananuri Fortress", "");
    assert text == "ananuri fortress ";
    assert text[8..16] == "fortress";
    assert OccursAt(text, "fortress", 8);
    assert Contains(text, HIGH_VALUE_KEYWORDS[2]);
    NoHotspotInAnanuri();
  }

  lemma NoHotspotInAnanuri()
    ensures !ContainsAny("ananuri fortress ", SPECIFIC_HOTSPOTS)
  {
    var text := "ananuri fortress ";
    forall j | 0 <= j < |SPECIFIC_HOTSPOTS| ensures !Contains(text, SPECIFIC_HOTSPOTS[j]) {
      // every hotspot name has a 'b', 'k' or 'm', none of which the text has
      var c := if j == 0 then 2 else if j == 1 || j == 2 then 0 else 3;
      NotContainsMissingChar(text, SPECIFIC_HOTSPOTS[j], c);
    }
  }

  /** A shop with every other field empty: base 20, tier 4, not essential. */
  lemma ShoppingOnlyExample()
    ensures Popularity("", "", SHOPPING, "") == 20
    ensures Priority("", "", SHOPPING, "") == 4
  {
    var text := SearchText("", "");
    assert text == " ";
    forall j | 0 <= j < |HIGH_VALUE_KEYWORDS| ensures !Contains(text, HIGH_VALUE_KEYWORDS[j]) {
      NotContainsMissingChar(text, HIGH_VALUE_KEYWORDS[j], 0);
    }
    forall j | 0 <= j < |SPECIFIC_HOTSPOTS| ensures !Contains(text, SPECIFIC_HOTSPOTS[j]) {
      NotContainsMissingChar(text, SPECIFIC_HOTSPOTS[j], 0);
    }
    forall j | 0 <= j < |ESSENTIAL_KEYWORDS| ensures !Contains(text, ESSENTIAL_KEYWORDS[j]) {
      NotContainsMissingChar(text, ESSENTIAL_KEYWORDS[j], 0);
    }
    assert !Contains("", "Fabrika");
    EmptyRegionHasNoBoost();
  }

  /** "Central Pharmacy" in Shopping is an essential service, so its priority is exactly 8. */
  lemma CentralPharmacyExample()
    ensures Priority("Central Pharmacy", "", SHOPPING, "") == 8
  {
    PharmacyKeywords();
    assert !Contains("", "Tbilisi");
    EmptyRegionHasNoBoost();
    assert Popularity("Central Pharmacy", "", SHOPPING, "") <= 40;
  }

  /** The search text of "Central Pharmacy" has an essential keyword and no hotspot name. */
  lemma PharmacyKeywords()
    ensures ContainsAny(SearchText("Central Pharmacy", ""), ESSENTIAL_KEYWORDS)
    ensures !ContainsAny(SearchText("Central Pharmacy", ""), SPECIFIC_HOTSPOTS)
  {
    var text := SearchText("Central Pharmacy", "");
    assert text == "central pharmacy ";
    assert text[8..16] == "pharmacy";
    assert OccursAt(text, "pharmacy", 8);
    assert Contains(text, ESSENTIAL_KEYWORDS[0]);
    NoHotspotInPharmacy();
  }

  lemma NoHotspotInPharmacy()
    ensures !ContainsAny("central pharmacy ", SPECIFIC_HOTSPOTS)
  {
    var text := "central pharmacy ";
    forall j | 0 <= j < |SPECIFIC_HOTSPOTS| ensures !Contains(text, SPECIFIC_HOTSPOTS[j]) {
      // every hotspot name has a 'b', 'k' or 'o', none of which the text has
      var c := if j == 0 || j == 1 then 2 else if j == 2 then 0 else if j == 3 then 1 else 4;
      NotContainsMissingChar(text, SPECIFIC_HOTSPOTS[j], c);
    }
  }

  /** "Fabrika Tbilisi Hub" in Tbilisi: popularity at least 90 and priority 10, whatever the category. */
  lemma FabrikaTbilisiExample(category: string, desc: string)
    ensures Popularity("Fabrika Tbilisi Hub", desc, category, "Tbilisi") >= 90
    ensures Priority("Fabrika Tbilisi Hub", desc, category, "Tbilisi") == 10
  {
    assert OccursAt("Fabrika Tbilisi Hub", "Fabrika", 0);
    assert OccursAt("Tbilisi", "Tbilisi", 0);
  }
}

/**
 * The image resolver of `scripts/update_images.py`: every location record
 * gets an `image`, either a photo found near its coordinates (tier 1) or a
 * deterministic LoremFlickr placeholder built from keywords (tier 2).
 *
 * The Wikipedia requests are not modelled as network calls: the geo-search
 * answer and the page-image answers are parameters, and the lookup that
 * `process_location` consults is an arbitrary total function of the
 * coordinates.
 */
module ImageResolver {
  import opened Wrappers
  import opened Text
  import opened LocationRecord
  import opened Lists

  // ---------------------------------------------------------------------
  // Keywords

  /** A name rule: if any pattern occurs in the lower-cased name, emit `keyword`. */
  datatype Rule = Rule(patterns: seq<string>, keyword: string)

  /** The name rules, in the order the script tests them. */
  const NAME_RULES: seq<Rule> := [
    Rule(["wine", "winery", "cellar", "marani"], "vineyard"),
    Rule(["church", "monastery", "cathedral"], "church"),
    Rule(["lake"], "lake"),
    Rule(["mountain", "peak"], "mountain"),
    Rule(["restaurant", "cafe", "bar"], "restaurant"),
    Rule(["hotel", "guesthouse"], "hotel")
  ]

  /** The exact-match category table, consulted only when no name rule fires. */
  const CATEGORY_KEYWORDS: map<string, string> := map[
    "Dining & Nightlife" := "restaurant,food",
    "Shopping" := "market,shop",
    "Attractions & Activities" := "landmark,tourism",
    "Transportation & Essential Services" := "city,street"
  ]

  const GEORGIA := "georgia"

  /** The keyword of the first rule (in list order) one of whose patterns occurs in `text`. */
  function FirstRule(text: string, rules: seq<Rule>): Option<string> {
    if rules == [] then None
    else if ContainsAny(text, rules[0].patterns) then Some(rules[0].keyword)
    else FirstRule(text, rules[1..])
  }

  /**
   * No keyword exactly when no rule fires; otherwise the keyword of a rule
   * that fires after only rules that do not.
   */
  lemma {:induction false} FirstRuleSpec(text: string, rules: seq<Rule>)
    ensures var r := FirstRule(text, rules);
      && (r.None? <==> forall i | 0 <= i < |rules| :: !ContainsAny(text, rules[i].patterns))
      && (r.Some? ==> exists i | 0 <= i < |rules| ::
            r.value == rules[i].keyword && ContainsAny(text, rules[i].patterns)
            && forall j | 0 <= j < i :: !ContainsAny(text, rules[j].patterns))
  {
    if rules != [] && !ContainsAny(text, rules[0].patterns) {
      FirstRuleSpec(text, rules[1..]);
      assert forall i | 1 <= i < |rules| :: rules[i] == rules[1..][i - 1];
      if FirstRule(text, rules).Some? {
        var k :| 0 <= k < |rules[1..]| && FirstRule(text, rules).value == rules[1..][k].keyword
          && ContainsAny(text, rules[1..][k].patterns)
          && forall j | 0 <= j < k :: !ContainsAny(text, rules[1..][j].patterns);
        assert forall j | 0 <= j < k + 1 :: !ContainsAny(text, rules[j].patterns) by {
          forall j | 0 <= j < k + 1 ensures !ContainsAny(text, rules[j].patterns) {
            if j > 0 {
              assert rules[j] == rules[1..][j - 1];
            }
          }
        }
      }
    }
  }

  /** A rule that fires, preceded only by rules that do not, decides the keyword. */
  lemma {:induction false} FirstMatchWins(text: string, rules: seq<Rule>, i: nat)
    requires i < |rules| && ContainsAny(text, rules[i].patterns)
    requires forall j | 0 <= j < i :: !ContainsAny(text, rules[j].patterns)
    ensures FirstRule(text, rules) == Some(rules[i].keyword)
  {
    if i > 0 {
      assert forall j | 0 <= j < i - 1 :: rules[1..][j] == rules[j + 1];
      FirstMatchWins(text, rules[1..], i - 1);
    }
  }

  /** The keyword list `get_keywords` joins: a name or category keyword, the region, "georgia". */
  function KeywordParts(category: string, name: string, region: string): seq<string> {
    var lead := match FirstRule(Lower(name), NAME_RULES)
      case Some(k) => [k]
      case None => if category in CATEGORY_KEYWORDS then [CATEGORY_KEYWORDS[category]] else [];
    lead + (if region != "" then [region] else []) + [GEORGIA]
  }

  /**
   * One to three parts: the name keyword if a rule fires, otherwise the
   * category entry if the category is in the table; then the region when
   * it is non-empty; "georgia" last.
   */
  lemma KeywordPartsShape(category: string, name: string, region: string)
    ensures var r := KeywordParts(category, name, region);
      && 1 <= |r| <= 3
      && r[|r| - 1] == GEORGIA
      && (region != "" ==> |r| >= 2 && r[|r| - 2] == region)
      && (FirstRule(Lower(name), NAME_RULES).Some? ==> r[0] == FirstRule(Lower(name), NAME_RULES).value)
      && (FirstRule(Lower(name), NAME_RULES).None? && category in CATEGORY_KEYWORDS ==>
            r[0] == CATEGORY_KEYWORDS[category])
      && |r| == (if FirstRule(Lower(name), NAME_RULES).Some? || category in CATEGORY_KEYWORDS then 1 else 0)
           + (if region != "" then 1 else 0) + 1
  {
  }

  /** Each rule of `NAME_RULES` fires exactly when the script's `or` of substring tests holds. */
  lemma RuleConditions(name: string)
    ensures ContainsAny(name, NAME_RULES[0].patterns) <==>
      Contains(name, "wine") || Contains(name, "winery") || Contains(name, "cellar") || Contains(name, "marani")
    ensures ContainsAny(name, NAME_RULES[1].patterns) <==>
      Contains(name, "church") || Contains(name, "monastery") || Contains(name, "cathedral")
    ensures ContainsAny(name, NAME_RULES[2].patterns) <==> Contains(name, "lake")
    ensures ContainsAny(name, NAME_RULES[3].patterns) <==> Contains(name, "mountain") || Contains(name, "peak")
    ensures ContainsAny(name, NAME_RULES[4].patterns) <==>
      Contains(name, "restaurant") || Contains(name, "cafe") || Contains(name, "bar")
    ensures ContainsAny(name, NAME_RULES[5].patterns) <==> Contains(name, "hotel") || Contains(name, "guesthouse")
  {
    assert Contains(name, NAME_RULES[0].patterns[0]) || Contains(name, NAME_RULES[0].patterns[1])
      || Contains(name, NAME_RULES[0].patterns[2]) || Contains(name, NAME_RULES[0].patterns[3])
      || !ContainsAny(name, NAME_RULES[0].patterns);
    assert Contains(name, NAME_RULES[1].patterns[0]) || Contains(name, NAME_RULES[1].patterns[1])
      || Contains(name, NAME_RULES[1].patterns[2]) || !ContainsAny(name, NAME_RULES[1].patterns);
    assert Contains(name, NAME_RULES[2].patterns[0]) || !ContainsAny(name, NAME_RULES[2].patterns);
    assert Contains(name, NAME_RULES[3].patterns[0]) || Contains(name, NAME_RULES[3].patterns[1])
      || !ContainsAny(name, NAME_RULES[3].patterns);
    assert Contains(name, NAME_RULES[4].patterns[0]) || Contains(name, NAME_RULES[4].patterns[1])
      || Contains(name, NAME_RULES[4].patterns[2]) || !ContainsAny(name, NAME_RULES[4].patterns);
    assert Contains(name, NAME_RULES[5].patterns[0]) || Contains(name, NAME_RULES[5].patterns[1])
      || !ContainsAny(name, NAME_RULES[5].patterns);
  }

  /** `FirstRule` over `NAME_RULES` is the script's if/elif chain. */
  lemma NameRulesAsWritten(name: string)
    ensures FirstRule(name, NAME_RULES) ==
      if Contains(name, "wine") || Contains(name, "winery") || Contains(name, "cellar") || Contains(name, "marani") then Some("vineyard")
      else if Contains(name, "church") || Contains(name, "monastery") || Contains(name, "cathedral") then Some("church")
      else if Contains(name, "lake") then Some("lake")
      else if Contains(name, "mountain") || Contains(name, "peak") then Some("mountain")
      else if Contains(name, "restaurant") || Contains(name, "cafe") || Contains(name, "bar") then Some("restaurant")
      else if Contains(name, "hotel") || Contains(name, "guesthouse") then Some("hotel")
      else None
  {
    RuleConditions(name);
    var r1 := NAME_RULES[1..];
    var r2 := r1[1..];
    var r3 := r2[1..];
    var r4 := r3[1..];
    var r5 := r4[1..];
    assert r5[1..] == [];
    assert FirstRule(name, r5) == if ContainsAny(name, NAME_RULES[5].patterns) then Some("hotel") else None;
    assert FirstRule(name, r4) == if ContainsAny(name, NAME_RULES[4].patterns) then Some("restaurant") else FirstRule(name, r5);
    assert FirstRule(name, r3) == if ContainsAny(name, NAME_RULES[3].patterns) then Some("mountain") else FirstRule(name, r4);
    assert FirstRule(name, r2) == if ContainsAny(name, NAME_RULES[2].patterns) then Some("lake") else FirstRule(name, r3);
    assert FirstRule(name, r1) == if ContainsAny(name, NAME_RULES[1].patterns) then Some("church") else FirstRule(name, r2);
  }

  /** The if/elif name rules of `get_keywords`, on the lower-cased name: at most one keyword. */
  method NameRuleKeywords(name: string) returns (keywords: seq<string>)
    ensures keywords == if FirstRule(name, NAME_RULES).Some? then [FirstRule(name, NAME_RULES).value] else []
  {
    NameRulesAsWritten(name);
    keywords := [];

    if Contains(name, "wine") || Contains(name, "winery") || Contains(name, "cellar") || Contains(name, "marani") {
      keywords := keywords + ["vineyard"];
    } else if Contains(name, "church") || Contains(name, "monastery") || Contains(name, "cathedral") {
      keywords := keywords + ["church"];
    } else if Contains(name, "lake") {
      keywords := keywords + ["lake"];
    } else if Contains(name, "mountain") || Contains(name, "peak") {
      keywords := keywords + ["mountain"];
    } else if Contains(name, "restaurant") || Contains(name, "cafe") || Contains(name, "bar") {
      keywords := keywords + ["restaurant"];
    } else if Contains(name, "hotel") || Contains(name, "guesthouse") {
      keywords := keywords + ["hotel"];
    }
  }

  /** `get_keywords(loc)`: the name rules, the category table, the region, "georgia". */
  method GetKeywords(loc: Record) returns (joined: string)
    ensures joined == Join(KeywordParts(TextOf(loc.category), TextOf(loc.name), TextOf(loc.region)), ',')
  {
    var category := TextOf(loc.category);
    var name := Lower(TextOf(loc.name));
    var region := TextOf(loc.region);

    var keywords := NameRuleKeywords(name);

    if keywords == [] {
      if category in CATEGORY_KEYWORDS {
        keywords := keywords + [CATEGORY_KEYWORDS[category]];
      }
    }

    if region != "" {
      keywords := keywords + [region];
    }

    keywords := keywords + [GEORGIA];
    assert keywords == KeywordParts(category, TextOf(loc.name), region);

    joined := Join(keywords, ',');
  }

  /** The joined keyword string is never empty and always ends with "georgia". */
  lemma {:induction false} JoinedEndsWith(parts: seq<string>, sep: char)
    requires |parts| > 0
    ensures |Join(parts, sep)| >= |parts[|parts| - 1]|
    ensures Join(parts, sep)[|Join(parts, sep)| - |parts[|parts| - 1]|..] == parts[|parts| - 1]
  {
    if |parts| > 1 {
      JoinedEndsWith(parts[1..], sep);
      assert parts[1..][|parts[1..]| - 1] == parts[|parts| - 1];
      var tail := Join(parts[1..], sep);
      assert Join(parts, sep) == (parts[0] + [sep]) + tail;
      assert Join(parts, sep)[|Join(parts, sep)| - |parts[|parts| - 1]|..]
          == tail[|tail| - |parts[|parts| - 1]|..];
    }
  }

  /** Every keyword string ends with "georgia", whatever the record. */
  lemma KeywordsEndWithGeorgia(category: string, name: string, region: string)
    ensures var s := Join(KeywordParts(category, name, region), ',');
      |s| >= |GEORGIA| && s[|s| - |GEORGIA|..] == GEORGIA
  {
    KeywordPartsShape(category, name, region);
    JoinedEndsWith(KeywordParts(category, name, region), ',');
  }

  // ---------------------------------------------------------------------
  // Placeholder URL

  const LOREMFLICKR_PREFIX := "https://loremflickr.com/800/600/"
  const LOCK_MARKER := "?lock="

  /** `get_loremflickr_url(loc_id, keywords)`. */
  function LoremFlickrUrl(id: int, keywords: string): string {
    LOREMFLICKR_PREFIX + keywords + LOCK_MARKER + IntToString(id)
  }

  /** The URL is the fixed prefix, then the keywords, then "?lock=", then the decimal id. */
  lemma LoremFlickrUrlShape(id: int, keywords: string)
    ensures var url := LoremFlickrUrl(id, keywords);
      && |url| > |LOREMFLICKR_PREFIX| + |keywords| + |LOCK_MARKER|
      && url[..|LOREMFLICKR_PREFIX|] == LOREMFLICKR_PREFIX
      && url[|LOREMFLICKR_PREFIX|..|LOREMFLICKR_PREFIX| + |keywords|] == keywords
      && url[|LOREMFLICKR_PREFIX| + |keywords|..|LOREMFLICKR_PREFIX| + |keywords| + |LOCK_MARKER|] == LOCK_MARKER
      && url[|LOREMFLICKR_PREFIX| + |keywords| + |LOCK_MARKER|..] == IntToString(id)
  {
    var url := LoremFlickrUrl(id, keywords);
    assert url == ((LOREMFLICKR_PREFIX + keywords) + LOCK_MARKER) + IntToString(id);
  }

  /**
   * The lock makes the URL a one-to-one function of the id and the keywords
   * (as long as the keywords hold no '?'): two records get the same
   * placeholder only when they have the same id and keywords.
   */
  lemma LoremFlickrUrlInjective(id1: int, k1: string, id2: int, k2: string)
    requires '?' !in k1 && '?' !in k2
    requires LoremFlickrUrl(id1, k1) == LoremFlickrUrl(id2, k2)
    ensures id1 == id2 && k1 == k2
  {
    var u1 := LoremFlickrUrl(id1, k1);
    var u2 := LoremFlickrUrl(id2, k2);
    var p := |LOREMFLICKR_PREFIX|;
    LoremFlickrUrlShape(id1, k1);
    LoremFlickrUrlShape(id2, k2);
    assert u1[p + |k1|] == '?';
    assert u2[p + |k2|] == '?';
    assert k1 == u1[p..p + |k1|] == k2;
    IntToStringInjective(id1, id2);
  }

  // ---------------------------------------------------------------------
  // Tier 1: the geo photo

  /** A geosearch hit; `title` is `None` when the hit has no "title" key. */
  datatype GeoHit = GeoHit(title: Option<string>)

  /** The geosearch answer: a failed request (any exception) or the hits in order. */
  datatype GeoAnswer = GeoFailed | GeoHits(hits: seq<GeoHit>)

  /** A page's "thumbnail" object; `source` is `None` when it has no "source" key. */
  datatype Thumbnail = Thumbnail(source: Option<string>)

  /** One entry of the "pages" object, in its iteration order. */
  datatype Page = Page(thumbnail: Option<Thumbnail>)

  /** The page-image answer for a title: a failed request or the pages in order. */
  datatype PagesAnswer = PagesFailed | PagesFound(pages: seq<Page>)

  /** Index of the first page that has a thumbnail, if any. */
  function FirstThumbnailIndex(pages: seq<Page>): (r: Option<nat>)
    ensures r.Some? ==>
      r.value < |pages| && pages[r.value].thumbnail.Some?
      && forall j | 0 <= j < r.value :: pages[j].thumbnail.None?
    ensures r.None? ==> forall j | 0 <= j < |pages| :: pages[j].thumbnail.None?
  {
    if pages == [] then None
    else if pages[0].thumbnail.Some? then Some(0)
    else match FirstThumbnailIndex(pages[1..])
      case None => None
      case Some(k) => Some(k + 1)
  }

  /**
   * `get_wiki_geo_photo`: the source of the first thumbnail of the page of the
   * nearest hit. Every failure (no hit, a missing key, a failed request, no
   * thumbnail) ends in `None`; nothing is raised.
   */
  method GetWikiGeoPhoto(geo: GeoAnswer, pagesFor: string -> PagesAnswer) returns (photo: Option<string>)
    ensures photo.Some? <==>
      geo.GeoHits? && |geo.hits| > 0 && geo.hits[0].title.Some?
      && pagesFor(geo.hits[0].title.value).PagesFound?
      && FirstThumbnailIndex(pagesFor(geo.hits[0].title.value).pages).Some?
      && pagesFor(geo.hits[0].title.value).pages[FirstThumbnailIndex(pagesFor(geo.hits[0].title.value).pages).value]
           .thumbnail.value.source.Some?
    ensures photo.Some? ==>
      var pages := pagesFor(geo.hits[0].title.value).pages;
      photo.value == pages[FirstThumbnailIndex(pages).value].thumbnail.value.source.value
  {
    if geo.GeoFailed? {
      return None;
    }
    var results := geo.hits;
    if |results| == 0 {
      return None;
    }
    if results[0].title.None? {
      return None;
    }
    var pageTitle := results[0].title.value;
    var answer := pagesFor(pageTitle);
    if answer.PagesFailed? {
      return None;
    }
    var pages := answer.pages;
    var i := 0;
    while i < |pages|
      invariant 0 <= i <= |pages|
      invariant forall j | 0 <= j < i :: pages[j].thumbnail.None?
    {
      if pages[i].thumbnail.Some? {
        assert FirstThumbnailIndex(pages) == Some(i) by { FirstThumbnailAt(pages, i); }
        return pages[i].thumbnail.value.source;
      }
      i := i + 1;
    }
    return None;
  }

  lemma {:induction false} FirstThumbnailAt(pages: seq<Page>, i: nat)
    requires i < |pages| && pages[i].thumbnail.Some?
    requires forall j | 0 <= j < i :: pages[j].thumbnail.None?
    ensures FirstThumbnailIndex(pages) == Some(i)
  {
    if i > 0 {
      FirstThumbnailAt(pages[1..], i - 1);
    }
  }

  // ---------------------------------------------------------------------
  // process_location and run_pipeline

  /** Python truthiness of an optional string: present and non-empty. */
  predicate NonEmptyText(s: Option<string>) {
    s.Some? && s.value != ""
  }

  /** The tier-1 answer `process_location` uses: looked up only when both coordinates are truthy. */
  function GeoCandidate(loc: Record, geoPhoto: (real, real) -> Option<string>): Option<string> {
    if Truthy(loc.lat) && Truthy(loc.lng) then geoPhoto(loc.lat.value, loc.lng.value) else None
  }

  /** The tier-2 placeholder of a record; a missing id counts as 0. */
  function Placeholder(loc: Record): string {
    LoremFlickrUrl(loc.id.GetOr(0),
      Join(KeywordParts(TextOf(loc.category), TextOf(loc.name), TextOf(loc.region)), ','))
  }

  /** The record `process_location` returns. */
  function Resolved(loc: Record, geoPhoto: (real, real) -> Option<string>): (r: Record)
    ensures SameSource(r, loc) && r.popularity == loc.popularity && r.priority == loc.priority
    ensures r.image.Some?
    ensures NonEmptyText(GeoCandidate(loc, geoPhoto)) ==> r.image == GeoCandidate(loc, geoPhoto)
    ensures !NonEmptyText(GeoCandidate(loc, geoPhoto)) ==> r.image == Some(Placeholder(loc))
  {
    var candidate := GeoCandidate(loc, geoPhoto);
    loc.(image := Some(if NonEmptyText(candidate) then candidate.value else Placeholder(loc)))
  }

  /** `process_location(loc)`: tier 1 when it yields a non-empty URL, otherwise tier 2. */
  method ProcessLocation(loc: Record, geoPhoto: (real, real) -> Option<string>) returns (r: Record)
    ensures r == Resolved(loc, geoPhoto)
  {
    var locId := loc.id.GetOr(0);

    var img: Option<string> := None;
    if Truthy(loc.lat) && Truthy(loc.lng) {
      img := geoPhoto(loc.lat.value, loc.lng.value);
    }

    if img.None? || img.value == "" {
      var keywords := GetKeywords(loc);
      img := Some(LoremFlickrUrl(locId, keywords));
    }

    r := loc.(image := img);
  }

  /** The image step reads neither popularity nor priority, so it commutes with scoring fields. */
  lemma ResolvedIgnoresOldImage(loc: Record, image: Option<string>, geoPhoto: (real, real) -> Option<string>)
    ensures Resolved(loc.(image := image), geoPhoto) == Resolved(loc, geoPhoto)
  {
  }

  /** `process_location` as a function value, for `executor.map`. */
  function ResolveWith(geoPhoto: (real, real) -> Option<string>): Record -> Record {
    (loc: Record) => Resolved(loc, geoPhoto)
  }

  /**
   * `run_pipeline`: one resolved record per input record, in input order
   * (`executor.map` keeps the order of its input). `None` is a missing
   * input file.
   */
  method RunPipeline(input: Option<seq<Record>>, geoPhoto: (real, real) -> Option<string>)
    returns (output: Option<seq<Record>>)
    ensures input.None? <==> output.None?
    ensures input.Some? ==> |output.value| == |input.value|
    ensures input.Some? ==> forall k | 0 <= k < |input.value| :: output.value[k] == Resolved(input.value[k], geoPhoto)
  {
    if input.None? {
      return None;
    }
    var data := input.value;
    var results: seq<Record> := [];
    var i := 0;
    while i < |data|
      invariant 0 <= i <= |data|
      invariant |results| == i
      invariant forall k | 0 <= k < i :: results[k] == ResolveWith(geoPhoto)(data[k])
    {
      var r := ProcessLocation(data[i], geoPhoto);
      MapStep(results, data, ResolveWith(geoPhoto), r);
      results := results + [r];
      i := i + 1;
    }
    output := Some(results);
  }

  // ---------------------------------------------------------------------
  // Worked examples

  /** "Old Marani" in Kakheti: the wine rule fires and the region follows. */
  lemma MaraniExample()
    ensures KeywordParts("Shopping", "Old Marani", "Kakheti") == ["vineyard", "Kakheti", GEORGIA]
  {
    var name := Lower("Old Marani");
    assert name == "old marani";
    assert name[4..10] == "marani";
    assert OccursAt(name, "marani", 4);
    assert ContainsAny(name, NAME_RULES[0].patterns) by { assert Contains(name, NAME_RULES[0].patterns[3]); }
    FirstMatchWins(name, NAME_RULES, 0);
  }

  /** A nameless shop without region: only the category entry and "georgia". */
  lemma ShopWithoutNameExample()
    ensures Join(KeywordParts("Shopping", "", ""), ',') == "market,shop,georgia"
  {
    assert Lower("") == "";
    NoRuleOnEmptyName(NAME_RULES);
    var parts := KeywordParts("Shopping", "", "");
    assert parts == ["market,shop"] + [] + [GEORGIA];
    assert parts[1..] == [GEORGIA];
    assert Join(parts, ',') == "market,shop" + [','] + GEORGIA;
  }

  /** No rule with only non-empty patterns fires on the empty name. */
  lemma {:induction false} NoRuleOnEmptyName(rules: seq<Rule>)
    requires forall i | 0 <= i < |rules| :: forall j | 0 <= j < |rules[i].patterns| :: rules[i].patterns[j] != ""
    ensures FirstRule("", rules) == None
  {
    if rules != [] {
      forall j | 0 <= j < |rules[0].patterns| ensures !Contains("", rules[0].patterns[j]) {
        NotContainsInEmpty(rules[0].patterns[j]);
      }
      assert forall i | 0 <= i < |rules| - 1 :: rules[1..][i] == rules[i + 1];
      NoRuleOnEmptyName(rules[1..]);
    }
  }
}

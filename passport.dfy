/**
 * `AddPassportStampUseCase`: the stamp a completed trip earns, named after
 * the trip's category, handed to the passport repository.
 */
module Passport {
  import opened Text
  import opened Domain

  /** `replace(from, to)` on single characters. */
  function ReplaceChar(s: string, from: char, to: char): (r: string)
    ensures |r| == |s|
    ensures forall i | 0 <= i < |s| :: r[i] == if s[i] == from then to else s[i]
  {
    seq(|s|, i requires 0 <= i < |s| => if s[i] == from then to else s[i])
  }

  /** `replaceFirstChar { if (it.isLowerCase()) it.titlecase() else it.toString() }` on ASCII text. */
  function CapitalizeFirst(s: string): (r: string)
    ensures |r| == |s|
    ensures |s| > 0 ==> r[0] == UpperChar(s[0]) && r[1..] == s[1..]
  {
    if s == [] then [] else [UpperChar(s[0])] + s[1..]
  }

  /** The stamp name made from an enum name: underscores to spaces, lower case, first letter capitalised. */
  function StampName(name: string): string {
    CapitalizeFirst(Lower(ReplaceChar(name, '_', ' ')))
  }

  /**
   * The stamp name keeps the enum name's length, has no underscore, and is
   * the enum name lower-cased with spaces for underscores past its first
   * character, which is upper-cased.
   */
  lemma StampNameShape(name: string)
    ensures var r := StampName(name);
      && |r| == |name|
      && (forall i | 0 <= i < |r| :: r[i] != '_')
      && (forall i | 1 <= i < |r| :: r[i] == if name[i] == '_' then ' ' else LowerChar(name[i]))
      && (|name| > 0 && IsUpper(name[0]) ==> r[0] == name[0])
  {
    var spaced := ReplaceChar(name, '_', ' ');
    var low := Lower(spaced);
    var r := CapitalizeFirst(low);
    forall i | 1 <= i < |r|
      ensures r[i] == low[i]
    {
      assert r[1..][i - 1] == low[1..][i - 1];
    }
  }

  /** The first letter of a stamp name made from an upper-case enum name is upper case and no other letter is. */
  lemma StampNameCase(name: string)
    requires |name| > 0 && IsUpper(name[0])
    ensures var r := StampName(name);
      && IsUpper(r[0])
      && forall i | 1 <= i < |r| :: !IsUpper(r[i])
  {
    StampNameShape(name);
  }

  /** `regionId`: the category's enum name, verbatim. */
  function RegionId(c: RouteCategory): string {
    RouteCategoryName(c)
  }

  /** `regionName`: the stamp name made from the category's enum name. */
  function RegionName(c: RouteCategory): string {
    StampName(RouteCategoryName(c))
  }

  /** Every category name begins with an upper-case letter. */
  lemma CategoryNameStartsUpper(c: RouteCategory)
    ensures |RouteCategoryName(c)| > 0 && IsUpper(RouteCategoryName(c)[0])
  {
  }

  /** Two examples from the category list. */
  lemma RegionNameExamples()
    ensures RegionName(WINE_CELLAR) == "Wine cellar"
    ensures RegionName(URBAN_EXPLORER) == "Urban explorer"
  {
    StampNameShape("WINE_CELLAR");
    StampNameShape("URBAN_EXPLORER");
  }

  /** The stamp for a trip; `get` is `LocalizedString.get` and `now` the clock's milliseconds. */
  function Stamp(trip: TripPath, get: Lookup, now: int): (s: PassportEntity)
    ensures s.regionId == RouteCategoryName(trip.category)
    ensures |s.regionName| == |s.regionId|
    ensures forall i | 0 <= i < |s.regionName| :: s.regionName[i] != '_'
    ensures IsUpper(s.regionName[0]) && forall i | 1 <= i < |s.regionName| :: !IsUpper(s.regionName[i])
    ensures s.dateUnlocked == now && s.tripTitle == get(trip.title, "en")
  {
    CategoryNameStartsUpper(trip.category);
    StampNameShape(RouteCategoryName(trip.category));
    StampNameCase(RouteCategoryName(trip.category));
    PassportEntity(RegionId(trip.category), RegionName(trip.category), now, get(trip.title, "en"))
  }

  // ---------------------------------------------------------------------
  // The stamp table

  /**
   * The `passport_stamps` table keyed by its primary key `regionId`:
   * `insertStamp` is `OnConflictStrategy.REPLACE`, so a stamp for a region
   * that already has one overwrites it.
   */
  function Inserted(stamps: map<string, PassportEntity>, stamp: PassportEntity): (r: map<string, PassportEntity>)
    ensures r.Keys == stamps.Keys + {stamp.regionId}
    ensures r[stamp.regionId] == stamp
    ensures forall k | k in stamps && k != stamp.regionId :: r[k] == stamps[k]
  {
    stamps[stamp.regionId := stamp]
  }

  /** Each row is stored under its own primary key. */
  predicate KeyedByRegion(stamps: map<string, PassportEntity>) {
    forall k | k in stamps :: stamps[k].regionId == k
  }

  lemma InsertedKeepsKeying(stamps: map<string, PassportEntity>, stamp: PassportEntity)
    requires KeyedByRegion(stamps)
    ensures KeyedByRegion(Inserted(stamps, stamp))
  {
  }

  /** A new region adds a row; a region already stamped keeps the row count. */
  lemma InsertedCount(stamps: map<string, PassportEntity>, stamp: PassportEntity)
    ensures |Inserted(stamps, stamp)| == |stamps| + if stamp.regionId in stamps then 0 else 1
  {
    var r := Inserted(stamps, stamp);
    if stamp.regionId in stamps {
      assert r.Keys == stamps.Keys;
    } else {
      assert r.Keys == stamps.Keys + {stamp.regionId};
      assert |r.Keys| == |stamps.Keys| + 1;
    }
  }

  /** The second of two stamps for one region replaces the first. */
  lemma LaterStampReplaces(stamps: map<string, PassportEntity>, first: PassportEntity, second: PassportEntity)
    requires first.regionId == second.regionId
    ensures Inserted(Inserted(stamps, first), second) == Inserted(stamps, second)
  {
  }

  /**
   * Two completed trips of one category leave a single stamp for that
   * category, the later one.
   */
  lemma SameCategoryKeepsOneStamp(stamps: map<string, PassportEntity>, t1: TripPath, t2: TripPath,
                                  get: Lookup, time1: int, time2: int)
    requires t1.category == t2.category
    ensures var r := Inserted(Inserted(stamps, Stamp(t1, get, time1)), Stamp(t2, get, time2));
      && r == Inserted(stamps, Stamp(t2, get, time2))
      && r[RouteCategoryName(t1.category)] == Stamp(t2, get, time2)
  {
    LaterStampReplaces(stamps, Stamp(t1, get, time1), Stamp(t2, get, time2));
  }

  class PassportRepository {
    var stamps: map<string, PassportEntity>

    constructor ()
      ensures stamps == map[]
    {
      stamps := map[];
    }

    /** `addStamp`: `insertStamp` with `REPLACE` on the `regionId` primary key. */
    method AddStamp(stamp: PassportEntity)
      modifies this
      ensures stamps == Inserted(old(stamps), stamp)
    {
      stamps := stamps[stamp.regionId := stamp];
    }
  }

  /** `invoke`: exactly one stamp, the trip's, is filed under the trip's category. */
  method AddPassportStamp(repository: PassportRepository, trip: TripPath, get: Lookup, now: int)
    modifies repository
    ensures repository.stamps == Inserted(old(repository.stamps), Stamp(trip, get, now))
  {
    var regionId := RouteCategoryName(trip.category);
    var regionName := CapitalizeFirst(Lower(ReplaceChar(regionId, '_', ' ')));
    var stamp := PassportEntity(regionId, regionName, now, get(trip.title, "en"));
    repository.AddStamp(stamp);
  }
}

/**
 * `SmartArrangeUseCase`: greedy nearest-neighbour ordering of the selected
 * locations, starting from a given point. The distance is an arbitrary
 * real-valued function of two points (the Haversine formula is not part of
 * this model).
 */
module SmartArrange {
  import opened Domain

  /** The coordinates of a location, the points the ordering measures between. */
  function PositionOf(p: LocationEntity): GeoPoint {
    GeoPoint(p.latitude, p.longitude)
  }

  type Distance = (GeoPoint, GeoPoint) -> real

  /**
   * The index `minByOrNull` picks: a smallest distance from `from`, and the
   * first one among equals.
   */
  function FirstMinIndex(from: GeoPoint, places: seq<LocationEntity>, dist: Distance): (i: nat)
    requires |places| > 0
    ensures i < |places|
    ensures forall j | 0 <= j < |places| :: dist(from, PositionOf(places[i])) <= dist(from, PositionOf(places[j]))
    ensures forall j | 0 <= j < i :: dist(from, PositionOf(places[i])) < dist(from, PositionOf(places[j]))
  {
    if |places| == 1 then 0
    else
      var k := FirstMinIndex(from, places[1..], dist);
      assert forall j | 1 <= j < |places| :: places[j] == places[1..][j - 1];
      if dist(from, PositionOf(places[0])) <= dist(from, PositionOf(places[1..][k])) then 0 else k + 1
  }

  /** `MutableList.remove(x)`: drop the first element equal to `x`, if any. */
  function RemoveFirst(s: seq<LocationEntity>, x: LocationEntity): (r: seq<LocationEntity>)
    ensures x in s ==> |r| == |s| - 1
    ensures x !in s ==> r == s
  {
    if s == [] then []
    else if s[0] == x then s[1..] else [s[0]] + RemoveFirst(s[1..], x)
  }

  /** Removing a present element drops exactly one copy of it. */
  lemma {:induction false} RemoveFirstCount(s: seq<LocationEntity>, x: LocationEntity)
    requires x in s
    ensures multiset(RemoveFirst(s, x)) == multiset(s) - multiset{x}
  {
    assert s == [s[0]] + s[1..];
    if s[0] != x {
      RemoveFirstCount(s[1..], x);
    }
  }

  /** Removing the first minimum by value removes exactly the element at its index. */
  lemma {:induction false} RemoveFirstAt(s: seq<LocationEntity>, i: nat)
    requires i < |s|
    requires forall j | 0 <= j < i :: s[j] != s[i]
    ensures RemoveFirst(s, s[i]) == s[..i] + s[i + 1..]
  {
    if i > 0 {
      var t := s[1..];
      assert t[i - 1] == s[i];
      assert forall j | 0 <= j < i - 1 :: t[j] == s[j + 1];
      RemoveFirstAt(t, i - 1);
      assert RemoveFirst(s, s[i]) == [s[0]] + RemoveFirst(t, s[i]);
      assert t[..i - 1] + t[i..] == s[1..i] + s[i + 1..];
      assert [s[0]] + s[1..i] == s[..i];
    } else {
      assert RemoveFirst(s, s[0]) == s[1..];
    }
  }

  /**
   * `remove(nearest)` takes out the picked place itself: every place before
   * the first minimum is strictly farther, so none of them equals it.
   */
  lemma RemovePicksChosenIndex(from: GeoPoint, remaining: seq<LocationEntity>, dist: Distance)
    requires |remaining| > 0
    ensures var i := FirstMinIndex(from, remaining, dist);
      RemoveFirst(remaining, remaining[i]) == remaining[..i] + remaining[i + 1..]
  {
    var i := FirstMinIndex(from, remaining, dist);
    RemoveFirstAt(remaining, i);
  }

  /** The greedy order: repeatedly take the first nearest remaining place and move to it. */
  function Greedy(from: GeoPoint, remaining: seq<LocationEntity>, dist: Distance): seq<LocationEntity>
    decreases |remaining|
  {
    if remaining == [] then []
    else
      var i := FirstMinIndex(from, remaining, dist);
      [remaining[i]] + Greedy(PositionOf(remaining[i]), RemoveFirst(remaining, remaining[i]), dist)
  }

  /** `SmartArrangeUseCase.invoke`: drain `remaining` into `optimized`, nearest first. */
  method Arrange(startPoint: GeoPoint, selectedLocations: seq<LocationEntity>, dist: Distance)
    returns (optimized: seq<LocationEntity>)
    ensures optimized == Greedy(startPoint, selectedLocations, dist)
  {
    if |selectedLocations| == 0 {
      return [];
    }

    optimized := [];
    var remaining := selectedLocations;
    var currentPosition := startPoint;

    while |remaining| > 0
      invariant optimized + Greedy(currentPosition, remaining, dist) == Greedy(startPoint, selectedLocations, dist)
      decreases |remaining|
    {
      var nearest := remaining[FirstMinIndex(currentPosition, remaining, dist)];
      ghost var before := Greedy(currentPosition, remaining, dist);
      optimized := optimized + [nearest];
      currentPosition := PositionOf(nearest);
      remaining := RemoveFirst(remaining, nearest);
      assert before == [nearest] + Greedy(currentPosition, remaining, dist);
    }
  }

  // ---------------------------------------------------------------------
  // Properties of the greedy order

  /** Nothing is lost or duplicated: the order is a permutation of the input. */
  lemma {:induction false} GreedyIsPermutation(from: GeoPoint, remaining: seq<LocationEntity>, dist: Distance)
    ensures multiset(Greedy(from, remaining, dist)) == multiset(remaining)
    decreases |remaining|
  {
    if remaining != [] {
      var i := FirstMinIndex(from, remaining, dist);
      var x := remaining[i];
      GreedyIsPermutation(PositionOf(x), RemoveFirst(remaining, x), dist);
      RemoveFirstCount(remaining, x);
      assert Greedy(from, remaining, dist) == [x] + Greedy(PositionOf(x), RemoveFirst(remaining, x), dist);
      assert x in multiset(remaining);
    }
  }

  /** The empty selection yields the empty order. */
  lemma GreedyOfEmpty(from: GeoPoint, dist: Distance)
    ensures Greedy(from, [], dist) == []
  {
  }

  /** The order has as many places as the selection. */
  lemma GreedyLength(from: GeoPoint, remaining: seq<LocationEntity>, dist: Distance)
    ensures |Greedy(from, remaining, dist)| == |remaining|
  {
    GreedyIsPermutation(from, remaining, dist);
    assert |multiset(Greedy(from, remaining, dist))| == |multiset(remaining)|;
  }

  /** The first place is a nearest one to the start point. */
  lemma GreedyStartsNearest(from: GeoPoint, remaining: seq<LocationEntity>, dist: Distance)
    requires |remaining| > 0
    ensures var r := Greedy(from, remaining, dist);
      |r| > 0 && forall j | 0 <= j < |remaining| :: dist(from, PositionOf(r[0])) <= dist(from, PositionOf(remaining[j]))
  {
  }

  /** The place the step before `k` stands at: the start point, then each chosen place. */
  function StepOrigin(from: GeoPoint, r: seq<LocationEntity>, k: nat): GeoPoint
    requires k < |r|
  {
    if k == 0 then from else PositionOf(r[k - 1])
  }

  /**
   * Every pick is a nearest one among the places not chosen yet: the place
   * at position `k` is no farther from the previous position than any place
   * at a later position.
   */
  lemma GreedyEachStepNearest(from: GeoPoint, remaining: seq<LocationEntity>, dist: Distance, k: nat, j: nat)
    requires var r := Greedy(from, remaining, dist); k <= j < |r|
    ensures var r := Greedy(from, remaining, dist);
      dist(StepOrigin(from, r, k), PositionOf(r[k])) <= dist(StepOrigin(from, r, k), PositionOf(r[j]))
  {
    GreedyNearestSteps(from, remaining, dist);
  }

  /** Each place of `r` is no farther from where its step starts than any later place. */
  predicate NearestSteps(from: GeoPoint, r: seq<LocationEntity>, dist: Distance) {
    forall k, j | 0 <= k <= j < |r| ::
      dist(StepOrigin(from, r, k), PositionOf(r[k])) <= dist(StepOrigin(from, r, k), PositionOf(r[j]))
  }

  lemma {:induction false} GreedyNearestSteps(from: GeoPoint, remaining: seq<LocationEntity>, dist: Distance)
    ensures NearestSteps(from, Greedy(from, remaining, dist), dist)
    decreases |remaining|
  {
    if remaining != [] {
      var x, rest := GreedyUnfold(from, remaining, dist);
      GreedyNearestSteps(PositionOf(x), rest, dist);
      GreedyRestFarther(from, remaining, dist);
      NearestStepsCons(from, x, Greedy(PositionOf(x), rest, dist), dist);
    }
  }

  /** Every later pick comes from `remaining`, so none is nearer to `from` than the first pick. */
  lemma GreedyRestFarther(from: GeoPoint, remaining: seq<LocationEntity>, dist: Distance)
    requires remaining != []
    ensures var x := remaining[FirstMinIndex(from, remaining, dist)];
      var tail := Greedy(PositionOf(x), RemoveFirst(remaining, x), dist);
      forall j | 0 <= j < |tail| :: dist(from, PositionOf(x)) <= dist(from, PositionOf(tail[j]))
  {
    var i := FirstMinIndex(from, remaining, dist);
    var x := remaining[i];
    var rest := RemoveFirst(remaining, x);
    var tail := Greedy(PositionOf(x), rest, dist);
    GreedyIsPermutation(PositionOf(x), rest, dist);
    RemoveFirstCount(remaining, x);
    forall j | 0 <= j < |tail| ensures dist(from, PositionOf(x)) <= dist(from, PositionOf(tail[j])) {
      assert tail[j] in multiset(rest);
      assert tail[j] in multiset(remaining);
      var m :| 0 <= m < |remaining| && remaining[m] == tail[j];
    }
  }

  /** A place nearest to `from` can go in front of an order whose every step is nearest. */
  lemma NearestStepsCons(from: GeoPoint, x: LocationEntity, tail: seq<LocationEntity>, dist: Distance)
    requires NearestSteps(PositionOf(x), tail, dist)
    requires forall j | 0 <= j < |tail| :: dist(from, PositionOf(x)) <= dist(from, PositionOf(tail[j]))
    ensures NearestSteps(from, [x] + tail, dist)
  {
    var r := [x] + tail;
    forall k, j | 0 <= k <= j < |r|
      ensures dist(StepOrigin(from, r, k), PositionOf(r[k])) <= dist(StepOrigin(from, r, k), PositionOf(r[j]))
    {
      if k == 0 {
        if j > 0 {
          assert r[j] == tail[j - 1];
        }
      } else {
        StepShift(from, x, tail, r, k, j);
      }
    }
  }

  /** Positions and step origins after the first pick are those of the rest of the order. */
  lemma StepShift(from: GeoPoint, x: LocationEntity, tail: seq<LocationEntity>, r: seq<LocationEntity>, k: nat, j: nat)
    requires r == [x] + tail
    requires 1 <= k <= j < |r|
    ensures r[k] == tail[k - 1] && r[j] == tail[j - 1]
    ensures StepOrigin(PositionOf(x), tail, k - 1) == StepOrigin(from, r, k)
  {
  }

  /** One step of the greedy order: the first pick, then the order of what is left from there. */
  lemma GreedyUnfold(from: GeoPoint, remaining: seq<LocationEntity>, dist: Distance)
    returns (x: LocationEntity, rest: seq<LocationEntity>)
    requires remaining != []
    ensures x == remaining[FirstMinIndex(from, remaining, dist)] && rest == RemoveFirst(remaining, x)
    ensures |rest| < |remaining|
    ensures Greedy(from, remaining, dist) == [x] + Greedy(PositionOf(x), rest, dist)
  {
    x := remaining[FirstMinIndex(from, remaining, dist)];
    rest := RemoveFirst(remaining, x);
  }

  /**
   * Ties: the first pick comes from the first place of the selection at the
   * minimum distance, so every earlier place of the selection is strictly
   * farther.
   */
  lemma GreedyBreaksTiesByInputOrder(from: GeoPoint, remaining: seq<LocationEntity>, dist: Distance)
    requires |remaining| > 0
    ensures var r := Greedy(from, remaining, dist);
      exists i | 0 <= i < |remaining| :: r[0] == remaining[i]
        && forall j | 0 <= j < i :: dist(from, PositionOf(remaining[j])) > dist(from, PositionOf(r[0]))
  {
    var i := FirstMinIndex(from, remaining, dist);
    assert Greedy(from, remaining, dist)[0] == remaining[i];
  }
}

/** Catchment analysis of App.tsx: which loaded locations lie in the committed circle,
    and how many of each category. */
module Catchment {
  import opened Wrappers
  import opened Seqs
  import opened Categories

  /** A longitude/latitude pair as the map reports it (`[lngLat.lng, lngLat.lat]`). */
  datatype LngLat = LngLat(lng: real, lat: real)

  /** A drawn circle. The source builds it with turf from the drag's start and end points,
      which become two opposite points of the circle; the geodesy is not modelled, so a
      circle is identified by that drag. */
  datatype Circle = Circle(start: LngLat, end: LngLat)

  /** Point-in-polygon test against a circle (`booleanPointInPolygon`), taken as given:
      arguments are the circle, a longitude and a latitude. */
  type Containment = (Circle, real, real) -> bool

  /** `locations.filter(loc => filters[loc.type])`: the locations of enabled categories. */
  function FilteredLocations(locations: seq<Location>, filters: Filters): (r: seq<Location>)
    ensures forall l :: multiset(r)[l] == if Enabled(filters, l.kind) then multiset(locations)[l] else 0
    ensures IsSubsequence(r, locations)
  {
    Keep(locations, (l: Location) => Enabled(filters, l.kind))
  }

  /** The `inside` list: enabled locations the circle contains, in their loaded order. */
  function InsideCircle(locations: seq<Location>, filters: Filters, circle: Circle, contains: Containment): (r: seq<Location>)
    ensures forall l :: multiset(r)[l] ==
                        if Enabled(filters, l.kind) && contains(circle, l.longitude, l.latitude)
                        then multiset(locations)[l] else 0
    ensures IsSubsequence(r, locations)
  {
    var filtered := FilteredLocations(locations, filters);
    var inside := Keep(filtered, (l: Location) => contains(circle, l.longitude, l.latitude));
    KeepKeep(locations, (l: Location) => Enabled(filters, l.kind), (l: Location) => contains(circle, l.longitude, l.latitude));
    inside
  }

  /** Number of locations of category `t` in `s`. */
  function CountOf(s: seq<Location>, t: LocationType): nat
  {
    if s == [] then 0
    else CountOf(s[..|s| - 1], t) + (if s[|s| - 1].kind == t then 1 else 0)
  }

  /** Sum of the counts a category map holds for the categories `ts` (a missing key counts 0). */
  function SumCounts(counts: map<LocationType, nat>, ts: seq<LocationType>): nat
  {
    if ts == [] then 0
    else (if ts[0] in counts then counts[ts[0]] else 0) + SumCounts(counts, ts[1..])
  }

  /** Sum over `ts` of the per-category counts of `s`. */
  function SumCountOf(s: seq<Location>, ts: seq<LocationType>): nat
  {
    if ts == [] then 0 else CountOf(s, ts[0]) + SumCountOf(s, ts[1..])
  }

  /** The value `getCircleStats` returns. */
  datatype CircleStats = CircleStats(total: nat, typeCounts: map<LocationType, nat>, inside: seq<Location>)

  /** `getCircleStats`: with no committed circle, the empty statistics; otherwise the enabled
      locations inside the circle, their number, and a per-category count map that has a key
      exactly for the categories that occur inside, whose counts add up to the total. */
  method GetCircleStats(circleData: Option<Circle>, locations: seq<Location>, filters: Filters, contains: Containment)
    returns (stats: CircleStats)
    ensures circleData.None? ==> stats == CircleStats(0, map[], [])
    ensures circleData.Some? ==> stats.inside == InsideCircle(locations, filters, circleData.value, contains)
    ensures stats.total == |stats.inside|
    ensures forall t :: t in stats.typeCounts <==> CountOf(stats.inside, t) > 0
    ensures forall t :: t in stats.typeCounts ==> stats.typeCounts[t] == CountOf(stats.inside, t)
    ensures forall t :: t in stats.typeCounts ==> Enabled(filters, t) && stats.typeCounts[t] > 0
    ensures SumCounts(stats.typeCounts, AllTypes) == stats.total
  {
    if circleData.None? {
      return CircleStats(0, map[], []);
    }
    var inside := InsideCircle(locations, filters, circleData.value, contains);
    var typeCounts := CountByType(inside);
    CountedCategoriesEnabled(locations, filters, circleData.value, contains, typeCounts);
    stats := CircleStats(|inside|, typeCounts, inside);
  }

  /** The `inside.forEach` loop: `typeCounts[loc.type] = (typeCounts[loc.type] || 0) + 1`.
      The map has a key exactly for the categories that occur, holding their number of
      occurrences, and its counts add up to the length of the sequence. */
  method CountByType(inside: seq<Location>) returns (typeCounts: map<LocationType, nat>)
    ensures forall t :: t in typeCounts <==> CountOf(inside, t) > 0
    ensures forall t :: t in typeCounts ==> typeCounts[t] == CountOf(inside, t)
    ensures SumCounts(typeCounts, AllTypes) == |inside|
  {
    typeCounts := map[];
    var i := 0;
    while i < |inside|
      invariant 0 <= i <= |inside|
      invariant forall t :: t in typeCounts <==> CountOf(inside[..i], t) > 0
      invariant forall t :: t in typeCounts ==> typeCounts[t] == CountOf(inside[..i], t)
    {
      var k := inside[i].kind;
      typeCounts := typeCounts[k := (if k in typeCounts then typeCounts[k] else 0) + 1];
      assert inside[..i + 1][..i] == inside[..i];
      i := i + 1;
    }
    assert inside[..i] == inside;
    SumCountsMatches(typeCounts, inside, AllTypes);
    CountsAddUpToLength(inside);
  }

  /** Only enabled categories can be counted inside a circle. */
  lemma CountedCategoriesEnabled(locations: seq<Location>, filters: Filters, circle: Circle, contains: Containment,
                                 typeCounts: map<LocationType, nat>)
    requires forall t :: t in typeCounts <==> CountOf(InsideCircle(locations, filters, circle, contains), t) > 0
    ensures forall t :: t in typeCounts ==> Enabled(filters, t)
  {
    var inside := InsideCircle(locations, filters, circle, contains);
    forall t | t in typeCounts
      ensures Enabled(filters, t)
    {
      var l := CountedOccurs(inside, t);
      assert multiset(inside)[l] > 0;
    }
  }

  /** A category with a positive count has a witness in the sequence. */
  lemma {:induction false} CountedOccurs(s: seq<Location>, t: LocationType) returns (l: Location)
    requires CountOf(s, t) > 0
    ensures l in s && l.kind == t
  {
    if s[|s| - 1].kind == t {
      l := s[|s| - 1];
    } else {
      l := CountedOccurs(s[..|s| - 1], t);
    }
  }

  lemma {:induction false} SumCountsMatches(counts: map<LocationType, nat>, s: seq<Location>, ts: seq<LocationType>)
    requires forall t :: t in counts <==> CountOf(s, t) > 0
    requires forall t :: t in counts ==> counts[t] == CountOf(s, t)
    ensures SumCounts(counts, ts) == SumCountOf(s, ts)
  {
    if ts != [] {
      SumCountsMatches(counts, s, ts[1..]);
    }
  }

  /** Appending one location adds one to the sum exactly as often as its category is listed. */
  lemma {:induction false} SumCountOfSnoc(s: seq<Location>, l: Location, ts: seq<LocationType>)
    ensures SumCountOf(s + [l], ts) == SumCountOf(s, ts) + Occurrences(ts, l.kind)
  {
    assert (s + [l])[..|s + [l]| - 1] == s;
    if ts != [] {
      SumCountOfSnoc(s, l, ts[1..]);
    }
  }

  /** Summed over every category, the per-category counts give the length of the sequence. */
  lemma {:induction false} CountsAddUpToLength(s: seq<Location>)
    ensures SumCountOf(s, AllTypes) == |s|
  {
    if s == [] {
      SumCountOfEmpty(AllTypes);
    } else {
      var init, last := s[..|s| - 1], s[|s| - 1];
      assert s == init + [last];
      CountsAddUpToLength(init);
      SumCountOfSnoc(init, last, AllTypes);
      AllTypesListsEachOnce(last.kind);
    }
  }

  lemma {:induction false} SumCountOfEmpty(ts: seq<LocationType>)
    ensures SumCountOf([], ts) == 0
  {
    if ts != [] {
      SumCountOfEmpty(ts[1..]);
    }
  }

  /** With every category disabled, nothing is inside any circle. */
  lemma AllDisabledCountsNothing(locations: seq<Location>, filters: Filters, circle: Circle, contains: Containment)
    requires forall t :: !Enabled(filters, t)
    ensures InsideCircle(locations, filters, circle, contains) == []
  {
    var r := InsideCircle(locations, filters, circle, contains);
    assert multiset(r) == multiset{};
  }
}

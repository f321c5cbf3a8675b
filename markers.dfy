/** The map marker layer of Markers.tsx: which locations are drawn one by one, the
    per-category cluster indexes, the choice between the two, and the cluster marker's
    size, colour and click-to-zoom target. */
module Markers {
  import opened Wrappers
  import opened Seqs
  import opened Categories

  /** The visible map area `[west, south, east, north]`. */
  datatype BBox = BBox(west: real, south: real, east: real, north: real)

  /** Inclusive containment in the visible area. */
  predicate InBounds(l: Location, bounds: BBox)
  {
    bounds.west <= l.longitude <= bounds.east && bounds.south <= l.latitude <= bounds.north
  }

  /** The locations of category `t` inside the visible area, in their original order. */
  function InView(t: LocationType, locations: seq<Location>, bounds: BBox): (r: seq<Location>)
    ensures forall l :: multiset(r)[l] == if l.kind == t && InBounds(l, bounds) then multiset(locations)[l] else 0
    ensures forall l :: l in r <==> l in locations && l.kind == t && InBounds(l, bounds)
    ensures IsSubsequence(r, locations)
  {
    Keep(locations, (l: Location) => l.kind == t && InBounds(l, bounds))
  }

  /** `getVisiblePoints(type, locations)`. */
  function VisiblePoints(t: LocationType, locations: seq<Location>, bounds: BBox, zoom: real, isClusterMode: bool): (r: seq<Location>)
    ensures zoom < 14.0 && !isClusterMode ==> r == []
    ensures !(zoom < 14.0 && !isClusterMode) ==>
              forall l :: l in r <==> l in locations && l.kind == t && InBounds(l, bounds)
    ensures !(zoom < 14.0 && !isClusterMode) ==>
              forall l :: multiset(r)[l] == if l.kind == t && InBounds(l, bounds) then multiset(locations)[l] else 0
    ensures IsSubsequence(r, locations)
  {
    if zoom < 14.0 && !isClusterMode then [] else InView(t, locations, bounds)
  }

  /** The options every per-category Supercluster index is created with. */
  datatype ClusterOptions = ClusterOptions(radius: nat, maxZoom: nat, minZoom: nat, minPoints: nat, nodeSize: nat)

  const IndexOptions := ClusterOptions(120, 16, 5, 4, 128)

  /** A point fed to an index: `{cluster: false, locationId, type}` at `[longitude, latitude]`. */
  datatype ClusterPoint = ClusterPoint(locationId: real, kind: LocationType, coordinates: seq<real>)

  /** An index as loaded; its clustering is the library's and is not modelled. */
  datatype ClusterIndex = ClusterIndex(options: ClusterOptions, points: seq<ClusterPoint>)

  /** `locations.filter(loc => loc.type === type)`. */
  function OfType(locations: seq<Location>, t: LocationType): (r: seq<Location>)
    ensures forall l :: multiset(r)[l] == if l.kind == t then multiset(locations)[l] else 0
    ensures forall l :: l in r <==> l in locations && l.kind == t
    ensures IsSubsequence(r, locations)
  {
    Keep(locations, (l: Location) => l.kind == t)
  }

  /** The point an index holds for location `l`. */
  function ToClusterPoint(l: Location): ClusterPoint
  {
    ClusterPoint(l.id, l.kind, [l.longitude, l.latitude])
  }

  /** The points loaded into category `t`'s index: its locations, in order. */
  function PointsOf(locations: seq<Location>, t: LocationType): (r: seq<ClusterPoint>)
    ensures |r| == |OfType(locations, t)|
    ensures forall i :: 0 <= i < |r| ==> r[i] == ToClusterPoint(OfType(locations, t)[i]) && r[i].kind == t
  {
    var ofType := OfType(locations, t);
    seq(|ofType|, i requires 0 <= i < |ofType| => ToClusterPoint(ofType[i]))
  }

  /** A location is loaded into its own category's index and into no other. */
  lemma IndexedOnlyUnderOwnCategory(locations: seq<Location>, l: Location, t: LocationType)
    requires l in locations
    ensures ToClusterPoint(l) in PointsOf(locations, t) <==> t == l.kind
  {
    var ofType := OfType(locations, t);
    if t == l.kind {
      var i :| 0 <= i < |ofType| && ofType[i] == l;
      assert PointsOf(locations, t)[i] == ToClusterPoint(l);
    }
  }

  /** The `superclusters` memo: no indexes outside cluster mode, otherwise one index per
      category, loaded with that category's locations only. */
  method BuildClusterIndexes(locations: seq<Location>, isClusterMode: bool) returns (r: Option<map<LocationType, ClusterIndex>>)
    ensures r.None? <==> !isClusterMode
    ensures r.Some? ==> forall t :: t in r.value && r.value[t] == ClusterIndex(IndexOptions, PointsOf(locations, t))
  {
    if !isClusterMode {
      return None;
    }
    var clusters: map<LocationType, ClusterIndex> := map[];
    var types := AllTypes;
    var i := 0;
    while i < |types|
      invariant 0 <= i <= |types|
      invariant forall j :: 0 <= j < i ==> types[j] in clusters
      invariant forall t :: t in clusters ==> clusters[t] == ClusterIndex(IndexOptions, PointsOf(locations, t))
    {
      var t := types[i];
      clusters := clusters[t := ClusterIndex(IndexOptions, PointsOf(locations, t))];
      i := i + 1;
    }
    EveryTypeIsKey(clusters);
    return Some(clusters);
  }

  /** A map keyed by every entry of `AllTypes` has every category as a key. */
  lemma EveryTypeIsKey<V>(m: map<LocationType, V>)
    requires forall j :: 0 <= j < |AllTypes| ==> AllTypes[j] in m
    ensures forall t :: t in m
  {
    forall t: LocationType ensures t in m {
      AllTypesListsEachOnce(t);
      OccursIn(AllTypes, t);
    }
  }

  /** How one category is drawn. */
  datatype RenderPath = Hidden | Clustered | Individual

  /** The branch taken for category `t`: nothing when its filter is off, the cluster
      indexes below zoom 14 or in cluster mode, individual markers otherwise. */
  function ChooseRenderPath(filters: Filters, t: LocationType, zoom: real, isClusterMode: bool): (r: RenderPath)
    ensures r.Hidden? <==> !Enabled(filters, t)
    ensures r.Clustered? <==> Enabled(filters, t) && (zoom < 14.0 || isClusterMode)
    ensures r.Individual? ==> zoom >= 14.0 && !isClusterMode
  {
    if !Enabled(filters, t) then Hidden
    else if zoom < 14.0 || isClusterMode then Clustered
    else Individual
  }

  /** `Math.max(30, Math.min(s * 15, 70))`, where `s` is whatever `Math.sqrt(pointCount || 1)`
      returned. */
  function ClusterBaseSize(s: real): (r: real)
    ensures 30.0 <= r <= 70.0
    ensures 30.0 <= s * 15.0 <= 70.0 ==> r == s * 15.0
  {
    var m := if s * 15.0 < 70.0 then s * 15.0 else 70.0;
    if 30.0 < m then m else 30.0
  }

  /** `Math.max(0.6, (16 - zoom) / 8)`. */
  function ZoomFactor(zoom: real): (r: real)
    ensures r >= 0.6 && r >= (16.0 - zoom) / 8.0
    ensures r == 0.6 || r == (16.0 - zoom) / 8.0
  {
    if 0.6 < (16.0 - zoom) / 8.0 then (16.0 - zoom) / 8.0 else 0.6
  }

  /** The cluster marker's diameter in pixels. */
  function ClusterSize(s: real, zoom: real): (r: real)
    ensures r >= 18.0
    ensures zoom >= 11.2 ==> r <= 42.0
  {
    var b := ClusterBaseSize(s);
    var f := ZoomFactor(zoom);
    assert b * f >= 30.0 * f;
    assert zoom >= 11.2 ==> f == 0.6;
    b * f
  }

  /** `Math.min(zoom + 2, 16)`: clicking a cluster zooms in by two levels, up to 16. */
  function FlyToZoom(zoom: real): (r: real)
    ensures r <= 16.0 && r <= zoom + 2.0
    ensures r == 16.0 || r == zoom + 2.0
  {
    if zoom + 2.0 < 16.0 then zoom + 2.0 else 16.0
  }

  /** `getMarkerColor`'s table, keyed by category label. */
  const MarkerColors: map<string, string> :=
    map["Park" := "#4CAF50", "Cami" := "#9C27B0", "Sağlık Tesisi" := "#F44336", "Okul" := "#2196F3",
        "Tatlı Su Çeşmesi" := "#00BCD4", "Eczane" := "#FF9800", "Toplanma Alanı" := "#FFEB3B",
        "Bisiklet Park Alanı" := "#FFC107", "Paylaşımlı Bisiklet İstasyonu" := "#795548",
        "Otopark" := "#3F51B5", "Hava Ölçüm İstasyonu" := "#E91E63", "Kamera" := "#673AB7",
        "Tarihi/Turistik Yerler" := "#FF5722"]

  const FallbackColor := "#9E9E9E"

  /** `getMarkerColor(type)`: the table's colour, grey for a label it does not know. */
  function MarkerColor(key: string): (r: string)
    ensures r == FallbackColor <==> key !in MarkerColors
    ensures key in MarkerColors ==> r == MarkerColors[key]
  {
    if key in MarkerColors then MarkerColors[key] else FallbackColor
  }

  /** Every category has a colour of its own in the table. */
  lemma EveryCategoryHasColor(t: LocationType)
    ensures MarkerColor(TypeName(t)) != FallbackColor
  {
    match t
    case Park => assert TypeName(t) in MarkerColors;
    case Cami => assert TypeName(t) in MarkerColors;
    case SaglikTesisi => assert TypeName(t) in MarkerColors;
    case Okul => assert TypeName(t) in MarkerColors;
    case TatliSuCesmesi => assert TypeName(t) in MarkerColors;
    case Eczane => assert TypeName(t) in MarkerColors;
    case ToplanmaAlani => assert TypeName(t) in MarkerColors;
    case BisikletParkAlani => assert TypeName(t) in MarkerColors;
    case PaylasimliBisikletIstasyonu => assert TypeName(t) in MarkerColors;
    case Otopark => assert TypeName(t) in MarkerColors;
    case HavaOlcumIstasyonu => assert TypeName(t) in MarkerColors;
    case Kamera => assert TypeName(t) in MarkerColors;
    case TarihiTuristikYerler => assert TypeName(t) in MarkerColors;
  }

  /** `locations.find(loc => loc.id === id)`: the first location with that id. */
  function FindLocation(locations: seq<Location>, id: real): (r: Option<Location>)
    ensures r.None? <==> forall i :: 0 <= i < |locations| ==> locations[i].id != id
    ensures r.Some? ==> exists i :: 0 <= i < |locations| && locations[i] == r.value && r.value.id == id &&
                          forall j :: 0 <= j < i ==> locations[j].id != id
  {
    if locations == [] then None
    else if locations[0].id == id then Some(locations[0])
    else
      var rest := FindLocation(locations[1..], id);
      if rest.Some? then
        ghost var i :| 0 <= i < |locations[1..]| && locations[1..][i] == rest.value && rest.value.id == id &&
                         forall j :: 0 <= j < i ==> locations[1..][j].id != id;
        assert locations[i + 1] == rest.value;
        rest
      else rest
  }

  /** An entry `getClusters` returns: a cluster with its point count (0 standing for an
      absent count), or a single point carrying its location id. */
  datatype ClusterEntry = ClusterEntry(isCluster: bool, longitude: real, latitude: real, pointCount: nat, locationId: real)

  /** What is drawn. */
  datatype MarkerView =
    | ClusterMarker(longitude: real, latitude: real, pointCount: nat, size: real, color: string)
    | PointMarker(location: Location)

  /** The number of point entries whose id matches no loaded location. */
  function Unresolved(entries: seq<ClusterEntry>, locations: seq<Location>): (n: nat)
    ensures n <= |entries|
  {
    if entries == [] then 0
    else
      (if !entries[0].isCluster && FindLocation(locations, entries[0].locationId).None? then 1 else 0) +
      Unresolved(entries[1..], locations)
  }

  /** The markers for the entries of a clustered category; `sqrt` is `Math.sqrt`. Every cluster
      entry gives a marker at its position with its count, the category's colour and a clamped
      size; a point entry gives the first location with its id, or nothing when there is none. */
  function RenderEntries(entries: seq<ClusterEntry>, t: LocationType, locations: seq<Location>, zoom: real,
                         sqrt: real -> real): (r: seq<MarkerView>)
    ensures |r| == |entries| - Unresolved(entries, locations)
    ensures forall m :: m in r && m.ClusterMarker? ==> m.size >= 18.0 && m.color == MarkerColor(TypeName(t))
    ensures forall m :: m in r && m.PointMarker? ==> m.location in locations
  {
    if entries == [] then []
    else
      var e := entries[0];
      var rest := RenderEntries(entries[1..], t, locations, zoom, sqrt);
      if e.isCluster then
        var count := if e.pointCount == 0 then 1 else e.pointCount;
        [ClusterMarker(e.longitude, e.latitude, e.pointCount, ClusterSize(sqrt(count as real), zoom), MarkerColor(TypeName(t)))] + rest
      else
        match FindLocation(locations, e.locationId)
        case None => rest
        case Some(l) => [PointMarker(l)] + rest
  }

  /** Marker `m` is drawn from entry `e`: a point marker shows the location of a point entry, a
      cluster marker sits at a cluster entry's position with its count. */
  predicate DrawnFrom(m: MarkerView, e: ClusterEntry, locations: seq<Location>)
  {
    if m.ClusterMarker? then
      e.isCluster && m.longitude == e.longitude && m.latitude == e.latitude && m.pointCount == e.pointCount
    else
      !e.isCluster && FindLocation(locations, e.locationId) == Some(m.location)
  }

  /** Nothing is drawn that no entry asked for. */
  lemma {:induction false} RenderedMarkersHaveEntries(entries: seq<ClusterEntry>, t: LocationType, locations: seq<Location>,
                                                      zoom: real, sqrt: real -> real)
    ensures forall m :: m in RenderEntries(entries, t, locations, zoom, sqrt) ==>
              exists e :: e in entries && DrawnFrom(m, e, locations)
  {
    if entries != [] {
      var r := RenderEntries(entries, t, locations, zoom, sqrt);
      var rest := RenderEntries(entries[1..], t, locations, zoom, sqrt);
      RenderedMarkersHaveEntries(entries[1..], t, locations, zoom, sqrt);
      assert r == rest || (|r| > 0 && r[1..] == rest && DrawnFrom(r[0], entries[0], locations));
      forall m | m in r
        ensures exists e :: e in entries && DrawnFrom(m, e, locations)
      {
        if m in rest {
          var e :| e in entries[1..] && DrawnFrom(m, e, locations);
          assert e in entries;
        } else {
          assert m == r[0];
          assert entries[0] in entries;
        }
      }
    }
  }

  /** Every cluster entry is drawn, and so is every point entry whose location is loaded. */
  lemma {:induction false} EntriesAreRendered(entries: seq<ClusterEntry>, t: LocationType, locations: seq<Location>,
                                              zoom: real, sqrt: real -> real)
    ensures forall e :: e in entries && (e.isCluster || FindLocation(locations, e.locationId).Some?) ==>
              exists m :: m in RenderEntries(entries, t, locations, zoom, sqrt) && DrawnFrom(m, e, locations)
  {
    if entries != [] {
      var r := RenderEntries(entries, t, locations, zoom, sqrt);
      var rest := RenderEntries(entries[1..], t, locations, zoom, sqrt);
      EntriesAreRendered(entries[1..], t, locations, zoom, sqrt);
      assert forall m :: m in rest ==> m in r;
      var e0 := entries[0];
      if e0.isCluster || FindLocation(locations, e0.locationId).Some? {
        assert |r| > 0 && DrawnFrom(r[0], e0, locations);
      }
      forall e | e in entries && (e.isCluster || FindLocation(locations, e.locationId).Some?)
        ensures exists m :: m in r && DrawnFrom(m, e, locations)
      {
        if e == e0 {
          assert r[0] in r;
        } else {
          assert e in entries[1..];
        }
      }
    }
  }

  /** The markers drawn for category `t`; `getClusters` is the index's query. */
  function RenderCategory(t: LocationType, locations: seq<Location>, filters: Filters, bounds: BBox, zoom: real,
                          isClusterMode: bool, indexes: Option<map<LocationType, ClusterIndex>>,
                          getClusters: (ClusterIndex, BBox, int) -> seq<ClusterEntry>, sqrt: real -> real): (r: seq<MarkerView>)
    ensures !Enabled(filters, t) ==> r == []
    ensures ChooseRenderPath(filters, t, zoom, isClusterMode).Clustered? && (indexes.None? || t !in indexes.value) ==> r == []
    ensures ChooseRenderPath(filters, t, zoom, isClusterMode).Clustered? && indexes.Some? && t in indexes.value ==>
              r == RenderEntries(getClusters(indexes.value[t], bounds, zoom.Floor), t, locations, zoom, sqrt)
    ensures ChooseRenderPath(filters, t, zoom, isClusterMode).Individual? ==>
              |r| == |InView(t, locations, bounds)| &&
              forall i :: 0 <= i < |r| ==> r[i] == PointMarker(InView(t, locations, bounds)[i])
    ensures forall m :: m in r && m.PointMarker? ==> m.location in locations
  {
    match ChooseRenderPath(filters, t, zoom, isClusterMode)
    case Hidden => []
    case Clustered =>
      if indexes.None? || t !in indexes.value then []
      else RenderEntries(getClusters(indexes.value[t], bounds, zoom.Floor), t, locations, zoom, sqrt)
    case Individual =>
      var visible := VisiblePoints(t, locations, bounds, zoom, isClusterMode);
      seq(|visible|, i requires 0 <= i < |visible| => PointMarker(visible[i]))
  }
}

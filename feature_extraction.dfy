/** Turning the backend's GeoJSON features into client-side locations: `extractLocation`,
    `calculatePolygonCenter` and the category-by-category load of App.tsx. */
module FeatureExtraction {
  import opened Wrappers
  import opened Categories
  import opened GeoJson
  import opened Catchment
  import opened Numbers

  /** `feature.properties[key] || ''`: a missing, null or empty value reads as the empty
      string. */
  function Text(props: Properties, key: string): (r: string)
    ensures r != "" ==> Get(props, key) == Some(JStr(r))
    ensures (exists s :: Get(props, key) == Some(JStr(s))) ==> Get(props, key) == Some(JStr(r))
    ensures !(Get(props, key).Some? && Get(props, key).value.JStr?) ==> r == ""
  {
    match Get(props, key)
    case Some(JStr(s)) => s
    case _ => ""
  }

  /** `feature.properties[key]` kept as an optional string (no `|| ''` default). */
  function RawText(props: Properties, key: string): (r: Option<string>)
    ensures r.Some? <==> Get(props, key).Some? && Get(props, key).value.JStr?
    ensures r.Some? ==> Get(props, key) == Some(JStr(r.value))
  {
    match Get(props, key)
    case Some(JStr(s)) => Some(s)
    case _ => None
  }

  /** `feature.properties[key]` kept as an optional integer. */
  function IntProp(props: Properties, key: string): (r: Option<int>)
    ensures r.Some? <==> Get(props, key).Some? && Get(props, key).value.JInt?
    ensures r.Some? ==> Get(props, key) == Some(JInt(r.value))
  {
    match Get(props, key)
    case Some(JInt(n)) => Some(n)
    case _ => None
  }

  /** The property each category takes its display name from. */
  function NameFor(t: LocationType, props: Properties): string
  {
    match t
    case Park => Text(props, "ilceadi") + " - " + Text(props, "usT_NITELIK_ADI")
    case SaglikTesisi => Text(props, "adi")
    case Cami => Text(props, "adi")
    case Okul => Text(props, "adi")
    case Eczane => Text(props, "adi")
    case ToplanmaAlani => Text(props, "adi")
    case BisikletParkAlani => Text(props, "niteliK_AD")
    case PaylasimliBisikletIstasyonu => Text(props, "niteliK_AD")
    case Otopark => Text(props, "name")
    case TatliSuCesmesi => Text(props, "aciklama")
    case HavaOlcumIstasyonu => Text(props, "niteliK_AD")
    case Kamera => Text(props, "niteliK_AD")
    case TarihiTuristikYerler => Text(props, "isim")
  }

  /** Every vertex of a ring carries a longitude and a latitude. */
  predicate HasLngLat(points: seq<seq<real>>)
  {
    forall i :: 0 <= i < |points| ==> |points[i]| >= 2
  }

  /** Sum of component `k` (0 = longitude, 1 = latitude) over the vertices. */
  function SumAt(points: seq<seq<real>>, k: nat): real
    requires k < 2 && HasLngLat(points)
  {
    if points == [] then 0.0 else SumAt(points[..|points| - 1], k) + points[|points| - 1][k]
  }

  /** The centre `calculatePolygonCenter` computes: the vertex mean of the outer ring.
      `None` where the source produces no number (no outer ring, an empty ring or a vertex
      without two components). */
  function RingCenter(rings: seq<seq<seq<real>>>): Option<LngLat>
  {
    if rings != [] && rings[0] != [] && HasLngLat(rings[0]) then
      var n := |rings[0]| as real;
      Some(LngLat(SumAt(rings[0], 0) / n, SumAt(rings[0], 1) / n))
    else None
  }

  /** `calculatePolygonCenter`: accumulate the outer ring's longitudes and latitudes, then
      divide by the number of vertices. */
  method PolygonCenter(rings: seq<seq<seq<real>>>) returns (c: Option<LngLat>)
    ensures c == RingCenter(rings)
  {
    if rings == [] {
      return None;
    }
    var points := rings[0];
    var sumLon, sumLat := 0.0, 0.0;
    var i := 0;
    while i < |points|
      invariant 0 <= i <= |points|
      invariant HasLngLat(points[..i])
      invariant sumLon == SumAt(points[..i], 0) && sumLat == SumAt(points[..i], 1)
    {
      if |points[i]| < 2 {
        assert !HasLngLat(points);
        return None;
      }
      assert points[..i + 1][..i] == points[..i];
      sumLon := sumLon + points[i][0];
      sumLat := sumLat + points[i][1];
      i := i + 1;
    }
    assert points[..i] == points;
    if i == 0 {
      return None;
    }
    c := Some(LngLat(sumLon / i as real, sumLat / i as real));
  }

  lemma {:induction false} SumAtBounds(points: seq<seq<real>>, k: nat, lo: real, hi: real)
    requires k < 2 && HasLngLat(points)
    requires forall i :: 0 <= i < |points| ==> lo <= points[i][k] <= hi
    ensures |points| as real * lo <= SumAt(points, k) <= |points| as real * hi
  {
    if points != [] {
      SumAtBounds(points[..|points| - 1], k, lo, hi);
    }
  }

  /** The mean of component `k` over a non-empty ring lies within the component's bounds. */
  lemma MeanAtBounds(points: seq<seq<real>>, k: nat, lo: real, hi: real)
    requires k < 2 && HasLngLat(points) && points != []
    requires forall i :: 0 <= i < |points| ==> lo <= points[i][k] <= hi
    ensures lo <= SumAt(points, k) / |points| as real <= hi
  {
    SumAtBounds(points, k, lo, hi);
    MeanBounds(SumAt(points, k), |points| as real, lo, hi);
  }

  /** The centre of a polygon lies in the bounding box of its outer ring. */
  lemma CenterInBoundingBox(rings: seq<seq<seq<real>>>, west: real, south: real, east: real, north: real)
    requires RingCenter(rings).Some?
    requires forall i :: 0 <= i < |rings[0]| ==>
      west <= rings[0][i][0] <= east && south <= rings[0][i][1] <= north
    ensures west <= RingCenter(rings).value.lng <= east
    ensures south <= RingCenter(rings).value.lat <= north
  {
    MeanAtBounds(rings[0], 0, west, east);
    MeanAtBounds(rings[0], 1, south, north);
  }

  /** `feature.geometry.coordinates[0]` and `[1]` as the camera and tourist branches read
      them; `None` where the geometry is not a Point with two coordinates. */
  function PointPosition(g: Geometry): (r: Option<LngLat>)
    ensures r.Some? <==> g.Point? && |g.coordinates| >= 2
  {
    if g.Point? && |g.coordinates| >= 2 then Some(LngLat(g.coordinates[0], g.coordinates[1])) else None
  }

  /** `extractLocation(feature, type)`; `id` stands for the random id the source draws. */
  function ExtractLocation(feature: Feature, t: LocationType, id: real): (r: Result<Location, string>)
    ensures r.Success? ==> r.value.kind == t && r.value.id == id && r.value.name == NameFor(t, feature.properties)
    ensures feature.geometry.Point? && |feature.geometry.coordinates| >= 2 ==>
      r.Success? && r.value.longitude == feature.geometry.coordinates[0] &&
      r.value.latitude == feature.geometry.coordinates[1]
    ensures feature.geometry.Polygon? && t != Kamera && t != TarihiTuristikYerler ==>
      (r.Success? <==> RingCenter(feature.geometry.rings).Some?) &&
      (r.Success? ==> LngLat(r.value.longitude, r.value.latitude) == RingCenter(feature.geometry.rings).value)
    ensures feature.geometry.OtherGeometry? ==> r.Failure?
    ensures r.Success? ==> (r.value.occupiedSpaces.Some? ==> t == Otopark)
    ensures r.Success? ==> (r.value.cameraUrl.Some? <==> t == Kamera)
    ensures r.Success? ==> (r.value.turistikTur.Some? || r.value.aciklama.Some? || r.value.resim.Some? ==> t == TarihiTuristikYerler)
    ensures r.Success? && t == Otopark ==> r.value.occupiedSpaces == IntProp(feature.properties, "occupiedSpaces")
    ensures r.Success? && t == Kamera ==> r.value.cameraUrl == Some(Text(feature.properties, "url"))
    ensures r.Success? && t == TarihiTuristikYerler ==>
              r.value.turistikTur == RawText(feature.properties, "tur") &&
              r.value.aciklama == RawText(feature.properties, "icerik") &&
              r.value.resim == RawText(feature.properties, "resim")
  {
    var props := feature.properties;
    var name := NameFor(t, props);
    if t == Kamera || t == TarihiTuristikYerler then
      match PointPosition(feature.geometry)
      case None => Failure("coordinates are not a point")
      case Some(p) =>
        if t == Kamera then
          Success(Location(id, t, p.lat, p.lng, name, None, Some(Text(props, "url")), None, None, None))
        else
          Success(Location(id, t, p.lat, p.lng, name, None, None,
            RawText(props, "tur"), RawText(props, "icerik"), RawText(props, "resim")))
    else
      var occupiedSpaces := if t == Otopark then IntProp(props, "occupiedSpaces") else None;
      match feature.geometry
      case Point(coordinates) =>
        if |coordinates| >= 2 then
          Success(Location(id, t, coordinates[1], coordinates[0], name, occupiedSpaces, None, None, None, None))
        else Failure("coordinates are not a point")
      case Polygon(rings) =>
        (match RingCenter(rings)
         case None => Failure("polygon has no centre")
         case Some(c) => Success(Location(id, t, c.lat, c.lng, name, occupiedSpaces, None, None, None, None)))
      case OtherGeometry(typeName) => Failure("Desteklenmeyen geometri tipi: " + typeName)
  }

  /** `features.map(f => extractLocation(f, type))`: the first feature that throws aborts the
      whole map. `idOf(t, i)` stands for the id drawn for the `i`-th feature of category `t`. */
  function ExtractAll(features: seq<Feature>, t: LocationType, idOf: (LocationType, nat) -> real): (r: Result<seq<Location>, string>)
    ensures r.Success? <==> forall i :: 0 <= i < |features| ==> ExtractLocation(features[i], t, idOf(t, i)).Success?
    ensures r.Success? ==> |r.value| == |features|
    ensures r.Success? ==>
              forall i :: 0 <= i < |features| ==> r.value[i] == ExtractLocation(features[i], t, idOf(t, i)).value
  {
    var rs := seq(|features|, i requires 0 <= i < |features| => ExtractLocation(features[i], t, idOf(t, i)));
    assert forall i :: 0 <= i < |features| ==> rs[i] == ExtractLocation(features[i], t, idOf(t, i));
    Collect(rs)
  }

  /** The order in which `loadGeoJSONData` fetches the categories. */
  const LoadOrder: seq<LocationType> :=
    [BisikletParkAlani, PaylasimliBisikletIstasyonu, Otopark, Cami, Okul, SaglikTesisi,
     ToplanmaAlani, Park, TatliSuCesmesi, Eczane, HavaOlcumIstasyonu, Kamera, TarihiTuristikYerler]

  /** What each category's fetch yields: the feature collection, or `None` when the request
      or its JSON decoding fails. */
  type Fetched = LocationType -> Option<FeatureCollection>

  /** The locations of categories `order`, concatenated in that order; a failed fetch or a
      feature that throws aborts the whole load. */
  function LoadAll(fetched: Fetched, idOf: (LocationType, nat) -> real, order: seq<LocationType>): (r: Result<seq<Location>, string>)
  {
    if order == [] then Success([])
    else
      var t := order[|order| - 1];
      match LoadAll(fetched, idOf, order[..|order| - 1])
      case Failure(e) => Failure(e)
      case Success(prefix) =>
        match fetched(t)
        case None => Failure("Veri yükleme hatası")
        case Some(fc) =>
          match ExtractAll(fc.features, t, idOf)
          case Failure(e) => Failure(e)
          case Success(ls) => Success(prefix + ls)
  }

  /** Number of features fetched for categories `order`. */
  function FeatureCount(fetched: Fetched, order: seq<LocationType>): nat
  {
    if order == [] then 0
    else
      var t := order[|order| - 1];
      FeatureCount(fetched, order[..|order| - 1]) +
        (if fetched(t).Some? then |fetched(t).value.features| else 0)
  }

  /** One step of a successful load: the categories before the last loaded, the last
      was fetched and extracted, and the result is the two concatenated. */
  lemma LoadStep(fetched: Fetched, idOf: (LocationType, nat) -> real, order: seq<LocationType>)
    requires order != [] && LoadAll(fetched, idOf, order).Success?
    ensures var init, last := order[..|order| - 1], order[|order| - 1];
            LoadAll(fetched, idOf, init).Success? && fetched(last).Some? &&
            ExtractAll(fetched(last).value.features, last, idOf).Success? &&
            LoadAll(fetched, idOf, order).value ==
              LoadAll(fetched, idOf, init).value + ExtractAll(fetched(last).value.features, last, idOf).value
  {
  }

  /** A load succeeds only if every category's fetch did. */
  lemma {:induction false} LoadNeedsEveryFetch(fetched: Fetched, idOf: (LocationType, nat) -> real, order: seq<LocationType>)
    requires LoadAll(fetched, idOf, order).Success?
    ensures forall t :: t in order ==> fetched(t).Some?
  {
    if order != [] {
      var init, last := order[..|order| - 1], order[|order| - 1];
      LoadStep(fetched, idOf, order);
      LoadNeedsEveryFetch(fetched, idOf, init);
      assert order == init + [last];
    }
  }

  /** A successful load holds exactly one location per fetched feature. */
  lemma {:induction false} LoadCountsFeatures(fetched: Fetched, idOf: (LocationType, nat) -> real, order: seq<LocationType>)
    requires LoadAll(fetched, idOf, order).Success?
    ensures |LoadAll(fetched, idOf, order).value| == FeatureCount(fetched, order)
  {
    if order != [] {
      LoadCountsFeatures(fetched, idOf, order[..|order| - 1]);
    }
  }

  /** Every loaded location belongs to one of the fetched categories. */
  lemma {:induction false} LoadedKindsFetched(fetched: Fetched, idOf: (LocationType, nat) -> real, order: seq<LocationType>, i: nat)
    requires LoadAll(fetched, idOf, order).Success?
    requires i < |LoadAll(fetched, idOf, order).value|
    ensures LoadAll(fetched, idOf, order).value[i].kind in order
  {
    var init := order[..|order| - 1];
    var t := order[|order| - 1];
    assert order == init + [t];
    var prefix := LoadAll(fetched, idOf, init).value;
    var ls := ExtractAll(fetched(t).value.features, t, idOf).value;
    assert LoadAll(fetched, idOf, order).value == prefix + ls;
    if i < |prefix| {
      LoadedKindsFetched(fetched, idOf, init, i);
    } else {
      assert ls[i - |prefix|].kind == t;
    }
  }

  /** Once a prefix of the categories fails to load, so does the whole load. */
  lemma {:induction false} LoadFailureSticks(fetched: Fetched, idOf: (LocationType, nat) -> real, o1: seq<LocationType>, o2: seq<LocationType>)
    requires LoadAll(fetched, idOf, o1).Failure?
    ensures LoadAll(fetched, idOf, o1 + o2).Failure?
  {
    if o2 == [] {
      assert o1 + o2 == o1;
    } else {
      var init := o2[..|o2| - 1];
      LoadFailureSticks(fetched, idOf, o1, init);
      assert (o1 + o2)[..|o1 + o2| - 1] == o1 + init;
    }
  }

  /** Every category fetched, and every feature extractable: then the load succeeds. */
  predicate AllExtract(fetched: Fetched, idOf: (LocationType, nat) -> real, t: LocationType)
  {
    fetched(t).Some? &&
    forall i :: 0 <= i < |fetched(t).value.features| ==>
      ExtractLocation(fetched(t).value.features[i], t, idOf(t, i)).Success?
  }

  lemma {:induction false} LoadSucceedsWhenAllExtract(fetched: Fetched, idOf: (LocationType, nat) -> real, order: seq<LocationType>)
    requires forall t :: t in order ==> AllExtract(fetched, idOf, t)
    ensures LoadAll(fetched, idOf, order).Success?
  {
    if order != [] {
      var init := order[..|order| - 1];
      assert forall t :: t in init ==> t in order;
      LoadSucceedsWhenAllExtract(fetched, idOf, init);
      assert order[|order| - 1] in order;
    }
  }

  /** A failed request for the last category fails the whole load. */
  lemma LoadFailsWhenLastFetchFails(fetched: Fetched, idOf: (LocationType, nat) -> real, order: seq<LocationType>)
    requires order != [] && fetched(order[|order| - 1]).None?
    ensures LoadAll(fetched, idOf, order).Failure?
  {
  }
}

/** GeoJSON values as the backend writes them and the frontend reads them (the Point and
    FeatureCollection shapes of sections 3.1.2 and 3.3 of RFC 7946). */
module GeoJson {
  import opened Wrappers

  /** A JSON property value. */
  datatype Json = JStr(s: string) | JInt(i: int) | JNum(x: real) | JNull

  /** A properties object, as its members in written order. */
  type Properties = seq<(string, Json)>

  /** The value of the first member named `key`, if any (`feature.properties.key`). `JSON.parse`
      keeps the last of repeated names; the objects the API writes never repeat a name, so the
      two agree on everything the client reads. */
  function Get(props: Properties, key: string): (r: Option<Json>)
    ensures r.Some? <==> exists i :: 0 <= i < |props| && props[i].0 == key
    ensures r.Some? ==> (key, r.value) in props
  {
    if props == [] then None
    else if props[0].0 == key then Some(props[0].1)
    else Get(props[1..], key)
  }

  /** A member that no earlier member shadows is what `Get` finds under its name. */
  lemma {:induction false} GetAt(props: Properties, i: nat)
    requires i < |props|
    requires forall j :: 0 <= j < i ==> props[j].0 != props[i].0
    ensures Get(props, props[i].0) == Some(props[i].1)
  {
    if i > 0 {
      GetAt(props[1..], i - 1);
    }
  }

  /** A geometry object: a Point's `coordinates` array, a Polygon's rings of positions, or
      any other geometry type, of which only the name matters here. */
  datatype Geometry =
    | Point(coordinates: seq<real>)
    | Polygon(rings: seq<seq<seq<real>>>)
    | OtherGeometry(typeName: string)

  datatype Feature = Feature(typeName: string, properties: Properties, geometry: Geometry)

  datatype FeatureCollection = FeatureCollection(typeName: string, features: seq<Feature>)

  /** `{ type: "Feature", properties, geometry: { type: "Point", coordinates: [x, y] } }` */
  function PointFeature(properties: Properties, x: real, y: real): Feature
  {
    Feature("Feature", properties, Point([x, y]))
  }
}

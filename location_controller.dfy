/** LocationController: one GET per category, each writing its table as a GeoJSON
    FeatureCollection of Points, plus the hand-read tourist-location query. */
module LocationApi {
  import opened Wrappers
  import opened GeoJson
  import opened Store
  import opened JsonNaming
  import opened Http

  /** `CreateGeoJsonResponse(data, propertiesSelector)`; `location` reads a row's `Location`.
      One Feature per row, in row order, each a Point at `[X, Y]` (longitude first). */
  function CreateGeoJsonResponse<T>(data: seq<T>, properties: T -> Properties, location: T -> GeoPoint): (r: FeatureCollection)
    ensures r.typeName == "FeatureCollection" && |r.features| == |data|
    ensures forall i :: 0 <= i < |data| ==>
              r.features[i].typeName == "Feature" && r.features[i].properties == properties(data[i]) &&
              r.features[i].geometry == Point([location(data[i]).x, location(data[i]).y])
  {
    FeatureCollection("FeatureCollection",
      seq(|data|, i requires 0 <= i < |data| => PointFeature(properties(data[i]), location(data[i]).x, location(data[i]).y)))
  }

  /** The Point coordinates of feature `i`. */
  function Coordinates(fc: FeatureCollection, i: nat): seq<real>
    requires i < |fc.features|
  {
    match fc.features[i].geometry
    case Point(c) => c
    case _ => []
  }

  function OtoparkProperties(o: OtoparkRow): Properties
  {
    [("name", JStr(o.name)), ("capacity", JInt(o.kapasite)), ("occupiedSpaces", JInt(o.doluluk))]
  }

  function KiralikBisikletProperties(b: KiralikBisikletRow): Properties
  {
    [("NITELIK_AD", JStr(b.name)), ("BOLGE", JStr(b.bolge)), ("PERON_ADET", JInt(b.peronAdet))]
  }

  function ParkProperties(p: ParkRow): Properties
  {
    [("ADI", JStr(p.name)), ("ILCEADI", JStr(p.ilceAdi)), ("UST_NITELIK_ADI", JStr(p.ustNitelikAdi))]
  }

  function KameraProperties(k: KameraRow): Properties
  {
    [("niteliK_AD", JStr(k.name)), ("URL", JStr(k.url))]
  }

  /** What each selector writes under each name. */
  lemma SelectorsRead(o: OtoparkRow, b: KiralikBisikletRow, p: ParkRow, k: KameraRow)
    ensures Get(OtoparkProperties(o), "name") == Some(JStr(o.name))
    ensures Get(OtoparkProperties(o), "capacity") == Some(JInt(o.kapasite))
    ensures Get(OtoparkProperties(o), "occupiedSpaces") == Some(JInt(o.doluluk))
    ensures Get(KiralikBisikletProperties(b), "NITELIK_AD") == Some(JStr(b.name))
    ensures Get(KiralikBisikletProperties(b), "BOLGE") == Some(JStr(b.bolge))
    ensures Get(KiralikBisikletProperties(b), "PERON_ADET") == Some(JInt(b.peronAdet))
    ensures Get(ParkProperties(p), "ADI") == Some(JStr(p.name))
    ensures Get(ParkProperties(p), "ILCEADI") == Some(JStr(p.ilceAdi))
    ensures Get(ParkProperties(p), "UST_NITELIK_ADI") == Some(JStr(p.ustNitelikAdi))
    ensures Get(KameraProperties(k), "niteliK_AD") == Some(JStr(k.name))
    ensures Get(KameraProperties(k), "URL") == Some(JStr(k.url))
  {
    GetAt(OtoparkProperties(o), 1);
    GetAt(OtoparkProperties(o), 2);
    GetAt(KiralikBisikletProperties(b), 1);
    GetAt(KiralikBisikletProperties(b), 2);
    GetAt(ParkProperties(p), 1);
    GetAt(ParkProperties(p), 2);
    GetAt(KameraProperties(k), 1);
  }

  /** `otoparklar`: name, capacity and occupied spaces from Name, Kapasite and Doluluk. */
  function GetOtoparklar(rows: seq<OtoparkRow>): (r: FeatureCollection)
    ensures r.typeName == "FeatureCollection" && |r.features| == |rows|
    ensures forall i :: 0 <= i < |rows| ==>
              r.features[i].properties == OtoparkProperties(rows[i]) &&
              Coordinates(r, i) == [rows[i].location.x, rows[i].location.y]
  {
    CreateGeoJsonResponse(rows, OtoparkProperties, (o: OtoparkRow) => o.location)
  }

  /** `kiralik-bisiklet`: NITELIK_AD, BOLGE and PERON_ADET. */
  function GetKiralikBisiklet(rows: seq<KiralikBisikletRow>): (r: FeatureCollection)
    ensures r.typeName == "FeatureCollection" && |r.features| == |rows|
    ensures forall i :: 0 <= i < |rows| ==>
              r.features[i].properties == KiralikBisikletProperties(rows[i]) &&
              Coordinates(r, i) == [rows[i].location.x, rows[i].location.y]
  {
    CreateGeoJsonResponse(rows, KiralikBisikletProperties, (b: KiralikBisikletRow) => b.location)
  }

  /** `parklar`: ADI, ILCEADI and UST_NITELIK_ADI. */
  function GetParklar(rows: seq<ParkRow>): (r: FeatureCollection)
    ensures r.typeName == "FeatureCollection" && |r.features| == |rows|
    ensures forall i :: 0 <= i < |rows| ==>
              r.features[i].properties == ParkProperties(rows[i]) &&
              Coordinates(r, i) == [rows[i].location.x, rows[i].location.y]
  {
    CreateGeoJsonResponse(rows, ParkProperties, (p: ParkRow) => p.location)
  }

  /** `kameralar`: niteliK_AD and URL. */
  function GetKameralar(rows: seq<KameraRow>): (r: FeatureCollection)
    ensures r.typeName == "FeatureCollection" && |r.features| == |rows|
    ensures forall i :: 0 <= i < |rows| ==>
              r.features[i].properties == KameraProperties(rows[i]) &&
              Coordinates(r, i) == [rows[i].location.x, rows[i].location.y]
  {
    CreateGeoJsonResponse(rows, KameraProperties, (k: KameraRow) => k.location)
  }

  /** The endpoints whose only property is the row's name under `key`. */
  function GetNamed(rows: seq<NamedRow>, key: string): (r: FeatureCollection)
    ensures r.typeName == "FeatureCollection" && |r.features| == |rows|
    ensures forall i :: 0 <= i < |rows| ==>
              r.features[i].properties == [(key, JStr(rows[i].name))] &&
              Coordinates(r, i) == [rows[i].location.x, rows[i].location.y]
  {
    CreateGeoJsonResponse(rows, (n: NamedRow) => [(key, JStr(n.name))], (n: NamedRow) => n.location)
  }

  function GetTatliSuCesmeleri(rows: seq<NamedRow>): FeatureCollection { GetNamed(rows, "ACIKLAMA") }
  function GetBisikletPark(rows: seq<NamedRow>): FeatureCollection { GetNamed(rows, "NITELIK_AD") }
  function GetCamiler(rows: seq<NamedRow>): FeatureCollection { GetNamed(rows, "ADI") }
  function GetOkullar(rows: seq<NamedRow>): FeatureCollection { GetNamed(rows, "ADI") }
  function GetSaglikTesisleri(rows: seq<NamedRow>): FeatureCollection { GetNamed(rows, "ADI") }
  function GetToplanmaAlanlari(rows: seq<NamedRow>): FeatureCollection { GetNamed(rows, "ADI") }
  function GetEczaneler(rows: seq<NamedRow>): FeatureCollection { GetNamed(rows, "ADI") }
  function GetHavaKaliteIstasyonlari(rows: seq<NamedRow>): FeatureCollection { GetNamed(rows, "NITELIK_AD") }

  /** `TuristikKonumlarDTO`, one per row the reader returns. */
  datatype TouristDto = TouristDto(id: int, tur: string, isim: string, icerik: Option<string>, resim: Option<string>,
                                   lon: real, lat: real)

  /** One `reader.Read()` step: `GetString` on a NULL `tur` or `isim` throws (`None`);
      NULL `icerik` and `resim` are read as null; `lon` and `lat` are `ST_X` and `ST_Y`. */
  function ReadTouristRow(row: TouristRow): (r: Option<TouristDto>)
    ensures r.Some? <==> row.tur.Some? && row.isim.Some?
    ensures r.Some? ==> r.value.icerik == row.icerik && r.value.resim == row.resim &&
                        r.value.lon == row.geometry.x && r.value.lat == row.geometry.y
  {
    if row.tur.None? || row.isim.None? then None
    else Some(TouristDto(row.id, row.tur.value, row.isim.value, row.icerik, row.resim, row.geometry.x, row.geometry.y))
  }

  /** A null string written as JSON `null`. */
  function OrNull(s: Option<string>): Json
  {
    match s
    case None => JNull
    case Some(v) => JStr(v)
  }

  function TouristFeature(d: TouristDto): Feature
  {
    PointFeature([("tur", JStr(d.tur)), ("isim", JStr(d.isim)), ("icerik", OrNull(d.icerik)), ("resim", OrNull(d.resim))],
                 d.lon, d.lat)
  }

  /** A tourist feature carries the row's texts, nulls kept as JSON null, at `[lon, lat]`. */
  lemma TouristFeatureReads(row: TouristRow)
    requires ReadTouristRow(row).Some?
    ensures var f := TouristFeature(ReadTouristRow(row).value);
            Get(f.properties, "tur") == Some(JStr(row.tur.value)) &&
            Get(f.properties, "isim") == Some(JStr(row.isim.value)) &&
            Get(f.properties, "icerik") == Some(OrNull(row.icerik)) &&
            Get(f.properties, "resim") == Some(OrNull(row.resim)) &&
            (row.icerik.None? ==> Get(f.properties, "icerik") == Some(JNull)) &&
            f.geometry == Point([row.geometry.x, row.geometry.y])
  {
    var p := TouristFeature(ReadTouristRow(row).value).properties;
    GetAt(p, 1);
    GetAt(p, 2);
    GetAt(p, 3);
  }

  /** Every tourist row can be read (no NULL name or kind). */
  predicate TouristRowsReadable(table: seq<TouristRow>)
  {
    forall i :: 0 <= i < |table| ==> ReadTouristRow(table[i]).Some?
  }

  /** The body `turistik-konumlar` answers with: one feature per row when every row reads,
      nothing usable after its server error. */
  function TouristBody(table: seq<TouristRow>): (r: Option<FeatureCollection>)
    ensures r.Some? <==> TouristRowsReadable(table)
    ensures r.Some? ==> |r.value.features| == |table|
  {
    if TouristRowsReadable(table) then
      Some(FeatureCollection("FeatureCollection",
        seq(|table|, i requires 0 <= i < |table| => TouristFeature(ReadTouristRow(table[i]).value))))
    else None
  }

  /** `turistik-konumlar`: read every row of `turistik_konumlar`, then project each into a
      Feature. A row whose `tur` or `isim` is NULL aborts the request with a server error. */
  method GetTuristikKonumlar(table: seq<TouristRow>) returns (r: Response<FeatureCollection>)
    ensures r.Ok? || r.ServerError?
    ensures r.ServerError? <==> exists i :: 0 <= i < |table| && ReadTouristRow(table[i]).None?
    ensures r.Ok? ==> r.body.typeName == "FeatureCollection" && |r.body.features| == |table|
    ensures r.Ok? ==> forall i :: 0 <= i < |table| ==> r.body.features[i] == TouristFeature(ReadTouristRow(table[i]).value)
    ensures r.Ok? <==> TouristBody(table).Some?
    ensures r.Ok? ==> r.body == TouristBody(table).value
  {
    var result: seq<TouristDto> := [];
    var k := 0;
    while k < |table|
      invariant 0 <= k <= |table|
      invariant |result| == k
      invariant forall i :: 0 <= i < k ==> ReadTouristRow(table[i]) == Some(result[i])
    {
      var dto := ReadTouristRow(table[k]);
      if dto.None? {
        return ServerError("");
      }
      result := result + [dto.value];
      k := k + 1;
    }
    var features := seq(|result|, i requires 0 <= i < |result| => TouristFeature(result[i]));
    r := Ok(FeatureCollection("FeatureCollection", features));
  }

  /** Property names as written to the response: the serializer's camel-case policy. */
  function SerializeProperties(p: Properties): (r: Properties)
    ensures |r| == |p| && forall i :: 0 <= i < |p| ==> r[i] == (CamelCase(p[i].0), p[i].1)
  {
    seq(|p|, i requires 0 <= i < |p| => (CamelCase(p[i].0), p[i].1))
  }

  /** A feature collection as the client receives it. */
  function Serialize(fc: FeatureCollection): (r: FeatureCollection)
    ensures r.typeName == fc.typeName && |r.features| == |fc.features|
    ensures forall i :: 0 <= i < |fc.features| ==>
              r.features[i] == fc.features[i].(properties := SerializeProperties(fc.features[i].properties))
  {
    FeatureCollection(fc.typeName,
      seq(|fc.features|, i requires 0 <= i < |fc.features| =>
        fc.features[i].(properties := SerializeProperties(fc.features[i].properties))))
  }
}

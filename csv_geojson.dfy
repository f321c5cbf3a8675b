/** `convert_hat_guzergah_to_geojson`: one GeoJSON Point feature per row of the cleaned
    route-stop CSV. */
module RouteCsv {
  import opened Wrappers
  import opened GeoJson

  /** A row of `csv.DictReader`: column name to cell text. */
  type CsvRow = map<string, string>

  /** Why the conversion stops: `row[...]` raising `KeyError`, or `float(...)` raising
      `ValueError`. */
  datatype ConvertError = MissingColumn(column: string) | NotANumber(text: string)

  /** `row[column]`. */
  function Cell(row: CsvRow, column: string): (r: Result<string, ConvertError>)
    ensures r.Success? <==> column in row
    ensures r.Success? ==> r.value == row[column]
    ensures r.Failure? ==> r.error == MissingColumn(column)
  {
    if column in row then Success(row[column]) else Failure(MissingColumn(column))
  }

  /** `float(row[column])`, with Python's float parsing as the parameter `parse`. */
  function Number(row: CsvRow, column: string, parse: string -> Option<real>): (r: Result<real, ConvertError>)
    ensures r.Success? <==> column in row && parse(row[column]).Some?
    ensures r.Success? ==> r.value == parse(row[column]).value
    ensures column !in row ==> r == Failure(MissingColumn(column))
    ensures column in row && parse(row[column]).None? ==> r == Failure(NotANumber(row[column]))
  {
    match Cell(row, column)
    case Failure(e) => Failure(e)
    case Success(text) =>
      match parse(text)
      case None => Failure(NotANumber(text))
      case Some(x) => Success(x)
  }

  /** The feature built for one row, or the error its dict literal raises first: the
      `hat_no` property is evaluated before the coordinates, `KOORDINAT_Y` before
      `KOORDINAT_X`. */
  function RowFeature(row: CsvRow, parse: string -> Option<real>): (r: Result<Feature, ConvertError>)
    ensures r.Success? <==>
              "HAT_NO" in row && Number(row, "KOORDINAT_Y", parse).Success? &&
              Number(row, "KOORDINAT_X", parse).Success?
    ensures "HAT_NO" !in row ==> r == Failure(MissingColumn("HAT_NO"))
    ensures "HAT_NO" in row && Number(row, "KOORDINAT_Y", parse).Failure? ==>
              r == Failure(Number(row, "KOORDINAT_Y", parse).error)
    ensures "HAT_NO" in row && Number(row, "KOORDINAT_Y", parse).Success? &&
            Number(row, "KOORDINAT_X", parse).Failure? ==>
              r == Failure(Number(row, "KOORDINAT_X", parse).error)
    ensures r.Success? ==>
              r.value.typeName == "Feature" && r.value.properties == [("hat_no", JStr(row["HAT_NO"]))] &&
              r.value.geometry == Point([Number(row, "KOORDINAT_Y", parse).value,
                                         Number(row, "KOORDINAT_X", parse).value])
  {
    match Cell(row, "HAT_NO")
    case Failure(e) => Failure(e)
    case Success(hatNo) =>
      match Number(row, "KOORDINAT_Y", parse)
      case Failure(e) => Failure(e)
      case Success(y) =>
        match Number(row, "KOORDINAT_X", parse)
        case Failure(e) => Failure(e)
        case Success(x) => Success(Feature("Feature", [("hat_no", JStr(hatNo))], Point([y, x])))
  }

  /** GeoJSON positions are [longitude, latitude] (section 3.1.1 of RFC 7946), so a written
      feature places `KOORDINAT_Y` as its longitude and `KOORDINAT_X` as its latitude, and
      a reader finds the route number under `hat_no`. */
  lemma ColumnsSwapped(row: CsvRow, parse: string -> Option<real>)
    requires RowFeature(row, parse).Success?
    ensures var f := RowFeature(row, parse).value;
            f.geometry.Point? && |f.geometry.coordinates| == 2 &&
            Some(f.geometry.coordinates[0]) == parse(row["KOORDINAT_Y"]) &&
            Some(f.geometry.coordinates[1]) == parse(row["KOORDINAT_X"]) &&
            Get(f.properties, "hat_no") == Some(JStr(row["HAT_NO"]))
  {
  }

  /** The first row whose conversion fails, if any. */
  predicate FailsFirstAt(rows: seq<CsvRow>, parse: string -> Option<real>, i: int)
  {
    0 <= i < |rows| && RowFeature(rows[i], parse).Failure? &&
    forall j :: 0 <= j < i ==> RowFeature(rows[j], parse).Success?
  }

  /** `convert_hat_guzergah_to_geojson`: the loop over the rows appending one feature each;
      the first row that raises ends the conversion with its error. */
  method ConvertHatGuzergah(rows: seq<CsvRow>, parse: string -> Option<real>)
    returns (r: Result<FeatureCollection, ConvertError>)
    ensures r.Success? <==> forall i :: 0 <= i < |rows| ==> RowFeature(rows[i], parse).Success?
    ensures r.Success? ==>
              r.value.typeName == "FeatureCollection" && |r.value.features| == |rows| &&
              forall i :: 0 <= i < |rows| ==> r.value.features[i] == RowFeature(rows[i], parse).value
    ensures r.Failure? ==>
              exists i :: FailsFirstAt(rows, parse, i) && r.error == RowFeature(rows[i], parse).error
  {
    var features: seq<Feature> := [];
    for k := 0 to |rows|
      invariant |features| == k
      invariant forall i :: 0 <= i < k ==> RowFeature(rows[i], parse).Success?
      invariant forall i :: 0 <= i < k ==> features[i] == RowFeature(rows[i], parse).value
    {
      var feature := RowFeature(rows[k], parse);
      if feature.Failure? {
        assert FailsFirstAt(rows, parse, k);
        return Failure(feature.error);
      }
      features := features + [feature.value];
    }
    r := Success(FeatureCollection("FeatureCollection", features));
  }
}

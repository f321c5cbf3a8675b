/** HavaKaliteController: seven POST routes, one per measuring station, each returning the
    daily mean of the station's NO, NO2, NOx and PM10 readings for a requested date. */
module AirQuality {
  import opened Wrappers
  import opened Numbers
  import opened Dates
  import opened Http
  import opened Seqs
  import opened Ascii

  datatype Station = Bosna | Karatay1 | Karatay2 | Karkent | Meram | Sarayonu | Trafik

  /** The route segment under `api/hava-kalite`. */
  function RouteOf(s: Station): string
  {
    match s
    case Bosna => "bosna"
    case Karatay1 => "karatay1"
    case Karatay2 => "karatay2"
    case Karkent => "karkent"
    case Meram => "meram"
    case Sarayonu => "sarayonu"
    case Trafik => "trafik"
  }

  /** The table the station's readings live in. */
  function TableOf(s: Station): (r: string)
    ensures r == "istasyon" + RouteOf(s)
  {
    match s
    case Bosna => "istasyonbosna"
    case Karatay1 => "istasyonkaratay1"
    case Karatay2 => "istasyonkaratay2"
    case Karkent => "istasyonkarkent"
    case Meram => "istasyonmeram"
    case Sarayonu => "istasyonsarayonu"
    case Trafik => "istasyontrafik"
  }

  /** The action a POST path segment reaches; `None` for a path no action is bound to. */
  function StationOfRoute(route: string): (r: Option<Station>)
    ensures r.Some? ==> RouteOf(r.value) == route
    ensures r.None? ==> forall s :: RouteOf(s) != route
  {
    if route == "bosna" then Some(Bosna)
    else if route == "karatay1" then Some(Karatay1)
    else if route == "karatay2" then Some(Karatay2)
    else if route == "karkent" then Some(Karkent)
    else if route == "meram" then Some(Meram)
    else if route == "sarayonu" then Some(Sarayonu)
    else if route == "trafik" then Some(Trafik)
    else None
  }

  /** The route literals have no capitals. */
  lemma RouteIsLowerCase(s: Station)
    ensures LowerAll(RouteOf(s)) == RouteOf(s)
  {
    LowerAllOfLower(RouteOf(s));
  }

  /** Each route reaches its own station, and no two stations share a table. */
  lemma RoutesAndTablesDistinct(s: Station, u: Station)
    ensures StationOfRoute(RouteOf(s)) == Some(s)
    ensures TableOf(s) == TableOf(u) ==> s == u
  {
    assert TableOf(s) == TableOf(u) ==> RouteOf(s) == TableOf(s)[8..] == TableOf(u)[8..] == RouteOf(u);
  }

  /** The JSON body's `date` member as the client sent it. */
  datatype DateField = Absent | Null | Given(text: string)

  /** `HavaKaliteRequest.Date` after binding: the initializer leaves it empty when the member
      is absent; an explicit null binds to null (`None`). */
  function BindDate(field: DateField): (r: Option<string>)
    ensures field.Absent? ==> r == Some("")
    ensures field.Null? <==> r.None?
    ensures field.Given? ==> r == Some(field.text)
  {
    match field
    case Absent => Some("")
    case Null => None
    case Given(text) => Some(text)
  }

  /** One row of a station table; `day` is `DATE(tarih_saat)`, absent for a null timestamp. */
  datatype Reading = Reading(day: Option<Date>, no: Option<real>, no2: Option<real>, nox: Option<real>, pm10: Option<real>)

  /** The result row `HavaKaliteGunlukOrtalama`. */
  datatype DailyMeans = DailyMeans(no: real, no2: real, nox: real, pm10: real)

  /** The non-null values, in order, each as often as it occurs: what `AVG` averages over. */
  function Present(vals: seq<Option<real>>): (r: seq<real>)
    ensures |r| <= |vals|
    ensures forall x :: x in r <==> Some(x) in vals
    ensures forall x :: multiset(r)[x] == multiset(vals)[Some(x)]
  {
    if vals == [] then []
    else
      var rest := Present(vals[..|vals| - 1]);
      assert vals == vals[..|vals| - 1] + [vals[|vals| - 1]];
      match vals[|vals| - 1]
      case None => rest
      case Some(x) => rest + [x]
  }

  function Sum(xs: seq<real>): real
  {
    if xs == [] then 0.0 else Sum(xs[..|xs| - 1]) + xs[|xs| - 1]
  }

  /** `COALESCE(AVG(x), 0)`: the mean of the non-null values, 0 when there are none. */
  function MeanOrZero(vals: seq<Option<real>>): real
  {
    var xs := Present(vals);
    if xs == [] then 0.0 else Sum(xs) / |xs| as real
  }

  lemma {:induction false} SumBounds(xs: seq<real>, lo: real, hi: real)
    requires forall i :: 0 <= i < |xs| ==> lo <= xs[i] <= hi
    ensures |xs| as real * lo <= Sum(xs) <= |xs| as real * hi
  {
    if xs != [] {
      SumBounds(xs[..|xs| - 1], lo, hi);
    }
  }

  lemma {:induction false} PresentBounds(vals: seq<Option<real>>, lo: real, hi: real)
    requires forall i :: 0 <= i < |vals| && vals[i].Some? ==> lo <= vals[i].value <= hi
    ensures forall k :: 0 <= k < |Present(vals)| ==> lo <= Present(vals)[k] <= hi
  {
    if vals != [] {
      PresentBounds(vals[..|vals| - 1], lo, hi);
    }
  }

  lemma MeanOfBounded(xs: seq<real>, lo: real, hi: real)
    requires xs != []
    requires forall k :: 0 <= k < |xs| ==> lo <= xs[k] <= hi
    ensures lo <= Sum(xs) / |xs| as real <= hi
  {
    SumBounds(xs, lo, hi);
    MeanBounds(Sum(xs), |xs| as real, lo, hi);
  }

  /** The daily mean lies between the smallest and largest non-null reading; with no
      non-null reading it is 0. */
  lemma MeanWithinReadings(vals: seq<Option<real>>, lo: real, hi: real)
    requires forall i :: 0 <= i < |vals| && vals[i].Some? ==> lo <= vals[i].value <= hi
    ensures Present(vals) == [] ==> MeanOrZero(vals) == 0.0
    ensures Present(vals) != [] ==> lo <= MeanOrZero(vals) <= hi
  {
    if Present(vals) != [] {
      PresentBounds(vals, lo, hi);
      MeanOfBounded(Present(vals), lo, hi);
    }
  }

  /** Equal non-null readings have their value as mean. */
  lemma {:induction false} MeanOfConstant(vals: seq<Option<real>>, c: real)
    requires forall i :: 0 <= i < |vals| && vals[i].Some? ==> vals[i].value == c
    requires Present(vals) != []
    ensures MeanOrZero(vals) == c
  {
    MeanWithinReadings(vals, c, c);
  }

  /** The readings `WHERE DATE(tarih_saat) = @date`: those of that day, each row as often as
      the table holds it, in table order. */
  function OnDay(readings: seq<Reading>, d: Date): (r: seq<Reading>)
    ensures forall x :: x in r <==> x in readings && x.day == Some(d)
    ensures forall x :: multiset(r)[x] == if x.day == Some(d) then multiset(readings)[x] else 0
    ensures IsSubsequence(r, readings)
  {
    Keep(readings, (x: Reading) => x.day == Some(d))
  }

  /** The aggregate query: one row of four coalesced means. An aggregate without GROUP BY
      yields exactly one row, even over no readings. */
  function DailyAverages(readings: seq<Reading>, d: Date): (r: DailyMeans)
  {
    var rs := OnDay(readings, d);
    DailyMeans(
      MeanOrZero(seq(|rs|, i requires 0 <= i < |rs| => rs[i].no)),
      MeanOrZero(seq(|rs|, i requires 0 <= i < |rs| => rs[i].no2)),
      MeanOrZero(seq(|rs|, i requires 0 <= i < |rs| => rs[i].nox)),
      MeanOrZero(seq(|rs|, i requires 0 <= i < |rs| => rs[i].pm10)))
  }

  /** A day without readings averages to zero for every pollutant. */
  lemma NoReadingsGivesZeros(readings: seq<Reading>, d: Date)
    requires forall x :: x in readings ==> x.day != Some(d)
    ensures DailyAverages(readings, d) == DailyMeans(0.0, 0.0, 0.0, 0.0)
  {
  }

  const DateRequired := "Tarih gereklidir"
  const DateFormatInvalid := "Geçersiz tarih formatı. Tarih YYYY-MM-DD formatında olmalıdır."
  const QueryFailed := "Veriler alınırken bir hata oluştu"
  const NoDataForDate := "Seçilen tarih için veri bulunamadı"

  /** `GetStationData(request, tableName)`; `table` is what reading the station's table
      yields (`Failure` for any database error). */
  function GetStationData(date: Option<string>, table: Result<seq<Reading>, string>): (r: Response<DailyMeans>)
    ensures (date.None? || date.value == "") <==> r == BadRequest(DateRequired)
    ensures date.Some? && date.value != "" && ParseIsoDate(date.value).None? <==> r == BadRequest(DateFormatInvalid)
    ensures r.ServerError? <==> date.Some? && ParseIsoDate(date.value).Some? && table.Failure?
    ensures r.Ok? <==> date.Some? && ParseIsoDate(date.value).Some? && table.Success?
    ensures r.Ok? ==> r.body == DailyAverages(table.value, ParseIsoDate(date.value).value)
    ensures !r.NotFound?
  {
    if date.None? || date.value == "" then BadRequest(DateRequired)
    else match ParseIsoDate(date.value)
      case None => BadRequest(DateFormatInvalid)
      case Some(d) =>
        match table
        case Failure(_) => ServerError(QueryFailed)
        case Success(readings) => Ok(DailyAverages(readings, d))
  }

  /** A POST to `api/hava-kalite/{route}`. The framework matches the segment against the route
      literals ignoring case; a path no action is bound to is a routing 404. Otherwise the
      framework validates the body first: under a nullable context the non-nullable `Date` is
      implicitly required, and a null, empty or white-space date is answered with a validation
      400 before the action runs. Then the bound action queries its station's table (`tables`
      reads a table by name). */
  function PostStation(route: string, body: DateField, nullableContext: bool,
                       tables: string -> Result<seq<Reading>, string>): (r: Response<DailyMeans>)
    ensures StationOfRoute(LowerAll(route)).None? <==> r.NotFound?
    ensures StationOfRoute(LowerAll(route)).Some? && !PassesImplicitRequired(nullableContext, BindDate(body)) ==>
              r == BadRequest(ValidationFailed)
    ensures StationOfRoute(LowerAll(route)).Some? && PassesImplicitRequired(nullableContext, BindDate(body)) ==>
              r == GetStationData(BindDate(body), tables(TableOf(StationOfRoute(LowerAll(route)).value)))
  {
    match StationOfRoute(LowerAll(route))
    case None => NotFound("")
    case Some(s) =>
      if !PassesImplicitRequired(nullableContext, BindDate(body)) then BadRequest(ValidationFailed)
      else GetStationData(BindDate(body), tables(TableOf(s)))
  }

  /** Route matching ignores letter case: a segment reaches the same action as its lower-case
      form, so `Bosna` and `BOSNA` reach the Bosna station. */
  lemma RouteMatchIgnoresCase(route: string, body: DateField, nullableContext: bool,
                              tables: string -> Result<seq<Reading>, string>)
    ensures PostStation(route, body, nullableContext, tables) == PostStation(LowerAll(route), body, nullableContext, tables)
    ensures StationOfRoute(LowerAll("Bosna")) == Some(Bosna)
  {
    LowerAllTwice(route);
    assert LowerAll("Bosna") == "bosna";
  }

  /** A request without a `date` member is rejected before any query: by the action as
      missing a date, or, under a nullable context, by the framework's validation. */
  lemma MissingDateRejected(s: Station, nullableContext: bool, tables: string -> Result<seq<Reading>, string>)
    ensures !nullableContext ==> PostStation(RouteOf(s), Absent, nullableContext, tables) == BadRequest(DateRequired)
    ensures nullableContext ==> PostStation(RouteOf(s), Absent, nullableContext, tables) == BadRequest(ValidationFailed)
  {
    RoutesAndTablesDistinct(s, s);
    RouteIsLowerCase(s);
  }

  /** Under a nullable context the action's "Tarih gereklidir" answer is never sent. */
  lemma NullableContextPreemptsDateCheck(route: string, body: DateField, tables: string -> Result<seq<Reading>, string>)
    ensures PostStation(route, body, true, tables) != BadRequest(DateRequired)
  {
    ImplicitRequiredRejectsEmpty(BindDate(body));
  }
}

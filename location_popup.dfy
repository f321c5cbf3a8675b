/** The logic of LocationPopup.tsx: which endpoint an air-quality station's popup asks for
    its daily averages, when it asks, what it keeps from the answer, and how the popup
    presents parking occupancy and the pollutant chart. */
module Popup {
  import opened Wrappers
  import opened Categories
  import opened Dates
  import opened AirQuality
  import opened Http

  const InvalidStationName := "Geçersiz istasyon adı"

  /** The `switch (location.name)` choosing the air-quality endpoint. */
  function StationEndpoint(name: string): (r: Result<string, string>)
    ensures r.Failure? ==> r.error == InvalidStationName
    ensures r.Success? ==> StationOfRoute(r.value).Some?
  {
    if name == "Bosna İstasyonu" then Success("bosna")
    else if name == "Karatay İstasyonu" then Success("karatay1")
    else if name == "Karatay 2 İstasyonu" then Success("karatay2")
    else if name == "Karkent İstasyonu" then Success("karkent")
    else if name == "Meram İstasyonu" then Success("meram")
    else if name == "Sarayönü İstasyonu" then Success("sarayonu")
    else if name == "Merkez Trafik İstasyonu" then Success("trafik")
    else Failure(InvalidStationName)
  }

  /** The station names the popup knows. */
  const KnownStationNames: set<string> :=
    {"Bosna İstasyonu", "Karatay İstasyonu", "Karatay 2 İstasyonu", "Karkent İstasyonu",
     "Meram İstasyonu", "Sarayönü İstasyonu", "Merkez Trafik İstasyonu"}

  /** Exactly the seven known names have an endpoint, and no two of them share one. */
  lemma EndpointsDistinct(a: string, b: string)
    ensures StationEndpoint(a).Success? <==> a in KnownStationNames
    ensures (StationEndpoint(a).Success? && StationEndpoint(b).Success? &&
             StationEndpoint(a).value == StationEndpoint(b).value) ==> a == b
  {
  }

  /** Every station of the backend is reachable from the popup by some name. */
  lemma EveryStationReachable(s: Station)
    ensures exists name :: name in KnownStationNames && StationEndpoint(name) == Success(RouteOf(s))
  {
    match s
    case Bosna => assert StationEndpoint("Bosna İstasyonu") == Success(RouteOf(s));
    case Karatay1 => assert StationEndpoint("Karatay İstasyonu") == Success(RouteOf(s));
    case Karatay2 => assert StationEndpoint("Karatay 2 İstasyonu") == Success(RouteOf(s));
    case Karkent => assert StationEndpoint("Karkent İstasyonu") == Success(RouteOf(s));
    case Meram => assert StationEndpoint("Meram İstasyonu") == Success(RouteOf(s));
    case Sarayonu => assert StationEndpoint("Sarayönü İstasyonu") == Success(RouteOf(s));
    case Trafik => assert StationEndpoint("Merkez Trafik İstasyonu") == Success(RouteOf(s));
  }

  /** What the date picker hands to `setSelectedDate`: `null`, a day, or the invalid Dayjs it
      produces while a date is only partly typed. The last two are both truthy. */
  datatype PickedDate = NoDate | PickedDay(date: Date) | InvalidPick

  const InvalidDateText := "Invalid Date"

  /** `selectedDate.format('YYYY-MM-DD')` for a non-null pick. An invalid Dayjs formats as
      "Invalid Date"; a day outside the years 1 to 9999 is sent as text the API rejects in the
      same way, so it is modelled by the same text. The API accepts the text exactly when a
      real day was picked, and reads back that day. */
  function SentDate(p: PickedDate): (r: string)
    ensures ParseIsoDate(r).Some? <==> p.PickedDay? && ValidDate(p.date)
    ensures ParseIsoDate(r).Some? ==> ParseIsoDate(r).value == p.date
    ensures r != ""
  {
    if p.PickedDay? && ValidDate(p.date) then
      ParseFormatted(p.date);
      FormatDate(p.date)
    else InvalidDateText
  }

  /** The effect's guard: only an air-quality station with a (truthy) selected date fetches. */
  predicate ShouldFetch(kind: LocationType, selectedDate: PickedDate)
  {
    kind == HavaOlcumIstasyonu && !selectedDate.NoDate?
  }

  /** What the POST to an endpoint came back with: no answer at all, or a status and, when
      the body decodes, the daily means. */
  datatype Reply = NoReply | Reply(status: int, body: Option<DailyMeans>)

  /** `airQualityData` once the effect for (`kind`, `name`, `selectedDate`) has settled.
      `post(endpoint, date)` is the network round trip. The effect does nothing without its
      guard; an unknown station, a failed request, a non-2xx status or an undecodable body
      all clear the data. */
  function AirQualityAfterEffect(kind: LocationType, name: string, selectedDate: PickedDate,
                                 previous: Option<DailyMeans>, post: (string, string) -> Reply): (r: Option<DailyMeans>)
    ensures !ShouldFetch(kind, selectedDate) ==> r == previous
    ensures ShouldFetch(kind, selectedDate) && StationEndpoint(name).Failure? ==> r.None?
    ensures ShouldFetch(kind, selectedDate) && StationEndpoint(name).Success? ==>
              var reply := post(StationEndpoint(name).value, SentDate(selectedDate));
              (r.Some? <==> reply.Reply? && 200 <= reply.status <= 299 && reply.body.Some?) &&
              (r.Some? ==> r == reply.body)
  {
    if !ShouldFetch(kind, selectedDate) then previous
    else match StationEndpoint(name)
      case Failure(_) => None
      case Success(endpoint) =>
        match post(endpoint, SentDate(selectedDate))
        case NoReply => None
        case Reply(status, body) => if 200 <= status <= 299 then body else None
  }

  /** The reply the API gives to the popup's POST of `{ date: sent }` to `endpoint`; only a
      200 carries a body the popup reads. */
  function ApiReply(endpoint: string, sent: string, nullableContext: bool,
                    tables: string -> Result<seq<Reading>, string>): Reply
  {
    var response := PostStation(endpoint, Given(sent), nullableContext, tables);
    Reply(StatusCode(response), if response.Ok? then Some(response.body) else None)
  }

  /** Against the API, a partly typed date clears the chart data at every station: the API
      rejects "Invalid Date" with a 400. */
  lemma InvalidPickClearsData(name: string, previous: Option<DailyMeans>, nullableContext: bool,
                              tables: string -> Result<seq<Reading>, string>)
    ensures AirQualityAfterEffect(HavaOlcumIstasyonu, name, InvalidPick, previous,
                                  (e, d) => ApiReply(e, d, nullableContext, tables)) == None
  {
    var sent := SentDate(InvalidPick);
    if StationEndpoint(name).Success? {
      var route := StationEndpoint(name).value;
      RouteIsLowerCase(StationOfRoute(route).value);
      var response := PostStation(route, Given(sent), nullableContext, tables);
      assert ParseIsoDate(sent).None?;
      assert !response.Ok?;
    }
  }

  /** Against the API, a real day picked for a known station whose table reads shows that
      day's averages. */
  lemma PickedDayShowsAverages(name: string, d: Date, previous: Option<DailyMeans>, nullableContext: bool,
                               tables: string -> Result<seq<Reading>, string>)
    requires name in KnownStationNames && ValidDate(d)
    requires tables(TableOf(StationOfRoute(StationEndpoint(name).value).value)).Success?
    ensures AirQualityAfterEffect(HavaOlcumIstasyonu, name, PickedDay(d), previous,
                                  (e, dt) => ApiReply(e, dt, nullableContext, tables)) ==
            Some(DailyAverages(tables(TableOf(StationOfRoute(StationEndpoint(name).value).value)).value, d))
  {
    EndpointsDistinct(name, name);
    var route := StationEndpoint(name).value;
    RouteIsLowerCase(StationOfRoute(route).value);
    var table := tables(TableOf(StationOfRoute(route).value));
    var sent := SentDate(PickedDay(d));
    assert ParseIsoDate(sent) == Some(d);
    assert PassesImplicitRequired(nullableContext, BindDate(Given(sent))) by {
      assert sent[4] == '-';
    }
    var response := PostStation(route, Given(sent), nullableContext, tables);
    assert response == GetStationData(Some(sent), table);
    assert response == Ok(DailyAverages(table.value, d));
    assert ApiReply(route, sent, nullableContext, tables) == Reply(200, Some(DailyAverages(table.value, d)));
  }

  /** The chart's bar labels. */
  const ChartLabels: seq<string> := ["PM10", "NO2", "NOX", "NO"]

  /** The value the chart shows under a label. */
  function PollutantValue(d: DailyMeans, chartLabel: string): real
  {
    if chartLabel == "PM10" then d.pm10
    else if chartLabel == "NO2" then d.no2
    else if chartLabel == "NOX" then d.nox
    else d.no
  }

  /** The dataset's values: aligned one by one with the labels, or empty without data. */
  function ChartValues(data: Option<DailyMeans>): (r: seq<real>)
    ensures data.None? <==> r == []
    ensures data.Some? ==> |r| == |ChartLabels|
    ensures data.Some? ==>
              forall i :: 0 <= i < |r| ==> r[i] == PollutantValue(data.value, ChartLabels[i])
  {
    match data
    case None => []
    case Some(d) => [d.pm10, d.no2, d.nox, d.no]
  }

  /** `location.occupiedSpaces ?? 0`. */
  function ParkingOccupancy(l: Location): (r: int)
    ensures l.occupiedSpaces.None? ==> r == 0
    ensures l.occupiedSpaces.Some? ==> r == l.occupiedSpaces.value
  {
    match l.occupiedSpaces
    case None => 0
    case Some(n) => n
  }

  datatype PopupStyle = DefaultStyle | CameraStyle | AirQualityStyle

  /** `getPopupClassName`. */
  function PopupClass(kind: LocationType): (r: PopupStyle)
    ensures r == AirQualityStyle <==> kind == HavaOlcumIstasyonu
    ensures r == CameraStyle <==> kind == Kamera
    ensures r == DefaultStyle <==> kind != HavaOlcumIstasyonu && kind != Kamera
  {
    if kind == HavaOlcumIstasyonu then AirQualityStyle
    else if kind == Kamera then CameraStyle
    else DefaultStyle
  }
}

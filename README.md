# KonyaKBS in Dafny

KonyaKBS is a city map dashboard for Konya. It has three parts:
- an ASP.NET Core API over a PostGIS database, which serves each category of place (car parks, parks, mosques, schools, cameras, tourist sites, …) as a GeoJSON FeatureCollection, plus bus routes and air-quality readings;
- a React map client that loads those layers, filters them, clusters them and computes statistics over a circle the user draws;
- two Python scripts that clean and convert a bus-stop CSV.

This project models the logic of those pieces and proves what each promises. One module per source file, plus shared value types:

| module | models |
|---|---|
| `Catchment`, `AppState`, `FeatureExtraction` | `App.tsx`: circle statistics, filters, the draw-mode state machine, cluster-mode rules, `extractLocation`, `calculatePolygonCenter`, the category-by-category load |
| `Markers` | `Markers.tsx`: viewport filter, per-category cluster indexes, render path, cluster marker size and colour, fly-to zoom |
| `Popup` | `LocationPopup.tsx`: station name to endpoint, the air-quality effect, chart values, popup class |
| `LocationApi`, `JsonNaming` | `LocationController.cs` and the camel-case naming its JSON serializer applies |
| `Routes` | `HatGuzergahController.cs` |
| `AirQuality`, `Dates` | `HavaKaliteController.cs` and its `yyyy-MM-dd` parse |
| `Tourism` | `TuristikKonumController.cs`: the insert, as a class over the table |
| `Images` | `ImageUploader.cs`: the checks, the stored name, the resize decision, the upload directory as a class |
| `CoordCleaning` | `fix_coord` of `clean_hat_guzergah.py` |
| `RouteCsv` | `convert_hat_guzergah_to_geojson` of `csv_to_geojson.py` |
| `EndToEnd` | the API and the client together: each layer the API writes is read back by `extractLocation` |
| `Categories`, `GeoJson`, `Store`, `Http`, `Wrappers`, `Seqs`, `Ascii`, `Numbers` | shared records, JSON values, response codes, `filter`, ASCII case, averaging bounds |

## Things outside the code are parameters
- **Libraries:** `booleanPointInPolygon` is a `Containment` parameter. A circle is identified by the drag that spans it. `Math.sqrt` is a parameter, and so is Supercluster's `getClusters`.
- **Randomness:** the random ids of `extractLocation` are given by an `idOf` parameter.
- **Network:** the layer fetches are a `Fetched` parameter, and the popup's POST is a `post` parameter.
- **Database reads:** the tables are `Result` values, so a database error is a `Failure`.
- **Upload values:** the GUID text and the decoder's report of an image's size are parameters.
- **Python's `float`:** it is a `parse` parameter.
- **Coordinates and averages:** these are `real`.

## Behaviour that is easy to get wrong
Five points where the code does something a reader of the controllers and components might not expect. The model follows the code in each:
- **Route stops:** `GetGuzergah` returns them sorted by `id`, not in insertion order (`HatGuzergahController.cs:52`).
- **Failed category loads:** in `loadGeoJSONData`, one `try` covers all thirteen requests (`App.tsx:210-297`). So the first failure abandons the whole load and the locations stay as they were; it does not merely leave that category empty (`AppState.AppContent.LoadGeoJsonData`).
- **Air quality with no readings:** the `NotFound` branch (`HavaKaliteController.cs:86-90`) is dead code. The aggregate always returns one row of `COALESCE`d means, so the endpoint answers 200 with zeros (`AirQuality.GetStationData`, `AirQuality.NoReadingsGivesZeros`).
- **Invalid request bodies:** `TuristikKonumController` and `HavaKaliteController` are `[ApiController]`s. A body that fails binding or validation is answered by the framework with its own 400 before the action runs. So the action's `ModelState.IsValid` branch (`TuristikKonumController.cs:43-44`) is dead code (`Http.ValidationFailed`, `Tourism.TouristTable.AddTuristikKonum`).
- **Nullable context:** the project file is not part of this model, so whether nullable reference types are enabled is a `nullableContext` parameter. When they are, every non-nullable `string` property is implicitly `[Required]`. Null, empty and white-space values are then framework 400s. That covers the tourist texts and the air-quality `Date`, and makes the actions' own "İsim ve tür alanları zorunludur" and "Tarih gereklidir" answers unreachable (`Tourism.NullableContextRequiresAllTexts`, `AirQuality.NullableContextPreemptsDateCheck`).

## Model
| member | source | states |
|---|---|---|
| Categories.AllTypesListsEachOnce | konya-kbs-frontend/src/App.tsx:44-58 | the category list names each of the thirteen categories exactly once |
| Seqs.Keep | konya-kbs-frontend/src/App.tsx:177 | `filter` keeps exactly the elements that satisfy the predicate, each as often as it occurs, in their original order |
| Seqs.KeepKeep | konya-kbs-frontend/src/App.tsx:177-180 | filtering twice is filtering once by the conjunction of both predicates |
| Wrappers.Collect | konya-kbs-frontend/src/App.tsx:219 | a `map` whose callback may throw succeeds iff every element does, with the values elementwise; otherwise it fails with the first failing element's error |
| Catchment.FilteredLocations | konya-kbs-frontend/src/App.tsx:496-498 | exactly the locations of enabled categories, with their multiplicities, in loaded order |
| Catchment.InsideCircle | konya-kbs-frontend/src/App.tsx:177-180 | `inside` is exactly the enabled locations the containment predicate accepts, in loaded order |
| Catchment.GetCircleStats | konya-kbs-frontend/src/App.tsx:174-186 | no circle gives total 0, an empty count map and an empty list. Otherwise: total = length of `inside` = sum of the counts; a key exists exactly for categories occurring inside; every count is positive and every key an enabled category |
| Catchment.CountByType | konya-kbs-frontend/src/App.tsx:181-184 | the loop builds a map with a key exactly for each occurring category, holding its number of occurrences; the counts add up to the length |
| Catchment.CountedCategoriesEnabled | konya-kbs-frontend/src/App.tsx:177-184 | no disabled category is ever counted |
| Catchment.CountsAddUpToLength | konya-kbs-frontend/src/App.tsx:181-185 | per-category counts summed over all categories give the number of locations |
| Catchment.AllDisabledCountsNothing | konya-kbs-frontend/src/App.tsx:177-180 | with every filter off, nothing is inside any circle |
| AppState.Toggled | konya-kbs-frontend/src/App.tsx:325-330 | the named flag is flipped and every other flag is kept |
| AppState.ToggleTwiceRestores | konya-kbs-frontend/src/App.tsx:325-330 | toggling the same category twice restores the filter map |
| AppState.AfterExitDrawMode | konya-kbs-frontend/src/App.tsx:351-356 | leaves draw mode, clears drag, start point and preview, keeps the committed circle |
| AppState.AfterMouseDown | konya-kbs-frontend/src/App.tsx:358-365 | nothing outside draw mode; otherwise a drag starts at the pointer |
| AppState.AfterMouseMove | konya-kbs-frontend/src/App.tsx:367-384 | nothing unless drawing, dragging and having a start point; otherwise only the preview changes, to the circle spanned by start and pointer |
| AppState.AfterMouseUp | konya-kbs-frontend/src/App.tsx:386-404 | under the same guard, commits the spanned circle and then leaves draw mode |
| AppState.AfterDrawButton | konya-kbs-frontend/src/App.tsx:555-563 | exits when drawing; otherwise enters draw mode and discards the committed circle |
| AppState.AfterKeyDown | konya-kbs-frontend/src/App.tsx:333-342 | Ctrl+Shift exits draw mode, and only while drawing; anything else changes nothing |
| AppState.RunPreservesWellFormed | konya-kbs-frontend/src/App.tsx:351-404 | every event sequence keeps three facts: a drag only in draw mode, a drag iff a start point, a preview only during a drag |
| AppState.PointerIgnoredOutsideDrawMode | konya-kbs-frontend/src/App.tsx:358-404 | outside draw mode any sequence of pointer events changes nothing |
| AppState.DrawGestureCommitsCircle | konya-kbs-frontend/src/App.tsx:358-404 | draw button, press at a, any moves, release at b: the committed circle is the one spanned by a and b, and draw mode is over |
| AppState.ForcedClusterMode | konya-kbs-frontend/src/App.tsx:345-349 | below zoom 14 cluster mode ends up on; the effect never turns it off; at 14 or above it changes nothing |
| AppState.AfterClusterButton | konya-kbs-frontend/src/App.tsx:575-577 | the button is disabled below zoom 14; otherwise it flips the mode |
| AppState.AppContent.constructor | konya-kbs-frontend/src/App.tsx:127-163 | initial state: no locations, the listed default filters, not drawing, point mode, zoom 12 |
| AppState.AppContent.ToggleFilter | konya-kbs-frontend/src/App.tsx:325-330 | the new filters are `Toggled` of the old; every category keeps a flag |
| AppState.AppContent.ExitDrawMode | konya-kbs-frontend/src/App.tsx:351-356 | the new draw state is `AfterExitDrawMode` of the old; well-formedness is kept |
| AppState.AppContent.HandleMouseDown | konya-kbs-frontend/src/App.tsx:358-365 | the new draw state is `AfterMouseDown` of the old |
| AppState.AppContent.HandleMouseMove | konya-kbs-frontend/src/App.tsx:367-384 | the new draw state is `AfterMouseMove` of the old |
| AppState.AppContent.HandleMouseUp | konya-kbs-frontend/src/App.tsx:386-404 | the new draw state is `AfterMouseUp` of the old |
| AppState.AppContent.DrawButtonClick | konya-kbs-frontend/src/App.tsx:555-563 | the new draw state is `AfterDrawButton` of the old |
| AppState.AppContent.HandleKeyDown | konya-kbs-frontend/src/App.tsx:333-342 | the new draw state is `AfterKeyDown` of the old |
| AppState.AppContent.LoadGeoJsonData | konya-kbs-frontend/src/App.tsx:207-301 | the locations become the thirteen categories' extracted features in fetch order when every step succeeds; otherwise they are unchanged |
| AppState.AppContent.OnMove | konya-kbs-frontend/src/App.tsx:320-323 | the zoom becomes the one the map reports |
| AppState.AppContent.ClusterModeEffect | konya-kbs-frontend/src/App.tsx:345-349 | after the effect, below zoom 14 cluster mode is on; the mode is `ForcedClusterMode` of the old |
| AppState.AppContent.ClusterButtonClick | konya-kbs-frontend/src/App.tsx:575-577 | the mode becomes `AfterClusterButton` of the old |
| FeatureExtraction.Text | konya-kbs-frontend/src/App.tsx:426-447 | a string stored under the key is returned as it is; a missing or non-string value reads as "" |
| FeatureExtraction.RawText | konya-kbs-frontend/src/App.tsx:464-467 | a text is read iff a string is stored under the key, and it is that string |
| FeatureExtraction.IntProp | konya-kbs-frontend/src/App.tsx:443 | an occupancy is read iff an integer is stored under the key, and it is that integer |
| FeatureExtraction.PolygonCenter | konya-kbs-frontend/src/App.tsx:61-72 | the accumulating loop computes the vertex mean of the outer ring |
| FeatureExtraction.CenterInBoundingBox | konya-kbs-frontend/src/App.tsx:61-72 | the centre lies within the bounding box of the outer ring |
| FeatureExtraction.PointPosition | konya-kbs-frontend/src/App.tsx:450-468 | a position is read iff the geometry is a Point with two coordinates |
| FeatureExtraction.ExtractLocation | konya-kbs-frontend/src/App.tsx:420-493 | kind, id and the category's name property are kept; a Point gives `[lng, lat]`; a Polygon (not camera or tourist) gives its centre; other geometries fail; a car park carries the stored `occupiedSpaces`, a camera the `url` text, a tourist site the stored `tur`, `icerik` and `resim`; other categories carry none of these |
| FeatureExtraction.ExtractAll | konya-kbs-frontend/src/App.tsx:219 | succeeds iff every feature extracts, one location per feature in order |
| FeatureExtraction.LoadNeedsEveryFetch | konya-kbs-frontend/src/App.tsx:207-297 | a successful load had every category's request succeed |
| FeatureExtraction.LoadCountsFeatures | konya-kbs-frontend/src/App.tsx:211-289 | a successful load holds one location per fetched feature |
| FeatureExtraction.LoadedKindsFetched | konya-kbs-frontend/src/App.tsx:216-284 | every loaded location belongs to a fetched category |
| FeatureExtraction.LoadFailureSticks | konya-kbs-frontend/src/App.tsx:210-297 | once an earlier category fails, the whole load fails |
| FeatureExtraction.LoadSucceedsWhenAllExtract | konya-kbs-frontend/src/App.tsx:210-289 | conversely, every fetch succeeding with every feature extractable makes the load succeed |
| FeatureExtraction.LoadFailsWhenLastFetchFails | konya-kbs-frontend/src/App.tsx:281-297 | a failed request for the last category fails the load |
| GeoJson.Get | konya-kbs-frontend/src/App.tsx:426 | `properties.key` is found iff a member has that name, and is that member's value (the served objects never repeat a name) |
| LocationApi.CreateGeoJsonResponse | KonyaKBS.API/Controllers/LocationController.cs:21-36 | a FeatureCollection with one Feature per row, in row order, with the selector's properties and a Point at `[X, Y]` |
| LocationApi.SelectorsRead | KonyaKBS.API/Controllers/LocationController.cs:42-119 | car park, rental bike, park and camera selectors write each column under its own name |
| LocationApi.GetOtoparklar | KonyaKBS.API/Controllers/LocationController.cs:38-43 | one feature per row with name, capacity and occupiedSpaces from Name, Kapasite and Doluluk, at `[X, Y]` |
| LocationApi.GetKiralikBisiklet | KonyaKBS.API/Controllers/LocationController.cs:59-64 | one feature per row with NITELIK_AD, BOLGE and PERON_ADET, at `[X, Y]` |
| LocationApi.GetParklar | KonyaKBS.API/Controllers/LocationController.cs:101-106 | one feature per row with ADI, ILCEADI and UST_NITELIK_ADI, at `[X, Y]` |
| LocationApi.GetKameralar | KonyaKBS.API/Controllers/LocationController.cs:115-120 | one feature per row with niteliK_AD and URL, at `[X, Y]` |
| LocationApi.GetNamed | KonyaKBS.API/Controllers/LocationController.cs:45-113 | the name-only endpoints: one feature per row whose only property is the name under the endpoint's key |
| LocationApi.ReadTouristRow | KonyaKBS.API/Controllers/LocationController.cs:134-145 | a row reads iff `tur` and `isim` are not NULL; NULL `icerik` and `resim` read as null; lon and lat are X and Y |
| LocationApi.TouristFeatureReads | KonyaKBS.API/Controllers/LocationController.cs:150-163 | a tourist feature carries the row's texts, nulls as JSON null, at `[lon, lat]` |
| LocationApi.GetTuristikKonumlar | KonyaKBS.API/Controllers/LocationController.cs:122-166 | the reader loop fails with 500 iff some row has a NULL `tur` or `isim`; otherwise one feature per row, in row order; the answer is exactly `TouristBody` |
| LocationApi.TouristBody | KonyaKBS.API/Controllers/LocationController.cs:122-166 | the tourist layer has a usable body iff every row reads, with one feature per row |
| LocationApi.SerializeProperties | KonyaKBS.API/Program.cs:15-19 | each property name is written camel-cased, values and order kept |
| LocationApi.Serialize | KonyaKBS.API/Controllers/LocationController.cs:34-35 | the collection is written with every feature's property names camel-cased and nothing else changed |
| JsonNaming.FixCasing | KonyaKBS.API/Program.cs:15-19 | the serializer's casing pass keeps the length and the part before the current position |
| JsonNaming.CamelCase | KonyaKBS.API/Program.cs:15-19 | a name not starting with a capital is kept; otherwise its first letter is lowered; the length is kept |
| JsonNaming.CamelCaseIdempotent | KonyaKBS.API/Program.cs:15-19 | converting a converted name changes nothing |
| JsonNaming.CamelCaseOfCapitalRun | konya-kbs-frontend/src/App.tsx:426-447 | a leading run of capitals not followed by a space is lowered except its last letter, or wholly if the run is the whole name (the `niteliK_AD` the client reads) |
| Ascii.ToLower | KonyaKBS.API/Services/ImageUploader.cs:34 | the result is never a capital; capitals move to their lower-case letter, anything else is kept |
| Ascii.LowerAll | KonyaKBS.API/Services/ImageUploader.cs:34 | `ToLowerInvariant` lowers letter by letter and keeps the length |
| Ascii.LowerAllTwice | KonyaKBS.API/Services/ImageUploader.cs:34 | lowering twice is lowering once |
| EndToEnd.KeyAdi | KonyaKBS.API/Controllers/LocationController.cs:70 | ADI is written as `adi` |
| EndToEnd.KeyIlceadi | KonyaKBS.API/Controllers/LocationController.cs:105 | ILCEADI is written as `ilceadi` |
| EndToEnd.KeyUstNitelikAdi | KonyaKBS.API/Controllers/LocationController.cs:105 | UST_NITELIK_ADI is written as `usT_NITELIK_ADI` |
| EndToEnd.KeyNitelikAd | KonyaKBS.API/Controllers/LocationController.cs:56 | NITELIK_AD is written as `niteliK_AD` |
| EndToEnd.KeyAciklama | KonyaKBS.API/Controllers/LocationController.cs:49 | ACIKLAMA is written as `aciklama` |
| EndToEnd.KeyUrl | KonyaKBS.API/Controllers/LocationController.cs:119 | URL is written as `url` |
| EndToEnd.KeyBolge | KonyaKBS.API/Controllers/LocationController.cs:63 | BOLGE is written as `bolge` |
| EndToEnd.KeyPeronAdet | KonyaKBS.API/Controllers/LocationController.cs:63 | PERON_ADET is written as `peroN_ADET` |
| EndToEnd.ConvertedKey | KonyaKBS.API/Program.cs:15-19 | the converted form of a name with a leading capital run of known length |
| EndToEnd.LowerCaseKeysKept | KonyaKBS.API/Controllers/LocationController.cs:42 | properties whose names start in lower case are written unchanged |
| EndToEnd.OtoparkReadsBack | konya-kbs-frontend/src/App.tsx:441-443 | a served car park extracts at its point with its name and occupancy |
| EndToEnd.ParkReadsBack | konya-kbs-frontend/src/App.tsx:425-426 | a served park extracts under "district - kind" from ILCEADI and UST_NITELIK_ADI |
| EndToEnd.KameraReadsBack | konya-kbs-frontend/src/App.tsx:448-457 | a served camera extracts with its name and stream URL |
| EndToEnd.KiralikBisikletReadsBack | konya-kbs-frontend/src/App.tsx:439-440 | a served rental-bike station extracts under its name |
| EndToEnd.NamedReadsBack | konya-kbs-frontend/src/App.tsx:427-447 | each name-only endpoint writes the name under the key its category reads |
| EndToEnd.NamedServed | KonyaKBS.API/Controllers/LocationController.cs:21-36 | feature i of a name-only layer is row i's name and point as served |
| EndToEnd.NamedLayerExtracts | konya-kbs-frontend/src/App.tsx:217-273 | every feature of a name-only layer extracts |
| EndToEnd.TouristReadsBack | konya-kbs-frontend/src/App.tsx:458-468 | a readable tourist row extracts with name, kind, description and image; NULLs stay absent |
| EndToEnd.TouristFieldsRead | KonyaKBS.API/Controllers/LocationController.cs:150-163 | the client's readers take back the point, name and the three optional texts of a tourist feature |
| EndToEnd.AddedPlaceShows | KonyaKBS.API/Controllers/TuristikKonumController.cs:51-57 | a place inserted through the form shows on the map at the entered latitude and longitude under its name |
| EndToEnd.LayerExtracts | konya-kbs-frontend/src/App.tsx:217-284 | every layer the API serves extracts completely (the tourist one when its rows read) |
| EndToEnd.ReadableDatabaseLoads | konya-kbs-frontend/src/App.tsx:207-289 | over readable tables the load succeeds with one location per served row |
| EndToEnd.DashboardLoadsDatabase | konya-kbs-frontend/src/App.tsx:207-297 | the client loads what the API serves iff no tourist row has a NULL name or kind, and then shows one location per row |
| Markers.InView | konya-kbs-frontend/src/components/Markers.tsx:142-148 | exactly the locations of the category inside the inclusive bounds, in order, with multiplicities |
| Markers.VisiblePoints | konya-kbs-frontend/src/components/Markers.tsx:137-149 | empty below zoom 14 outside cluster mode; otherwise exactly `InView` |
| Markers.OfType | konya-kbs-frontend/src/components/Markers.tsx:115 | exactly the category's locations, each as often as loaded, in order |
| Markers.PointsOf | konya-kbs-frontend/src/components/Markers.tsx:115-127 | one point per location of the category, in order, tagged with that category |
| Markers.IndexedOnlyUnderOwnCategory | konya-kbs-frontend/src/components/Markers.tsx:115-130 | a location is loaded into its own category's index and no other |
| Markers.BuildClusterIndexes | konya-kbs-frontend/src/components/Markers.tsx:101-134 | no indexes outside cluster mode; otherwise an index for every category with the fixed options and that category's points |
| Markers.ChooseRenderPath | konya-kbs-frontend/src/components/Markers.tsx:270-343 | hidden iff the filter is off; clustered iff enabled and (zoom < 14 or cluster mode); individual only at zoom ≥ 14 without cluster mode |
| Markers.ClusterBaseSize | konya-kbs-frontend/src/components/Markers.tsx:285-291 | the base size is in [30, 70], and equals 15·sqrt when that is in range |
| Markers.ZoomFactor | konya-kbs-frontend/src/components/Markers.tsx:292 | the factor is the larger of 0.6 and (16 − zoom)/8 |
| Markers.ClusterSize | konya-kbs-frontend/src/components/Markers.tsx:285-293 | the marker is at least 18 px, and at most 42 px from zoom 11.2 on |
| Markers.FlyToZoom | konya-kbs-frontend/src/components/Markers.tsx:307 | the target zoom is the smaller of zoom + 2 and 16 |
| Markers.MarkerColor | konya-kbs-frontend/src/components/Markers.tsx:178-195 | the table's colour, and `#9E9E9E` exactly for labels it lacks |
| Markers.EveryCategoryHasColor | konya-kbs-frontend/src/components/Markers.tsx:178-195 | no category falls back to grey |
| Markers.FindLocation | konya-kbs-frontend/src/components/Markers.tsx:334 | none iff no location has the id; otherwise the first with it |
| Markers.RenderEntries | konya-kbs-frontend/src/components/Markers.tsx:280-338 | one marker per entry except point entries whose id matches no location, which render nothing; every cluster marker has the category's colour and at least 18 px; every point marker shows a loaded location |
| Markers.RenderedMarkersHaveEntries | konya-kbs-frontend/src/components/Markers.tsx:280-338 | every marker comes from an entry: a cluster marker sits at a cluster entry's position with its count, a point marker shows the first location with a point entry's id |
| Markers.EntriesAreRendered | konya-kbs-frontend/src/components/Markers.tsx:280-338 | every cluster entry is drawn at its position with its count, and every point entry whose id matches a location is drawn as that location |
| Markers.RenderCategory | konya-kbs-frontend/src/components/Markers.tsx:270-344 | a disabled category draws nothing; clustered without an index draws nothing; clustered with an index draws the entries the index returns for the current bounds and floored zoom, as `RenderEntries` states; individual draws one marker per visible point in order |
| Popup.StationEndpoint | konya-kbs-frontend/src/components/LocationPopup.tsx:66-91 | every endpoint it yields is one the API routes to a station; its only failure is "Geçersiz istasyon adı" |
| Popup.EndpointsDistinct | konya-kbs-frontend/src/components/LocationPopup.tsx:67-88 | exactly the seven names have an endpoint, and no two share one |
| Popup.EveryStationReachable | konya-kbs-frontend/src/components/LocationPopup.tsx:66-91 | every station of the API has a name that reaches it |
| Popup.SentDate | konya-kbs-frontend/src/components/LocationPopup.tsx:105-108 | the text the popup sends parses on the API iff a real day was picked, and then to that day; a partly typed date is sent as "Invalid Date" |
| Popup.AirQualityAfterEffect | konya-kbs-frontend/src/components/LocationPopup.tsx:56-141 | nothing without an air station and a (possibly invalid) picked date. Otherwise an unknown name, no reply, a non-2xx status or an undecodable body clears the data; a 2xx with a body keeps that body |
| Popup.InvalidPickClearsData | konya-kbs-frontend/src/components/LocationPopup.tsx:56-128 | against the API, a partly typed date clears the data at every station, since the API answers 400 |
| Popup.PickedDayShowsAverages | konya-kbs-frontend/src/components/LocationPopup.tsx:56-123 | against the API, a real day at a known station whose table reads shows that day's averages |
| Popup.ChartValues | konya-kbs-frontend/src/components/LocationPopup.tsx:288-298 | values are [pm10, no2, nox, no] aligned with the labels, or empty without data |
| Popup.ParkingOccupancy | konya-kbs-frontend/src/components/LocationPopup.tsx:152 | the occupancy, or 0 when absent |
| Popup.PopupClass | konya-kbs-frontend/src/components/LocationPopup.tsx:436-440 | air-quality style iff air station, camera style iff camera, default otherwise |
| Dates.ParseIsoDate | KonyaKBS.API/Controllers/HavaKaliteController.cs:64 | only `dddd-dd-dd` naming a real calendar date parses |
| Dates.FormatDate | konya-kbs-frontend/src/components/LocationPopup.tsx:107 | a date is written in the ten-character `YYYY-MM-DD` form |
| Dates.ParseFormatted | konya-kbs-frontend/src/components/LocationPopup.tsx:106-108 | the date the popup sends parses back to the same date |
| Dates.FormattedParsed | KonyaKBS.API/Controllers/HavaKaliteController.cs:64 | an accepted date string is exactly the formatting of its date |
| AirQuality.TableOf | KonyaKBS.API/Controllers/HavaKaliteController.cs:24-50 | each station's table is `istasyon` + its route |
| AirQuality.StationOfRoute | KonyaKBS.API/Controllers/HavaKaliteController.cs:24-50 | a lower-case path segment reaches the station with that route, or none when no station has it |
| AirQuality.RoutesAndTablesDistinct | KonyaKBS.API/Controllers/HavaKaliteController.cs:24-50 | each route reaches its own station and no two stations share a table |
| AirQuality.BindDate | KonyaKBS.API/Controllers/HavaKaliteController.cs:108-111 | an absent `date` binds to "", an explicit null to null, otherwise the text |
| AirQuality.Present | KonyaKBS.API/Controllers/HavaKaliteController.cs:72-75 | `AVG` sees exactly the non-null readings, each as often as it occurs |
| AirQuality.MeanWithinReadings | KonyaKBS.API/Controllers/HavaKaliteController.cs:72-75 | the coalesced mean is 0 without readings, otherwise between the smallest and largest reading |
| AirQuality.MeanOfConstant | KonyaKBS.API/Controllers/HavaKaliteController.cs:72-75 | equal readings average to their value |
| AirQuality.OnDay | KonyaKBS.API/Controllers/HavaKaliteController.cs:77 | exactly the readings whose date is the requested one, each row as often as the table holds it, in table order |
| AirQuality.NoReadingsGivesZeros | KonyaKBS.API/Controllers/HavaKaliteController.cs:70-77 | a day without readings averages to zero for every pollutant |
| AirQuality.GetStationData | KonyaKBS.API/Controllers/HavaKaliteController.cs:52-105 | 400 "Tarih gereklidir" iff null or empty; 400 format message iff not a valid `yyyy-MM-dd`; 500 iff the read fails; else 200 with the day's means; never 404 |
| AirQuality.PostStation | KonyaKBS.API/Controllers/HavaKaliteController.cs:24-50 | 404 iff the lower-cased segment names no station; under a nullable context a null, empty or white-space date is a framework 400; otherwise the action queries its own station's table |
| AirQuality.RouteMatchIgnoresCase | KonyaKBS.API/Program.cs:101 | the path segment is matched ignoring letter case: any segment reaches the same action as its lower-case form, so `Bosna` reaches the Bosna station |
| AirQuality.MissingDateRejected | KonyaKBS.API/Controllers/HavaKaliteController.cs:108-111 | a body without `date` is rejected at every station: as missing a date by the action, or by the framework's validation under a nullable context |
| AirQuality.NullableContextPreemptsDateCheck | KonyaKBS.API/Controllers/HavaKaliteController.cs:58-62 | under a nullable context the action's "Tarih gereklidir" answer is never sent |
| Http.ImplicitRequiredRejectsEmpty | KonyaKBS.API/Controllers/HavaKaliteController.cs:108-111 | the implicit `[Required]` of a nullable context rejects null and empty strings, and without that context it rejects nothing |
| Routes.InsertDistinct | KonyaKBS.API/Controllers/HatGuzergahController.cs:30-31 | insertion keeps the list strictly ascending and adds exactly the new number |
| Routes.DistinctRouteNumbers | KonyaKBS.API/Controllers/HatGuzergahController.cs:28-32 | strictly ascending, holding exactly the table's route numbers |
| Routes.AscendingUnique | KonyaKBS.API/Controllers/HatGuzergahController.cs:28-32 | a strictly ascending list is determined by its elements, so the listing is the only possible one |
| Routes.GetHatlar | KonyaKBS.API/Controllers/HatGuzergahController.cs:22-42 | 200 iff the read succeeds, with the distinct ascending route numbers; else 500 with the fixed message |
| Routes.InsertById | KonyaKBS.API/Controllers/HatGuzergahController.cs:52 | insertion keeps the rows sorted by id and adds exactly the new row |
| Routes.SortById | KonyaKBS.API/Controllers/HatGuzergahController.cs:52 | sorted by id and a permutation of the input |
| Routes.OnRoute | KonyaKBS.API/Controllers/HatGuzergahController.cs:51 | exactly the rows of the route, with multiplicities |
| Routes.RouteSelectionEmpty | KonyaKBS.API/Controllers/HatGuzergahController.cs:63-67 | the selection is empty iff no row has the route number |
| Routes.StopsOf | KonyaKBS.API/Controllers/HatGuzergahController.cs:53-60 | one stop per row, in order, with id, route and the `[X, Y]` point |
| Routes.GetGuzergah | KonyaKBS.API/Controllers/HatGuzergahController.cs:44-77 | 500 on a read failure; 404 iff no row has the route; else 200 with the route's rows sorted by id as stops |
| Routes.StopsOfRoute | KonyaKBS.API/Controllers/HatGuzergahController.cs:50-61 | every stop is on the route, ids ascend, every row of the route is present, and as many stops as rows |
| Tourism.InsertedRow | KonyaKBS.API/Controllers/TuristikKonumController.cs:51-57 | the row carries the four texts, X = Longitude, Y = Latitude, SRID 4326 |
| Tourism.NullableContextRequiresAllTexts | KonyaKBS.API/Controllers/TuristikKonumController.cs:73-81 | under a nullable context a body that passes validation has a name, a kind, a description and an image, so the action's field check never fails; without it only the conversion counts |
| Tourism.TouristTable.AddTuristikKonum | KonyaKBS.API/Controllers/TuristikKonumController.cs:38-70 | a body failing the framework's validation gets its 400 and the action's own "Geçersiz veri formatı" is never sent. Then: 400 on a null or empty name or kind, 500 on a store failure, each leaving the table unchanged; else 200 and exactly one row appended. Ids stay below the next id |
| Images.DotIndex | KonyaKBS.API/Services/ImageUploader.cs:34 | the dot it finds is followed by no other dot and no `/` before the end |
| Images.Extension | KonyaKBS.API/Services/ImageUploader.cs:34 | empty, or a dot and a non-empty tail without dots or separators that ends the path |
| Images.ExtensionOfSuffix | KonyaKBS.API/Services/ImageUploader.cs:34 | the extension of stem + `.ext` is `.ext` |
| Images.ExtensionOfLowered | KonyaKBS.API/Services/ImageUploader.cs:34 | lower-casing the name lower-cases its extension |
| Images.CheckUpload | KonyaKBS.API/Services/ImageUploader.cs:28-36 | empty iff null or zero length; too large iff over 5 MiB; unsupported iff the lower-cased extension is not allowed, each only if the earlier checks pass; success carries the allowed extension |
| Images.CheckIgnoresCase | KonyaKBS.API/Services/ImageUploader.cs:34-35 | the verdict ignores the file name's letter case |
| Images.SizeLimitInclusive | KonyaKBS.API/Services/ImageUploader.cs:31-32 | exactly 5 MiB passes the size check, one byte more fails it |
| Images.AllowedExtensionAccepted | KonyaKBS.API/Services/ImageUploader.cs:34-36 | any stem with an allowed extension, in any case, is accepted |
| Images.StoredName | KonyaKBS.API/Services/ImageUploader.cs:38 | the GUID text followed by the extension |
| Images.StoredNameKeepsExtension | KonyaKBS.API/Services/ImageUploader.cs:34-38 | the stored name's extension is the checked extension |
| Images.SvgNeverResized | KonyaKBS.API/Services/ImageUploader.cs:47 | an SVG is never resized |
| Images.FittingImageKept | KonyaKBS.API/Services/ImageUploader.cs:52-56 | an image within 1920×1080 is not resized |
| Images.UploadDirectory.UploadImage | KonyaKBS.API/Services/ImageUploader.cs:26-70 | a rejected file changes nothing. An accepted one is added under its stored name before decoding, so it stays even when decoding fails. It succeeds iff the checks pass and the file is an SVG or decodes; success returns that name and resizes iff the image is too big |
| Images.UploadDirectory.DeleteImage | KonyaKBS.API/Services/ImageUploader.cs:72-82 | a null or empty name changes nothing; otherwise exactly that file is removed |
| CoordCleaning.RemoveDots | clean_hat_guzergah.py:12 | no dot is left and every other character is kept as often as it occurs |
| CoordCleaning.FixedTextShape | clean_hat_guzergah.py:12-15 | more than two characters left: one dot inserted after the first two; otherwise the dot-free text as is |
| CoordCleaning.AtMostOneDot | clean_hat_guzergah.py:13-14 | no dot except at position 2 |
| CoordCleaning.DotsRemovedAgain | clean_hat_guzergah.py:12-14 | dropping the dots of the result gives back the dot-free input, so no character is lost, added or moved |
| CoordCleaning.FixedTextIdempotent | clean_hat_guzergah.py:12-14 | cleaning cleaned text changes nothing |
| CoordCleaning.FixCoord | clean_hat_guzergah.py:9-15 | a missing value is returned unchanged; text succeeds iff its cleaned form parses, with that number |
| RouteCsv.Cell | csv_to_geojson.py:13 | a column's text, or a missing-column error for an absent column |
| RouteCsv.Number | csv_to_geojson.py:17 | succeeds iff the column exists and parses, with that number; otherwise the missing column or the unparsable text is the error |
| RouteCsv.RowFeature | csv_to_geojson.py:10-19 | a Feature with `hat_no` copied verbatim and a Point at `[KOORDINAT_Y, KOORDINAT_X]`; the error is that of `HAT_NO`, then `KOORDINAT_Y`, then `KOORDINAT_X`, whichever fails first |
| RouteCsv.ColumnsSwapped | csv_to_geojson.py:17 | the written longitude is KOORDINAT_Y and the latitude KOORDINAT_X |
| RouteCsv.ConvertHatGuzergah | csv_to_geojson.py:4-26 | succeeds iff every row converts, with a FeatureCollection of one feature per row in order; otherwise the first failing row's error |

## Left out
- Geodesy: turf's circle construction and point-in-polygon are a parameter. Hovering (`handleHover`) is left out.
- Supercluster's clustering is left out. `getClusters` is a parameter; only index construction and rendering of its entries are modelled.
- Random ids and the random car-park occupancies (`App.tsx:303-313`) are parameters or left out. Logging, `isLoading`, the detail panel, dropdown, login and logout state, `getChartData` and all JSX are presentation.
- AppState.AppContent.LoadGeoJsonData: the response JSON decoding is part of the `fetched` parameter. The loading flag and its timeout are not modelled.
- FeatureExtraction.ExtractLocation: in some cases the source silently produces NaN, an undefined coordinate or an array as a coordinate; the model fails instead, since `real` has no NaN. The cases are:
  - an empty outer ring;
  - a polygon vertex with fewer than two numbers;
  - a Point with fewer than two numbers;
  - a camera or tourist feature with a non-Point geometry.
  Through `LoadAll`, one such feature fails the whole load in the model and leaves the locations unchanged, where the source loads every layer and shows that location at a meaningless position. (A polygon without an outer ring makes the source throw too, and fails the load in both.)
- FeatureExtraction.Text: a non-string property value (a number) reads as "" here, where JavaScript's `||` would keep the number.
- FeatureExtraction.IntProp: a non-integer value under `occupiedSpaces` (a fraction or a string) reads as absent here, where the source passes it through unchanged. The API writes an integer there.
- FeatureExtraction.RawText: a non-string value under `tur`, `icerik` or `resim` reads as absent here, where the source passes it through unchanged. The API writes a string or null there.
- The copies of `calculatePolygonCenter` and `extractLocation` in `Markers.tsx:54-65, 204-266` are never called and are not modelled separately.
- Popup.AirQualityAfterEffect: the `isMounted` guard, the `loading` flag and the display format `DD/MM/YYYY` are not modelled. The effect is modelled once settled.
- Markers.ClusterSize: `Math.sqrt` is a parameter, so only the clamp's bounds are stated, not the exact size.
- LocationApi.GetOtoparklar: like the other Entity Framework endpoints, a database failure (an unhandled exception) is not modelled; the tables are given as values.
- LocationApi.GetTuristikKonumlar: only a NULL `tur` or `isim` fails. Connection failures and NULL ids or geometries are not modelled.
- JsonNaming.CamelCase: only ASCII letters count as capitals, so non-ASCII capitals in member names are not modelled. All member names in these controllers are ASCII.
- Tourism.TouristTable.AddTuristikKonum: whether the JSON body converts at all (for example a `null` latitude) is a boolean parameter. So is the nullable context. The validation-problem body is represented by its title only. The `[Authorize]` check is left out. Row ids come from a counter.
- AirQuality.PostStation: a `date` member that is not a JSON string (a conversion failure, so a framework 400) is not modelled. Route matching folds ASCII letters only, whereas the framework's ordinal case-insensitive match also folds non-ASCII letters. For example, dotless `ı` upper-cases to `I`, so `trafık` reaches the `trafik` action in the source but is a 404 in the model.
- Routes.GetGuzergah: the route number arrives as an `int`. A `{hatNo}` segment that is not a number or does not fit in 32 bits fails model binding, so the `[ApiController]` answers with its validation 400 before the action runs; that answer is not modelled.
- The GET action of `TuristikKonumController.cs:21-36` is not modelled: it returns raw rows with no logic of its own.
- Images.UploadDirectory.UploadImage: image decoding and pixel resizing (aspect-preserving `ResizeMode.Max`) are not modelled, and neither are file-stream failures or Windows `\` separators. The stored name is a GUID plus an extension, so it never leaves the directory.
- Images.UploadDirectory.DeleteImage: the directory is a flat set of names, so `Path.Combine` with a caller's name that contains separators is not modelled. In the source, `../x` or an absolute path deletes a file outside the upload directory; in the model it only removes that name from the set.
- CoordCleaning.FixCoord: Python's `float` and `str(val)` are not modelled; the cell arrives as the text `str` gives. The pandas read and write are I/O.
- RouteCsv.ConvertHatGuzergah: the file open and `csv.DictReader` parsing are I/O; rows arrive as maps. `json.dump` is left out.
- Response messages carrying exception text, and logging, are not modelled.

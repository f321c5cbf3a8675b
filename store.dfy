/** The PostGIS records the controllers read and write. Every `geometry(Point, 4326)`
    column is a `GeoPoint`; the `Name` columns are required, so never null. */
module Store {
  import opened Wrappers

  /** A NetTopologySuite point: `X` is the longitude, `Y` the latitude. */
  datatype GeoPoint = GeoPoint(x: real, y: real, srid: int)

  datatype OtoparkRow = OtoparkRow(id: int, name: string, kapasite: int, doluluk: int, location: GeoPoint)

  /** The tables with only a name and a point: drinking fountains, bicycle parking,
      mosques, schools, health facilities, assembly areas, pharmacies and air-quality
      stations. */
  datatype NamedRow = NamedRow(id: int, name: string, location: GeoPoint)

  datatype KiralikBisikletRow = KiralikBisikletRow(id: int, name: string, bolge: string, peronAdet: int, location: GeoPoint)

  datatype ParkRow = ParkRow(id: int, name: string, location: GeoPoint, ilceAdi: string, ustNitelikAdi: string)

  datatype KameraRow = KameraRow(id: int, name: string, location: GeoPoint, url: string)

  /** A row of `turistik_konumlar`; every text column may be NULL. */
  datatype TouristRow = TouristRow(id: int, isim: Option<string>, tur: Option<string>, icerik: Option<string>,
                                   resim: Option<string>, geometry: GeoPoint)

  /** A row of the bus-route stop table. */
  datatype HatRow = HatRow(id: int, hatNo: int, geometry: GeoPoint)
}

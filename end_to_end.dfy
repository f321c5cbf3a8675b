/** The API and the dashboard together: what the controllers write is what the map's
    `extractLocation` reads back, category by category. */
module EndToEnd {
  import opened Wrappers
  import opened Ascii
  import opened JsonNaming
  import opened GeoJson
  import opened Store
  import opened Categories
  import opened FeatureExtraction
  import opened LocationApi
  import opened Tourism
  import opened Catchment

  // The property names the controllers write, as the serializer renames them.

  lemma KeyAdi()
    ensures CamelCase("ADI") == "adi"
  {
    var name := "ADI";
    assert CapitalRun(name[3..]) == 0;
    ConvertedKey(name, 3);
    assert LowerAll(name) == "adi";
  }

  lemma KeyIlceadi()
    ensures CamelCase("ILCEADI") == "ilceadi"
  {
    var name := "ILCEADI";
    assert CapitalRun(name[7..]) == 0;
    ConvertedKey(name, 7);
    assert LowerAll(name) == "ilceadi";
  }

  lemma KeyUstNitelikAdi()
    ensures CamelCase("UST_NITELIK_ADI") == "usT_NITELIK_ADI"
  {
    var name := "UST_NITELIK_ADI";
    assert CapitalRun(name[3..]) == 0;
    ConvertedKey(name, 3);
    assert name[..2] == "US" && name[2..] == "T_NITELIK_ADI";
    assert LowerAll("US") == "us";
    assert LowerAll("US") + "T_NITELIK_ADI" == "usT_NITELIK_ADI";
  }

  lemma KeyNitelikAd()
    ensures CamelCase("NITELIK_AD") == "niteliK_AD"
  {
    var name := "NITELIK_AD";
    assert CapitalRun(name[7..]) == 0;
    ConvertedKey(name, 7);
    assert name[..6] == "NITELI" && name[6..] == "K_AD";
    assert LowerAll("NITELI") == "niteli";
    assert LowerAll("NITELI") + "K_AD" == "niteliK_AD";
  }

  lemma KeyAciklama()
    ensures CamelCase("ACIKLAMA") == "aciklama"
  {
    var name := "ACIKLAMA";
    assert CapitalRun(name[8..]) == 0;
    ConvertedKey(name, 8);
    assert LowerAll(name) == "aciklama";
  }

  lemma KeyUrl()
    ensures CamelCase("URL") == "url"
  {
    var name := "URL";
    assert CapitalRun(name[3..]) == 0;
    ConvertedKey(name, 3);
    assert LowerAll(name) == "url";
  }

  lemma KeyBolge()
    ensures CamelCase("BOLGE") == "bolge"
  {
    var name := "BOLGE";
    assert CapitalRun(name[5..]) == 0;
    ConvertedKey(name, 5);
    assert LowerAll(name) == "bolge";
  }

  lemma KeyPeronAdet()
    ensures CamelCase("PERON_ADET") == "peroN_ADET"
  {
    var name := "PERON_ADET";
    assert CapitalRun(name[5..]) == 0;
    ConvertedKey(name, 5);
    assert name[..4] == "PERO" && name[4..] == "N_ADET";
    assert LowerAll("PERO") == "pero";
    assert LowerAll("PERO") + "N_ADET" == "peroN_ADET";
  }

  /** A name whose first `m >= 2` characters are capitals, followed by anything but a
      capital or a space, keeps only the last of them upper case; a name made of capitals
      only is lowered throughout. */
  lemma ConvertedKey(name: string, m: nat)
    requires 2 <= m <= |name| && CapitalRun(name[m..]) == 0 && forall j :: 0 <= j < m ==> IsUpper(name[j])
    requires m < |name| ==> name[m] != ' '
    ensures m == |name| ==> CamelCase(name) == LowerAll(name)
    ensures m < |name| ==> CamelCase(name) == LowerAll(name[..m - 1]) + name[m - 1..]
  {
    CapitalRunFrom(name, m);
    CamelCaseOfCapitalRun(name);
    if m < |name| {
      var expected := LowerAll(name[..m - 1]) + name[m - 1..];
      assert forall j :: 0 <= j < |name| ==> CamelCase(name)[j] == expected[j];
    }
  }

  lemma {:induction false} CapitalRunFrom(name: string, m: nat)
    requires m <= |name| && CapitalRun(name[m..]) == 0 && forall j :: 0 <= j < m ==> IsUpper(name[j])
    ensures CapitalRun(name) == m
  {
    if m > 0 {
      assert name[1..][m - 1..] == name[m..];
      CapitalRunFrom(name[1..], m - 1);
    }
  }

  /** A served Point feature: its properties as serialized, at `[X, Y]`. */
  predicate Served(f: Feature, props: Properties, at: GeoPoint)
  {
    f.properties == SerializeProperties(props) && f.geometry == Point([at.x, at.y])
  }

  /** Names that do not start with a capital are written as they are. */
  lemma LowerCaseKeysKept(props: Properties)
    requires forall i :: 0 <= i < |props| ==> props[i].0 != [] && !IsUpper(props[i].0[0])
    ensures SerializeProperties(props) == props
  {
  }

  /** A car park appears at its point with its name and its occupancy. */
  lemma OtoparkReadsBack(f: Feature, o: OtoparkRow, id: real)
    requires Served(f, OtoparkProperties(o), o.location)
    ensures ExtractLocation(f, Otopark, id) ==
              Success(Location(id, Otopark, o.location.y, o.location.x, o.name, Some(o.doluluk), None, None, None, None))
  {
    var props := OtoparkProperties(o);
    LowerCaseKeysKept(props);
    GetAt(props, 2);
    assert IntProp(props, "occupiedSpaces") == Some(o.doluluk);
    assert NameFor(Otopark, props) == o.name;
  }

  /** A park appears under "district - kind", the two columns the dashboard joins. */
  lemma ParkReadsBack(f: Feature, p: ParkRow, id: real)
    requires Served(f, ParkProperties(p), p.location)
    ensures ExtractLocation(f, Park, id) ==
              Success(Location(id, Park, p.location.y, p.location.x, p.ilceAdi + " - " + p.ustNitelikAdi,
                               None, None, None, None, None))
  {
    KeyAdi();
    KeyIlceadi();
    KeyUstNitelikAdi();
    assert f.properties == [("adi", JStr(p.name)), ("ilceadi", JStr(p.ilceAdi)), ("usT_NITELIK_ADI", JStr(p.ustNitelikAdi))];
    GetAt(f.properties, 1);
    GetAt(f.properties, 2);
  }

  /** A camera appears with its name and its stream address. */
  lemma KameraReadsBack(f: Feature, k: KameraRow, id: real)
    requires Served(f, KameraProperties(k), k.location)
    ensures ExtractLocation(f, Kamera, id) ==
              Success(Location(id, Kamera, k.location.y, k.location.x, k.name, None, Some(k.url), None, None, None))
  {
    KeyUrl();
    assert f.properties == [("niteliK_AD", JStr(k.name)), ("url", JStr(k.url))];
    GetAt(f.properties, 1);
  }

  /** A shared-bicycle station appears under its name. */
  lemma KiralikBisikletReadsBack(f: Feature, b: KiralikBisikletRow, id: real)
    requires Served(f, KiralikBisikletProperties(b), b.location)
    ensures ExtractLocation(f, PaylasimliBisikletIstasyonu, id) ==
              Success(Location(id, PaylasimliBisikletIstasyonu, b.location.y, b.location.x, b.name,
                               None, None, None, None, None))
  {
    KeyNitelikAd();
    KeyBolge();
    KeyPeronAdet();
    assert f.properties == [("niteliK_AD", JStr(b.name)), ("bolge", JStr(b.bolge)), ("peroN_ADET", JInt(b.peronAdet))];
  }

  /** The name-only endpoints and the category each is loaded as, with the column name the
      controller writes. */
  predicate NamedEndpoint(key: string, t: LocationType)
  {
    (key == "ADI" && t in {Cami, Okul, SaglikTesisi, ToplanmaAlani, Eczane}) ||
    (key == "NITELIK_AD" && t in {BisikletParkAlani, HavaOlcumIstasyonu}) ||
    (key == "ACIKLAMA" && t == TatliSuCesmesi)
  }

  /** Every name-only endpoint writes the name where its category reads it. */
  lemma NamedReadsBack(f: Feature, n: NamedRow, key: string, t: LocationType, id: real)
    requires NamedEndpoint(key, t)
    requires Served(f, [(key, JStr(n.name))], n.location)
    ensures ExtractLocation(f, t, id) ==
              Success(Location(id, t, n.location.y, n.location.x, n.name, None, None, None, None, None))
  {
    KeyAdi();
    KeyNitelikAd();
    KeyAciklama();
    assert f.properties == [(CamelCase(key), JStr(n.name))];
  }

  /** A readable tourist row appears with its name, kind, description and image; a NULL
      description or image stays absent. */
  lemma TouristReadsBack(row: TouristRow, id: real)
    requires ReadTouristRow(row).Some?
    ensures ExtractLocation(TouristFeature(ReadTouristRow(row).value), TarihiTuristikYerler, id) ==
              Success(Location(id, TarihiTuristikYerler, row.geometry.y, row.geometry.x, row.isim.value,
                               None, None, row.tur, row.icerik, row.resim))
  {
    TouristFieldsRead(row);
  }

  /** What the dashboard's readers take from a served tourist feature. */
  lemma TouristFieldsRead(row: TouristRow)
    requires ReadTouristRow(row).Some?
    ensures var f := TouristFeature(ReadTouristRow(row).value);
            PointPosition(f.geometry) == Some(LngLat(row.geometry.x, row.geometry.y)) &&
            NameFor(TarihiTuristikYerler, f.properties) == row.isim.value &&
            RawText(f.properties, "tur") == row.tur &&
            RawText(f.properties, "icerik") == row.icerik &&
            RawText(f.properties, "resim") == row.resim
  {
    var d := ReadTouristRow(row).value;
    var props := TouristFeature(d).properties;
    assert props == [("tur", JStr(d.tur)), ("isim", JStr(d.isim)), ("icerik", OrNull(d.icerik)), ("resim", OrNull(d.resim))];
    NullableAt(props, 0, row.tur);
    GetAt(props, 1);
    NullableAt(props, 2, row.icerik);
    NullableAt(props, 3, row.resim);
  }

  /** A member written with nulls kept, not shadowed by an earlier one, is read back as
      the same optional text. */
  lemma NullableAt(props: Properties, i: nat, s: Option<string>)
    requires i < |props| && props[i].1 == OrNull(s)
    requires forall j :: 0 <= j < i ==> props[j].0 != props[i].0
    ensures RawText(props, props[i].0) == s
  {
    GetAt(props, i);
  }

  /** A place added through the tourist form shows on the map at the latitude and
      longitude it was entered with, under its name. */
  lemma AddedPlaceShows(input: TouristInput, rowId: int, id: real)
    requires HasRequiredFields(input)
    ensures ReadTouristRow(InsertedRow(input, rowId)).Some?
    ensures ExtractLocation(TouristFeature(ReadTouristRow(InsertedRow(input, rowId)).value), TarihiTuristikYerler, id) ==
              Success(Location(id, TarihiTuristikYerler, input.latitude, input.longitude, input.isim.value,
                               None, None, input.tur, input.icerik, input.resim))
  {
    TouristReadsBack(InsertedRow(input, rowId), id);
  }

  /** The tables behind the thirteen layers. */
  datatype Database = Database(
    bisikletPark: seq<NamedRow>, kiralikBisiklet: seq<KiralikBisikletRow>, otoparklar: seq<OtoparkRow>,
    camiler: seq<NamedRow>, okullar: seq<NamedRow>, saglikTesisleri: seq<NamedRow>,
    toplanmaAlanlari: seq<NamedRow>, parklar: seq<ParkRow>, tatliSuCesmeleri: seq<NamedRow>,
    eczaneler: seq<NamedRow>, havaKaliteIstasyonlari: seq<NamedRow>, kameralar: seq<KameraRow>,
    turistikKonumlar: seq<TouristRow>)

  /** What each of the dashboard's requests receives from the API over `db`. The tourist
      layer's names are already lower case, so the serializer keeps them. */
  function FetchFrom(db: Database, t: LocationType): Option<FeatureCollection>
  {
    match t
    case BisikletParkAlani => Some(Serialize(GetBisikletPark(db.bisikletPark)))
    case PaylasimliBisikletIstasyonu => Some(Serialize(GetKiralikBisiklet(db.kiralikBisiklet)))
    case Otopark => Some(Serialize(GetOtoparklar(db.otoparklar)))
    case Cami => Some(Serialize(GetCamiler(db.camiler)))
    case Okul => Some(Serialize(GetOkullar(db.okullar)))
    case SaglikTesisi => Some(Serialize(GetSaglikTesisleri(db.saglikTesisleri)))
    case ToplanmaAlani => Some(Serialize(GetToplanmaAlanlari(db.toplanmaAlanlari)))
    case Park => Some(Serialize(GetParklar(db.parklar)))
    case TatliSuCesmesi => Some(Serialize(GetTatliSuCesmeleri(db.tatliSuCesmeleri)))
    case Eczane => Some(Serialize(GetEczaneler(db.eczaneler)))
    case HavaOlcumIstasyonu => Some(Serialize(GetHavaKaliteIstasyonlari(db.havaKaliteIstasyonlari)))
    case Kamera => Some(Serialize(GetKameralar(db.kameralar)))
    case TarihiTuristikYerler => TouristBody(db.turistikKonumlar)
  }

  /** Feature `i` of a name-only endpoint's serialized collection. */
  lemma NamedServed(rows: seq<NamedRow>, key: string, i: nat)
    requires i < |rows|
    ensures Served(Serialize(GetNamed(rows, key)).features[i], [(key, JStr(rows[i].name))], rows[i].location)
  {
  }

  /** Every feature of a name-only layer extracts. */
  lemma NamedLayerExtracts(rows: seq<NamedRow>, key: string, t: LocationType, idOf: (LocationType, nat) -> real)
    requires NamedEndpoint(key, t)
    ensures AllExtract(_ => Some(Serialize(GetNamed(rows, key))), idOf, t)
  {
    forall i | 0 <= i < |rows|
      ensures ExtractLocation(Serialize(GetNamed(rows, key)).features[i], t, idOf(t, i)).Success?
    {
      NamedServed(rows, key, i);
      NamedReadsBack(Serialize(GetNamed(rows, key)).features[i], rows[i], key, t, idOf(t, i));
    }
  }

  /** Every layer of a database whose tourist rows read extracts completely. */
  lemma LayerExtracts(db: Database, idOf: (LocationType, nat) -> real, t: LocationType)
    requires t != TarihiTuristikYerler || TouristRowsReadable(db.turistikKonumlar)
    ensures AllExtract(t => FetchFrom(db, t), idOf, t)
  {
    var fc := FetchFrom(db, t).value;
    match t
    case Otopark =>
      forall i | 0 <= i < |fc.features| ensures ExtractLocation(fc.features[i], t, idOf(t, i)).Success? {
        OtoparkReadsBack(fc.features[i], db.otoparklar[i], idOf(t, i));
      }
    case Park =>
      forall i | 0 <= i < |fc.features| ensures ExtractLocation(fc.features[i], t, idOf(t, i)).Success? {
        ParkReadsBack(fc.features[i], db.parklar[i], idOf(t, i));
      }
    case Kamera =>
      forall i | 0 <= i < |fc.features| ensures ExtractLocation(fc.features[i], t, idOf(t, i)).Success? {
        KameraReadsBack(fc.features[i], db.kameralar[i], idOf(t, i));
      }
    case PaylasimliBisikletIstasyonu =>
      forall i | 0 <= i < |fc.features| ensures ExtractLocation(fc.features[i], t, idOf(t, i)).Success? {
        KiralikBisikletReadsBack(fc.features[i], db.kiralikBisiklet[i], idOf(t, i));
      }
    case TarihiTuristikYerler =>
      forall i | 0 <= i < |fc.features| ensures ExtractLocation(fc.features[i], t, idOf(t, i)).Success? {
        TouristReadsBack(db.turistikKonumlar[i], idOf(t, i));
      }
    case BisikletParkAlani => NamedLayerExtracts(db.bisikletPark, "NITELIK_AD", t, idOf);
    case Cami => NamedLayerExtracts(db.camiler, "ADI", t, idOf);
    case Okul => NamedLayerExtracts(db.okullar, "ADI", t, idOf);
    case SaglikTesisi => NamedLayerExtracts(db.saglikTesisleri, "ADI", t, idOf);
    case ToplanmaAlani => NamedLayerExtracts(db.toplanmaAlanlari, "ADI", t, idOf);
    case TatliSuCesmesi => NamedLayerExtracts(db.tatliSuCesmeleri, "ACIKLAMA", t, idOf);
    case Eczane => NamedLayerExtracts(db.eczaneler, "ADI", t, idOf);
    case HavaOlcumIstasyonu => NamedLayerExtracts(db.havaKaliteIstasyonlari, "NITELIK_AD", t, idOf);
  }

  /** The dashboard loads everything the API serves exactly when no tourist row has a NULL
      name or kind; it then shows one location per row of every table. */
  lemma DashboardLoadsDatabase(db: Database, idOf: (LocationType, nat) -> real)
    ensures LoadAll(t => FetchFrom(db, t), idOf, LoadOrder).Success? <==> TouristRowsReadable(db.turistikKonumlar)
    ensures TouristRowsReadable(db.turistikKonumlar) ==>
              |LoadAll(t => FetchFrom(db, t), idOf, LoadOrder).value| == FeatureCount(t => FetchFrom(db, t), LoadOrder)
  {
    var fetched: Fetched := t => FetchFrom(db, t);
    if TouristRowsReadable(db.turistikKonumlar) {
      ReadableDatabaseLoads(db, idOf);
    } else {
      var order := LoadOrder;
      assert order[|order| - 1] == TarihiTuristikYerler;
      LoadFailsWhenLastFetchFails(fetched, idOf, order);
    }
  }

  lemma ReadableDatabaseLoads(db: Database, idOf: (LocationType, nat) -> real)
    requires TouristRowsReadable(db.turistikKonumlar)
    ensures LoadAll(t => FetchFrom(db, t), idOf, LoadOrder).Success?
    ensures |LoadAll(t => FetchFrom(db, t), idOf, LoadOrder).value| == FeatureCount(t => FetchFrom(db, t), LoadOrder)
  {
    var fetched: Fetched := t => FetchFrom(db, t);
    forall t | t in LoadOrder
      ensures AllExtract(fetched, idOf, t)
    {
      LayerExtracts(db, idOf, t);
    }
    LoadSucceedsWhenAllExtract(fetched, idOf, LoadOrder);
    LoadCountsFeatures(fetched, idOf, LoadOrder);
  }
}

/** The thirteen location categories of the dashboard, the client-side location record
    and the category filter map. */
module Categories {
  import opened Wrappers

  /** LOCATION_TYPES, in the order the source lists them. */
  datatype LocationType =
    | Park | Cami | SaglikTesisi | Okul | TatliSuCesmesi | Eczane | ToplanmaAlani
    | BisikletParkAlani | PaylasimliBisikletIstasyonu | Otopark | HavaOlcumIstasyonu
    | Kamera | TarihiTuristikYerler

  /** The category's label as the frontend spells it (the key of every per-category table). */
  function TypeName(t: LocationType): string
  {
    match t
    case Park => "Park"
    case Cami => "Cami"
    case SaglikTesisi => "Sağlık Tesisi"
    case Okul => "Okul"
    case TatliSuCesmesi => "Tatlı Su Çeşmesi"
    case Eczane => "Eczane"
    case ToplanmaAlani => "Toplanma Alanı"
    case BisikletParkAlani => "Bisiklet Park Alanı"
    case PaylasimliBisikletIstasyonu => "Paylaşımlı Bisiklet İstasyonu"
    case Otopark => "Otopark"
    case HavaOlcumIstasyonu => "Hava Ölçüm İstasyonu"
    case Kamera => "Kamera"
    case TarihiTuristikYerler => "Tarihi/Turistik Yerler"
  }

  const AllTypes: seq<LocationType> :=
    [Park, Cami, SaglikTesisi, Okul, TatliSuCesmesi, Eczane, ToplanmaAlani,
     BisikletParkAlani, PaylasimliBisikletIstasyonu, Otopark, HavaOlcumIstasyonu,
     Kamera, TarihiTuristikYerler]

  /** Number of times `t` occurs in `ts`. */
  function Occurrences(ts: seq<LocationType>, t: LocationType): nat
  {
    if ts == [] then 0 else (if ts[0] == t then 1 else 0) + Occurrences(ts[1..], t)
  }

  /** No category is listed twice. */
  ghost predicate Distinct(ts: seq<LocationType>)
  {
    forall i, j :: 0 <= i < j < |ts| ==> ts[i] != ts[j]
  }

  lemma {:induction false} OccursOnce(ts: seq<LocationType>, t: LocationType)
    requires Distinct(ts) && t in ts
    ensures Occurrences(ts, t) == 1
  {
    if ts[0] == t {
      OccursNever(ts[1..], t);
    } else {
      OccursOnce(ts[1..], t);
    }
  }

  lemma {:induction false} OccursNever(ts: seq<LocationType>, t: LocationType)
    requires t !in ts
    ensures Occurrences(ts, t) == 0
  {
    if ts != [] {
      OccursNever(ts[1..], t);
    }
  }

  lemma {:induction false} OccursIn(ts: seq<LocationType>, t: LocationType)
    requires Occurrences(ts, t) > 0
    ensures t in ts
  {
    if ts[0] != t {
      OccursIn(ts[1..], t);
    }
  }

  /** LOCATION_TYPES lists every category exactly once. */
  lemma AllTypesListsEachOnce(t: LocationType)
    ensures Occurrences(AllTypes, t) == 1
  {
    assert Distinct(AllTypes);
    assert t in AllTypes by {
      match t
      case Park => assert AllTypes[0] == t;
      case Cami => assert AllTypes[1] == t;
      case SaglikTesisi => assert AllTypes[2] == t;
      case Okul => assert AllTypes[3] == t;
      case TatliSuCesmesi => assert AllTypes[4] == t;
      case Eczane => assert AllTypes[5] == t;
      case ToplanmaAlani => assert AllTypes[6] == t;
      case BisikletParkAlani => assert AllTypes[7] == t;
      case PaylasimliBisikletIstasyonu => assert AllTypes[8] == t;
      case Otopark => assert AllTypes[9] == t;
      case HavaOlcumIstasyonu => assert AllTypes[10] == t;
      case Kamera => assert AllTypes[11] == t;
      case TarihiTuristikYerler => assert AllTypes[12] == t;
    }
    OccursOnce(AllTypes, t);
  }

  /** The client-side `Location` record (types/Location.ts). Ids are the random numbers the
      frontend assigns, so they are a parameter of whoever builds a location. */
  datatype Location = Location(
    id: real,
    kind: LocationType,
    latitude: real,
    longitude: real,
    name: string,
    occupiedSpaces: Option<int>,
    cameraUrl: Option<string>,
    turistikTur: Option<string>,
    aciklama: Option<string>,
    resim: Option<string>)

  /** The `filters` state: category label to enabled flag. */
  type Filters = map<LocationType, bool>

  /** `filters[type]` used as a condition: a missing key reads as `undefined`, which is falsy. */
  predicate Enabled(filters: Filters, t: LocationType)
  {
    t in filters && filters[t]
  }
}

/** TuristikKonumController's insert: validate a tourist location and add one row to
    `turistik_konumlar`. */
module Tourism {
  import opened Wrappers
  import opened Store
  import opened Http

  /** `TuristikKonumInput` as bound from the request body; absent or null texts are `None`. */
  datatype TouristInput = TouristInput(isim: Option<string>, tur: Option<string>, icerik: Option<string>,
                                       resim: Option<string>, latitude: real, longitude: real)

  /** `string.IsNullOrEmpty`. */
  predicate IsNullOrEmpty(s: Option<string>)
  {
    s.None? || s.value == ""
  }

  /** Only the name and the kind are required; description and image are optional. */
  predicate HasRequiredFields(input: TouristInput)
  {
    !IsNullOrEmpty(input.isim) && !IsNullOrEmpty(input.tur)
  }

  /** The model state the framework checks before the action runs. `bodyConverts` says whether
      the JSON body converted to a `TuristikKonumInput` at all (a `null` or non-numeric
      latitude does not). Under a nullable context each of the four non-nullable `string`
      properties is also implicitly required. */
  predicate ModelStateValid(input: TouristInput, bodyConverts: bool, nullableContext: bool)
  {
    && bodyConverts
    && PassesImplicitRequired(nullableContext, input.isim)
    && PassesImplicitRequired(nullableContext, input.tur)
    && PassesImplicitRequired(nullableContext, input.icerik)
    && PassesImplicitRequired(nullableContext, input.resim)
  }

  /** Under a nullable context the implicit checks already demand a name and a kind, so the
      action's own field check never fails; they demand a description and an image as well. */
  lemma NullableContextRequiresAllTexts(input: TouristInput, bodyConverts: bool)
    ensures ModelStateValid(input, bodyConverts, true) ==>
              HasRequiredFields(input) && !IsNullOrEmpty(input.icerik) && !IsNullOrEmpty(input.resim)
    ensures ModelStateValid(input, bodyConverts, false) <==> bodyConverts
  {
    ImplicitRequiredRejectsEmpty(input.isim);
    ImplicitRequiredRejectsEmpty(input.tur);
    ImplicitRequiredRejectsEmpty(input.icerik);
    ImplicitRequiredRejectsEmpty(input.resim);
  }

  const Srid := 4326

  /** The row the INSERT writes: `ST_SetSRID(ST_MakePoint(Longitude, Latitude), 4326)`. */
  function InsertedRow(input: TouristInput, id: int): (r: TouristRow)
    ensures r.isim == input.isim && r.tur == input.tur && r.icerik == input.icerik && r.resim == input.resim
    ensures r.geometry.x == input.longitude && r.geometry.y == input.latitude && r.geometry.srid == Srid
  {
    TouristRow(id, input.isim, input.tur, input.icerik, input.resim, GeoPoint(input.longitude, input.latitude, Srid))
  }

  /** The action's own answer to an invalid model state. Under `[ApiController]` the framework
      answers such a request before the action runs, so this message is never sent. */
  const InvalidFormat := "Geçersiz veri formatı"
  const FieldsRequired := "İsim ve tür alanları zorunludur"
  const Added := "Turistik konum başarıyla eklendi"
  const AddFailed := "Turistik konum eklenirken bir hata oluştu"

  /** The `turistik_konumlar` table and its id sequence. */
  class TouristTable {
    var rows: seq<TouristRow>
    var nextId: int

    /** Every stored id was drawn from the sequence, so none is reused. */
    ghost predicate Valid()
      reads this
    {
      forall i :: 0 <= i < |rows| ==> rows[i].id < nextId
    }

    constructor ()
      ensures Valid() && rows == [] && nextId == 1
    {
      rows := [];
      nextId := 1;
    }

    /** A POST of a tourist location: the framework's model-state check, then the action
        `AddTuristikKonum(input)`. `bodyConverts` and `nullableContext` are as in
        `ModelStateValid`; `storeFails` stands for the INSERT throwing. */
    method AddTuristikKonum(input: TouristInput, bodyConverts: bool, nullableContext: bool, storeFails: bool)
      returns (r: Response<string>)
      requires Valid()
      modifies this
      ensures Valid()
      ensures !ModelStateValid(input, bodyConverts, nullableContext) ==> r == BadRequest(ValidationFailed)
      ensures ModelStateValid(input, bodyConverts, nullableContext) && !HasRequiredFields(input) ==>
                r == BadRequest(FieldsRequired)
      ensures ModelStateValid(input, bodyConverts, nullableContext) && HasRequiredFields(input) && storeFails ==>
                r == ServerError(AddFailed)
      ensures r != BadRequest(InvalidFormat)
      ensures !r.Ok? ==> rows == old(rows) && nextId == old(nextId)
      ensures r.Ok? <==> ModelStateValid(input, bodyConverts, nullableContext) && HasRequiredFields(input) && !storeFails
      ensures r.Ok? ==> r.body == Added && rows == old(rows) + [InsertedRow(input, old(nextId))] &&
                        nextId == old(nextId) + 1
    {
      if !ModelStateValid(input, bodyConverts, nullableContext) {
        return BadRequest(ValidationFailed);
      }
      if IsNullOrEmpty(input.isim) || IsNullOrEmpty(input.tur) {
        return BadRequest(FieldsRequired);
      }
      if storeFails {
        return ServerError(AddFailed);
      }
      rows := rows + [InsertedRow(input, nextId)];
      nextId := nextId + 1;
      r := Ok(Added);
    }
  }
}

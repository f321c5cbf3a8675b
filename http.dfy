/** The action results the controllers return, and the request validation the framework
    applies before an `[ApiController]` action runs. */
module Http {
  import opened Wrappers

  datatype Response<T> =
    | Ok(body: T)
    | BadRequest(message: string)
    | NotFound(message: string)
    | ServerError(message: string)

  function StatusCode<T>(r: Response<T>): int
  {
    match r
    case Ok(_) => 200
    case BadRequest(_) => 400
    case NotFound(_) => 404
    case ServerError(_) => 500
  }

  /** The title of the validation-problem body with which an `[ApiController]` answers 400
      when binding or validating the request body fails; the action itself never runs. */
  const ValidationFailed := "One or more validation errors occurred."

  /** `char.IsWhiteSpace`: the separators of Unicode categories Zs, Zl and Zp, and the
      controls U+0009 to U+000D and U+0085. */
  predicate IsWhiteSpace(c: char)
  {
    ('\U{0009}' <= c <= '\U{000D}') || c == ' ' || c == '\U{0085}' || c == '\U{00A0}' ||
    c == '\U{1680}' || ('\U{2000}' <= c <= '\U{200A}') || c == '\U{2028}' || c == '\U{2029}' ||
    c == '\U{202F}' || c == '\U{205F}' || c == '\U{3000}'
  }

  /** `string.IsNullOrWhiteSpace`. */
  predicate IsNullOrWhiteSpace(s: Option<string>)
  {
    s.None? || forall i :: 0 <= i < |s.value| ==> IsWhiteSpace(s.value[i])
  }

  /** The `[Required]` check that a nullable context implies for a non-nullable `string`
      property: null, empty and white-space-only values fail it. Without a nullable
      context the property carries no such check. */
  predicate PassesImplicitRequired(nullableContext: bool, s: Option<string>)
  {
    !nullableContext || !IsNullOrWhiteSpace(s)
  }

  /** A value that passes the implicit check is not null or empty either. */
  lemma ImplicitRequiredRejectsEmpty(s: Option<string>)
    ensures PassesImplicitRequired(true, s) ==> s.Some? && s.value != ""
    ensures !PassesImplicitRequired(true, Some(""))
    ensures PassesImplicitRequired(false, s)
  {
  }
}

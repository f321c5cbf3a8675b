/** Option and Result values used where the source returns null/undefined or throws. */
module Wrappers {

  datatype Option<+T> = None | Some(value: T)

  datatype Result<+T, +E> = Success(value: T) | Failure(error: E)

  /** All the values of `rs` when every one succeeded, else the first failure (a `map`
      whose callback throws). */
  function Collect<T, E(==)>(rs: seq<Result<T, E>>): (r: Result<seq<T>, E>)
    ensures r.Success? <==> forall i :: 0 <= i < |rs| ==> rs[i].Success?
    ensures r.Success? ==> |r.value| == |rs| && forall i :: 0 <= i < |rs| ==> r.value[i] == rs[i].value
    ensures r.Failure? ==> exists i :: FirstFailure(rs, i) && rs[i].error == r.error
  {
    if rs == [] then Success([])
    else if rs[0].Failure? then
      assert FirstFailure(rs, 0);
      Failure(rs[0].error)
    else
      match Collect(rs[1..])
      case Failure(e) =>
        assert exists i :: FirstFailure(rs, i) && rs[i].error == e by {
          var k :| FirstFailure(rs[1..], k) && rs[1..][k].error == e;
          assert FirstFailure(rs, k + 1);
        }
        Failure(e)
      case Success(vs) => Success([rs[0].value] + vs)
  }

  /** `rs[i]` is the first failure of `rs`. */
  predicate FirstFailure<T, E>(rs: seq<Result<T, E>>, i: int)
  {
    0 <= i < |rs| && rs[i].Failure? && forall j :: 0 <= j < i ==> rs[j].Success?
  }
}

/** Optional values and results with an error, used wherever the Swift code
    returns an optional or throws. */
module Wrappers {

  datatype Option<+T> = None | Some(value: T) {
    function GetOr(default: T): T {
      match this
      case Some(v) => v
      case None => default
    }
  }

  datatype Result<+R, +E> = Success(value: R) | Failure(error: E)

  /** The result of a listing that first produced `acc` and then `r`. */
  function Prepend<T, E>(acc: seq<T>, r: Result<seq<T>, E>): Result<seq<T>, E> {
    match r
    case Success(v) => Success(acc + v)
    case Failure(e) => Failure(e)
  }

  lemma PrependNothing<T, E>(acc: seq<T>, r: Result<seq<T>, E>)
    ensures Prepend([], r) == r
    ensures r == Success([]) ==> Prepend(acc, r) == Success(acc)
  {
    if r.Success? {
      assert [] + r.value == r.value;
    }
    assert acc + [] == acc;
  }

  lemma PrependTwice<T, E>(a: seq<T>, b: seq<T>, r: Result<seq<T>, E>)
    ensures Prepend(a, Prepend(b, r)) == Prepend(a + b, r)
  {
    if r.Success? {
      assert a + (b + r.value) == (a + b) + r.value;
    }
  }
}

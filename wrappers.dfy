/** Option and Result, the two failure-carrying types the Rust code returns
    (`Option<T>` and `Result<T, E>`), usable with `:-` as Rust's `?` is. */
module Wrappers {

  datatype Option<+T> = None | Some(value: T)

  datatype Result<+T, +E> = Ok(value: T) | Err(error: E) {

    predicate IsFailure() {
      Err?
    }

    function PropagateFailure<U>(): Result<U, E>
      requires Err?
    {
      Err(error)
    }

    function Extract(): T
      requires Ok?
    {
      value
    }
  }

  /** `Result::map`, which is what `Ok(Variant(x?))` amounts to: the same
      outcome, an `Ok` value passed through `f`, an error kept as it is. */
  function MapOk<T, U, E>(r: Result<T, E>, f: T -> U): (m: Result<U, E>)
    ensures m.Ok? <==> r.Ok?
    ensures m.Ok? ==> m.value == f(r.value)
    ensures m.Err? ==> m.error == r.error
  {
    match r
    case Ok(v) => Ok(f(v))
    case Err(e) => Err(e)
  }
}

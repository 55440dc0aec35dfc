/** Rust's `Option` and `Result`, with the combinators the error-handling
    programs chain together (`map`, `and_then`, `ok_or`, `map_err`), and
    `slice::first`. */
module Wrappers {

  datatype Option<T> = None | Some(value: T) {

    /** `Option::map`: applies `f` to a present value, keeps absence. */
    function Map<U>(f: T -> U): (r: Option<U>)
      ensures r.Some? <==> this.Some?
      ensures r.Some? ==> r.value == f(this.value)
    {
      match this
      case None => None
      case Some(v) => Some(f(v))
    }

    /** `Option::and_then`: a present value is handed to `f`, which may reject it. */
    function AndThen<U>(f: T -> Option<U>): (r: Option<U>)
      ensures this.None? ==> r.None?
      ensures this.Some? ==> r == f(this.value)
    {
      match this
      case None => None
      case Some(v) => f(v)
    }

    /** `Option::ok_or`: absence becomes the error `err`. */
    function OkOr<E>(err: E): (r: Result<T, E>)
      ensures r.Ok? <==> this.Some?
      ensures r.Ok? ==> r.value == this.value
      ensures r.Err? ==> r.error == err
    {
      match this
      case None => Err(err)
      case Some(v) => Ok(v)
    }
  }

  datatype Result<T, E> = Ok(value: T) | Err(error: E) {

    /** `Result::map`: transforms a success value, passes an error through. */
    function Map<U>(f: T -> U): (r: Result<U, E>)
      ensures r.Ok? <==> this.Ok?
      ensures r.Ok? ==> r.value == f(this.value)
      ensures r.Err? ==> r.error == this.error
    {
      match this
      case Ok(v) => Ok(f(v))
      case Err(e) => Err(e)
    }

    /** `Result::map_err`: transforms an error, passes a success value through. */
    function MapErr<F>(f: E -> F): (r: Result<T, F>)
      ensures r.Ok? <==> this.Ok?
      ensures r.Ok? ==> r.value == this.value
      ensures r.Err? ==> r.error == f(this.error)
    {
      match this
      case Ok(v) => Ok(v)
      case Err(e) => Err(f(e))
    }

    /** `Result::and_then`: the first error wins; `f` runs only on success. */
    function AndThen<U>(f: T -> Result<U, E>): (r: Result<U, E>)
      ensures this.Err? ==> r == Err(this.error)
      ensures this.Ok? ==> r == f(this.value)
    {
      match this
      case Ok(v) => f(v)
      case Err(e) => Err(e)
    }
  }

  /** `slice::first`: the first element, if there is one. */
  function First<T>(s: seq<T>): (r: Option<T>)
    ensures r.Some? <==> |s| > 0
    ensures r.Some? ==> r.value == s[0]
  {
    if |s| == 0 then None else Some(s[0])
  }
}

/** thelimitsofstrings: `double_first` with the custom `DoubleError`, written
    as one combinator chain: a missing first element becomes `EmptyVec`, a
    parse failure is wrapped in `Parse`, and a parsed number is doubled. */
module TheLimitsOfStrings {
  import opened Wrappers
  import opened RustInt
  import opened ParseInt
  import opened Doubling
  import DE = DoubleErrors

  function DoubleFirst(vec: seq<string>): (r: Result<int, DE.DoubleError>)
    requires FirstDoubledFits(vec)
    ensures vec == [] ==> r == Err(DE.EmptyVec)
    ensures vec != [] && ParseI32(vec[0]).Err? ==> r == Err(DE.Parse(ParseI32(vec[0]).error))
    ensures vec != [] && ParseI32(vec[0]).Ok? ==> r == Ok(2 * ParseI32(vec[0]).value)
    ensures r.Ok? ==> IsI32(r.value)
  {
    First(vec)
      .OkOr(DE.EmptyVec)
      .AndThen((s: string) =>
        ParseI32(s)
          .MapErr((e: ParseIntError) => DE.Parse(e))
          .Map((i: int) => 2 * i))
  }

  /** Only the first element is looked at: two vectors with the same first
      string give the same result, whatever follows it. */
  lemma OnlyFirstInspected(v: seq<string>, w: seq<string>)
    requires v != [] && w != [] && v[0] == w[0]
    requires FirstDoubledFits(v)
    ensures FirstDoubledFits(w) && DoubleFirst(v) == DoubleFirst(w)
  {
  }

  /** The three vectors of `main`: `["tofu", "93", "18"]` fails although its
      later elements are numbers. */
  lemma MainExamples()
    ensures DoubleFirst(["93", "18"]) == Ok(186)
    ensures DoubleFirst([]) == Err(DE.EmptyVec)
    ensures DoubleFirst(["tofu", "93", "18"]) == Err(DE.Parse(ParseIntError(InvalidDigit)))
  {
  }
}

/** reentertrybang: the same function with `try!`, which unwraps a success or
    returns `Err(From::from(err))` at once. */
module ReenterTryBang {
  import opened Wrappers
  import opened RustInt
  import opened ParseInt
  import opened Doubling
  import DE = DoubleErrors

  function DoubleFirst(vec: seq<string>): (r: Result<int, DE.DoubleError>)
    requires FirstDoubledFits(vec)
    ensures vec == [] ==> r == Err(DE.EmptyVec)
    ensures vec != [] && ParseI32(vec[0]).Err? ==> r == Err(DE.From(ParseI32(vec[0]).error))
    ensures vec != [] && ParseI32(vec[0]).Ok? ==> r == Ok(2 * ParseI32(vec[0]).value)
    ensures r.Ok? ==> IsI32(r.value)
  {
    // The first `try!`: an empty vector returns `EmptyVec` at once; it is
    // already a `DoubleError`, which `From` leaves as it is.
    match First(vec).OkOr(DE.EmptyVec)
    case Err(err) => Err(err)
    case Ok(first) =>
      // The second `try!`: a parse failure returns, converted by `From`.
      match ParseI32(first)
      case Err(err) => Err(DE.From(err))
      case Ok(parsed) => Ok(2 * parsed)
  }

  lemma MainExamples()
    ensures DoubleFirst(["93", "18"]) == Ok(186)
    ensures DoubleFirst([]) == Err(DE.EmptyVec)
    ensures DoubleFirst(["tofu", "93", "18"]) == Err(DE.Parse(ParseIntError(InvalidDigit)))
  {
  }
}

/** re-enablingbox: `DoubleError` implements `Error`, and `double_first`
    returns `Result<i32, Box<Error>>`. Each `try!` boxes the error it meets
    through `From<E: Error> for Box<Error>`, so the empty-vector error is a
    boxed `DoubleError` while a parse failure is the boxed `ParseIntError`
    itself, not `DoubleError::Parse`. */
module ReEnablingBox {
  import opened Wrappers
  import opened RustInt
  import opened ParseInt
  import opened Doubling
  import DE = DoubleErrors

  /** A `Box<Error>`, by the concrete type behind it. */
  datatype BoxedError = BoxedDouble(double: DE.DoubleError) | BoxedParse(parse: ParseIntError)

  /** `Display` through the box dispatches to the boxed type; a boxed bare
      parse error displays as the enum wrapping it would. */
  function BoxDisplay(b: BoxedError): (r: string)
    ensures b.BoxedDouble? ==> r == DE.Display(b.double)
    ensures b.BoxedParse? ==> r == DE.Display(DE.From(b.parse))
  {
    match b
    case BoxedDouble(e) => DE.Display(e)
    case BoxedParse(e) => ParseInt.Display(e)
  }

  /** `description` through the box dispatches to the boxed type; a boxed bare
      parse error describes itself as the enum wrapping it would. */
  function BoxDescription(b: BoxedError): (r: string)
    ensures b.BoxedDouble? ==> r == DE.Description(b.double)
    ensures b.BoxedParse? ==> r == DE.Description(DE.From(b.parse))
  {
    match b
    case BoxedDouble(e) => DE.Description(e)
    case BoxedParse(e) => ParseInt.Description(e)
  }

  /** `cause` through the box: `ParseIntError` keeps the trait's default, no
      cause. A cause, when there is one, is the parse error `From` wrapped in
      a boxed `DoubleError`. */
  function BoxCause(b: BoxedError): (r: Option<ParseIntError>)
    ensures b.BoxedParse? ==> r.None?
    ensures b.BoxedDouble? ==> r == DE.Cause(b.double)
    ensures r.Some? ==> b == BoxedDouble(DE.From(r.value))
  {
    match b
    case BoxedDouble(e) => DE.Cause(e)
    case BoxedParse(_) => None
  }

  function DoubleFirst(vec: seq<string>): (r: Result<int, BoxedError>)
    requires FirstDoubledFits(vec)
    ensures vec == [] ==> r == Err(BoxedDouble(DE.EmptyVec))
    ensures vec == [] ==> BoxDisplay(r.error) == DE.EmptyVecMessage
    ensures vec != [] && ParseI32(vec[0]).Err? ==> r == Err(BoxedParse(ParseI32(vec[0]).error))
    ensures vec != [] && ParseI32(vec[0]).Ok? ==> r == Ok(2 * ParseI32(vec[0]).value)
    ensures r.Ok? ==> IsI32(r.value)
  {
    // The first `try!`: an empty vector returns the boxed `EmptyVec` at once.
    match First(vec).OkOr(DE.EmptyVec)
    case Err(err) => Err(BoxedDouble(err))
    case Ok(first) =>
      // The second `try!`: a parse failure returns, boxed as it is.
      match ParseI32(first)
      case Err(err) => Err(BoxedParse(err))
      case Ok(parsed) => Ok(2 * parsed)
  }

  /** What a caller can learn from the returned error: the empty-vector error
      has the `EmptyVec` description and no cause; a parse failure describes
      itself as the parse error does and, being a bare `ParseIntError`, has no
      cause either. */
  lemma ErrorReport(vec: seq<string>)
    requires FirstDoubledFits(vec) && DoubleFirst(vec).Err?
    ensures vec == [] ==> BoxDescription(DoubleFirst(vec).error) == "empty vectors not allowed"
    ensures vec != [] ==> BoxDescription(DoubleFirst(vec).error) == ParseInt.Description(ParseI32(vec[0]).error)
    ensures vec != [] ==> BoxDisplay(DoubleFirst(vec).error) == ParseInt.Display(ParseI32(vec[0]).error)
    ensures BoxCause(DoubleFirst(vec).error).None?
  {
  }

  lemma MainExamples()
    ensures DoubleFirst(["93", "18"]) == Ok(186)
    ensures BoxDisplay(DoubleFirst([]).error) == "please use a vector with at least one element"
    ensures BoxDisplay(DoubleFirst(["tofu", "93", "18"]).error) == "invalid digit found in string"
  {
  }
}

/** optionswithresults/errorsasstrings: `double_first` with `String` errors:
    a missing first element becomes a fixed message, and a parse failure is
    turned into its displayed text. */
module ErrorsAsStrings {
  import opened Wrappers
  import opened RustInt
  import opened ParseInt
  import opened Doubling

  /** Capitalised and ending in a full stop, unlike the `DoubleError` message. */
  const EmptyVecMessage: string := "Please use a vector with at least one element."

  function DoubleFirst(vec: seq<string>): (r: Result<int, string>)
    requires FirstDoubledFits(vec)
    ensures vec == [] ==> r == Err(EmptyVecMessage)
    ensures vec != [] && ParseI32(vec[0]).Err? ==> r == Err(ParseInt.Display(ParseI32(vec[0]).error))
    ensures vec != [] && ParseI32(vec[0]).Ok? ==> r == Ok(2 * ParseI32(vec[0]).value)
    ensures r.Ok? ==> IsI32(r.value)
  {
    First(vec)
      .OkOr(EmptyVecMessage)
      .AndThen((s: string) =>
        ParseI32(s)
          .MapErr((e: ParseIntError) => ParseInt.Display(e))
          .Map((i: int) => 2 * i))
  }

  lemma MainExamples()
    ensures DoubleFirst(["93", "18"]) == Ok(186)
    ensures DoubleFirst([]) == Err("Please use a vector with at least one element.")
    ensures DoubleFirst(["tofu", "93", "18"]) == Err("invalid digit found in string")
  {
  }
}

/** optionswithresults: the first attempt, with two `unwrap`s. An empty vector
    or an unparseable first string panics, so both are preconditions. */
module OptionsWithResults {
  import opened Wrappers
  import opened RustInt
  import opened ParseInt

  function DoubleFirst(vec: seq<string>): (r: int)
    requires vec != []                         // the first `unwrap` panics on an empty vector
    requires ParseI32(vec[0]).Ok?              // the second panics on a non-number
    requires IsI32(2 * ParseI32(vec[0]).value) // doubling panics on overflow
    ensures r == 2 * ParseI32(vec[0]).value
    ensures IsI32(r)
  {
    var first := First(vec).value;
    2 * ParseI32(first).value
  }

  /** Elements after the first do not change the result. */
  lemma LaterElementsIgnored(vec: seq<string>, rest: seq<string>)
    requires vec != [] && ParseI32(vec[0]).Ok? && IsI32(2 * ParseI32(vec[0]).value)
    ensures DoubleFirst([vec[0]] + rest) == DoubleFirst(vec)
  {
  }

  /** `["93", "18"]` gives 186. The empty vector is outside the precondition:
      the first `unwrap` finds no element and panics, so `main` stops there and
      never reaches the `["tofu", ...]` call, which would also panic, as "tofu"
      does not parse. */
  lemma MainExamples()
    ensures DoubleFirst(["93", "18"]) == 186
    ensures First<string>([]).None?
    ensures !ParseI32("tofu").Ok?
  {
  }
}

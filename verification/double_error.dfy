/** The guard shared by every "double the number" program: `2 * n` on an `i32`
    panics on overflow (in a debug build), so each program requires that the
    doubled value fits. */
module Doubling {
  import opened RustInt
  import opened ParseInt

  /** Doubling whatever `s` parses to does not overflow `i32`. */
  predicate DoubledFits(s: string)
  {
    ParseI32(s).Ok? ==> IsI32(2 * ParseI32(s).value)
  }

  /** Doubling whatever the first string parses to does not overflow. */
  predicate FirstDoubledFits(vec: seq<string>)
  {
    vec == [] || DoubledFits(vec[0])
  }
}

/** The `DoubleError` enum of the thelimitsofstrings, reentertrybang and
    re-enablingbox programs (the three declare the same enum with the same
    `Display`), its `From<ParseIntError>` conversion and its `Error` impl. */
module DoubleErrors {
  import opened Wrappers
  import ParseInt

  datatype DoubleError = EmptyVec | Parse(err: ParseInt.ParseIntError)

  const EmptyVecMessage: string := "please use a vector with at least one element"

  /** `impl Display for DoubleError`: a fixed message for `EmptyVec`; a parse
      error defers to the wrapped error's own `Display`. */
  function Display(e: DoubleError): (r: string)
    ensures e.EmptyVec? ==> r == EmptyVecMessage
    ensures e.Parse? ==> r == ParseInt.Display(e.err)
  {
    match e
    case EmptyVec => EmptyVecMessage
    case Parse(err) => ParseInt.Display(err)
  }

  /** `impl From<ParseIntError> for DoubleError`, which `try!` calls. */
  function From(err: ParseInt.ParseIntError): (r: DoubleError)
    ensures r.Parse? && r.err == err
  {
    Parse(err)
  }

  /** `Error::description`: a short text, for `EmptyVec` not the same as the
      `Display` message. */
  function Description(e: DoubleError): (r: string)
    ensures e.EmptyVec? ==> r == "empty vectors not allowed"
    ensures e.Parse? ==> r == ParseInt.Description(e.err)
  {
    match e
    case EmptyVec => "empty vectors not allowed"
    case Parse(err) => ParseInt.Description(err)
  }

  /** `Error::cause`: the wrapped parse error, if any. */
  function Cause(e: DoubleError): (r: Option<ParseInt.ParseIntError>)
    ensures r.None? <==> e.EmptyVec?
    ensures r.Some? ==> r.value == e.err
  {
    match e
    case EmptyVec => None
    case Parse(err) => Some(err)
  }

  /** `cause` undoes `From`: the converted error is recovered unchanged. */
  lemma CauseInvertsFrom(err: ParseInt.ParseIntError)
    ensures Cause(From(err)) == Some(err)
  {
  }

  /** The `Display` message tells the two variants apart. */
  lemma DisplayDistinguishesVariants(err: ParseInt.ParseIntError)
    ensures Display(EmptyVec) != Display(Parse(err))
  {
  }

  /** `description` and `Display` agree on parse errors but not on `EmptyVec`. */
  lemma DescriptionVersusDisplay(err: ParseInt.ParseIntError)
    ensures Description(Parse(err)) == Display(Parse(err))
    ensures Description(EmptyVec) != Display(EmptyVec)
  {
  }
}

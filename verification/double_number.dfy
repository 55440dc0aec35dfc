/** mapforresult: `double_number` with the parse error passed to the caller,
    once with an explicit `match` and once with `Result::map`. */
module MapForResult {
  import opened Wrappers
  import opened RustInt
  import opened ParseInt
  import opened Doubling

  function DoubleNumber(numberStr: string): (r: Result<int, ParseIntError>)
    requires DoubledFits(numberStr)
    ensures ParseI32(numberStr).Ok? ==> r == Ok(2 * ParseI32(numberStr).value)
    ensures ParseI32(numberStr).Err? ==> r == Err(ParseI32(numberStr).error)
    ensures r.Ok? ==> IsI32(r.value)
  {
    match ParseI32(numberStr)
    case Ok(n) => Ok(2 * n)
    case Err(e) => Err(e)
  }

  function DoubleNumberMap(numberStr: string): (r: Result<int, ParseIntError>)
    requires DoubledFits(numberStr)
    ensures r.Ok? <==> ParseI32(numberStr).Ok?
    ensures r.Ok? ==> r.value == 2 * ParseI32(numberStr).value
    ensures r.Err? ==> r.error == ParseI32(numberStr).error
  {
    ParseI32(numberStr).Map((n: int) => 2 * n)
  }

  /** The `map` version is "the exact same" as the `match` version. */
  lemma MapEqualsMatch(numberStr: string)
    requires DoubledFits(numberStr)
    ensures DoubleNumberMap(numberStr) == DoubleNumber(numberStr)
  {
  }

  lemma MainExamples()
    ensures DoubleNumber("10") == Ok(20)
    ensures DoubleNumberMap("t").Err?
  {
  }
}

/** resultasanalias: `double_number` returning the alias
    `Result<T> = Result<T, ParseIntError>`, written with `map`. */
module ResultAsAlias {
  import opened Wrappers
  import opened RustInt
  import opened ParseInt
  import opened Doubling

  /** The program's own `Result` alias, whose error type is fixed to
      `ParseIntError`. */
  type ParseResult<T> = Result<T, ParseIntError>

  function DoubleNumber(numberStr: string): (r: ParseResult<int>)
    requires DoubledFits(numberStr)
    ensures ParseI32(numberStr).Ok? ==> r == Ok(2 * ParseI32(numberStr).value)
    ensures ParseI32(numberStr).Err? ==> r == Err(ParseI32(numberStr).error)
  {
    ParseI32(numberStr).Map((n: int) => 2 * n)
  }

  lemma MainExamples()
    ensures DoubleNumber("10") == Ok(20)
    ensures DoubleNumber("t") == Err(ParseIntError(InvalidDigit))
  {
  }
}

/** errorsvsabsence: `double_number` with `unwrap`, which panics when the
    string does not parse; the parse succeeding is a precondition. */
module ErrorsVsAbsence {
  import opened Wrappers
  import opened RustInt
  import opened ParseInt

  function DoubleNumber(numberStr: string): (r: int)
    requires ParseI32(numberStr).Ok?                    // unwrap panics on Err
    requires IsI32(2 * ParseI32(numberStr).value)        // doubling panics on overflow
    ensures r == 2 * ParseI32(numberStr).value
    ensures IsI32(r)
  {
    2 * ParseI32(numberStr).value
  }

  /** `double_number("10")` is 20; `"t"` does not parse, so that call panics. */
  lemma MainExamples()
    ensures DoubleNumber("10") == 20
    ensures !ParseI32("t").Ok?
  {
  }
}

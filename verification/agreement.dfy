/** How the versions of "double the first number" relate: the combinator,
    `try!`, boxed, `String`-error and `unwrap` versions of `double_first`, and
    the `double_number` versions they build on. */
module Agreement {
  import opened Wrappers
  import opened ParseInt
  import opened Doubling
  import DE = DoubleErrors
  import TheLimitsOfStrings
  import ReenterTryBang
  import ReEnablingBox
  import ErrorsAsStrings
  import OptionsWithResults
  import MapForResult
  import ResultAsAlias
  import ErrorsVsAbsence

  /** `try!` with `From` behaves exactly like the `ok_or`/`and_then`/`map_err`
      chain, on every input vector. */
  lemma TryBangEqualsCombinators(vec: seq<string>)
    requires FirstDoubledFits(vec)
    ensures ReenterTryBang.DoubleFirst(vec) == TheLimitsOfStrings.DoubleFirst(vec)
  {
  }

  /** Boxing changes neither the outcome nor what the error displays as, but a
      boxed parse failure has lost the cause that `DoubleError::Parse` reports. */
  lemma BoxedAgreesWithEnum(vec: seq<string>)
    requires FirstDoubledFits(vec)
    ensures ReEnablingBox.DoubleFirst(vec).Ok? <==> TheLimitsOfStrings.DoubleFirst(vec).Ok?
    ensures ReEnablingBox.DoubleFirst(vec).Ok? ==>
      ReEnablingBox.DoubleFirst(vec).value == TheLimitsOfStrings.DoubleFirst(vec).value
    ensures ReEnablingBox.DoubleFirst(vec).Err? ==>
      ReEnablingBox.BoxDisplay(ReEnablingBox.DoubleFirst(vec).error)
        == DE.Display(TheLimitsOfStrings.DoubleFirst(vec).error)
    ensures vec != [] && ReEnablingBox.DoubleFirst(vec).Err? ==>
      DE.Cause(TheLimitsOfStrings.DoubleFirst(vec).error) == Some(ParseI32(vec[0]).error)
      && ReEnablingBox.BoxCause(ReEnablingBox.DoubleFirst(vec).error).None?
  {
  }

  /** On a non-empty vector the `String` version is the enum version with its
      error rendered by `Display`; on the empty vector the two messages differ. */
  lemma StringsAreDisplayedEnum(vec: seq<string>)
    requires FirstDoubledFits(vec)
    ensures vec != [] ==>
      ErrorsAsStrings.DoubleFirst(vec) == TheLimitsOfStrings.DoubleFirst(vec).MapErr(DE.Display)
    ensures vec == [] ==>
      ErrorsAsStrings.DoubleFirst(vec).error != DE.Display(TheLimitsOfStrings.DoubleFirst(vec).error)
  {
  }

  /** The `unwrap` version panics exactly on the inputs where the `Result`
      versions return an error, and otherwise returns their success value. */
  lemma UnwrapPanicsExactlyOnErr(vec: seq<string>)
    requires FirstDoubledFits(vec)
    ensures (vec != [] && ParseI32(vec[0]).Ok?) <==> TheLimitsOfStrings.DoubleFirst(vec).Ok?
    ensures TheLimitsOfStrings.DoubleFirst(vec).Ok? ==>
      TheLimitsOfStrings.DoubleFirst(vec).value == OptionsWithResults.DoubleFirst(vec)
  {
  }

  /** `double_first` is `double_number` applied to the first string, with the
      parse error converted by `From`. */
  lemma DoubleFirstIsDoubleNumberOfFirst(vec: seq<string>)
    requires vec != [] && FirstDoubledFits(vec)
    ensures TheLimitsOfStrings.DoubleFirst(vec) == MapForResult.DoubleNumber(vec[0]).MapErr(DE.From)
  {
  }

  /** The three `double_number` programs compute the same value. */
  lemma DoubleNumberVersionsAgree(numberStr: string)
    requires DoubledFits(numberStr)
    ensures ResultAsAlias.DoubleNumber(numberStr) == MapForResult.DoubleNumber(numberStr)
    ensures MapForResult.DoubleNumber(numberStr).Ok? ==>
      MapForResult.DoubleNumber(numberStr).value == ErrorsVsAbsence.DoubleNumber(numberStr)
  {
  }
}

/** `str::parse::<i32>` and its error type `ParseIntError`, from Rust's
    standard library. The programs only call it; the model follows the
    library's documented behaviour: an optional `+` or `-`, then one or more
    ASCII digits, read left to right, the first problem met deciding the
    error. */
module ParseInt {
  import opened Wrappers
  import opened RustInt

  datatype IntErrorKind = Empty | InvalidDigit | PosOverflow | NegOverflow

  /** Callers see only the kind, through `description` and `Display`. */
  datatype ParseIntError = ParseIntError(kind: IntErrorKind)

  /** `Error::description` of a `ParseIntError`. */
  function Description(e: ParseIntError): (r: string)
    ensures r == "cannot parse integer from empty string" <==> e.kind == Empty
    ensures r == "invalid digit found in string" <==> e.kind == InvalidDigit
    ensures r == "number too large to fit in target type" <==> e.kind == PosOverflow
    ensures r == "number too small to fit in target type" <==> e.kind == NegOverflow
  {
    match e.kind
    case Empty => "cannot parse integer from empty string"
    case InvalidDigit => "invalid digit found in string"
    case PosOverflow => "number too large to fit in target type"
    case NegOverflow => "number too small to fit in target type"
  }

  /** `Display` of a `ParseIntError` (also what `to_string` gives) writes its
      description. */
  function Display(e: ParseIntError): (r: string)
    ensures r == Description(e)
  {
    Description(e)
  }

  /** The message alone tells which parse error occurred. */
  lemma DisplayIdentifiesError(e1: ParseIntError, e2: ParseIntError)
    ensures Display(e1) == Display(e2) <==> e1 == e2
  {
  }

  predicate IsDigit(c: char) { '0' <= c <= '9' }

  function DigitValue(c: char): (d: nat)
    requires IsDigit(c)
    ensures d < 10
  {
    (c - '0') as nat
  }

  predicate AllDigits(s: string) { forall i :: 0 <= i < |s| ==> IsDigit(s[i]) }

  /** The number a string of decimal digits denotes, most significant first. */
  function DecimalValue(s: string): nat
    requires AllDigits(s)
  {
    if s == [] then 0 else 10 * DecimalValue(s[..|s| - 1]) + DigitValue(s[|s| - 1])
  }

  predicate IsSign(c: char) { c == '+' || c == '-' }

  /** A well-formed integer literal: an optional sign, then at least one digit. */
  predicate Numeral(s: string)
  {
    |s| > 0 && if IsSign(s[0]) then |s| > 1 && AllDigits(s[1..]) else AllDigits(s)
  }

  /** The value a numeral denotes, ignoring the width of `i32`. */
  function NumeralValue(s: string): int
    requires Numeral(s)
  {
    if s[0] == '-' then -(DecimalValue(s[1..]) as int)
    else if s[0] == '+' then DecimalValue(s[1..])
    else DecimalValue(s)
  }

  /** The largest magnitude `i32` holds for the given sign. */
  function Bound(negative: bool): nat
  {
    if negative then -I32_MIN else I32_MAX
  }

  /** The digit loop of the parser: `acc` holds the magnitude read from
      `digits[..i]`; a non-digit stops with `InvalidDigit`, a magnitude past the
      bound for the sign with the overflow of that sign. */
  function Accumulate(digits: string, i: nat, acc: nat, negative: bool): (r: Result<int, ParseIntError>)
    requires i <= |digits| && acc <= Bound(negative)
    ensures r.Ok? ==> IsI32(r.value)
    ensures r.Err? ==> r.error.kind != Empty
    decreases |digits| - i
  {
    if i == |digits| then
      Ok(if negative then -(acc as int) else acc)
    else if !IsDigit(digits[i]) then
      Err(ParseIntError(InvalidDigit))
    else
      var next := 10 * acc + DigitValue(digits[i]);
      if next > Bound(negative) then
        Err(ParseIntError(if negative then NegOverflow else PosOverflow))
      else
        Accumulate(digits, i + 1, next, negative)
  }

  /** `s.parse::<i32>()`. */
  function ParseI32(s: string): (r: Result<int, ParseIntError>)
    ensures r.Ok? ==> IsI32(r.value)
    ensures r == Err(ParseIntError(Empty)) <==> s == []
  {
    if s == [] then Err(ParseIntError(Empty))
    else if IsSign(s[0]) && |s| == 1 then Err(ParseIntError(InvalidDigit))
    else if s[0] == '-' then Accumulate(s[1..], 0, 0, true)
    else if s[0] == '+' then Accumulate(s[1..], 0, 0, false)
    else Accumulate(s, 0, 0, false)
  }

  /** Appending digits never lowers the value. */
  lemma {:induction false} DecimalValuePrefix(s: string, j: nat)
    requires AllDigits(s) && j <= |s|
    ensures AllDigits(s[..j]) && DecimalValue(s[..j]) <= DecimalValue(s)
    decreases |s| - j
  {
    if j < |s| {
      DecimalValuePrefix(s, j + 1);
      assert s[..j + 1][..j] == s[..j];
    } else {
      assert s[..j] == s;
    }
  }

  /** The digit loop succeeds exactly when the rest is all digits and the whole
      magnitude fits, and then yields that magnitude with its sign. */
  lemma {:induction false} AccumulateCorrect(digits: string, i: nat, acc: nat, negative: bool)
    requires i <= |digits| && acc <= Bound(negative)
    requires AllDigits(digits[..i]) && acc == DecimalValue(digits[..i])
    ensures Accumulate(digits, i, acc, negative).Ok?
        <==> AllDigits(digits) && DecimalValue(digits) <= Bound(negative)
    ensures Accumulate(digits, i, acc, negative).Ok? ==>
        Accumulate(digits, i, acc, negative).value
          == (if negative then -(DecimalValue(digits) as int) else DecimalValue(digits))
    decreases |digits| - i
  {
    if i == |digits| {
      assert digits[..i] == digits;
    } else if !IsDigit(digits[i]) {
    } else {
      var next := 10 * acc + DigitValue(digits[i]);
      assert digits[..i + 1][..i] == digits[..i];
      assert AllDigits(digits[..i + 1]);
      assert next == DecimalValue(digits[..i + 1]);
      if next > Bound(negative) {
        if AllDigits(digits) {
          DecimalValuePrefix(digits, i + 1);
        }
      } else {
        AccumulateCorrect(digits, i + 1, next, negative);
      }
    }
  }

  /** `parse::<i32>` accepts exactly the numerals whose value fits in `i32`,
      and returns that value. */
  lemma ParseI32Correct(s: string)
    ensures ParseI32(s).Ok? <==> Numeral(s) && IsI32(NumeralValue(s))
    ensures ParseI32(s).Ok? ==> ParseI32(s).value == NumeralValue(s)
  {
    if s != [] && !(IsSign(s[0]) && |s| == 1) {
      var digits := if IsSign(s[0]) then s[1..] else s;
      assert digits[..0] == [];
      AccumulateCorrect(digits, 0, 0, s[0] == '-');
    }
  }
}

/** match: `try_number` classifies an `i32` by ordered arms (a literal, an
    alternation, an inclusive range, a wildcard), and a `match` on a `bool`
    yields 0 or 1. */
module MatchNumber {
  import opened RustInt

  datatype NumberKind = One | Prime | Teen | NotSpecial

  predicate IsPrime(n: int)
  {
    n >= 2 && forall d :: 2 <= d < n ==> n % d != 0
  }

  function TryNumber(number: int): (r: NumberKind)
    requires IsI32(number)
    ensures r == One <==> number == 1
    ensures r == Prime <==> number in {2, 3, 5, 7, 11}
    ensures r == Teen <==> 13 <= number <= 19
    ensures r == NotSpecial <==> number !in {1, 2, 3, 5, 7, 11} && !(13 <= number <= 19)
  {
    if number == 1 then One
    else if number == 2 || number == 3 || number == 5 || number == 7 || number == 11 then Prime
    else if 13 <= number <= 19 then Teen
    else NotSpecial
  }

  /** The prime arm only ever reports primes... */
  lemma PrimeArmIsSound(number: int)
    requires IsI32(number) && TryNumber(number) == Prime
    ensures IsPrime(number)
  {
  }

  /** ...but not every prime: the teen range is its own arm, so 13 is a teen. */
  lemma ThirteenIsTeenNotPrime()
    ensures IsPrime(13) && TryNumber(13) == Teen
  {
  }

  /** The `match` on a boolean: `false` gives 0, `true` gives 1. */
  function Binary(boolean: bool): (r: int)
    ensures r == 0 || r == 1
    ensures r == 1 <==> boolean
  {
    match boolean
    case false => 0
    case true => 1
  }

  lemma MainExamples()
    ensures TryNumber(13) == Teen && TryNumber(1) == One
    ensures TryNumber(5) == Prime && TryNumber(42) == NotSpecial
    ensures Binary(true) == 1
  {
  }
}

/** match/binding: `age` is the identity, and `try_match` sorts an age into a
    bracket, binding the matched value with `n @ lo ... hi`. */
module MatchBinding {
  import opened RustInt

  datatype Bracket = NotBorn | Child(n: int) | Teen(n: int) | Old(n: int)

  function Age(r: int): (a: int)
    requires IsU32(r)
    ensures a == r
  {
    r
  }

  function TryMatch(d: int): (r: Bracket)
    requires IsU32(d)
    ensures r == NotBorn <==> d == 0
    ensures r.Child? <==> 1 <= d <= 12
    ensures r.Teen? <==> 13 <= d <= 19
    ensures r.Old? <==> d >= 20
    ensures !r.NotBorn? ==> r.n == d
  {
    var age := Age(d);
    if age == 0 then NotBorn
    else if 1 <= age <= 12 then Child(age)
    else if 13 <= age <= 19 then Teen(age)
    else Old(age)
  }

  /** The position of a bracket in the order of the arms. */
  function Rank(b: Bracket): nat
  {
    match b
    case NotBorn => 0
    case Child(_) => 1
    case Teen(_) => 2
    case Old(_) => 3
  }

  /** The arms follow age: an older person is never in an earlier bracket. */
  lemma BracketsFollowAge(d1: int, d2: int)
    requires IsU32(d1) && IsU32(d2) && d1 <= d2
    ensures Rank(TryMatch(d1)) <= Rank(TryMatch(d2))
  {
  }

  lemma MainExamples()
    ensures TryMatch(15) == Teen(15) && TryMatch(0) == NotBorn
    ensures TryMatch(7) == Child(7) && TryMatch(101) == Old(101)
  {
  }
}

/** match/guards: ordered arms with `if` guards over a pair of `i32`. */
module MatchGuards {
  import opened RustInt

  datatype PairKind = Twins | Antimatter | OddFirst | NoCorrelation

  /** The second guard computes `x + y`, which panics on `i32` overflow; it is
      evaluated only when the first guard fails. */
  function TryPair(x: int, y: int): (r: PairKind)
    requires IsI32(x) && IsI32(y)
    requires x == y || IsI32(x + y)
    ensures r == Twins <==> x == y
    ensures r == Antimatter <==> x != y && x + y == 0
    ensures r == OddFirst <==> x != y && x + y != 0 && x > 0 && x % 2 == 1
    ensures r == NoCorrelation <==> x != y && x + y != 0 && !(x > 0 && x % 2 == 1)
  {
    if x == y then Twins
    else if x + y == 0 then Antimatter
    else if Rem(x, 2) == 1 then OddFirst
    else NoCorrelation
  }

  /** Twins win over antimatter: `(0, 0)` satisfies both guards. */
  lemma ZeroPairIsTwins()
    ensures TryPair(0, 0) == Twins
  {
  }

  /** Rust's `%` truncates, so a negative odd first element gives -1 and is not
      reported as odd. */
  lemma NegativeOddIsNotOdd(x: int, y: int)
    requires IsI32(x) && IsI32(y) && IsI32(x + y)
    requires x < 0 && x % 2 == 1 && x != y && x + y != 0
    ensures Rem(x, 2) == -1
    ensures TryPair(x, y) == NoCorrelation
  {
  }

  lemma MainExamples()
    ensures TryPair(2, -2) == Antimatter && TryPair(9, 9) == Twins
    ensures TryPair(9, 42) == OddFirst && TryPair(22, 26) == NoCorrelation
    ensures TryPair(-3, 4) == NoCorrelation
  {
  }
}

/** match/destructuring/tuples: ordered tuple patterns with a literal `0` in
    either position. */
module MatchTuples {
  import opened RustInt

  datatype Destructured = FirstZero(y: int) | LastZero(x: int) | Whatever

  function TryPair(x: int, y: int): (r: Destructured)
    requires IsI32(x) && IsI32(y)
    ensures r.FirstZero? <==> x == 0
    ensures r.FirstZero? ==> r.y == y
    ensures r.LastZero? <==> x != 0 && y == 0
    ensures r.LastZero? ==> r.x == x
    ensures r == Whatever <==> x != 0 && y != 0
  {
    match (x, y)
    case (0, y) => FirstZero(y)
    case (x, 0) => LastZero(x)
    case _ => Whatever
  }

  /** `(0, 0)` matches both patterns; the first arm takes it. */
  lemma ZeroPairIsFirstZero()
    ensures TryPair(0, 0) == FirstZero(0)
  {
  }

  lemma MainExamples()
    ensures TryPair(0, -2) == FirstZero(-2)
    ensures TryPair(-2, 0) == LastZero(-2)
    ensures TryPair(-10, 42) == Whatever
  {
  }
}

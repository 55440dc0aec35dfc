# Rust by Example: error handling, `match` and trait bounds, modelled in Dafny

This project models the small programs of a "Rust by Example" collection that
carry real logic:

- the "double the first number" programs, which differ only in how they report
  failure (`unwrap` panics, `Result<i32, ParseIntError>`, `String` errors, the
  `DoubleError` enum with `From` and `try!`, and `Box<Error>` with
  `description` and `cause`);
- the `Option` pipelines over food enums (`have_ingredients`, `can_cook`,
  `cookable_v1`/`cookable_v2`, `peel`, `chop`, `cook`, `process`);
- the gift handlers `give_commoner` and `give_princess`;
- the ordered `match` classifiers (`try_number`, the age brackets, guarded and
  destructured pairs) and FizzBuzz;
- the generic `Vec2` with `add`, `sub` and `dot`.

Each program is one Dafny module named after its directory. Printed lines
become values of a small category datatype. A panic (`unwrap` on `None`/`Err`,
an arithmetic overflow in a debug build) becomes a precondition, except for
`give_princess`, where the panic is one of the outcomes the function is about.

Shared modules:

- `Wrappers`: Rust's `Option`/`Result` and the combinators used (`map`,
  `and_then`, `ok_or`, `map_err`, `slice::first`).
- `RustInt`: the `i32`/`u32` ranges and Rust's truncating `/` and `%`.
  Dafny's `%` is Euclidean, so `RustInt.Rem` writes out Rust's remainder.
- `ParseInt`: `str::parse::<i32>` and `ParseIntError`, as the standard library
  documents them since `IntErrorKind` became public (Rust 1.55): a lone `+` or
  `-` is `InvalidDigit`. The model takes an optional sign, then ASCII digits
  read left to right; the first problem met decides the error kind.
- `Doubling`: the no-overflow guard for `2 * n`.
- `DoubleErrors`: the `DoubleError` enum, declared once. Three programs declare
  it identically, with the same `Display`.
- `Agreement`: lemmas relating the versions of `double_first` and
  `double_number` to each other.

One subtlety of `re-enablingbox` is modelled as written. There, `double_first`
returns `Box<Error>`. Its second `try!` boxes the `ParseIntError` itself,
through the standard `From<E: Error> for Box<Error>`; it does not wrap it in
`DoubleError::Parse`. A boxed parse failure therefore displays and describes
itself like the parse error, but its `cause()` is `None`, not `Some(e)`
(`ReEnablingBox.ErrorReport`, `Agreement.BoxedAgreesWithEnum`).

## Model

| member | source | states |
|---|---|---|
| `Wrappers.Option.Map` | 16-errorhandling/map/src/main.rs:45-54 | `Option::map` as `cook` and `process` use it: present exactly when the input is, holding `f` of its value |
| `Wrappers.Option.AndThen` | 16-errorhandling/morecombinators/src/main.rs:42-44 | `Option::and_then`: `None` stays `None`; `Some(v)` gives whatever `f(v)` gives, rejection included |
| `Wrappers.Option.OkOr` | 16-errorhandling/thelimitsofstrings/src/main.rs:54-56 | `Option::ok_or`: `Ok` exactly when a value is present, holding it; otherwise `Err` with the given error |
| `Wrappers.Result.Map` | 16-errorhandling/mapforresult/src/main.rs:23-25 | `Result::map`: `Ok` exactly when the input is, holding `f` of its value; an error passes through unchanged |
| `Wrappers.Result.MapErr` | 16-errorhandling/optionswithresults/errorsasstrings/src/main.rs:16-19 | `Result::map_err`: `Ok` exactly when the input is, with the same value; an error is transformed by `f` |
| `Wrappers.Result.AndThen` | 16-errorhandling/thelimitsofstrings/src/main.rs:57-60 | `Result::and_then`: the first error wins; `f` runs only on a success value |
| `Wrappers.First` | 16-errorhandling/thelimitsofstrings/src/main.rs:54 | `slice::first`: present exactly for a non-empty sequence, holding its first element |
| `RustInt.Quot` | 07-flowcontrol/match/guards/src/main.rs:11 | Rust's `/` for a positive divisor: Dafny's `/` on a non-negative dividend, and never of the opposite sign to the dividend |
| `RustInt.Rem` | 07-flowcontrol/match/guards/src/main.rs:11 | Rust's `%`: the remainder of division truncated toward zero; it is below the divisor in size and never has the opposite sign of the dividend |
| `ParseInt.ParseI32` | 16-errorhandling/mapforresult/src/main.rs:15 | `parse::<i32>`: any value it returns fits in `i32`; it reports `Empty` exactly for the empty string |
| `ParseInt.Accumulate` | 16-errorhandling/errorsvsabsence/src/main.rs:15-19 | the digit loop of `parse::<i32>`: any value it returns fits in `i32`, and it never reports `Empty` |
| `ParseInt.Description` | 16-errorhandling/re-enablingbox/src/main.rs:70 | `ParseIntError::description`: each of the four kinds has its own message, "invalid digit found in string" for a non-digit |
| `ParseInt.Display` | 16-errorhandling/optionswithresults/errorsasstrings/src/main.rs:19 | `to_string` of a `ParseIntError` is its description |
| `ParseInt.DisplayIdentifiesError` | 16-errorhandling/optionswithresults/errorsasstrings/src/main.rs:19 | two parse errors display alike exactly when they are the same error, so the `String` keeps the error kind |
| `ParseInt.AccumulateCorrect` | 16-errorhandling/errorsvsabsence/src/main.rs:15-19 | the parser's digit loop succeeds exactly when the rest is all digits and the magnitude fits the sign's bound, and then returns the signed decimal value |
| `ParseInt.ParseI32Correct` | 16-errorhandling/errorsvsabsence/src/main.rs:15-19 | `parse::<i32>` succeeds exactly on well-formed numerals whose value fits in `i32`, and returns that value |
| `DoubleErrors.Display` | 16-errorhandling/thelimitsofstrings/src/main.rs:41-51 | `EmptyVec` displays as "please use a vector with at least one element"; `Parse(e)` displays exactly as `e` does (same impl at reentertrybang 41-49 and re-enablingbox 53-61) |
| `DoubleErrors.DisplayDistinguishesVariants` | 16-errorhandling/thelimitsofstrings/src/main.rs:43-48 | the `EmptyVec` message differs from the display of every parse error |
| `DoubleErrors.From` | 16-errorhandling/reentertrybang/src/main.rs:35-39 | `From` turns any `ParseIntError` `e` into `Parse(e)` |
| `DoubleErrors.Description` | 16-errorhandling/re-enablingbox/src/main.rs:64-72 | `description(EmptyVec)` is "empty vectors not allowed"; `description(Parse(e))` is `e`'s description |
| `DoubleErrors.DescriptionVersusDisplay` | 16-errorhandling/re-enablingbox/src/main.rs:66-70 | description and `Display` agree on parse errors but differ on `EmptyVec` |
| `DoubleErrors.Cause` | 16-errorhandling/re-enablingbox/src/main.rs:74-83 | `cause(EmptyVec)` is `None`; `cause(Parse(e))` is `Some(e)` |
| `DoubleErrors.CauseInvertsFrom` | 16-errorhandling/re-enablingbox/src/main.rs:47-83 | `cause` recovers the very error `From` wrapped |
| `TheLimitsOfStrings.DoubleFirst` | 16-errorhandling/thelimitsofstrings/src/main.rs:53-61 | empty vector gives `Err(EmptyVec)`; an unparseable first string gives `Err(Parse(e))` with the parse error `e`; a first string parsing to `n` gives `Ok(2n)` |
| `TheLimitsOfStrings.OnlyFirstInspected` | 16-errorhandling/thelimitsofstrings/src/main.rs:53-54 | two vectors with the same first string give the same result, whatever follows |
| `TheLimitsOfStrings.MainExamples` | 16-errorhandling/thelimitsofstrings/src/main.rs:70-78 | `["93","18"]` gives `Ok(186)`, `[]` gives `EmptyVec`, `["tofu","93","18"]` gives an invalid-digit parse error |
| `ReenterTryBang.DoubleFirst` | 16-errorhandling/reentertrybang/src/main.rs:53-59 | the `try!` version: `Err(EmptyVec)` on an empty vector, `Err(From::from(e))` on a parse failure, `Ok(2n)` otherwise |
| `ReenterTryBang.MainExamples` | 16-errorhandling/reentertrybang/src/main.rs:68-76 | the three vectors of `main` give `Ok(186)`, `EmptyVec` and an invalid-digit error |
| `Agreement.TryBangEqualsCombinators` | 16-errorhandling/reentertrybang/src/main.rs:51-59 | the `try!` version returns the same result as the `map_err` combinator version on every vector |
| `ReEnablingBox.BoxDisplay` | 16-errorhandling/re-enablingbox/src/main.rs:93-97 | `Display` through `Box<Error>` dispatches to the boxed type; a boxed bare parse error displays as `DoubleError::Parse` of it would |
| `ReEnablingBox.BoxDescription` | 16-errorhandling/re-enablingbox/src/main.rs:63-72 | `description` through the box dispatches to the boxed type; a boxed bare parse error describes itself as `DoubleError::Parse` of it would |
| `ReEnablingBox.BoxCause` | 16-errorhandling/re-enablingbox/src/main.rs:74-83 | `cause` through the box: a boxed `ParseIntError` has none; a boxed `DoubleError` has its own; a cause, when present, is the parse error `From` wrapped |
| `ReEnablingBox.DoubleFirst` | 16-errorhandling/re-enablingbox/src/main.rs:86-91 | empty vector gives a boxed `EmptyVec` whose display is its message; a parse failure gives the boxed parse error; a number `n` gives `Ok(2n)` |
| `ReEnablingBox.ErrorReport` | 16-errorhandling/re-enablingbox/src/main.rs:63-91 | the returned error describes itself as "empty vectors not allowed" or as the parse error, and reports no cause |
| `ReEnablingBox.MainExamples` | 16-errorhandling/re-enablingbox/src/main.rs:100-108 | `["93","18"]` gives 186; the other two vectors display the empty-vector and invalid-digit messages |
| `Agreement.BoxedAgreesWithEnum` | 16-errorhandling/re-enablingbox/src/main.rs:30-31 | boxing keeps the outcome, the value and the displayed message of the enum version; only the cause of a parse failure is lost |
| `ErrorsAsStrings.DoubleFirst` | 16-errorhandling/optionswithresults/errorsasstrings/src/main.rs:10-22 | empty vector gives `Err("Please use a vector with at least one element.")`; a parse failure gives `Err(e.to_string())`; a number `n` gives `Ok(2n)` |
| `ErrorsAsStrings.MainExamples` | 16-errorhandling/optionswithresults/errorsasstrings/src/main.rs:31-39 | the three vectors of `main` give `Ok(186)`, the capitalised message and "invalid digit found in string" |
| `Agreement.StringsAreDisplayedEnum` | 16-errorhandling/optionswithresults/errorsasstrings/src/main.rs:14-19 | on non-empty vectors the `String` version is the enum version with its error rendered by `Display`; the empty-vector messages differ |
| `OptionsWithResults.DoubleFirst` | 16-errorhandling/optionswithresults/src/main.rs:13-19 | requires a non-empty vector whose first string parses (else `unwrap` panics); returns twice the parsed value |
| `OptionsWithResults.LaterElementsIgnored` | 16-errorhandling/optionswithresults/src/main.rs:15-18 | elements after the first do not affect the result |
| `OptionsWithResults.MainExamples` | 16-errorhandling/optionswithresults/src/main.rs:21-35 | `["93","18"]` gives 186; the empty vector has no first element, so the call at line 29 panics and line 34 is never reached; "tofu" would not parse either |
| `Agreement.UnwrapPanicsExactlyOnErr` | 16-errorhandling/optionswithresults/src/main.rs:13-19 | the `unwrap` version's preconditions hold exactly when the `Result` version returns `Ok`, with the same value |
| `Agreement.DoubleFirstIsDoubleNumberOfFirst` | 16-errorhandling/thelimitsofstrings/src/main.rs:53-61 | `double_first` is `double_number` of the first string with the error converted by `From` |
| `MapForResult.DoubleNumber` | 16-errorhandling/mapforresult/src/main.rs:14-19 | `Ok(n)` from the parse becomes `Ok(2n)`; a parse error is passed through unchanged |
| `MapForResult.DoubleNumberMap` | 16-errorhandling/mapforresult/src/main.rs:23-25 | succeeds exactly when the parse does, with twice its value; otherwise returns the parse error |
| `MapForResult.MapEqualsMatch` | 16-errorhandling/mapforresult/src/main.rs:21-25 | `double_number_map(s) == double_number(s)` for every string |
| `MapForResult.MainExamples` | 16-errorhandling/mapforresult/src/main.rs:34-42 | `"10"` gives `Ok(20)` and `"t"` gives an error |
| `ResultAsAlias.DoubleNumber` | 16-errorhandling/resultasanalias/src/main.rs:11-16 | under the alias, a parse `n` gives `Ok(2n)` and a parse error comes back unchanged |
| `ResultAsAlias.MainExamples` | 16-errorhandling/resultasanalias/src/main.rs:26-29 | `"10"` gives `Ok(20)`; `"t"` gives an invalid-digit error |
| `Agreement.DoubleNumberVersionsAgree` | 16-errorhandling/resultasanalias/src/main.rs:14-16 | the alias, `match` and `unwrap` versions of `double_number` compute the same value |
| `ErrorsVsAbsence.DoubleNumber` | 16-errorhandling/errorsvsabsence/src/main.rs:15-20 | requires that the string parses (else `unwrap` panics); returns twice the parsed value |
| `ErrorsVsAbsence.MainExamples` | 16-errorhandling/errorsvsabsence/src/main.rs:22-27 | `"10"` gives 20; `"t"` does not parse, so that call panics |
| `MoreCombinators.HaveIngredients` | 16-errorhandling/morecombinators/src/main.rs:13-18 | rejects exactly `Sushi`; any other food comes back unchanged |
| `MoreCombinators.CanCook` | 16-errorhandling/morecombinators/src/main.rs:21-26 | rejects exactly `CordonBleu`; any other food comes back unchanged |
| `MoreCombinators.CookableV1` | 16-errorhandling/morecombinators/src/main.rs:31-39 | `Some(f)` exactly when `f` is neither `Sushi` nor `CordonBleu`, with the same variant |
| `MoreCombinators.CookableV2` | 16-errorhandling/morecombinators/src/main.rs:42-44 | the `and_then` chain: `Some(f)` exactly when `f` passes both checks, with the same variant |
| `MoreCombinators.V1EqualsV2` | 16-errorhandling/morecombinators/src/main.rs:28-44 | `cookable_v1(f) == cookable_v2(f)` for every food |
| `MoreCombinators.RejectionShortCircuits` | 16-errorhandling/morecombinators/src/main.rs:32-33 | if `have_ingredients` rejects, both versions return `None` regardless of `can_cook` |
| `MoreCombinators.OnlySteakIsCookable` | 16-errorhandling/morecombinators/src/main.rs:53-59 | of the three foods only `Steak` is cookable |
| `FoodMap.Peel` | 16-errorhandling/map/src/main.rs:28-33 | `None` stays `None`; `Some(f)` becomes a peeled `f` |
| `FoodMap.Chop` | 16-errorhandling/map/src/main.rs:37-42 | `None` stays `None`; a peeled `f` becomes a chopped `f` |
| `FoodMap.Cook` | 16-errorhandling/map/src/main.rs:45-47 | `None` stays `None`; a chopped `f` becomes a cooked `f` |
| `FoodMap.Process` | 16-errorhandling/map/src/main.rs:50-54 | absence stays absence; a present food comes out cooked, with the food unchanged |
| `FoodMap.ProcessIsComposition` | 16-errorhandling/map/src/main.rs:49-54 | `process(x) == cook(chop(peel(x)))` for every optional food |
| `FoodMap.MainExamples` | 16-errorhandling/map/src/main.rs:64-77 | apple and carrot come out cooked; the absent potato stays absent |
| `OptionAndUnwrap.GiveCommoner` | 16-errorhandling/optionandunwrap/src/main.rs:19-26 | a snake is thrown in the fire (that arm comes first), any other gift is nice, no gift is accepted; never panics |
| `OptionAndUnwrap.GivePrincess` | 16-errorhandling/optionandunwrap/src/main.rs:29-36 | `None` panics (from `unwrap`), a snake panics, any other gift is loved |
| `OptionAndUnwrap.PrincessPanicsWhereCommonerDoesNot` | 16-errorhandling/optionandunwrap/src/main.rs:17-36 | the princess loves exactly the gifts the commoner finds nice and panics on the other two cases |
| `OptionAndUnwrap.MainExamples` | 16-errorhandling/optionandunwrap/src/main.rs:38-52 | chicken is nice, the snake is burnt, no gift is fine; the robin is loved and `None` panics |
| `MatchNumber.TryNumber` | 07-flowcontrol/match/src/main.rs:6-18 | 1 is "one"; 2, 3, 5, 7, 11 are primes; 13 to 19 are teens; every other `i32` is not special: exactly one category each |
| `MatchNumber.PrimeArmIsSound` | 07-flowcontrol/match/src/main.rs:12 | every number the prime arm takes is prime |
| `MatchNumber.ThirteenIsTeenNotPrime` | 07-flowcontrol/match/src/main.rs:12-14 | 13 is prime yet classified as a teen |
| `MatchNumber.Binary` | 07-flowcontrol/match/src/main.rs:29-34 | `false` maps to 0 and `true` to 1 |
| `MatchNumber.MainExamples` | 07-flowcontrol/match/src/main.rs:20-36 | 13 is a teen, 1 is one, 5 is prime, 42 is not special; `true` gives 1 |
| `MatchBinding.Age` | 07-flowcontrol/match/binding/src/main.rs:7-9 | `age(r) == r` |
| `MatchBinding.TryMatch` | 07-flowcontrol/match/binding/src/main.rs:11-24 | 0 is not born; 1-12 child, 13-19 teen, 20 and up old, each binding `n` equal to the input |
| `MatchBinding.BracketsFollowAge` | 07-flowcontrol/match/binding/src/main.rs:14-23 | an older age is never in an earlier bracket |
| `MatchBinding.MainExamples` | 07-flowcontrol/match/binding/src/main.rs:26-32 | 15 is a teen, 0 not born, 7 a child, 101 old |
| `MatchGuards.TryPair` | 07-flowcontrol/match/guards/src/main.rs:5-14 | `x == y` is twins; otherwise `x + y == 0` is antimatter; otherwise a positive odd `x` is "odd first"; otherwise no correlation; the overflowing `x + y` is excluded |
| `MatchGuards.ZeroPairIsTwins` | 07-flowcontrol/match/guards/src/main.rs:8-10 | `(0, 0)` is twins, though it also meets the antimatter guard |
| `MatchGuards.NegativeOddIsNotOdd` | 07-flowcontrol/match/guards/src/main.rs:11 | for a negative odd `x`, `x % 2` is -1, so the pair has no correlation |
| `MatchGuards.MainExamples` | 07-flowcontrol/match/guards/src/main.rs:16-21 | `(2,-2)` antimatter, `(9,9)` twins, `(9,42)` odd first, `(22,26)` no correlation |
| `MatchTuples.TryPair` | 07-flowcontrol/match/destructuring/tuples/src/main.rs:5-15 | first zero binds `y`; otherwise a zero second binds `x`; a pair without zeros is the wildcard |
| `MatchTuples.ZeroPairIsFirstZero` | 07-flowcontrol/match/destructuring/tuples/src/main.rs:10-11 | `(0, 0)` goes to the first arm |
| `MatchTuples.MainExamples` | 07-flowcontrol/match/destructuring/tuples/src/main.rs:17-23 | `(0,-2)` first zero, `(-2,0)` last zero, `(-10,42)` wildcard |
| `ForAndRange.Classify` | 07-flowcontrol/forandrange/src/main.rs:12-20 | multiples of 15 give fizzbuzz; of 3 only, fizz; of 5 but not 3, buzz; any other `n` itself |
| `ForAndRange.Run` | 07-flowcontrol/forandrange/src/main.rs:9-22 | the loop over `1..101` emits exactly 100 lines, the i-th for `n = i + 1`, in increasing order |
| `ForAndRange.OutputStart` | 07-flowcontrol/forandrange/src/main.rs:10-20 | the output begins 1, ..., fizz, ..., buzz, ..., fizzbuzz at 15, and ends with buzz at 100 |
| `TraitBounds.Add` | 15-traits/bounds/src/main.rs:31-38 | componentwise sum, a `Vec2` of the same element type |
| `TraitBounds.Sub` | 15-traits/bounds/src/main.rs:46-51 | componentwise difference, a `Vec2` of the same element type |
| `TraitBounds.Dot` | 15-traits/bounds/src/main.rs:57-59 | `a.x*b.x + a.y*b.y` |
| `TraitBounds.SubUndoesAdd` | 15-traits/bounds/src/main.rs:42-51 | subtracting `b` undoes adding `b` |
| `TraitBounds.AddCommutes` | 15-traits/bounds/src/main.rs:31-38 | addition does not depend on operand order |
| `TraitBounds.DotSymmetric` | 15-traits/bounds/src/main.rs:57-59 | the dot product is symmetric |
| `TraitBounds.DotDistributesOverAdd` | 15-traits/bounds/src/main.rs:55-59 | the dot product distributes over `+` |
| `TraitBounds.DotSelfNonNegative` | 15-traits/bounds/src/main.rs:57-59 | a vector's dot product with itself is never negative |

## Left out

- All printed output (`println!`, the `print` and `eat` helpers, the `Day`
  enum that only `eat` prints). Classifiers return a category instead of a
  line.
- Integer overflow of `2 * n` and of `x + y` in the guards: a debug build
  panics, so the model requires that the result fits in `i32`. Release-build
  wrap-around is not modelled.
- `TraitBounds`: the operations are taken at unbounded `int`, so integer
  overflow is not modelled. The `f32` instance used by `main` is floating
  point and is not modelled. `SubUndoesAdd` and `DotDistributesOverAdd` hold
  only at `int`: at `f32`, rounding breaks both. The trait bounds themselves are compile-time
  rules, not modelled.
- `str::parse::<i32>` and `ParseIntError` belong to Rust's standard library.
  The model follows the library's documented behaviour and error messages.
  It leaves out the `Zero` error kind, which only non-zero integer types
  produce. The programs are written for an older toolchain (`try!`, `...`
  ranges, bare `Box<Error>`); a toolchain of that age may report a lone sign
  as `Empty` rather than `InvalidDigit`. No input of the programs is a lone
  sign.
- The `Box<Error>` trait object is modelled by the concrete type it holds.
  Its `cause` is given as the underlying `ParseIntError`, not as a trait object.
- `MatchBinding.Age` takes and returns a `u32` as an `int` in range; it is the
  identity, as in the program.
- The file I/O program (optionswithresults/entertrybang), closures, ownership,
  borrowing, drop order, modules, crates, attributes, the formatting demos and
  the `unsafe` `transmute` demo: no algorithmic content, or I/O.
- No generic evaluator over a list of stages is modelled; the programs have
  only the fixed stages `peel`/`chop`/`cook` and `have_ingredients`/`can_cook`.

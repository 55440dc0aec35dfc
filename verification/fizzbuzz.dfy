/** forandrange: FizzBuzz with `for n in 1..101`, one output line per `n`. */
module ForAndRange {
  import opened RustInt

  datatype Line = FizzBuzz | Fizz | Buzz | Number(n: int)

  /** The line printed for `n`: the `if` chain tests 15, then 3, then 5. */
  function Classify(n: int): (r: Line)
    ensures r == FizzBuzz <==> n % 15 == 0
    ensures r == Fizz <==> n % 3 == 0 && n % 15 != 0
    ensures r == Buzz <==> n % 5 == 0 && n % 3 != 0
    ensures r.Number? <==> n % 3 != 0 && n % 5 != 0
    ensures r.Number? ==> r.n == n
  {
    if Rem(n, 15) == 0 then FizzBuzz
    else if Rem(n, 3) == 0 then Fizz
    else if Rem(n, 5) == 0 then Buzz
    else Number(n)
  }

  /** The loop of `main`: the range `1..101` excludes its end, so it emits 100
      lines, the i-th for `n = i + 1`. */
  method Run() returns (lines: seq<Line>)
    ensures |lines| == 100
    ensures forall i :: 0 <= i < |lines| ==> lines[i] == Classify(i + 1)
  {
    lines := [];
    for n := 1 to 101
      invariant |lines| == n - 1
      invariant forall i :: 0 <= i < |lines| ==> lines[i] == Classify(i + 1)
    {
      lines := lines + [Classify(n)];
    }
  }

  /** The first lines of the output, and its last one. */
  lemma OutputStart()
    ensures Classify(1) == Number(1) && Classify(3) == Fizz
    ensures Classify(5) == Buzz && Classify(15) == FizzBuzz
    ensures Classify(100) == Buzz
  {
  }
}

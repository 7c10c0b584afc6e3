/** The numeric side of the calculator: the value type is `real`, and the parts of
    IEEE-754 double arithmetic that exact reals cannot express are parameters. */
module Arithmetic {
  import opened Tokens

  /** Operations the engine borrows from the floating-point library. Each one is an
      arbitrary function here, fixed once per calculator. */
  datatype Numerics = Numerics(
    parse: string -> Option<real>,  // `str::parse::<f64>`: Some(value) for an accepted literal
    divByZero: real -> real,        // the value of `a / 0.0`
    pow: (real, real) -> real,      // `f64::powf`
    sqrt: real -> real,             // `f64::sqrt`
    log10: real -> real)            // `f64::log10`

  /** A token the parser accepts. */
  predicate IsNumber(num: Numerics, t: string) {
    num.parse(t).Some?
  }

  function Div(num: Numerics, a: real, b: real): (r: real)
    ensures b != 0.0 ==> r * b == a
  {
    if b == 0.0 then num.divByZero(a) else a / b
  }

  function Abs(a: real): (r: real)
    ensures r >= 0.0 && (r == a || r == -a)
  {
    if a < 0.0 then -a else a
  }

  /** The saturating cast `a as u64` for values below 2^64: negative values go to 0,
      others are truncated toward zero. */
  function Truncate(a: real): (n: nat)
    ensures n as real <= a || (a < 0.0 && n == 0)
    ensures a >= 0.0 ==> a < n as real + 1.0
  {
    if a <= 0.0 then 0 else a.Floor
  }

  /** The product of the range `1..=n`; the empty range gives 1. */
  function Factorial(n: nat): (r: nat)
    ensures r >= 1
    ensures n > 0 ==> r >= n
  {
    if n == 0 then 1 else n * Factorial(n - 1)
  }

  /** `iter().sum()`: the left fold of `+` starting from 0. */
  function Sum(s: seq<real>): real {
    if s == [] then 0.0 else Sum(s[..|s| - 1]) + s[|s| - 1]
  }

  /** `iter().product()`: the left fold of `*` starting from 1. */
  function Product(s: seq<real>): real {
    if s == [] then 1.0 else Product(s[..|s| - 1]) * s[|s| - 1]
  }

  /** The result of binary operator `op` where `a` was pushed before `b`. */
  function BinaryResult(num: Numerics, op: string, a: real, b: real): real
    requires IsBinary(op)
  {
    match op
    case "+" => a + b
    case "-" => a - b
    case "*" => a * b
    case "/" => Div(num, a, b)
    case "^" => num.pow(a, b)
  }

  /** The result of a unary operator applied to the top of the stack. */
  function UnaryResult(num: Numerics, op: string, a: real): real
    requires IsUnary(op)
  {
    match op
    case "sqrt" => num.sqrt(a)
    case "log" => num.log10(a)
    case "abs" => Abs(a)
    case "!" => Factorial(Truncate(a)) as real
  }

  /** 0! = 1 and 5! = 120, as the factorial handler computes them. */
  lemma FactorialExamples(num: Numerics)
    ensures UnaryResult(num, "!", 0.0) == 1.0
    ensures UnaryResult(num, "!", 5.0) == 120.0
  {
    assert Truncate(5.0) == 5;
  }
}

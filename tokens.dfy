/** The fixed token vocabulary of the calculator and its classification. */
module Tokens {

  /** Option, as returned by the literal parser and the result accessor. */
  datatype Option<T> = None | Some(value: T)

  /** The binary arithmetic operators `+ - * / ^`. */
  predicate IsBinary(t: string) {
    t == "+" || t == "-" || t == "*" || t == "/" || t == "^"
  }

  /** The unary operators handled by the square-root / logarithm / absolute-value handler. */
  predicate IsTranscendental(t: string) {
    t == "sqrt" || t == "log" || t == "abs"
  }

  /** Every operator that pops one operand and pushes one result: the three above and `!`. */
  predicate IsUnary(t: string) {
    IsTranscendental(t) || t == "!"
  }

  /** The whole-stack reductions `++` (sum) and `**` (product). */
  predicate IsReduction(t: string) {
    t == "++" || t == "**"
  }

  predicate IsOperator(t: string) {
    IsBinary(t) || IsUnary(t) || IsReduction(t)
  }

  /** The operator classes are pairwise disjoint, so the dispatcher's match is unambiguous. */
  lemma OperatorClassesDisjoint(t: string)
    ensures !(IsBinary(t) && IsUnary(t))
    ensures !(IsBinary(t) && IsReduction(t))
    ensures !(IsUnary(t) && IsReduction(t))
  {
  }
}

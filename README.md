# RPN calculator engine, modelled in Dafny

This project models the `RPNCalculator` engine of the `rpn-calculator` crate
(`rpn-calculator/src/lib.rs`). The engine evaluates Reverse Polish Notation one
token at a time. It keeps a numeric `stack` and a `history_stack` of the tokens it
accepted, and it can rebuild a fully parenthesised infix or LaTeX rendering of the
computation by popping that history.

Modules, one per part of the engine:

- `Tokens` (`tokens.dfy`): the fixed operator vocabulary (`+ - * / ^`, `sqrt log abs`, `!`, `++ **`).
- `Arithmetic` (`arithmetic.dfy`): the value type is `real`. The parts of `f64` that exact
  reals cannot express are fields of a `Numerics` value fixed per calculator: the
  literal parser, `powf`, `sqrt`, `log10` and the value of a division by zero.
  Addition, subtraction, multiplication, division by a non-zero value, `abs`,
  factorial, sum and product are exact.
- `Reconstruction` (`reconstruction.dfy`): the two surface syntaxes and `Render`. `Render`
  is a pure function that reads one expression from the end of a history and returns
  its rendering and the length of the prefix left unread.
- `Engine` (`engine.dfy`): `Step`, the effect of one token on a `Snapshot` of the two
  vectors; `Run`, a sequence of steps; and the class `Calculator`. Its methods change
  `stack` and `history` in place and are proved against `Step` and `Render`.
- `Expression` (`expression.dfy`): expression trees, their postfix form, value and
  rendering. It proves that every history the engine builds is the postfix form of a
  forest of trees whose values are the stack. It also proves that the reconstructor
  reads the last tree back exactly.
- `Examples` (`examples.dfy`): the crate's unit scenarios, stated over the model, and
  client methods that drive a `Calculator`.

The whole-stack reductions `++` and `**` rebuild by consuming all remaining history.
This is correct for every history the engine can produce: a reduction always
collapses the whole stack, so it can only sit on the leftmost path of the first tree
(`Expression.ReconstructionDenotesResult`, `Expression.RenderReadsLastTree`). A
history the engine cannot produce is still read the way the code reads it: in
`5 1 2 ++ +` the `+` would find only one value on the stack, and the history is read
as `( + (2 + 1 + 5))` (`Examples.MalformedHistoryUnreachable`,
`Examples.MalformedHistoryExample`).

## Model

| member | source | states |
|---|---|---|
| `Tokens.OperatorClassesDisjoint` | rpn-calculator/src/lib.rs:23-38 | the binary, unary and reduction operator strings are disjoint, so each token has one dispatcher arm |
| `Arithmetic.Div` | rpn-calculator/src/lib.rs:58 | `a / b` times `b` is `a` for a non-zero divisor |
| `Arithmetic.Abs` | rpn-calculator/src/lib.rs:70 | `abs` returns `a` or `-a` and is never negative |
| `Arithmetic.Truncate` | rpn-calculator/src/lib.rs:79 | the cast `a as u64` gives 0 for negative values and otherwise the largest integer not above `a` |
| `Arithmetic.Factorial` | rpn-calculator/src/lib.rs:79 | the product of `1..=n` is at least 1 (the empty range gives 1) and at least `n` |
| `Arithmetic.FactorialExamples` | rpn-calculator/src/lib.rs:310-326 | `!` maps 0 to 1 and 5 to 120 |
| `Reconstruction.Render` | rpn-calculator/src/lib.rs:120-163 | reading stops strictly inside a non-empty history; an empty history gives `""`; a literal is returned verbatim and consumes one token; a `++`/`**` token always consumes the whole history |
| `Reconstruction.RenderTerms` | rpn-calculator/src/lib.rs:128-133 | the reduction loop yields at least one term for a non-empty history and no more terms than tokens |
| `Reconstruction.RenderTermsAfterRead` | rpn-calculator/src/lib.rs:129-132 | one round of the reduction loop: after a term is read, the terms collected so far plus those read from what is left are still all the terms of the original history |
| `Engine.Step` | rpn-calculator/src/lib.rs:21-49 | an accepted token (operator or parseable literal) is appended to history; any other token leaves stack and history exactly as they were |
| `Engine.InvalidTokenIsNoOp` | rpn-calculator/src/lib.rs:39-45 | a token that is not an operator and does not parse changes nothing |
| `Engine.BinaryStep` | rpn-calculator/src/lib.rs:51-63 | a binary operator shrinks the stack by one, keeps everything below the top two, and replaces `a, b` (b on top) by `a OP b` |
| `Engine.UnaryStep` | rpn-calculator/src/lib.rs:65-82 | `sqrt`, `log`, `abs` and `!` keep the stack length and change only the top value |
| `Engine.ReductionStep` | rpn-calculator/src/lib.rs:84-96 | `++`/`**` leave exactly the sum/product of the old stack; one value stays as it is; an empty stack gives 0/1 |
| `Engine.LiteralStep` | rpn-calculator/src/lib.rs:98-102 | a parseable literal pushes its value and is recorded |
| `Engine.StepKeepsHistoryWellFormed` | rpn-calculator/src/lib.rs:21-48 | every history entry stays an operator or a parseable literal after one token |
| `Engine.RunKeepsHistoryWellFormed` | rpn-calculator/src/lib.rs:21-48 | the same holds after any sequence of tokens, and history only grows |
| `Engine.RunSnoc` | rpn-calculator/src/lib.rs:21-53 | applying one more token to a run is one more `Step` when its operands are present, and a panic (`None`) otherwise |
| `Engine.RunLiterals` | rpn-calculator/src/lib.rs:98-102 | a run of literals pushes their values in order and records them all |
| `Engine.Calculator.constructor` | rpn-calculator/src/lib.rs:13-18 | a new engine has an empty stack and an empty history |
| `Engine.Calculator.Clone` | rpn-calculator/src/lib.rs:5 | a clone is a fresh engine with the same stack and history |
| `Engine.Calculator.Apply` | rpn-calculator/src/lib.rs:21-49 | pushes the token to history, dispatches it, and pops it again when invalid; the new state is `Step` of the old |
| `Engine.Calculator.ArithmeticOperation` | rpn-calculator/src/lib.rs:51-63 | pops `b` then `a` and pushes `a OP b` |
| `Engine.Calculator.TranscendentalOperation` | rpn-calculator/src/lib.rs:65-75 | pops one value and pushes its `sqrt`, `log10` or `abs` |
| `Engine.Calculator.FactorialOperation` | rpn-calculator/src/lib.rs:77-82 | pops `a` and pushes the product of `1..=trunc(a)` |
| `Engine.Calculator.FullStackAddition` | rpn-calculator/src/lib.rs:84-89 | the stack becomes the single sum of its old contents |
| `Engine.Calculator.FullStackMultiplication` | rpn-calculator/src/lib.rs:91-96 | the stack becomes the single product of its old contents |
| `Engine.Calculator.NewNumber` | rpn-calculator/src/lib.rs:98-102 | pushes the parsed value, or nothing when the token does not parse |
| `Engine.Calculator.GetResult` | rpn-calculator/src/lib.rs:111-118 | returns `Some(v)` exactly when the stack holds one value `v`, otherwise `None`, and changes nothing |
| `Engine.Calculator.Reconstruct` | rpn-calculator/src/lib.rs:120-163 | pops history from its end and returns what `Render` reads; afterwards history is the unread prefix of the old one |
| `Engine.Calculator.ReconstructTerms` | rpn-calculator/src/lib.rs:129-132 | the `while !history.is_empty()` loop collects the terms `RenderTerms` reads and empties history |
| `Engine.Calculator.ReconstructInfix` | rpn-calculator/src/lib.rs:120-163 | infix reconstruction returns `Render(Infix, history)` and leaves its unread prefix |
| `Engine.Calculator.ReconstructLatex` | rpn-calculator/src/lib.rs:165-223 | LaTeX reconstruction returns `Render(Latex, history)` and leaves its unread prefix |
| `Expression.RenderBinaryStep` | rpn-calculator/src/lib.rs:123-126 | at a binary operator the right operand is read from the tokens just before it, then the left operand from what remains |
| `Expression.RenderUnaryStep` | rpn-calculator/src/lib.rs:142-157 | at a unary operator exactly one operand is read and wrapped |
| `Expression.RenderReductionFree` | rpn-calculator/src/lib.rs:120-163 | a tree without reductions is read back as its rendering from the end of any history and stops exactly where its tokens begin |
| `Expression.RenderReductionsLeading` | rpn-calculator/src/lib.rs:120-163 | a tree whose reductions lie on its leftmost path is read back exactly when it is the whole history |
| `Expression.RenderTermsLeadingOnly` | rpn-calculator/src/lib.rs:128-141 | the reduction loop reads every tree of such a forest back, last one first |
| `Expression.ForestBinary` | rpn-calculator/src/lib.rs:51-63 | joining the last two trees under a binary operator keeps the forest well formed, appends the operator to its postfix form, and keeps the values below the top two |
| `Expression.ForestUnary` | rpn-calculator/src/lib.rs:65-82 | wrapping the last tree in a unary operator keeps the forest well formed, appends the operator to its postfix form, and changes only the last value |
| `Expression.BinaryRepresents` | rpn-calculator/src/lib.rs:51-63 | when a binary operator is applied, the forest with its last two trees joined is the new state: the history gains the operator and the stack the result in place of the two operands |
| `Expression.UnaryRepresents` | rpn-calculator/src/lib.rs:65-82 | when a unary operator is applied, the forest with its last tree wrapped is the new state |
| `Expression.ReductionRepresents` | rpn-calculator/src/lib.rs:84-96 | when `++` or `**` is applied, the one tree over the whole forest is the new state, whose single value is the sum or product of the stack |
| `Expression.LiteralRepresents` | rpn-calculator/src/lib.rs:98-102 | a parsed literal adds a leaf tree and pushes its value |
| `Expression.StepRepresents` | rpn-calculator/src/lib.rs:21-49 | every token, an invalid one included, keeps the history the postfix form of a forest whose values are the stack |
| `Expression.RunRepresents` | rpn-calculator/src/lib.rs:21-49 | the same holds after any sequence of tokens |
| `Expression.RenderReadsLastTree` | rpn-calculator/src/lib.rs:120-163 | on an engine history, reconstruction renders the last tree and leaves exactly the tokens of the trees before it |
| `Expression.ReconstructionDenotesResult` | rpn-calculator/src/lib.rs:111-223 | when one value is left, the history is the postfix form of one tree whose value is that result, and both renderings are of that tree and consume the whole history |
| `Examples.RenderBinaryOfLiterals` | rpn-calculator/src/lib.rs:120-126 | the history `a b op` of two literals and a binary operator is read back, all of it, as the one formatted operation |
| `Examples.RenderNestedBinary` | rpn-calculator/src/lib.rs:120-126 | `a b op1 c op2` is read back, all of it, as `op2` applied to `(a op1 b)` and `c` |
| `Examples.InfixSumExample` | rpn-calculator/src/lib.rs:351-360 | `3 4 +` renders as `(3 + 4)` |
| `Examples.LatexQuotientExample` | rpn-calculator/src/lib.rs:362-371 | `5 2 /` renders as `{\frac{5}{2}}` |
| `Examples.NestedInfixExample` | rpn-calculator/src/lib.rs:123-126 | `3 4 + 2 *` renders as `((3 + 4) * 2)` |
| `Examples.NestedLatexExample` | rpn-calculator/src/lib.rs:168-177 | `3 4 + 2 *` renders as `{{3 + 4} \cdot 2}` |
| `Examples.TwoLiteralsThenOperator` | rpn-calculator/src/lib.rs:51-63 | two literals and a binary operator leave exactly `a OP b` |
| `Examples.LiteralThenUnary` | rpn-calculator/src/lib.rs:65-82 | a literal and a unary operator leave exactly the operator's value |
| `Examples.LiteralsThenReduction` | rpn-calculator/src/lib.rs:84-96 | literals and a reduction leave exactly their sum or product |
| `Examples.MalformedHistoryUnreachable` | rpn-calculator/src/lib.rs:51-53 | the engine cannot produce `5 1 2 ++ +`: after `++` leaves one value, `+` lacks an operand and the run panics |
| `Examples.RenderReductionUnderBinary` | rpn-calculator/src/lib.rs:120-141 | `a b c red op` is read, all of it, as `op` applied to an empty left operand and the reduction of `c`, `b`, `a` |
| `Examples.MalformedHistoryExample` | rpn-calculator/src/lib.rs:120-141 | the infix reconstructor reads `5 1 2 ++ +` as `( + (2 + 1 + 5))` |
| `Examples.AdditionExample` | rpn-calculator/src/lib.rs:240-247 | `3 7 +` gives 10 |
| `Examples.SubtractionExample` | rpn-calculator/src/lib.rs:249-256 | `10 4 -` gives 6 |
| `Examples.MultiplicationExample` | rpn-calculator/src/lib.rs:258-265 | `5 6 *` gives 30 |
| `Examples.DivisionExample` | rpn-calculator/src/lib.rs:267-274 | `20 4 /` gives 5 |
| `Examples.NegativeNumbersExample` | rpn-calculator/src/lib.rs:383-391 | `-10 -5 +` gives -15 |
| `Examples.AbsExample` | rpn-calculator/src/lib.rs:302-308 | `-8 abs` gives 8 |
| `Examples.FactorialExample` | rpn-calculator/src/lib.rs:310-317 | `5 !` gives 120 |
| `Examples.FactorialZeroExample` | rpn-calculator/src/lib.rs:319-326 | `0 !` gives 1 |
| `Examples.SumAllExample` | rpn-calculator/src/lib.rs:328-337 | `2 4 6 ++` gives 12 |
| `Examples.ProductAllExample` | rpn-calculator/src/lib.rs:339-348 | `2 3 4 **` gives 24 |
| `Examples.InvalidTokenExample` | rpn-calculator/src/lib.rs:373-381 | after `7`, the token `foo` leaves stack `[7]` and history `[7]` |
| `Examples.ReconstructTwice` | rpn-calculator/src/lib.rs:120-163 | on an engine holding one value, the first reconstruction gives the whole expression and the second gives `""` |
| `Examples.NewNumberSession` | rpn-calculator/src/lib.rs:232-238 | a fresh engine given `42` reports `Some(42)` |
| `Examples.InvalidInputSession` | rpn-calculator/src/lib.rs:373-381 | `7 foo` reports `Some(7)` |
| `Examples.BinarySession` | rpn-calculator/src/lib.rs:350-360 | on a fresh engine fed `a b op`, a clone reconstructs the one infix operation and the engine still reports `a op b` |
| `Examples.InfixSession` | rpn-calculator/src/lib.rs:350-360 | `3 4 +` reconstructed on a clone gives `(3 + 4)` while the engine still reports 7 |

## Left out

- `rpn-calculator/src/main.rs` is not part of this model: it is the terminal read loop, the case-insensitive `exit` check and printing. `Run` stands for its sequence of `apply_operation` calls.
- `welcome_prompt` and the `Invalid input` message printed by the dispatcher are output only; the history rollback beside the message is modelled.
- IEEE-754 behaviour: NaN, infinities, signed zero and rounding in `+ - *`, sum and product are not modelled; values are exact reals. Literals such as `inf` or `NaN` that the `f64` parser accepts are whatever real the `parse` parameter gives.
- `Arithmetic.Div`: division by zero yields the `divByZero` parameter, because reals have no infinity or NaN.
- `powf`, `sqrt`, `log10` and `str::parse::<f64>` are library calls; they are the arbitrary functions of `Numerics`.
- `Arithmetic.Truncate`: the saturation of `a as u64` at 2^64 - 1 and NaN to 0 are not modelled.
- `Arithmetic.Factorial`: the product is over an unbounded `nat`, so the `u64` overflow of `product::<u64>()` (a panic in debug builds, wrap-around in release builds, from 21! on) is not modelled.
- The panics of `unwrap()` on too few operands and of `unreachable!()` are preconditions (`HasOperands`, and the operator class of each handler); `Run` returns `None` where the source would panic.
- The unit tests for `^`, `log` and `sqrt` (`2 5 ^` is 32, `1000 log` is 3, `9 sqrt` is 3) depend on the library functions above, so they hold in the model only for a `Numerics` that agrees with `f64` on those inputs; they are not stated as lemmas.

/** Concrete sessions: the unit scenarios of the calculator, stated as lemmas over the
    model, and a client showing that reconstruction consumes the history. */
module Examples {
  import opened Tokens
  import opened Arithmetic
  import opened Reconstruction
  import opened Engine
  import opened Expression

  const Empty := Snapshot([], [])

  /** `a b op` is read back as the single binary operation. */
  lemma RenderBinaryOfLiterals(syn: Syntax, a: string, b: string, op: string)
    requires !IsOperator(a) && !IsOperator(b) && IsBinary(op)
    ensures Render(syn, [a, b, op]) == (FormatBinary(syn, op, a, b), 0)
  {
    var e := Binary(op, Literal(a), Literal(b));
    assert Postfix(e) == [a, b, op];
    RenderReductionsLeading(syn, e);
  }

  /** `a b op1 c op2` is read back as `(a op1 b) op2 c`. */
  lemma RenderNestedBinary(syn: Syntax, a: string, b: string, op1: string, c: string, op2: string)
    requires !IsOperator(a) && !IsOperator(b) && !IsOperator(c) && IsBinary(op1) && IsBinary(op2)
    ensures Render(syn, [a, b, op1, c, op2])
      == (FormatBinary(syn, op2, FormatBinary(syn, op1, a, b), c), 0)
  {
    var inner := Binary(op1, Literal(a), Literal(b));
    var e := Binary(op2, inner, Literal(c));
    assert Postfix(inner) == [a, b, op1];
    assert Postfix(e) == [a, b, op1] + [c] + [op2];
    assert [a, b, op1] + [c] + [op2] == [a, b, op1, c, op2];
    assert Shaped(Literal(a)) && Shaped(Literal(b));
    assert Shaped(inner);
    assert Show(syn, inner) == FormatBinary(syn, op1, a, b);
    RenderReductionsLeading(syn, e);
  }

  /** `3 4 +` renders as `(3 + 4)`. */
  lemma InfixSumExample()
    ensures Render(Infix, ["3", "4", "+"]) == ("(3 + 4)", 0)
  {
    RenderBinaryOfLiterals(Infix, "3", "4", "+");
    assert FormatBinary(Infix, "+", "3", "4") == "(3 + 4)";
  }

  /** `5 2 /` renders as `{\frac{5}{2}}`. */
  lemma LatexQuotientExample()
    ensures Render(Latex, ["5", "2", "/"]) == ("{\\frac{5}{2}}", 0)
  {
    RenderBinaryOfLiterals(Latex, "5", "2", "/");
    assert FormatBinary(Latex, "/", "5", "2") == "{\\frac{5}{2}}";
  }

  /** `3 4 + 2 *` renders as `((3 + 4) * 2)`. */
  lemma NestedInfixExample()
    ensures Render(Infix, ["3", "4", "+", "2", "*"]) == ("((3 + 4) * 2)", 0)
  {
    RenderNestedBinary(Infix, "3", "4", "+", "2", "*");
    assert FormatBinary(Infix, "+", "3", "4") == "(3 + 4)";
    assert FormatBinary(Infix, "*", "(3 + 4)", "2") == "((3 + 4) * 2)";
  }

  /** `3 4 + 2 *` renders as `{{3 + 4} \cdot 2}`. */
  lemma NestedLatexExample()
    ensures Render(Latex, ["3", "4", "+", "2", "*"]) == ("{{3 + 4} \\cdot 2}", 0)
  {
    RenderNestedBinary(Latex, "3", "4", "+", "2", "*");
    assert FormatBinary(Latex, "+", "3", "4") == "{3 + 4}";
    assert FormatBinary(Latex, "*", "{3 + 4}", "2") == "{{3 + 4} \\cdot 2}";
  }

  /** Two literals followed by a binary operator leave exactly `a OP b`, with the
      first literal as the left operand. */
  lemma TwoLiteralsThenOperator(num: Numerics, a: string, b: string, op: string, x: real, y: real)
    requires !IsOperator(a) && !IsOperator(b) && IsBinary(op)
    requires num.parse(a) == Some(x) && num.parse(b) == Some(y)
    ensures Run(num, Empty, [a, b, op]) == Some(Snapshot([BinaryResult(num, op, x, y)], [a, b, op]))
  {
    var s2 := Snapshot([x, y], [a, b]);
    assert Run(num, Empty, [a, b]) == Some(s2) by {
      RunLiterals(num, Empty, [a, b], [x, y]);
      assert [] + [x, y] == [x, y] && [] + [a, b] == [a, b];
    }
    assert Run(num, Empty, [a, b, op]) == Some(Step(num, s2, op)) by {
      RunSnoc(num, Empty, [a, b], op);
      assert [a, b] + [op] == [a, b, op];
    }
    assert Step(num, s2, op) == Snapshot([BinaryResult(num, op, x, y)], [a, b, op]) by {
      BinaryStep(num, s2, op);
      var r := Step(num, s2, op);
      assert r.stack == [r.stack[0]];
    }
  }

  /** A literal followed by a unary operator leaves exactly the operator's value. */
  lemma LiteralThenUnary(num: Numerics, a: string, op: string, x: real)
    requires !IsOperator(a) && IsUnary(op) && num.parse(a) == Some(x)
    ensures Run(num, Empty, [a, op]) == Some(Snapshot([UnaryResult(num, op, x)], [a, op]))
  {
    var s1 := Snapshot([x], [a]);
    assert Run(num, Empty, [a]) == Some(s1) by {
      RunLiterals(num, Empty, [a], [x]);
      assert [] + [x] == [x] && [] + [a] == [a];
    }
    assert Run(num, Empty, [a, op]) == Some(Step(num, s1, op)) by {
      RunSnoc(num, Empty, [a], op);
      assert [a] + [op] == [a, op];
    }
    assert Step(num, s1, op) == Snapshot([UnaryResult(num, op, x)], [a, op]) by {
      UnaryStep(num, s1, op);
      var r := Step(num, s1, op);
      assert r.stack == [r.stack[0]];
    }
  }

  /** Literals followed by a reduction leave exactly their sum or product. */
  lemma LiteralsThenReduction(num: Numerics, tokens: seq<string>, values: seq<real>, op: string)
    requires |tokens| == |values| && IsReduction(op)
    requires forall i | 0 <= i < |tokens| :: !IsOperator(tokens[i]) && num.parse(tokens[i]) == Some(values[i])
    ensures Run(num, Empty, tokens + [op])
      == Some(Snapshot([if op == "++" then Sum(values) else Product(values)], tokens + [op]))
  {
    assert Run(num, Empty, tokens) == Some(Snapshot(values, tokens)) by {
      RunLiterals(num, Empty, tokens, values);
      assert [] + values == values && [] + tokens == tokens;
    }
    assert Run(num, Empty, tokens + [op]) == Some(Step(num, Snapshot(values, tokens), op)) by {
      RunSnoc(num, Empty, tokens, op);
    }
    ReductionStep(num, Snapshot(values, tokens), op);
  }

  /** `5 1 2 ++ +` is not a history the engine can produce: after `++` the `+` finds
      a single value, where the source panics. */
  lemma MalformedHistoryUnreachable(num: Numerics)
    requires num.parse("5") == Some(5.0) && num.parse("1") == Some(1.0) && num.parse("2") == Some(2.0)
    ensures Run(num, Empty, ["5", "1", "2", "++", "+"]) == None
  {
    var literals := ["5", "1", "2"];
    LiteralsThenReduction(num, literals, [5.0, 1.0, 2.0], "++");
    RunSnoc(num, Empty, literals + ["++"], "+");
    assert literals + ["++"] + ["+"] == ["5", "1", "2", "++", "+"];
  }

  /** A reduction under a binary operator, with nothing left for the left operand:
      `a b c red op` is read as `op` applied to an empty left operand and the
      reduction of `c`, `b`, `a`. */
  lemma RenderReductionUnderBinary(syn: Syntax, a: string, b: string, c: string, red: string, op: string)
    requires !IsOperator(a) && !IsOperator(b) && !IsOperator(c) && IsReduction(red) && IsBinary(op)
    ensures Render(syn, [a, b, c, red, op]) == (FormatBinary(syn, op, "", FormatReduction(syn, red, [c, b, a])), 0)
  {
    var h := [a, b, c, red, op];
    var literals := [a, b, c];
    assert h[..4] == [a, b, c, red] && h[..4][..3] == literals;
    assert RenderTerms(syn, literals) == [c, b, a] by {
      assert literals[..2] == [a, b] && [a, b][..1] == [a] && [a][..0] == [];
      RenderTermsStep(syn, literals);
      RenderTermsStep(syn, [a, b]);
      RenderTermsStep(syn, [a]);
    }
    assert Render(syn, h[..4]) == (FormatReduction(syn, red, [c, b, a]), 0);
    assert Render(syn, h[..4][..0]) == ("", 0);
  }

  /** The infix reconstructor reads `5 1 2 ++ +` as `( + (2 + 1 + 5))`. */
  lemma MalformedHistoryExample()
    ensures Render(Infix, ["5", "1", "2", "++", "+"]) == ("( + (2 + 1 + 5))", 0)
  {
    RenderReductionUnderBinary(Infix, "5", "1", "2", "++", "+");
    assert Join(["2", "1", "5"], " + ") == "2 + 1 + 5";
    assert FormatReduction(Infix, "++", ["2", "1", "5"]) == "(2 + 1 + 5)";
    assert FormatBinary(Infix, "+", "", "(2 + 1 + 5)") == "( + (2 + 1 + 5))";
  }

  lemma AdditionExample(num: Numerics)
    requires num.parse("3") == Some(3.0) && num.parse("7") == Some(7.0)
    ensures Run(num, Empty, ["3", "7", "+"]) == Some(Snapshot([10.0], ["3", "7", "+"]))
  {
    TwoLiteralsThenOperator(num, "3", "7", "+", 3.0, 7.0);
    assert BinaryResult(num, "+", 3.0, 7.0) == 10.0;
  }

  lemma SubtractionExample(num: Numerics)
    requires num.parse("10") == Some(10.0) && num.parse("4") == Some(4.0)
    ensures Run(num, Empty, ["10", "4", "-"]) == Some(Snapshot([6.0], ["10", "4", "-"]))
  {
    TwoLiteralsThenOperator(num, "10", "4", "-", 10.0, 4.0);
    assert BinaryResult(num, "-", 10.0, 4.0) == 6.0;
  }

  lemma MultiplicationExample(num: Numerics)
    requires num.parse("5") == Some(5.0) && num.parse("6") == Some(6.0)
    ensures Run(num, Empty, ["5", "6", "*"]) == Some(Snapshot([30.0], ["5", "6", "*"]))
  {
    TwoLiteralsThenOperator(num, "5", "6", "*", 5.0, 6.0);
    assert BinaryResult(num, "*", 5.0, 6.0) == 30.0;
  }

  lemma DivisionExample(num: Numerics)
    requires num.parse("20") == Some(20.0) && num.parse("4") == Some(4.0)
    ensures Run(num, Empty, ["20", "4", "/"]) == Some(Snapshot([5.0], ["20", "4", "/"]))
  {
    TwoLiteralsThenOperator(num, "20", "4", "/", 20.0, 4.0);
    assert BinaryResult(num, "/", 20.0, 4.0) == 5.0;
  }

  lemma NegativeNumbersExample(num: Numerics)
    requires num.parse("-10") == Some(-10.0) && num.parse("-5") == Some(-5.0)
    ensures Run(num, Empty, ["-10", "-5", "+"]) == Some(Snapshot([-15.0], ["-10", "-5", "+"]))
  {
    TwoLiteralsThenOperator(num, "-10", "-5", "+", -10.0, -5.0);
    assert BinaryResult(num, "+", -10.0, -5.0) == -15.0;
  }

  lemma AbsExample(num: Numerics)
    requires num.parse("-8") == Some(-8.0)
    ensures Run(num, Empty, ["-8", "abs"]) == Some(Snapshot([8.0], ["-8", "abs"]))
  {
    LiteralThenUnary(num, "-8", "abs", -8.0);
    assert UnaryResult(num, "abs", -8.0) == 8.0;
  }

  lemma FactorialExample(num: Numerics)
    requires num.parse("5") == Some(5.0)
    ensures Run(num, Empty, ["5", "!"]) == Some(Snapshot([120.0], ["5", "!"]))
  {
    LiteralThenUnary(num, "5", "!", 5.0);
    FactorialExamples(num);
  }

  lemma FactorialZeroExample(num: Numerics)
    requires num.parse("0") == Some(0.0)
    ensures Run(num, Empty, ["0", "!"]) == Some(Snapshot([1.0], ["0", "!"]))
  {
    LiteralThenUnary(num, "0", "!", 0.0);
    FactorialExamples(num);
  }

  lemma SumAllExample(num: Numerics)
    requires num.parse("2") == Some(2.0) && num.parse("4") == Some(4.0) && num.parse("6") == Some(6.0)
    ensures Run(num, Empty, ["2", "4", "6", "++"]) == Some(Snapshot([12.0], ["2", "4", "6", "++"]))
  {
    LiteralsThenReduction(num, ["2", "4", "6"], [2.0, 4.0, 6.0], "++");
    assert ["2", "4", "6"] + ["++"] == ["2", "4", "6", "++"];
    assert [2.0, 4.0, 6.0][..2] == [2.0, 4.0] && [2.0, 4.0][..1] == [2.0] && [2.0][..0] == [];
  }

  lemma ProductAllExample(num: Numerics)
    requires num.parse("2") == Some(2.0) && num.parse("3") == Some(3.0) && num.parse("4") == Some(4.0)
    ensures Run(num, Empty, ["2", "3", "4", "**"]) == Some(Snapshot([24.0], ["2", "3", "4", "**"]))
  {
    LiteralsThenReduction(num, ["2", "3", "4"], [2.0, 3.0, 4.0], "**");
    assert ["2", "3", "4"] + ["**"] == ["2", "3", "4", "**"];
    assert [2.0, 3.0, 4.0][..2] == [2.0, 3.0] && [2.0, 3.0][..1] == [2.0] && [2.0][..0] == [];
  }

  /** After 7, the invalid token foo leaves the stack [7] and the history [7]. */
  lemma InvalidTokenExample(num: Numerics)
    requires num.parse("7") == Some(7.0) && num.parse("foo") == None
    ensures Run(num, Empty, ["7", "foo"]) == Some(Snapshot([7.0], ["7"]))
  {
    assert Run(num, Empty, ["7"]) == Some(Snapshot([7.0], ["7"])) by {
      RunLiterals(num, Empty, ["7"], [7.0]);
      assert [] + [7.0] == [7.0] && [] + ["7"] == ["7"];
    }
    assert Run(num, Empty, ["7", "foo"]) == Some(Step(num, Snapshot([7.0], ["7"]), "foo")) by {
      RunSnoc(num, Empty, ["7"], "foo");
      assert ["7"] + ["foo"] == ["7", "foo"];
    }
    InvalidTokenIsNoOp(num, Snapshot([7.0], ["7"]), "foo");
  }

  /** Reconstruction is destructive: when the stack holds one value, the first call
      rebuilds the whole expression and empties the history, so a second call on the
      same engine yields the empty string. */
  method ReconstructTwice(c: Calculator, ghost forest: seq<Expr>) returns (first: string, second: string)
    requires Represents(c.num, forest, Snapshot(c.stack, c.history)) && |forest| == 1
    modifies c
    ensures first == Show(Infix, forest[0]) && second == ""
    ensures c.history == [] && c.stack == old(c.stack)
  {
    RenderReadsLastTree(c.num, Infix, forest, Snapshot(c.stack, c.history));
    assert forest[..0] == [];
    first := c.ReconstructInfix();
    second := c.ReconstructInfix();
  }

  /** A fresh engine given 42 reports the result 42. */
  method NewNumberSession(num: Numerics) returns (r: Option<real>)
    requires num.parse("42") == Some(42.0)
    ensures r == Some(42.0)
  {
    var c := new Calculator(num);
    c.Apply("42");
    r := c.GetResult();
  }

  /** 7 followed by the invalid token foo still reports the result 7. */
  method InvalidInputSession(num: Numerics) returns (r: Option<real>)
    requires num.parse("7") == Some(7.0) && num.parse("foo") == None
    ensures r == Some(7.0)
  {
    var c := new Calculator(num);
    c.Apply("7");
    c.Apply("foo");
    r := c.GetResult();
  }

  /** Feeding a parseable literal to an engine pushes its value and records it. */
  method PushLiteral(c: Calculator, a: string, x: real)
    requires !IsOperator(a) && c.num.parse(a) == Some(x)
    modifies c
    ensures c.stack == old(c.stack) + [x] && c.history == old(c.history) + [a]
  {
    LiteralStep(c.num, Snapshot(c.stack, c.history), a);
    c.Apply(a);
  }

  /** Feeding a binary operator to an engine holding two values leaves their result. */
  method ApplyBinary(c: Calculator, op: string, x: real, y: real)
    requires IsBinary(op) && c.stack == [x, y]
    modifies c
    ensures c.stack == [BinaryResult(c.num, op, x, y)] && c.history == old(c.history) + [op]
  {
    ghost var r := Step(c.num, Snapshot(c.stack, c.history), op);
    BinaryStep(c.num, Snapshot(c.stack, c.history), op);
    assert r.stack == [r.stack[0]];
    c.Apply(op);
  }

  /** Two literals and a binary operator, reconstructed on a clone: the clone renders
      the one operation and the engine still reports its value. */
  method BinarySession(num: Numerics, a: string, b: string, op: string, x: real, y: real)
    returns (s: string, r: Option<real>)
    requires !IsOperator(a) && !IsOperator(b) && IsBinary(op)
    requires num.parse(a) == Some(x) && num.parse(b) == Some(y)
    ensures s == FormatBinary(Infix, op, a, b) && r == Some(BinaryResult(num, op, x, y))
  {
    var c := new Calculator(num);
    PushLiteral(c, a, x);
    PushLiteral(c, b, y);
    ApplyBinary(c, op, x, y);
    RenderBinaryOfLiterals(Infix, a, b, op);
    var copy := c.Clone();
    s := copy.ReconstructInfix();
    r := c.GetResult();
  }

  /** 3 4 + reconstructed on a clone gives (3 + 4) and leaves the engine intact. */
  method InfixSession(num: Numerics) returns (s: string, r: Option<real>)
    requires num.parse("3") == Some(3.0) && num.parse("4") == Some(4.0)
    ensures s == "(3 + 4)" && r == Some(7.0)
  {
    s, r := BinarySession(num, "3", "4", "+", 3.0, 4.0);
  }
}

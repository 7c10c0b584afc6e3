/** The evaluator/history engine: a numeric stack and the log of accepted tokens,
    changed one token at a time. */
module Engine {
  import opened Tokens
  import opened Arithmetic
  import opened Reconstruction

  /** The two vectors of a calculator, as values. */
  datatype Snapshot = Snapshot(stack: seq<real>, history: seq<string>)

  /** The operands `token` pops are present; otherwise the source panics on `unwrap`. */
  predicate HasOperands(depth: nat, token: string) {
    && (IsBinary(token) ==> depth >= 2)
    && (IsUnary(token) ==> depth >= 1)
  }

  /** A token the dispatcher keeps in the history: an operator or a parseable literal. */
  predicate Accepted(num: Numerics, token: string) {
    IsOperator(token) || IsNumber(num, token)
  }

  /** The effect of applying one token. */
  function Step(num: Numerics, s: Snapshot, token: string): (r: Snapshot)
    requires HasOperands(|s.stack|, token)
    ensures Accepted(num, token) ==> r.history == s.history + [token]
    ensures !Accepted(num, token) ==> r == s
  {
    var n := |s.stack|;
    var history := s.history + [token];
    if IsBinary(token) then
      Snapshot(s.stack[..n - 2] + [BinaryResult(num, token, s.stack[n - 2], s.stack[n - 1])], history)
    else if IsUnary(token) then
      Snapshot(s.stack[..n - 1] + [UnaryResult(num, token, s.stack[n - 1])], history)
    else if token == "++" then
      Snapshot([Sum(s.stack)], history)
    else if token == "**" then
      Snapshot([Product(s.stack)], history)
    else
      match num.parse(token)
      case Some(v) => Snapshot(s.stack + [v], history)
      case None => s
  }

  /** Applies `tokens` in order, as the interactive loop does; None where the source
      would panic for want of operands. */
  function Run(num: Numerics, s: Snapshot, tokens: seq<string>): Option<Snapshot>
    decreases |tokens|
  {
    if tokens == [] then Some(s)
    else if !HasOperands(|s.stack|, tokens[0]) then None
    else Run(num, Step(num, s, tokens[0]), tokens[1..])
  }

  /** Running one more token is one more step, or a panic when its operands are
      missing. */
  lemma {:induction false} RunSnoc(num: Numerics, s: Snapshot, tokens: seq<string>, token: string)
    requires Run(num, s, tokens).Some?
    ensures var t := Run(num, s, tokens).value;
      Run(num, s, tokens + [token])
        == if HasOperands(|t.stack|, token) then Some(Step(num, t, token)) else None
    decreases |tokens|
  {
    if tokens == [] {
      assert [] + [token] == [token];
      assert [token][1..] == [];
    } else {
      assert (tokens + [token])[1..] == tokens[1..] + [token];
      RunSnoc(num, Step(num, s, tokens[0]), tokens[1..], token);
    }
  }

  /** Literals alone push their values in order and are all recorded. */
  lemma {:induction false} RunLiterals(num: Numerics, s: Snapshot, tokens: seq<string>, values: seq<real>)
    requires |tokens| == |values|
    requires forall i | 0 <= i < |tokens| :: !IsOperator(tokens[i]) && num.parse(tokens[i]) == Some(values[i])
    ensures Run(num, s, tokens) == Some(Snapshot(s.stack + values, s.history + tokens))
    decreases |tokens|
  {
    if tokens == [] {
      assert s.stack + values == s.stack && s.history + tokens == s.history;
    } else {
      var n := |tokens| - 1;
      var t := Snapshot(s.stack + values[..n], s.history + tokens[..n]);
      assert Run(num, s, tokens) == Some(Step(num, t, tokens[n])) by {
        RunLiterals(num, s, tokens[..n], values[..n]);
        RunSnoc(num, s, tokens[..n], tokens[n]);
        assert tokens[..n] + [tokens[n]] == tokens;
      }
      assert Step(num, t, tokens[n]) == Snapshot(s.stack + values, s.history + tokens) by {
        LiteralStep(num, t, tokens[n]);
        assert s.stack + values[..n] + [values[n]] == s.stack + values;
        assert s.history + tokens[..n] + [tokens[n]] == s.history + tokens;
      }
    }
  }

  /** Every history entry is an operator or a literal the parser accepts. */
  predicate HistoryWellFormed(num: Numerics, h: seq<string>) {
    forall i | 0 <= i < |h| :: Accepted(num, h[i])
  }

  /** An invalid token leaves stack and history exactly as they were. */
  lemma InvalidTokenIsNoOp(num: Numerics, s: Snapshot, token: string)
    requires !IsOperator(token) && num.parse(token) == None
    ensures Step(num, s, token) == s
  {
  }

  /** A binary operator replaces the top two values `a, b` (b on top) by `a OP b`,
      shrinking the stack by one and keeping everything below. */
  lemma BinaryStep(num: Numerics, s: Snapshot, token: string)
    requires IsBinary(token) && |s.stack| >= 2
    ensures var r := Step(num, s, token); var n := |s.stack|;
      && |r.stack| == n - 1
      && r.stack[..n - 2] == s.stack[..n - 2]
      && r.stack[n - 2] == BinaryResult(num, token, s.stack[n - 2], s.stack[n - 1])
      && r.history == s.history + [token]
  {
  }

  /** A unary operator keeps the stack length and changes only the top value. */
  lemma UnaryStep(num: Numerics, s: Snapshot, token: string)
    requires IsUnary(token) && |s.stack| >= 1
    ensures var r := Step(num, s, token); var n := |s.stack|;
      && |r.stack| == n
      && r.stack[..n - 1] == s.stack[..n - 1]
      && r.stack[n - 1] == UnaryResult(num, token, s.stack[n - 1])
      && r.history == s.history + [token]
  {
  }

  /** `++` and `**` leave exactly one value: the sum or product of the old stack. */
  lemma ReductionStep(num: Numerics, s: Snapshot, token: string)
    requires IsReduction(token)
    ensures var r := Step(num, s, token);
      && r.stack == [if token == "++" then Sum(s.stack) else Product(s.stack)]
      && r.history == s.history + [token]
    ensures |s.stack| == 1 ==> Step(num, s, token).stack == s.stack
    ensures s.stack == [] ==> Step(num, s, token).stack == [if token == "++" then 0.0 else 1.0]
  {
    if |s.stack| == 1 {
      assert s.stack == [] + [s.stack[0]];
    }
  }

  /** A literal the parser accepts is pushed, everything else stays. */
  lemma LiteralStep(num: Numerics, s: Snapshot, token: string)
    requires !IsOperator(token) && num.parse(token).Some?
    ensures Step(num, s, token) == Snapshot(s.stack + [num.parse(token).value], s.history + [token])
  {
  }

  /** One step keeps the history invariant. */
  lemma StepKeepsHistoryWellFormed(num: Numerics, s: Snapshot, token: string)
    requires HasOperands(|s.stack|, token) && HistoryWellFormed(num, s.history)
    ensures HistoryWellFormed(num, Step(num, s, token).history)
  {
  }

  /** The history invariant holds after any run that does not underflow. */
  lemma {:induction false} RunKeepsHistoryWellFormed(num: Numerics, s: Snapshot, tokens: seq<string>)
    requires HistoryWellFormed(num, s.history)
    requires Run(num, s, tokens).Some?
    ensures HistoryWellFormed(num, Run(num, s, tokens).value.history)
    ensures s.history <= Run(num, s, tokens).value.history
    decreases |tokens|
  {
    if tokens != [] {
      StepKeepsHistoryWellFormed(num, s, tokens[0]);
      RunKeepsHistoryWellFormed(num, Step(num, s, tokens[0]), tokens[1..]);
    }
  }

  class Calculator {
    const num: Numerics
    var stack: seq<real>
    var history: seq<string>

    constructor (num: Numerics)
      ensures this.num == num && stack == [] && history == []
    {
      this.num := num;
      stack := [];
      history := [];
    }

    /** The derived `clone`: an independent engine with the same state. */
    method Clone() returns (c: Calculator)
      ensures fresh(c)
      ensures c.num == num && c.stack == stack && c.history == history
    {
      c := new Calculator(num);
      c.stack := stack;
      c.history := history;
    }

    /** Dispatches one token: records it, then transforms the stack or pushes the
        literal, and takes the record back if the token is invalid. */
    method Apply(token: string)
      requires HasOperands(|stack|, token)
      modifies this
      ensures Snapshot(stack, history) == Step(num, old(Snapshot(stack, history)), token)
    {
      history := history + [token];
      if IsBinary(token) {
        ArithmeticOperation(token);
      } else if IsTranscendental(token) {
        TranscendentalOperation(token);
      } else if token == "!" {
        FactorialOperation();
      } else if token == "++" {
        FullStackAddition();
      } else if token == "**" {
        FullStackMultiplication();
      } else {
        match num.parse(token) {
          case Some(_) =>
            NewNumber(token);
          case None =>
            history := history[..|history| - 1];
        }
      }
    }

    method ArithmeticOperation(token: string)
      requires IsBinary(token) && |stack| >= 2
      modifies this`stack
      ensures var n := |old(stack)|;
        stack == old(stack)[..n - 2] + [BinaryResult(num, token, old(stack)[n - 2], old(stack)[n - 1])]
    {
      var b := stack[|stack| - 1];
      stack := stack[..|stack| - 1];
      var a := stack[|stack| - 1];
      stack := stack[..|stack| - 1];
      var result := BinaryResult(num, token, a, b);
      stack := stack + [result];
    }

    method TranscendentalOperation(token: string)
      requires IsTranscendental(token) && |stack| >= 1
      modifies this`stack
      ensures var n := |old(stack)|;
        stack == old(stack)[..n - 1] + [UnaryResult(num, token, old(stack)[n - 1])]
    {
      var a := stack[|stack| - 1];
      stack := stack[..|stack| - 1];
      var result := match token
        case "sqrt" => num.sqrt(a)
        case "log" => num.log10(a)
        case "abs" => Abs(a);
      stack := stack + [result];
    }

    method FactorialOperation()
      requires |stack| >= 1
      modifies this`stack
      ensures var n := |old(stack)|;
        stack == old(stack)[..n - 1] + [Factorial(Truncate(old(stack)[n - 1])) as real]
    {
      var a := stack[|stack| - 1];
      stack := stack[..|stack| - 1];
      var k := Truncate(a);
      var product := 1;
      var i := 1;
      while i <= k
        invariant 1 <= i <= k + 1
        invariant product == Factorial(i - 1)
      {
        product := product * i;
        i := i + 1;
      }
      stack := stack + [product as real];
    }

    method FullStackAddition()
      modifies this`stack
      ensures stack == [Sum(old(stack))]
    {
      var result := 0.0;
      var i := 0;
      while i < |stack|
        invariant 0 <= i <= |stack|
        invariant result == Sum(stack[..i])
      {
        assert stack[..i + 1][..i] == stack[..i];
        result := result + stack[i];
        i := i + 1;
      }
      assert stack[..i] == stack;
      stack := [];
      stack := stack + [result];
    }

    method FullStackMultiplication()
      modifies this`stack
      ensures stack == [Product(old(stack))]
    {
      var result := 1.0;
      var i := 0;
      while i < |stack|
        invariant 0 <= i <= |stack|
        invariant result == Product(stack[..i])
      {
        assert stack[..i + 1][..i] == stack[..i];
        result := result * stack[i];
        i := i + 1;
      }
      assert stack[..i] == stack;
      stack := [];
      stack := stack + [result];
    }

    method NewNumber(token: string)
      modifies this`stack
      ensures num.parse(token).Some? ==> stack == old(stack) + [num.parse(token).value]
      ensures num.parse(token).None? ==> stack == old(stack)
    {
      match num.parse(token) {
        case Some(v) =>
          stack := stack + [v];
        case None =>
      }
    }

    /** The value of a complete expression: present exactly when one value is left. */
    method GetResult() returns (r: Option<real>)
      ensures r.Some? <==> |stack| == 1
      ensures r.Some? ==> r.value == stack[0]
    {
      if |stack| == 1 {
        r := Some(stack[|stack| - 1]);
      } else {
        r := None;
      }
    }

    /** Pops the history from its end and rebuilds one expression. */
    method Reconstruct(syn: Syntax) returns (s: string)
      modifies this`history
      ensures (s, |history|) == Render(syn, old(history))
      ensures history == old(history)[..|history|]
      decreases |history|, 0
    {
      if history == [] {
        return "";
      }
      ghost var h := history;
      var token := history[|history| - 1];
      history := history[..|history| - 1];
      if IsBinary(token) {
        var right := Reconstruct(syn);
        ghost var h1 := history;
        var left := Reconstruct(syn);
        assert h[..|h| - 1][..|h1|][..|history|] == h[..|history|];
        s := FormatBinary(syn, token, left, right);
        assert (s, |history|) == Render(syn, h);
      } else if IsReduction(token) {
        var terms := ReconstructTerms(syn);
        s := FormatReduction(syn, token, terms);
      } else if IsUnary(token) {
        var operand := Reconstruct(syn);
        assert h[..|h| - 1][..|history|] == h[..|history|];
        s := FormatUnary(syn, token, operand);
        assert (s, |history|) == Render(syn, h);
      } else {
        s := token;
        assert (s, |history|) == Render(syn, h);
      }
    }

    /** The loop of the reduction case: reconstructs expressions until the history is empty. */
    method ReconstructTerms(syn: Syntax) returns (terms: seq<string>)
      modifies this`history
      ensures terms == RenderTerms(syn, old(history))
      ensures history == []
      decreases |history|, 1
    {
      ghost var h0 := history;
      terms := [];
      while history != []
        invariant |history| <= |h0| && history == h0[..|history|]
        invariant terms + RenderTerms(syn, history) == RenderTerms(syn, h0)
        decreases |history|
      {
        ghost var h := history;
        var term := Reconstruct(syn);
        RenderTermsAfterRead(syn, h0, h, terms, term, history);
        terms := terms + [term];
      }
      assert terms + [] == terms;
    }

    method ReconstructInfix() returns (s: string)
      modifies this`history
      ensures (s, |history|) == Render(Infix, old(history))
      ensures history == old(history)[..|history|]
    {
      s := Reconstruct(Infix);
    }

    method ReconstructLatex() returns (s: string)
      modifies this`history
      ensures (s, |history|) == Render(Latex, old(history))
      ensures history == old(history)[..|history|]
    {
      s := Reconstruct(Latex);
    }
  }
}

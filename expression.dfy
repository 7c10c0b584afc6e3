/** The history as a postfix encoding of expression trees. Every history the engine
    builds from an empty start is the concatenated postfix form of a forest of trees,
    one per stack value, whose values are the stack; the reconstructor reads the last
    tree back. */
module Expression {
  import opened Tokens
  import opened Arithmetic
  import opened Reconstruction
  import opened Engine

  datatype Expr =
    | Literal(token: string)
    | Binary(op: string, left: Expr, right: Expr)
    | Unary(op: string, operand: Expr)
    | Reduction(op: string, terms: seq<Expr>)

  /** Operators sit in the right constructors and no literal is an operator token. */
  predicate Shaped(e: Expr) {
    match e
    case Literal(t) => !IsOperator(t)
    case Binary(op, l, r) => IsBinary(op) && Shaped(l) && Shaped(r)
    case Unary(op, x) => IsUnary(op) && Shaped(x)
    case Reduction(op, ts) => IsReduction(op) && forall i | 0 <= i < |ts| :: Shaped(ts[i])
  }

  /** Every literal of `e` is accepted by the parser. */
  predicate Parses(num: Numerics, e: Expr) {
    match e
    case Literal(t) => IsNumber(num, t)
    case Binary(_, l, r) => Parses(num, l) && Parses(num, r)
    case Unary(_, x) => Parses(num, x)
    case Reduction(_, ts) => forall i | 0 <= i < |ts| :: Parses(num, ts[i])
  }

  predicate Evaluable(num: Numerics, e: Expr) {
    Shaped(e) && Parses(num, e)
  }

  /** The tokens that, applied in order, push the value of `e`. */
  function Postfix(e: Expr): seq<string> {
    match e
    case Literal(t) => [t]
    case Binary(op, l, r) => Postfix(l) + Postfix(r) + [op]
    case Unary(op, x) => Postfix(x) + [op]
    case Reduction(op, ts) => PostfixAll(ts) + [op]
  }

  function PostfixAll(ts: seq<Expr>): seq<string> {
    if ts == [] then [] else PostfixAll(ts[..|ts| - 1]) + Postfix(ts[|ts| - 1])
  }

  function Eval(num: Numerics, e: Expr): real
    requires Evaluable(num, e)
  {
    match e
    case Literal(t) => num.parse(t).value
    case Binary(op, l, r) => BinaryResult(num, op, Eval(num, l), Eval(num, r))
    case Unary(op, x) => UnaryResult(num, op, Eval(num, x))
    case Reduction(op, ts) =>
      if op == "++" then Sum(EvalAll(num, ts)) else Product(EvalAll(num, ts))
  }

  function EvalAll(num: Numerics, ts: seq<Expr>): (vs: seq<real>)
    requires forall i | 0 <= i < |ts| :: Evaluable(num, ts[i])
    ensures |vs| == |ts|
  {
    seq(|ts|, i requires 0 <= i < |ts| => Eval(num, ts[i]))
  }

  /** The rendering of a tree; reduction operands appear last one first, the order
      in which the reconstructor pops them. */
  function Show(syn: Syntax, e: Expr): string
    requires Shaped(e)
  {
    match e
    case Literal(t) => t
    case Binary(op, l, r) => FormatBinary(syn, op, Show(syn, l), Show(syn, r))
    case Unary(op, x) => FormatUnary(syn, op, Show(syn, x))
    case Reduction(op, ts) => FormatReduction(syn, op, ShowTerms(syn, ts))
  }

  function ShowTerms(syn: Syntax, ts: seq<Expr>): seq<string>
    requires forall i | 0 <= i < |ts| :: Shaped(ts[i])
  {
    if ts == [] then [] else [Show(syn, ts[|ts| - 1])] + ShowTerms(syn, ts[..|ts| - 1])
  }

  predicate ReductionFree(e: Expr) {
    match e
    case Literal(_) => true
    case Binary(_, l, r) => ReductionFree(l) && ReductionFree(r)
    case Unary(_, x) => ReductionFree(x)
    case Reduction(_, _) => false
  }

  /** Reductions occur only on the leftmost path of `e`. */
  predicate ReductionsLeading(e: Expr) {
    match e
    case Literal(_) => true
    case Binary(_, l, r) => ReductionsLeading(l) && ReductionFree(r)
    case Unary(_, x) => ReductionsLeading(x)
    case Reduction(_, ts) => LeadingOnly(ts)
  }

  /** Only the first tree of `ts` may hold reductions, and only on its leftmost path. */
  predicate LeadingOnly(ts: seq<Expr>) {
    ts == [] || (ReductionsLeading(ts[0]) && forall i | 1 <= i < |ts| :: ReductionFree(ts[i]))
  }

  /** One unfolding of `Render` at a binary operator whose right operand is read from
      `a + b` and stops at `a`. */
  lemma RenderBinaryStep(syn: Syntax, a: seq<string>, b: seq<string>, op: string, left: string, right: string, k: nat)
    requires IsBinary(op)
    requires Render(syn, a + b) == (right, |a|)
    requires Render(syn, a) == (left, k)
    ensures Render(syn, a + b + [op]) == (FormatBinary(syn, op, left, right), k)
  {
    var h := a + b + [op];
    assert h[..|h| - 1] == a + b;
    assert (a + b)[..|a|] == a;
  }

  /** One unfolding of `Render` at a unary operator. */
  lemma RenderUnaryStep(syn: Syntax, a: seq<string>, op: string, operand: string, k: nat)
    requires IsUnary(op)
    requires Render(syn, a) == (operand, k)
    ensures Render(syn, a + [op]) == (FormatUnary(syn, op, operand), k)
  {
    var h := a + [op];
    assert h[..|h| - 1] == a;
  }

  /** A reduction-free tree is read back exactly, whatever history precedes it. */
  lemma {:induction false} RenderReductionFree(syn: Syntax, p: seq<string>, e: Expr)
    requires Shaped(e) && ReductionFree(e)
    ensures Render(syn, p + Postfix(e)) == (Show(syn, e), |p|)
    decreases e
  {
    match e
    case Literal(t) =>
      assert (p + [t])[|p|] == t;
    case Binary(op, l, r) =>
      var a := p + Postfix(l);
      assert p + Postfix(e) == a + Postfix(r) + [op];
      RenderReductionFree(syn, a, r);
      RenderReductionFree(syn, p, l);
      RenderBinaryStep(syn, a, Postfix(r), op, Show(syn, l), Show(syn, r), |p|);
    case Unary(op, x) =>
      var a := p + Postfix(x);
      assert p + Postfix(e) == a + [op];
      RenderReductionFree(syn, p, x);
      RenderUnaryStep(syn, a, op, Show(syn, x), |p|);
  }

  /** A tree whose reductions are on its leftmost path is read back exactly when it
      is the whole history. */
  lemma {:induction false} RenderReductionsLeading(syn: Syntax, e: Expr)
    requires Shaped(e) && ReductionsLeading(e)
    ensures Render(syn, Postfix(e)) == (Show(syn, e), 0)
  {
    match e
    case Literal(t) =>
    case Binary(op, l, r) =>
      RenderReductionFree(syn, Postfix(l), r);
      RenderReductionsLeading(syn, l);
      RenderBinaryStep(syn, Postfix(l), Postfix(r), op, Show(syn, l), Show(syn, r), 0);
    case Unary(op, x) =>
      RenderReductionsLeading(syn, x);
      RenderUnaryStep(syn, Postfix(x), op, Show(syn, x), 0);
    case Reduction(op, ts) =>
      var h := Postfix(e);
      assert h[..|h| - 1] == PostfixAll(ts);
      RenderTermsLeadingOnly(syn, ts);
  }

  /** The reduction loop reads every tree of a forest back, last one first. */
  lemma {:induction false} RenderTermsLeadingOnly(syn: Syntax, ts: seq<Expr>)
    requires forall i | 0 <= i < |ts| :: Shaped(ts[i])
    requires LeadingOnly(ts)
    ensures RenderTerms(syn, PostfixAll(ts)) == ShowTerms(syn, ts)
  {
    if ts != [] {
      var k := |ts|;
      var init := ts[..k - 1];
      var h := PostfixAll(ts);
      if k == 1 {
        assert PostfixAll(init) == [];
        assert h == PostfixAll(init) + Postfix(ts[0]);
        RenderReductionsLeading(syn, ts[0]);
        assert h[..0] == [];
      } else {
        RenderReductionFree(syn, PostfixAll(init), ts[k - 1]);
        assert h[..|PostfixAll(init)|] == PostfixAll(init);
        assert init[0] == ts[0];
        RenderTermsLeadingOnly(syn, init);
      }
    }
  }

  /** The engine state is the forest `forest`: the history is its postfix form and the
      stack its values. */
  ghost predicate Represents(num: Numerics, forest: seq<Expr>, s: Snapshot) {
    && (forall i | 0 <= i < |forest| :: Evaluable(num, forest[i]))
    && LeadingOnly(forest)
    && s.history == PostfixAll(forest)
    && s.stack == EvalAll(num, forest)
  }

  /** The effect of one token on the forest. */
  function StepForest(num: Numerics, forest: seq<Expr>, token: string): (f: seq<Expr>)
    requires HasOperands(|forest|, token)
  {
    var k := |forest|;
    if IsBinary(token) then forest[..k - 2] + [Binary(token, forest[k - 2], forest[k - 1])]
    else if IsUnary(token) then forest[..k - 1] + [Unary(token, forest[k - 1])]
    else if IsReduction(token) then [Reduction(token, forest)]
    else if IsNumber(num, token) then forest + [Literal(token)]
    else forest
  }

  lemma PostfixAllSnoc(ts: seq<Expr>, e: Expr)
    ensures PostfixAll(ts + [e]) == PostfixAll(ts) + Postfix(e)
  {
    assert (ts + [e])[..|ts|] == ts;
  }

  lemma EvalAllSnoc(num: Numerics, ts: seq<Expr>, e: Expr)
    requires forall i | 0 <= i < |ts| :: Evaluable(num, ts[i])
    requires Evaluable(num, e)
    ensures EvalAll(num, ts + [e]) == EvalAll(num, ts) + [Eval(num, e)]
  {
    var u := ts + [e];
    assert forall i | 0 <= i < |ts| :: u[i] == ts[i];
  }

  lemma EvalAllPrefix(num: Numerics, ts: seq<Expr>, j: nat)
    requires forall i | 0 <= i < |ts| :: Evaluable(num, ts[i])
    requires j <= |ts|
    ensures EvalAll(num, ts[..j]) == EvalAll(num, ts)[..j]
  {
  }

  /** Replacing the last trees of a forest by `e` whose postfix form is theirs followed
      by `op` appends `op` to the forest's postfix form. */
  lemma PostfixReplaceTail(forest: seq<Expr>, j: nat, e: Expr, op: string)
    requires j <= |forest|
    requires Postfix(e) == PostfixAll(forest[j..]) + [op]
    ensures PostfixAll(forest[..j] + [e]) == PostfixAll(forest) + [op]
  {
    PostfixAllSnoc(forest[..j], e);
    PostfixAllSplit(forest, j);
  }

  lemma {:induction false} PostfixAllSplit(ts: seq<Expr>, j: nat)
    requires j <= |ts|
    ensures PostfixAll(ts) == PostfixAll(ts[..j]) + PostfixAll(ts[j..])
    decreases |ts|
  {
    if j < |ts| {
      var n := |ts| - 1;
      PostfixAllSplit(ts[..n], j);
      assert ts[..n][..j] == ts[..j];
      assert ts[j..][..|ts[j..]| - 1] == ts[..n][j..];
      assert ts[j..][|ts[j..]| - 1] == ts[n];
    } else {
      assert ts[..j] == ts;
      assert ts[j..] == [];
    }
  }

  lemma PostfixAllPair(ts: seq<Expr>)
    requires |ts| == 2
    ensures PostfixAll(ts) == Postfix(ts[0]) + Postfix(ts[1])
  {
    var first := ts[..1];
    assert first[..0] == [] && first[0] == ts[0];
    assert PostfixAll(first) == [] + Postfix(ts[0]);
    assert PostfixAll(ts) == PostfixAll(first) + Postfix(ts[1]);
  }

  /** Replacing the last trees of a forest by one tree keeps the forest well formed as
      long as the new tree is reduction-free or becomes the first tree. */
  lemma LeadingReplaceTail(num: Numerics, forest: seq<Expr>, j: nat, e: Expr)
    requires forall i | 0 <= i < |forest| :: Evaluable(num, forest[i])
    requires LeadingOnly(forest) && j <= |forest| && Evaluable(num, e)
    requires j == 0 ==> ReductionsLeading(e)
    requires j > 0 ==> ReductionFree(e)
    ensures var f := forest[..j] + [e];
      (forall i | 0 <= i < |f| :: Evaluable(num, f[i])) && LeadingOnly(f)
  {
    var f := forest[..j] + [e];
    if j > 0 {
      assert f[0] == forest[0];
    }
    assert forall i | 1 <= i < |f| :: ReductionFree(f[i]) by {
      forall i | 1 <= i < |f|
        ensures ReductionFree(f[i])
      {
        if i < j {
          assert f[i] == forest[i];
        }
      }
    }
  }

  /** Replacing the last trees of a forest by `e` keeps the values below them. */
  lemma EvalReplaceTail(num: Numerics, forest: seq<Expr>, j: nat, e: Expr)
    requires forall i | 0 <= i < |forest| :: Evaluable(num, forest[i])
    requires j <= |forest| && Evaluable(num, e)
    ensures forall i | 0 <= i < |forest[..j] + [e]| :: Evaluable(num, (forest[..j] + [e])[i])
    ensures EvalAll(num, forest[..j] + [e]) == EvalAll(num, forest)[..j] + [Eval(num, e)]
  {
    EvalAllSnoc(num, forest[..j], e);
    EvalAllPrefix(num, forest, j);
  }

  /** A binary operator joins the last two trees: the postfix form gains the operator
      and the values below the top two are kept. */
  lemma ForestBinary(num: Numerics, forest: seq<Expr>, token: string)
    requires forall i | 0 <= i < |forest| :: Evaluable(num, forest[i])
    requires LeadingOnly(forest) && IsBinary(token) && |forest| >= 2
    ensures var k := |forest|; var f := forest[..k - 2] + [Binary(token, forest[k - 2], forest[k - 1])];
      && (forall i | 0 <= i < |f| :: Evaluable(num, f[i]))
      && LeadingOnly(f)
      && PostfixAll(f) == PostfixAll(forest) + [token]
      && EvalAll(num, f) == EvalAll(num, forest)[..k - 2]
        + [BinaryResult(num, token, Eval(num, forest[k - 2]), Eval(num, forest[k - 1]))]
  {
    var k := |forest|;
    var low := forest[..k - 2];
    var b := Binary(token, forest[k - 2], forest[k - 1]);
    assert PostfixAll(low + [b]) == PostfixAll(forest) + [token] by {
      PostfixAllPair(forest[k - 2..]);
      PostfixReplaceTail(forest, k - 2, b, token);
    }
    assert Evaluable(num, b) by {
      assert Evaluable(num, forest[k - 2]) && Evaluable(num, forest[k - 1]);
    }
    assert k - 2 == 0 ==> ReductionsLeading(b) by {
      if k == 2 {
        assert ReductionsLeading(forest[0]) && ReductionFree(forest[1]);
      }
    }
    assert k - 2 > 0 ==> ReductionFree(b) by {
      if k > 2 {
        assert ReductionFree(forest[k - 2]) && ReductionFree(forest[k - 1]);
      }
    }
    LeadingReplaceTail(num, forest, k - 2, b);
    EvalReplaceTail(num, forest, k - 2, b);
  }

  /** A binary operator joins the last two trees, and its value replaces their two
      values on the stack. */
  lemma BinaryRepresents(num: Numerics, forest: seq<Expr>, s: Snapshot, token: string)
    requires Represents(num, forest, s) && IsBinary(token) && |forest| >= 2
    ensures var k := |forest|;
      Represents(num, forest[..k - 2] + [Binary(token, forest[k - 2], forest[k - 1])],
        Snapshot(s.stack[..k - 2] + [BinaryResult(num, token, s.stack[k - 2], s.stack[k - 1])], s.history + [token]))
  {
    ForestBinary(num, forest, token);
    var k := |forest|;
    assert s.stack[k - 2] == Eval(num, forest[k - 2]) && s.stack[k - 1] == Eval(num, forest[k - 1]);
  }

  /** A unary operator wraps the last tree: the postfix form gains the operator and
      only the top value changes. */
  lemma ForestUnary(num: Numerics, forest: seq<Expr>, token: string)
    requires forall i | 0 <= i < |forest| :: Evaluable(num, forest[i])
    requires LeadingOnly(forest) && IsUnary(token) && |forest| >= 1
    ensures var k := |forest|; var f := forest[..k - 1] + [Unary(token, forest[k - 1])];
      && (forall i | 0 <= i < |f| :: Evaluable(num, f[i]))
      && LeadingOnly(f)
      && PostfixAll(f) == PostfixAll(forest) + [token]
      && EvalAll(num, f) == EvalAll(num, forest)[..k - 1] + [UnaryResult(num, token, Eval(num, forest[k - 1]))]
  {
    var k := |forest|;
    var low := forest[..k - 1];
    var u := Unary(token, forest[k - 1]);
    assert PostfixAll(low + [u]) == PostfixAll(forest) + [token] by {
      PostfixAllSnoc([], forest[k - 1]);
      assert [] + [forest[k - 1]] == forest[k - 1..];
      PostfixReplaceTail(forest, k - 1, u, token);
    }
    assert Evaluable(num, u) by {
      assert Evaluable(num, forest[k - 1]);
    }
    assert k - 1 == 0 ==> ReductionsLeading(u) by {
      if k == 1 {
        assert ReductionsLeading(forest[0]);
      }
    }
    assert k - 1 > 0 ==> ReductionFree(u) by {
      if k > 1 {
        assert ReductionFree(forest[k - 1]);
      }
    }
    LeadingReplaceTail(num, forest, k - 1, u);
    EvalReplaceTail(num, forest, k - 1, u);
  }

  /** A unary operator wraps the last tree, and its value replaces the top value. */
  lemma UnaryRepresents(num: Numerics, forest: seq<Expr>, s: Snapshot, token: string)
    requires Represents(num, forest, s) && IsUnary(token) && |forest| >= 1
    ensures var k := |forest|;
      Represents(num, forest[..k - 1] + [Unary(token, forest[k - 1])],
        Snapshot(s.stack[..k - 1] + [UnaryResult(num, token, s.stack[k - 1])], s.history + [token]))
  {
    ForestUnary(num, forest, token);
    var k := |forest|;
    assert s.stack[k - 1] == Eval(num, forest[k - 1]);
  }

  /** A reduction makes the whole forest one tree whose value is the sum or product
      of the stack. */
  lemma ReductionRepresents(num: Numerics, forest: seq<Expr>, s: Snapshot, token: string)
    requires Represents(num, forest, s) && IsReduction(token)
    ensures Represents(num, [Reduction(token, forest)],
      Snapshot([if token == "++" then Sum(s.stack) else Product(s.stack)], s.history + [token]))
  {
    PostfixAllSnoc([], Reduction(token, forest));
    assert [] + [Reduction(token, forest)] == [Reduction(token, forest)];
  }

  /** A parsed literal adds a leaf tree whose value is pushed. */
  lemma LiteralRepresents(num: Numerics, forest: seq<Expr>, s: Snapshot, token: string)
    requires Represents(num, forest, s) && !IsOperator(token) && IsNumber(num, token)
    ensures Represents(num, forest + [Literal(token)],
      Snapshot(s.stack + [num.parse(token).value], s.history + [token]))
  {
    var f := forest + [Literal(token)];
    PostfixAllSnoc(forest, Literal(token));
    if forest != [] {
      assert f[0] == forest[0];
    }
    assert LeadingOnly(f);
    EvalAllSnoc(num, forest, Literal(token));
  }

  /** Applying one token keeps the engine state a forest. */
  lemma StepRepresents(num: Numerics, forest: seq<Expr>, s: Snapshot, token: string)
    requires Represents(num, forest, s) && HasOperands(|s.stack|, token)
    ensures Represents(num, StepForest(num, forest, token), Step(num, s, token))
  {
    if IsBinary(token) {
      BinaryRepresents(num, forest, s, token);
    } else if IsUnary(token) {
      UnaryRepresents(num, forest, s, token);
    } else if IsReduction(token) {
      ReductionRepresents(num, forest, s, token);
    } else if IsNumber(num, token) {
      LiteralRepresents(num, forest, s, token);
    }
  }

  /** Every run from a forest state ends in a forest state. */
  lemma {:induction false} RunRepresents(num: Numerics, forest: seq<Expr>, s: Snapshot, tokens: seq<string>)
    returns (f: seq<Expr>)
    requires Represents(num, forest, s) && Run(num, s, tokens).Some?
    ensures Represents(num, f, Run(num, s, tokens).value)
    decreases |tokens|
  {
    if tokens == [] {
      f := forest;
    } else {
      StepRepresents(num, forest, s, tokens[0]);
      f := RunRepresents(num, StepForest(num, forest, tokens[0]), Step(num, s, tokens[0]), tokens[1..]);
    }
  }

  /** Reconstruction reads exactly the last tree of the forest and stops where its
      postfix form begins. */
  lemma RenderReadsLastTree(num: Numerics, syn: Syntax, forest: seq<Expr>, s: Snapshot)
    requires Represents(num, forest, s) && forest != []
    ensures Render(syn, s.history) == (Show(syn, forest[|forest| - 1]), |PostfixAll(forest[..|forest| - 1])|)
  {
    var k := |forest|;
    if k == 1 {
      assert PostfixAll(forest[..0]) == [];
      assert s.history == PostfixAll(forest[..0]) + Postfix(forest[0]);
      assert s.history == Postfix(forest[0]);
      RenderReductionsLeading(syn, forest[0]);
    } else {
      RenderReductionFree(syn, PostfixAll(forest[..k - 1]), forest[k - 1]);
    }
  }

  /** Any token sequence that leaves a single value on a fresh engine leaves a history
      from which both reconstructors rebuild, consuming all of it, one expression
      whose value is that result. */
  lemma ReconstructionDenotesResult(num: Numerics, tokens: seq<string>) returns (e: Expr)
    requires Run(num, Snapshot([], []), tokens).Some?
    requires |Run(num, Snapshot([], []), tokens).value.stack| == 1
    ensures var r := Run(num, Snapshot([], []), tokens).value;
      && Evaluable(num, e)
      && Eval(num, e) == r.stack[0]
      && Render(Infix, r.history) == (Show(Infix, e), 0)
      && Render(Latex, r.history) == (Show(Latex, e), 0)
      && Postfix(e) == r.history
  {
    var r := Run(num, Snapshot([], []), tokens).value;
    var f := RunRepresents(num, [], Snapshot([], []), tokens);
    e := f[0];
    assert f[..0] == [];
    assert r.history == PostfixAll(f[..0]) + Postfix(f[0]);
    RenderReadsLastTree(num, Infix, f, r);
    RenderReadsLastTree(num, Latex, f, r);
  }
}

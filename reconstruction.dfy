/** Reconstruction of an expression string from the postfix token history, in the
    two surface syntaxes. `Render` is the pure, cursor-based reading of the history
    that the destructive reconstructors of the calculator are proved against. */
module Reconstruction {
  import opened Tokens

  datatype Syntax = Infix | Latex

  /** `terms.join(sep)`. */
  function Join(terms: seq<string>, sep: string): string {
    if |terms| == 0 then ""
    else if |terms| == 1 then terms[0]
    else terms[0] + sep + Join(terms[1..], sep)
  }

  function FormatBinary(syn: Syntax, op: string, left: string, right: string): string
    requires IsBinary(op)
  {
    match syn
    case Infix => "(" + left + " " + op + " " + right + ")"
    case Latex =>
      match op
      case "+" => "{" + left + " + " + right + "}"
      case "-" => "{" + left + " - " + right + "}"
      case "*" => "{" + left + " \\cdot " + right + "}"
      case "/" => "{\\frac{" + left + "}{" + right + "}}"
      case "^" => "{" + left + "^{" + right + "}}"
  }

  function FormatUnary(syn: Syntax, op: string, operand: string): string
    requires IsUnary(op)
  {
    match syn
    case Infix =>
      (match op
       case "!" => "(" + operand + "!)"
       case "abs" => "abs(" + operand + ")"
       case "sqrt" => "sqrt(" + operand + ")"
       case "log" => "log10(" + operand + ")")
    case Latex =>
      match op
      case "!" => "{" + operand + "}!"
      case "abs" => "\\left| {" + operand + "} \\right|"
      case "sqrt" => "\\sqrt{" + operand + "}"
      case "log" => "\\log_{10} {" + operand + "}"
  }

  /** `terms` are in the order they were popped, so the last operand comes first. */
  function FormatReduction(syn: Syntax, op: string, terms: seq<string>): string
    requires IsReduction(op)
  {
    match syn
    case Infix => "(" + Join(terms, if op == "++" then " + " else " * ") + ")"
    case Latex => "{" + Join(terms, if op == "++" then " + " else " \\cdot ") + "}"
  }

  /** Reads one expression from the end of `h`. Returns its rendering and the length
      of the prefix of `h` that is left unread. */
  function Render(syn: Syntax, h: seq<string>): (r: (string, nat))
    ensures r.1 <= |h|
    ensures h != [] ==> r.1 < |h|
    ensures h == [] ==> r == ("", 0)
    ensures h != [] && IsReduction(h[|h| - 1]) ==> r.1 == 0
    ensures h != [] && !IsOperator(h[|h| - 1]) ==> r == (h[|h| - 1], |h| - 1)
    decreases |h|, 1
  {
    if h == [] then ("", 0)
    else
      var token := h[|h| - 1];
      var rest := h[..|h| - 1];
      if IsBinary(token) then
        var (right, m) := Render(syn, rest);
        var (left, k) := Render(syn, rest[..m]);
        (FormatBinary(syn, token, left, right), k)
      else if IsReduction(token) then
        (FormatReduction(syn, token, RenderTerms(syn, rest)), 0)
      else if IsUnary(token) then
        var (operand, m) := Render(syn, rest);
        (FormatUnary(syn, token, operand), m)
      else
        (token, |h| - 1)
  }

  /** Reads expressions from the end of `h` until it is exhausted, last one first. */
  function RenderTerms(syn: Syntax, h: seq<string>): (terms: seq<string>)
    ensures |terms| <= |h|
    ensures h != [] ==> |terms| > 0
    decreases |h|, 2
  {
    if h == [] then []
    else
      var (t, m) := Render(syn, h);
      [t] + RenderTerms(syn, h[..m])
  }

  /** One round of the reduction loop: the first term read and the terms read from
      what it leaves. */
  lemma RenderTermsStep(syn: Syntax, h: seq<string>)
    requires h != []
    ensures RenderTerms(syn, h) == [Render(syn, h).0] + RenderTerms(syn, h[..Render(syn, h).1])
  {
  }

  /** After one more term is read from `h`, the terms read so far followed by those
      still to come are unchanged. */
  lemma RenderTermsAfterRead(syn: Syntax, h0: seq<string>, h: seq<string>, terms: seq<string>,
                             term: string, rest: seq<string>)
    requires h != [] && (term, |rest|) == Render(syn, h) && rest == h[..|rest|]
    requires terms + RenderTerms(syn, h) == RenderTerms(syn, h0)
    ensures (terms + [term]) + RenderTerms(syn, rest) == RenderTerms(syn, h0)
  {
    var tail := RenderTerms(syn, rest);
    assert RenderTerms(syn, h) == [term] + tail by {
      RenderTermsStep(syn, h);
    }
    AppendAssociative(terms, [term], tail);
  }

  lemma AppendAssociative(a: seq<string>, b: seq<string>, c: seq<string>)
    ensures (a + b) + c == a + (b + c)
  {
  }
}

/**
 * The postfix (reverse Polish) printer for expression trees. The visitor
 * has cases for `Binary`, `Grouping`, `Literal` and `Unary` only; a tree
 * holding a `Variable` or an `Assign` has no rendering (`None`).
 *
 * Its partner is a word-level view of the output: the rendering is the
 * postfix word sequence joined by single spaces, and that word sequence
 * determines the tree up to its groupings, as a stack machine shows.
 */
module RpnPrinter {
  import opened Options
  import opened Tokens
  import opened Ast

  /** The tree has a node of a kind the visitor handles everywhere. */
  predicate Printable(e: Expr)
    decreases e
  {
    match e
    case Binary(l, _, r) => Printable(l) && Printable(r)
    case Grouping(inner) => Printable(inner)
    case Literal(_) => true
    case Unary(_, r) => Printable(r)
    case _ => false
  }

  /** `visitLiteralExpr`: `null` is "nil", anything else its string form. */
  function LiteralText(v: Value, numberText: string -> string): string {
    if v.Nil? then "nil" else ObjectText(v, numberText)
  }

  /**
   * `visitUnaryExpr`'s operator word: "-" becomes "negate", any other
   * lexeme is kept; so the word is never "-", and "negate" stands for
   * either a minus or an operator spelled "negate".
   */
  function PrefixText(lexeme: string): (word: string)
    ensures word != "-"
    ensures lexeme != "-" ==> word == lexeme
    ensures word == "negate" <==> lexeme == "-" || lexeme == "negate"
  {
    if lexeme == "-" then "negate" else lexeme
  }

  /** `print`: the rendering, or `None` where the visitor has no case. */
  function Print(e: Expr, numberText: string -> string): (r: Option<string>)
    ensures r.Some? <==> Printable(e)
    decreases e
  {
    match e
    case Binary(l, operator, right) =>
      var left, rest := Print(l, numberText), Print(right, numberText);
      if left.Some? && rest.Some? then Some(left.value + " " + rest.value + " " + operator.lexeme) else None
    case Grouping(inner) => Print(inner, numberText)
    case Literal(v) => Some(LiteralText(v, numberText))
    case Unary(operator, right) =>
      var operand := Print(right, numberText);
      if operand.Some? then Some(operand.value + " " + PrefixText(operator.lexeme)) else None
    case _ => None
  }

  /** One item of postfix output: an operand, or an operator applied to the operands before it. */
  datatype Word =
    | Operand(literal: Value)
    | Prefix(operator: Token)
    | Infix(operator: Token)

  /** The postfix word sequence of a printable tree: operands first, then the operator. */
  function Postfix(e: Expr): (words: seq<Word>)
    requires Printable(e)
    ensures |words| > 0
    decreases e
  {
    match e
    case Binary(l, operator, r) => Postfix(l) + Postfix(r) + [Infix(operator)]
    case Grouping(inner) => Postfix(inner)
    case Literal(v) => [Operand(v)]
    case Unary(operator, r) => Postfix(r) + [Prefix(operator)]
  }

  function WordText(w: Word, numberText: string -> string): string {
    match w
    case Operand(v) => LiteralText(v, numberText)
    case Prefix(operator) => PrefixText(operator.lexeme)
    case Infix(operator) => operator.lexeme
  }

  /** The words' texts separated by single spaces. */
  function Join(words: seq<Word>, numberText: string -> string): string
    decreases |words|
  {
    if |words| == 0 then ""
    else if |words| == 1 then WordText(words[0], numberText)
    else WordText(words[0], numberText) + " " + Join(words[1..], numberText)
  }

  lemma {:induction false} JoinAppend(a: seq<Word>, b: seq<Word>, numberText: string -> string)
    requires |a| > 0 && |b| > 0
    ensures Join(a + b, numberText) == Join(a, numberText) + " " + Join(b, numberText)
    decreases |a|
  {
    assert (a + b)[0] == a[0];
    if |a| == 1 {
      assert (a + b)[1..] == b;
    } else {
      assert (a + b)[1..] == a[1..] + b;
      JoinAppend(a[1..], b, numberText);
    }
  }

  /** The printer's output is the postfix word sequence joined by single spaces. */
  lemma {:induction false} PrintIsJoinedPostfix(e: Expr, numberText: string -> string)
    requires Printable(e)
    ensures Print(e, numberText) == Some(Join(Postfix(e), numberText))
    decreases e
  {
    match e
    case Binary(l, operator, r) =>
      PrintIsJoinedPostfix(l, numberText);
      PrintIsJoinedPostfix(r, numberText);
      JoinAppend(Postfix(l), Postfix(r), numberText);
      JoinAppend(Postfix(l) + Postfix(r), [Infix(operator)], numberText);
    case Grouping(inner) =>
      PrintIsJoinedPostfix(inner, numberText);
    case Literal(v) =>
    case Unary(operator, r) =>
      PrintIsJoinedPostfix(r, numberText);
      JoinAppend(Postfix(r), [Prefix(operator)], numberText);
  }

  /** The tree with every `Grouping` node removed. */
  function Ungrouped(e: Expr): Expr
    decreases e
  {
    match e
    case Assign(name, value) => Assign(name, Ungrouped(value))
    case Binary(l, operator, r) => Binary(Ungrouped(l), operator, Ungrouped(r))
    case Grouping(inner) => Ungrouped(inner)
    case Literal(v) => e
    case Unary(operator, r) => Unary(operator, Ungrouped(r))
    case Variable(_) => e
  }

  /** Groupings leave no trace in the output: parentheses are implicit in postfix order. */
  lemma {:induction false} PrintIgnoresGrouping(e: Expr, numberText: string -> string)
    ensures Print(Ungrouped(e), numberText) == Print(e, numberText)
    decreases e
  {
    match e
    case Assign(_, value) =>
    case Binary(l, _, r) =>
      PrintIgnoresGrouping(l, numberText);
      PrintIgnoresGrouping(r, numberText);
    case Grouping(inner) =>
      PrintIgnoresGrouping(inner, numberText);
    case Literal(_) =>
    case Unary(_, r) =>
      PrintIgnoresGrouping(r, numberText);
    case Variable(_) =>
  }

  /**
   * A stack machine reading postfix words: an operand pushes a literal,
   * a prefix operator replaces the top of the stack, an infix operator
   * replaces the top two. `None` when an operator lacks its operands.
   */
  function Rebuild(words: seq<Word>, stack: seq<Expr>): Option<seq<Expr>>
    decreases |words|
  {
    if |words| == 0 then Some(stack)
    else match words[0]
      case Operand(v) => Rebuild(words[1..], stack + [Literal(v)])
      case Prefix(operator) =>
        if |stack| < 1 then None
        else Rebuild(words[1..], stack[..|stack| - 1] + [Unary(operator, stack[|stack| - 1])])
      case Infix(operator) =>
        if |stack| < 2 then None
        else Rebuild(words[1..], stack[..|stack| - 2] + [Binary(stack[|stack| - 2], operator, stack[|stack| - 1])])
  }

  lemma {:induction false} RebuildPostfix(e: Expr, rest: seq<Word>, stack: seq<Expr>)
    requires Printable(e)
    ensures Rebuild(Postfix(e) + rest, stack) == Rebuild(rest, stack + [Ungrouped(e)])
    decreases e
  {
    match e
    case Binary(l, operator, r) =>
      var tail := [Infix(operator)] + rest;
      assert Postfix(e) + rest == Postfix(l) + (Postfix(r) + tail);
      RebuildPostfix(l, Postfix(r) + tail, stack);
      RebuildPostfix(r, tail, stack + [Ungrouped(l)]);
      var s := stack + [Ungrouped(l)] + [Ungrouped(r)];
      assert tail[1..] == rest;
      assert s[..|s| - 2] == stack && s[|s| - 2] == Ungrouped(l) && s[|s| - 1] == Ungrouped(r);
    case Grouping(inner) =>
      RebuildPostfix(inner, rest, stack);
    case Literal(v) =>
      assert ([Operand(v)] + rest)[1..] == rest;
    case Unary(operator, r) =>
      var tail := [Prefix(operator)] + rest;
      assert Postfix(e) + rest == Postfix(r) + tail;
      RebuildPostfix(r, tail, stack);
      var s := stack + [Ungrouped(r)];
      assert tail[1..] == rest;
      assert s[..|s| - 1] == stack && s[|s| - 1] == Ungrouped(r);
  }

  /** The postfix words of a tree rebuild exactly that tree, without its groupings. */
  lemma {:induction false} PostfixRoundTrip(e: Expr)
    requires Printable(e)
    ensures Rebuild(Postfix(e), []) == Some([Ungrouped(e)])
  {
    RebuildPostfix(e, [], []);
    assert Postfix(e) + [] == Postfix(e);
    assert [] + [Ungrouped(e)] == [Ungrouped(e)];
  }

  /** So two trees with the same postfix words differ at most in their groupings. */
  lemma {:induction false} PostfixDeterminesTree(a: Expr, b: Expr)
    requires Printable(a) && Printable(b) && Postfix(a) == Postfix(b)
    ensures Ungrouped(a) == Ungrouped(b)
  {
    PostfixRoundTrip(a);
    PostfixRoundTrip(b);
  }

  /**
   * The joined text is not as informative as the words: a string literal
   * holding spaces prints like an operator tree.
   */
  lemma {:induction false} TextIsAmbiguous(numberText: string -> string, one: Token, plus: Token, two: Token)
    requires numberText("1") == "1" && numberText("2") == "2" && plus.lexeme == "+"
    ensures Print(Literal(Str("1 2 +")), numberText)
         == Print(Binary(Literal(Number("1")), plus, Literal(Number("2"))), numberText)
  {
    assert Print(Literal(Number("1")), numberText) == Some("1");
    assert Print(Literal(Number("2")), numberText) == Some("2");
    assert "1" + " " + "2" + " " + "+" == "1 2 +";
  }

  /**
   * The source's second demonstration, `(1 + 2) * (4 - 3)`, whose operator
   * tokens all have kind STAR: only the lexemes reach the output.
   */
  lemma {:induction false} DemoProduct(numberText: string -> string, add: Token, times: Token, sub: Token)
    requires numberText("1") == "1" && numberText("2") == "2" && numberText("3") == "3" && numberText("4") == "4"
    requires add == Token(STAR, "+", Nil, 1) && times == Token(STAR, "*", Nil, 1) && sub == Token(STAR, "-", Nil, 1)
    ensures Print(Binary(Grouping(Binary(Literal(Number("1")), add, Literal(Number("2")))),
                         times,
                         Grouping(Binary(Literal(Number("4")), sub, Literal(Number("3"))))), numberText)
         == Some("1 2 + 4 3 - *")
  {
    var sum := Binary(Literal(Number("1")), add, Literal(Number("2")));
    var difference := Binary(Literal(Number("4")), sub, Literal(Number("3")));
    assert Print(Literal(Number("1")), numberText) == Some("1");
    assert Print(Literal(Number("2")), numberText) == Some("2");
    assert Print(Literal(Number("3")), numberText) == Some("3");
    assert Print(Literal(Number("4")), numberText) == Some("4");
    assert "1" + " " + "2" + " " + "+" == "1 2 +";
    assert Print(Grouping(sum), numberText) == Some("1 2 +");
    assert "4" + " " + "3" + " " + "-" == "4 3 -";
    assert Print(Grouping(difference), numberText) == Some("4 3 -");
    assert "1 2 +" + " " + "4 3 -" + " " + "*" == "1 2 + 4 3 - *";
  }

  /** The first demonstration, `-123 * (45.67)`: the prefix minus prints as "negate". */
  lemma {:induction false} DemoNegation(numberText: string -> string, minus: Token, times: Token)
    requires numberText("123") == "123" && numberText("45.67") == "45.67"
    requires minus == Token(MINUS, "-", Nil, 1) && times == Token(STAR, "*", Nil, 1)
    ensures Print(Binary(Unary(minus, Literal(Number("123"))), times, Grouping(Literal(Number("45.67")))), numberText)
         == Some("123 negate 45.67 *")
  {
    assert Print(Literal(Number("123")), numberText) == Some("123");
    assert "123" + " " + "negate" == "123 negate";
    assert Print(Unary(minus, Literal(Number("123"))), numberText) == Some("123 negate");
    assert Print(Grouping(Literal(Number("45.67"))), numberText) == Some("45.67");
    assert "123 negate" + " " + "45.67" + " " + "*" == "123 negate 45.67 *";
  }
}

/** Worked parses of short token lists, each one fixing a behaviour of `Parser`. */
module GrammarExamples {
  import opened Options
  import opened Tokens
  import opened Ast
  import opened Diagnostics
  import opened Grammar
  import opened GrammarFacts

  const A := Token(IDENTIFIER, "a", Nil, 1)
  const B := Token(IDENTIFIER, "b", Nil, 1)
  const C := Token(IDENTIFIER, "c", Nil, 1)
  const X := Token(IDENTIFIER, "x", Nil, 1)
  const One := Token(NUMBER, "1", Number("1"), 1)
  const Two := Token(NUMBER, "2", Number("2"), 1)
  const Three := Token(NUMBER, "3", Number("3"), 1)
  const Minus := Token(MINUS, "-", Nil, 1)
  const Plus := Token(PLUS, "+", Nil, 1)
  const Star := Token(STAR, "*", Nil, 1)
  const Bang := Token(BANG, "!", Nil, 1)
  const CommaTok := Token(COMMA, ",", Nil, 1)
  const Equals := Token(EQUAL, "=", Nil, 1)
  const LeftParen := Token(LEFT_PAREN, "(", Nil, 1)
  const RightParen := Token(RIGHT_PAREN, ")", Nil, 1)
  const Semi := Token(SEMICOLON, ";", Nil, 1)
  const PrintTok := Token(PRINT, "print", Nil, 1)
  const End := Token(EOF, "", Nil, 1)

  /** A number is a whole `unary()`. */
  lemma {:induction false} NumberUnit(tokens: seq<Token>, pos: nat)
    requires Valid(tokens, pos + 1) && tokens[pos].kind == NUMBER
    ensures UnaryAt(tokens, pos) == Parsed(Some(Literal(tokens[pos].literal)), pos + 1, [])
  {
    assert PrimaryAt(tokens, pos) == Parsed(Some(Literal(tokens[pos].literal)), pos + 1, []);
  }

  /** A name is a whole `unary()`. */
  lemma {:induction false} VariableUnit(tokens: seq<Token>, pos: nat)
    requires Valid(tokens, pos + 1) && tokens[pos].kind == IDENTIFIER
    ensures UnaryAt(tokens, pos) == Parsed(Some(Variable(tokens[pos])), pos + 1, [])
  {
    assert PrimaryAt(tokens, pos) == Parsed(Some(Variable(tokens[pos])), pos + 1, []);
  }

  /** A level whose loop finds no operator returns its first operand unchanged. */
  lemma {:induction false} Climb(level: Level, tokens: seq<Token>, pos: nat, r: Parsed<Expr>)
    requires Valid(tokens, pos) && OperandAt(level, tokens, pos) == r && r.result.Some?
    requires Valid(tokens, r.pos) && !Matches(tokens, r.pos, Operators(level))
    ensures BinaryAt(level, tokens, pos) == r
  {
    assert r.errors + [] == r.errors;
  }

  /** A number not followed by `*` or `/` is a whole `factor()`. */
  lemma {:induction false} NumberAtom(tokens: seq<Token>, pos: nat)
    requires Valid(tokens, pos + 1) && tokens[pos].kind == NUMBER && !Matches(tokens, pos + 1, [SLASH, STAR])
    ensures BinaryAt(Factor, tokens, pos) == Parsed(Some(Literal(tokens[pos].literal)), pos + 1, [])
  {
    NumberUnit(tokens, pos);
    Climb(Factor, tokens, pos, Parsed(Some(Literal(tokens[pos].literal)), pos + 1, []));
  }

  /** A name not followed by `*` or `/` is a whole `factor()`. */
  lemma {:induction false} VariableAtom(tokens: seq<Token>, pos: nat)
    requires Valid(tokens, pos + 1) && tokens[pos].kind == IDENTIFIER && !Matches(tokens, pos + 1, [SLASH, STAR])
    ensures BinaryAt(Factor, tokens, pos) == Parsed(Some(Variable(tokens[pos])), pos + 1, [])
  {
    VariableUnit(tokens, pos);
    Climb(Factor, tokens, pos, Parsed(Some(Variable(tokens[pos])), pos + 1, []));
  }

  /** Before `=`, `,`, `)`, `;` or EOF, a tighter level's result is also what `equality()` returns. */
  lemma {:induction false} ToEquality(level: Level, tokens: seq<Token>, pos: nat, r: Parsed<Expr>)
    requires Valid(tokens, pos) && Rank(level) <= 3 && BinaryAt(level, tokens, pos) == r && r.result.Some?
    requires Valid(tokens, r.pos) && tokens[r.pos].kind in [EQUAL, COMMA, RIGHT_PAREN, SEMICOLON, EOF]
    ensures BinaryAt(Equality, tokens, pos) == r
    decreases 3 - Rank(level)
  {
    if level == Comparison {
      Climb(Equality, tokens, pos, r);
    } else if level == Term {
      Climb(Comparison, tokens, pos, r);
      ToEquality(Comparison, tokens, pos, r);
    } else if level == Factor {
      Climb(Term, tokens, pos, r);
      ToEquality(Term, tokens, pos, r);
    }
  }

  /** Before `,`, `)`, `;` or EOF, it is also what `assignment()` returns. */
  lemma {:induction false} ToAssignment(level: Level, tokens: seq<Token>, pos: nat, r: Parsed<Expr>)
    requires Valid(tokens, pos) && Rank(level) <= 3 && BinaryAt(level, tokens, pos) == r && r.result.Some?
    requires Valid(tokens, r.pos) && tokens[r.pos].kind in [COMMA, RIGHT_PAREN, SEMICOLON, EOF]
    ensures AssignmentAt(tokens, pos) == r
  {
    ToEquality(level, tokens, pos, r);
  }

  /** Before `)`, `;` or EOF, it is what `expression()` returns. */
  lemma {:induction false} ToTop(level: Level, tokens: seq<Token>, pos: nat, r: Parsed<Expr>)
    requires Valid(tokens, pos) && Rank(level) <= 3 && BinaryAt(level, tokens, pos) == r && r.result.Some?
    requires Valid(tokens, r.pos) && tokens[r.pos].kind in [RIGHT_PAREN, SEMICOLON, EOF]
    ensures ExpressionAt(tokens, pos) == r
  {
    ToAssignment(level, tokens, pos, r);
    Climb(Comma, tokens, pos, r);
  }

  /** A `ParseError` raised low on the ladder propagates out of `expression()` unchanged. */
  lemma {:induction false} FailToTop(level: Level, tokens: seq<Token>, pos: nat, r: Parsed<Expr>)
    requires Valid(tokens, pos) && BinaryAt(level, tokens, pos) == r && r.result.None?
    ensures ExpressionAt(tokens, pos) == r
    decreases 5 - Rank(level)
  {
    if level == Equality {
      assert AssignmentAt(tokens, pos) == r;
      assert BinaryAt(Comma, tokens, pos) == r;
    } else if level == Comparison {
      assert BinaryAt(Equality, tokens, pos) == r;
      FailToTop(Equality, tokens, pos, r);
    } else if level == Term {
      assert BinaryAt(Comparison, tokens, pos) == r;
      FailToTop(Comparison, tokens, pos, r);
    } else if level == Factor {
      assert BinaryAt(Term, tokens, pos) == r;
      FailToTop(Term, tokens, pos, r);
    }
  }

  /** One turn of a binary level's loop: the operator and the operand after it are folded onto the left. */
  lemma {:induction false} FoldStep(level: Level, tokens: seq<Token>, pos: nat, left: Expr, right: Parsed<Expr>, rest: Parsed<Expr>)
    requires Valid(tokens, pos) && Matches(tokens, pos, Operators(level))
    requires OperandAt(level, tokens, pos + 1) == right && right.result.Some? && right.errors == []
    requires BinaryTail(level, tokens, right.pos, Binary(left, tokens[pos], right.result.value)) == rest
    ensures BinaryTail(level, tokens, pos, left) == rest
  {
    TailFolds(level, tokens, pos, left, right, rest);
  }

  /** A binary level whose first operand parses without errors returns what its loop returns. */
  lemma {:induction false} LevelStep(level: Level, tokens: seq<Token>, pos: nat, first: Parsed<Expr>, rest: Parsed<Expr>)
    requires Valid(tokens, pos) && OperandAt(level, tokens, pos) == first && first.result.Some? && first.errors == []
    requires BinaryTail(level, tokens, first.pos, first.result.value) == rest
    ensures BinaryAt(level, tokens, pos) == rest
  {
    LevelFolds(level, tokens, pos, first, rest);
    assert [] + rest.errors == rest.errors;
  }

  /** `a - b - c` folds to the left: `(a - b) - c`. */
  lemma {:induction false} SubtractionFoldsLeft()
    ensures ExpressionAt([A, Minus, B, Minus, C, End], 0)
         == Parsed(Some(Binary(Binary(Variable(A), Minus, Variable(B)), Minus, Variable(C))), 5, [])
  {
    SubtractionOn([A, Minus, B, Minus, C, End]);
  }

  lemma {:induction false} SubtractionOn(t: seq<Token>)
    requires |t| == 6 && WellFormed(t)
    requires t[0].kind == IDENTIFIER && t[1].kind == MINUS && t[2].kind == IDENTIFIER
    requires t[3].kind == MINUS && t[4].kind == IDENTIFIER
    ensures ExpressionAt(t, 0)
         == Parsed(Some(Binary(Binary(Variable(t[0]), t[1], Variable(t[2])), t[3], Variable(t[4]))), 5, [])
  {
    var ab := Binary(Variable(t[0]), t[1], Variable(t[2]));
    var abc := Binary(ab, t[3], Variable(t[4]));
    var r := Parsed(Some(abc), 5, []);
    VariableAtom(t, 0);
    VariableAtom(t, 2);
    VariableAtom(t, 4);
    TailEnds(Term, t, 5, abc);
    FoldStep(Term, t, 3, ab, Parsed(Some(Variable(t[4])), 5, []), r);
    FoldStep(Term, t, 1, Variable(t[0]), Parsed(Some(Variable(t[2])), 3, []), r);
    assert BinaryAt(Term, t, 0) == r;
    ToTop(Term, t, 0, r);
  }

  /** The comma operator folds to the left as well: `1, 2, 3` is `(1, 2), 3`. */
  lemma {:induction false} CommaFoldsLeft()
    ensures ExpressionAt([One, CommaTok, Two, CommaTok, Three, End], 0)
         == Parsed(Some(Binary(Binary(Literal(Number("1")), CommaTok, Literal(Number("2"))), CommaTok, Literal(Number("3")))), 5, [])
  {
    CommaOn([One, CommaTok, Two, CommaTok, Three, End]);
  }

  lemma {:induction false} CommaOn(t: seq<Token>)
    requires |t| == 6 && WellFormed(t)
    requires t[0].kind == NUMBER && t[1].kind == COMMA && t[2].kind == NUMBER
    requires t[3].kind == COMMA && t[4].kind == NUMBER
    ensures ExpressionAt(t, 0)
         == Parsed(Some(Binary(Binary(Literal(t[0].literal), t[1], Literal(t[2].literal)), t[3], Literal(t[4].literal))), 5, [])
  {
    var l1, l2, l3 := Literal(t[0].literal), Literal(t[2].literal), Literal(t[4].literal);
    var all := Binary(Binary(l1, t[1], l2), t[3], l3);
    var r := Parsed(Some(all), 5, []);
    NumberAtom(t, 0);
    ToAssignment(Factor, t, 0, Parsed(Some(l1), 1, []));
    NumberAtom(t, 2);
    ToAssignment(Factor, t, 2, Parsed(Some(l2), 3, []));
    NumberAtom(t, 4);
    ToAssignment(Factor, t, 4, Parsed(Some(l3), 5, []));
    TailEnds(Comma, t, 5, all);
    FoldStep(Comma, t, 3, Binary(l1, t[1], l2), Parsed(Some(l3), 5, []), r);
    FoldStep(Comma, t, 1, l1, Parsed(Some(l2), 3, []), r);
    assert BinaryAt(Comma, t, 0) == r;
  }

  /** Precedence follows the ladder: `1 + 2 * 3` is `1 + (2 * 3)`. */
  lemma {:induction false} ProductBindsTighter()
    ensures ExpressionAt([One, Plus, Two, Star, Three, End], 0)
         == Parsed(Some(Binary(Literal(Number("1")), Plus, Binary(Literal(Number("2")), Star, Literal(Number("3"))))), 5, [])
  {
    ProductOn([One, Plus, Two, Star, Three, End]);
  }

  lemma {:induction false} ProductOn(t: seq<Token>)
    requires |t| == 6 && WellFormed(t)
    requires t[0].kind == NUMBER && t[1].kind == PLUS && t[2].kind == NUMBER
    requires t[3].kind == STAR && t[4].kind == NUMBER
    ensures ExpressionAt(t, 0)
         == Parsed(Some(Binary(Literal(t[0].literal), t[1], Binary(Literal(t[2].literal), t[3], Literal(t[4].literal)))), 5, [])
  {
    var l1, l2, l3 := Literal(t[0].literal), Literal(t[2].literal), Literal(t[4].literal);
    var product := Binary(l2, t[3], l3);
    var sum := Binary(l1, t[1], product);
    NumberAtom(t, 0);
    NumberUnit(t, 2);
    NumberUnit(t, 4);
    TailEnds(Factor, t, 5, product);
    FoldStep(Factor, t, 3, l2, Parsed(Some(l3), 5, []), Parsed(Some(product), 5, []));
    assert BinaryAt(Factor, t, 2) == Parsed(Some(product), 5, []);
    TailEnds(Term, t, 5, sum);
    FoldStep(Term, t, 1, l1, Parsed(Some(product), 5, []), Parsed(Some(sum), 5, []));
    ToTop(Term, t, 0, Parsed(Some(sum), 5, []));
  }

  /** Unary prefixes nest to the right: `!-x` is `!(-x)`. */
  lemma {:induction false} PrefixesNestRight()
    ensures ExpressionAt([Bang, Minus, X, End], 0) == Parsed(Some(Unary(Bang, Unary(Minus, Variable(X)))), 3, [])
  {
    PrefixesOn([Bang, Minus, X, End]);
  }

  lemma {:induction false} PrefixesOn(t: seq<Token>)
    requires |t| == 4 && WellFormed(t)
    requires t[0].kind == BANG && t[1].kind == MINUS && t[2].kind == IDENTIFIER
    ensures ExpressionAt(t, 0) == Parsed(Some(Unary(t[0], Unary(t[1], Variable(t[2])))), 3, [])
  {
    var r := Parsed(Some(Unary(t[0], Unary(t[1], Variable(t[2])))), 3, []);
    VariableUnit(t, 2);
    assert UnaryAt(t, 1) == Parsed(Some(Unary(t[1], Variable(t[2]))), 3, []);
    assert UnaryAt(t, 0) == r;
    Climb(Factor, t, 0, r);
    ToTop(Factor, t, 0, r);
  }

  /** Parentheses make a `Grouping` node: `(1 + 2) * 3` multiplies the group. */
  lemma {:induction false} GroupingOverridesPrecedence()
    ensures ExpressionAt([LeftParen, One, Plus, Two, RightParen, Star, Three, End], 0)
         == Parsed(Some(Binary(Grouping(Binary(Literal(Number("1")), Plus, Literal(Number("2")))), Star, Literal(Number("3")))), 7, [])
  {
    GroupingOn([LeftParen, One, Plus, Two, RightParen, Star, Three, End]);
  }

  lemma {:induction false} GroupingOn(t: seq<Token>)
    requires |t| == 8 && WellFormed(t)
    requires t[0].kind == LEFT_PAREN && t[1].kind == NUMBER && t[2].kind == PLUS && t[3].kind == NUMBER
    requires t[4].kind == RIGHT_PAREN && t[5].kind == STAR && t[6].kind == NUMBER
    ensures ExpressionAt(t, 0)
         == Parsed(Some(Binary(Grouping(Binary(Literal(t[1].literal), t[2], Literal(t[3].literal))), t[5], Literal(t[6].literal))), 7, [])
  {
    var group := Grouping(Binary(Literal(t[1].literal), t[2], Literal(t[3].literal)));
    var l3 := Literal(t[6].literal);
    var product := Binary(group, t[5], l3);
    GroupOn(t);
    NumberUnit(t, 6);
    TailEnds(Factor, t, 7, product);
    FoldStep(Factor, t, 5, group, Parsed(Some(l3), 7, []), Parsed(Some(product), 7, []));
    assert BinaryAt(Factor, t, 0) == Parsed(Some(product), 7, []);
    ToTop(Factor, t, 0, Parsed(Some(product), 7, []));
  }

  /** The parenthesised prefix `(1 + 2)` of `GroupingOn`'s tokens is one `unary()`. */
  lemma {:induction false} GroupOn(t: seq<Token>)
    requires |t| == 8 && WellFormed(t)
    requires t[0].kind == LEFT_PAREN && t[1].kind == NUMBER && t[2].kind == PLUS && t[3].kind == NUMBER
    requires t[4].kind == RIGHT_PAREN
    ensures UnaryAt(t, 0) == Parsed(Some(Grouping(Binary(Literal(t[1].literal), t[2], Literal(t[3].literal)))), 5, [])
  {
    SumAt(t, 1);
    Parenthesised(t, 0, Binary(Literal(t[1].literal), t[2], Literal(t[3].literal)), 4);
  }

  /** Two numbers joined by `+` and followed by `)`, `;` or EOF are a whole `expression()`. */
  lemma {:induction false} SumAt(tokens: seq<Token>, pos: nat)
    requires Valid(tokens, pos + 3)
    requires tokens[pos].kind == NUMBER && tokens[pos + 1].kind == PLUS && tokens[pos + 2].kind == NUMBER
    requires tokens[pos + 3].kind == RIGHT_PAREN || tokens[pos + 3].kind == SEMICOLON || tokens[pos + 3].kind == EOF
    ensures ExpressionAt(tokens, pos)
         == Parsed(Some(Binary(Literal(tokens[pos].literal), tokens[pos + 1], Literal(tokens[pos + 2].literal))), pos + 3, [])
  {
    var sum := Parsed(Some(Binary(Literal(tokens[pos].literal), tokens[pos + 1], Literal(tokens[pos + 2].literal))), pos + 3, []);
    SumTerm(tokens, pos);
    ToTop(Term, tokens, pos, sum);
  }

  /** Two numbers joined by `+` and followed by neither `+` nor `-` are a whole `term()`. */
  lemma {:induction false} SumTerm(tokens: seq<Token>, pos: nat)
    requires Valid(tokens, pos + 3)
    requires tokens[pos].kind == NUMBER && tokens[pos + 1].kind == PLUS && tokens[pos + 2].kind == NUMBER
    requires tokens[pos + 3].kind == RIGHT_PAREN || tokens[pos + 3].kind == SEMICOLON || tokens[pos + 3].kind == EOF
    ensures BinaryAt(Term, tokens, pos)
         == Parsed(Some(Binary(Literal(tokens[pos].literal), tokens[pos + 1], Literal(tokens[pos + 2].literal))), pos + 3, [])
  {
    var l1 := Literal(tokens[pos].literal);
    var sum := Parsed(Some(Binary(l1, tokens[pos + 1], Literal(tokens[pos + 2].literal))), pos + 3, []);
    NumberAtom(tokens, pos);
    AddendTail(tokens, pos + 1, l1);
    LevelStep(Term, tokens, pos, Parsed(Some(l1), pos + 1, []), sum);
  }

  /** `+`, a number and then neither `+` nor `-`: `term()`'s loop folds once onto `left`. */
  lemma {:induction false} AddendTail(tokens: seq<Token>, pos: nat, left: Expr)
    requires Valid(tokens, pos + 2)
    requires tokens[pos].kind == PLUS && tokens[pos + 1].kind == NUMBER
    requires tokens[pos + 2].kind == RIGHT_PAREN || tokens[pos + 2].kind == SEMICOLON || tokens[pos + 2].kind == EOF
    ensures BinaryTail(Term, tokens, pos, left)
         == Parsed(Some(Binary(left, tokens[pos], Literal(tokens[pos + 1].literal))), pos + 2, [])
  {
    var r := Parsed(Some(Binary(left, tokens[pos], Literal(tokens[pos + 1].literal))), pos + 2, []);
    NumberAtom(tokens, pos + 1);
    TailEnds(Term, tokens, pos + 2, r.result.value);
    FoldStep(Term, tokens, pos, left, Parsed(Some(Literal(tokens[pos + 1].literal)), pos + 2, []), r);
  }

  /** `(`, a cleanly parsed expression and `)` make a `Grouping` that is a whole `unary()`. */
  lemma {:induction false} Parenthesised(tokens: seq<Token>, pos: nat, inner: Expr, close: nat)
    requires Valid(tokens, pos) && tokens[pos].kind == LEFT_PAREN
    requires Valid(tokens, pos + 1) && ExpressionAt(tokens, pos + 1) == Parsed(Some(inner), close, [])
    requires Valid(tokens, close) && tokens[close].kind == RIGHT_PAREN
    ensures UnaryAt(tokens, pos) == Parsed(Some(Grouping(inner)), close + 1, [])
  {
    assert PrimaryAt(tokens, pos) == Parsed(Some(Grouping(inner)), close + 1, []);
  }

  /** Assignment nests to the right: `a = b = c` is `a = (b = c)`. */
  lemma {:induction false} AssignmentNestsRight()
    ensures ExpressionAt([A, Equals, B, Equals, C, End], 0) == Parsed(Some(Assign(A, Assign(B, Variable(C)))), 5, [])
  {
    AssignmentOn([A, Equals, B, Equals, C, End]);
  }

  lemma {:induction false} AssignmentOn(t: seq<Token>)
    requires |t| == 6 && WellFormed(t)
    requires t[0].kind == IDENTIFIER && t[1].kind == EQUAL && t[2].kind == IDENTIFIER
    requires t[3].kind == EQUAL && t[4].kind == IDENTIFIER
    ensures ExpressionAt(t, 0) == Parsed(Some(Assign(t[0], Assign(t[2], Variable(t[4])))), 5, [])
  {
    var r := Parsed(Some(Assign(t[0], Assign(t[2], Variable(t[4])))), 5, []);
    VariableAtom(t, 4);
    ToAssignment(Factor, t, 4, Parsed(Some(Variable(t[4])), 5, []));
    AssignTo(t, 2, Variable(t[4]), 5);
    AssignTo(t, 0, Assign(t[2], Variable(t[4])), 5);
    Climb(Comma, t, 0, r);
  }

  /** A name, `=` and a cleanly parsed `assignment()` make an `Assign` node. */
  lemma {:induction false} AssignTo(tokens: seq<Token>, pos: nat, value: Expr, end: nat)
    requires Valid(tokens, pos + 2) && tokens[pos].kind == IDENTIFIER && tokens[pos + 1].kind == EQUAL
    requires AssignmentAt(tokens, pos + 2) == Parsed(Some(value), end, [])
    ensures AssignmentAt(tokens, pos) == Parsed(Some(Assign(tokens[pos], value)), end, [])
  {
    VariableTarget(tokens, pos);
    Assigns(tokens, pos, Parsed(Some(Variable(tokens[pos])), pos + 1, []), Parsed(Some(value), end, []));
  }

  /** A name followed by `=` is a whole `equality()`: the target of an assignment. */
  lemma {:induction false} VariableTarget(tokens: seq<Token>, pos: nat)
    requires Valid(tokens, pos + 1) && tokens[pos].kind == IDENTIFIER && tokens[pos + 1].kind == EQUAL
    ensures BinaryAt(Equality, tokens, pos) == Parsed(Some(Variable(tokens[pos])), pos + 1, [])
  {
    VariableAtom(tokens, pos);
    ToEquality(Factor, tokens, pos, Parsed(Some(Variable(tokens[pos])), pos + 1, []));
  }

  /**
   * `1 = 2` reports "Invalid assignment target." at the `=` but does not
   * throw: the expression is the left side, and parsing goes on after `2`.
   */
  lemma {:induction false} InvalidTargetIsNotThrown()
    ensures ExpressionAt([One, Equals, Two, End], 0)
         == Parsed(Some(Literal(Number("1"))), 3, [Diagnostic(1, " at '='", "Invalid assignment target.")])
  {
    var t := [One, Equals, Two, End];
    InvalidTargetOn(t);
    EqualsLocation();
  }

  /** Where an error at the `=` token is reported. */
  lemma {:induction false} EqualsLocation()
    ensures ErrorAt(Equals, "Invalid assignment target.") == Diagnostic(1, " at '='", "Invalid assignment target.")
  {
    assert Location(Equals) == " at '='";
  }

  lemma {:induction false} InvalidTargetOn(t: seq<Token>)
    requires |t| == 4 && WellFormed(t)
    requires t[0].kind == NUMBER && t[1].kind == EQUAL && t[2].kind == NUMBER
    ensures ExpressionAt(t, 0) == Parsed(Some(Literal(t[0].literal)), 3, [ErrorAt(t[1], "Invalid assignment target.")])
  {
    var l1, l2 := Literal(t[0].literal), Literal(t[2].literal);
    var r := Parsed(Some(l1), 3, [ErrorAt(t[1], "Invalid assignment target.")]);
    NumberAtom(t, 0);
    ToEquality(Factor, t, 0, Parsed(Some(l1), 1, []));
    NumberAtom(t, 2);
    ToAssignment(Factor, t, 2, Parsed(Some(l2), 3, []));
    assert AssignmentAt(t, 0) == r;
    Climb(Comma, t, 0, r);
  }

  /** A `print` statement whose expression parses cleanly and is followed by `;`. */
  lemma {:induction false} PrintDeclaration(tokens: seq<Token>, pos: nat, e: Expr, end: nat)
    requires Valid(tokens, pos) && tokens[pos].kind == PRINT
    requires Valid(tokens, pos + 1) && ExpressionAt(tokens, pos + 1) == Parsed(Some(e), end, [])
    requires Valid(tokens, end) && tokens[end].kind == SEMICOLON
    ensures DeclarationAt(tokens, pos) == Parsed(Some(Print(e)), end + 1, [])
  {
    assert PrintStatementAt(tokens, pos + 1) == Parsed(Some(Print(e)), end + 1, []);
  }

  /**
   * An expression statement that throws at a `;`: the entry is `None` and
   * `synchronize()` stops just after that `;`.
   */
  lemma {:induction false} FailedDeclaration(tokens: seq<Token>, pos: nat, end: nat, errors: seq<Diagnostic>)
    requires Valid(tokens, pos) && tokens[pos].kind != EOF
    requires tokens[pos].kind != VAR && tokens[pos].kind != PRINT && tokens[pos].kind != LEFT_BRACE
    requires ExpressionAt(tokens, pos) == Parsed(None, end, errors)
    requires Valid(tokens, end) && tokens[end].kind == SEMICOLON
    ensures DeclarationAt(tokens, pos) == Parsed(None, end + 1, errors)
  {
    assert StatementAt(tokens, pos) == Parsed(None, end, errors);
    assert Advance(tokens, end) == end + 1;
    assert SyncLoop(tokens, end + 1) == end + 1;
  }

  /**
   * Error recovery: in `1 + ; print 2;` the first statement throws at the
   * `;`, leaves a `None` entry and resynchronises just after that `;`; the
   * print statement is then parsed normally.
   */
  lemma {:induction false} RecoveryAfterSemicolon()
    ensures Parse(Recovery) == Items([None, Some(Print(Literal(Number("2"))))], 6, [Diagnostic(1, " at ';'", "Expect expression.")])
  {
    RecoveryShape();
    RecoveryOn(Recovery);
  }

  const Recovery := [One, Plus, Semi, PrintTok, Two, Semi, End]

  lemma {:induction false} RecoveryShape()
    ensures |Recovery| == 7 && WellFormed(Recovery)
    ensures Recovery[0].kind == NUMBER && Recovery[1].kind == PLUS && Recovery[2].kind == SEMICOLON
    ensures Recovery[3].kind == PRINT && Recovery[4].kind == NUMBER && Recovery[5].kind == SEMICOLON
    ensures Recovery[4].literal == Number("2")
    ensures ErrorAt(Recovery[2], "Expect expression.") == Diagnostic(1, " at ';'", "Expect expression.")
  {
  }

  /** `primary()` throws "Expect expression." at a token that cannot start an expression, such as `;`. */
  lemma {:induction false} ExpectExpression(tokens: seq<Token>, pos: nat)
    requires Valid(tokens, pos) && tokens[pos].kind == SEMICOLON
    ensures UnaryAt(tokens, pos) == Parsed(None, pos, [ErrorAt(tokens[pos], "Expect expression.")])
  {
  }

  lemma {:induction false} RecoveryOn(t: seq<Token>)
    requires |t| == 7 && WellFormed(t)
    requires t[0].kind == NUMBER && t[1].kind == PLUS && t[2].kind == SEMICOLON
    requires t[3].kind == PRINT && t[4].kind == NUMBER && t[5].kind == SEMICOLON
    ensures ProgramAt(t, 0) == Items([None, Some(Print(Literal(t[4].literal)))], 6, [ErrorAt(t[2], "Expect expression.")])
  {
    var err := ErrorAt(t[2], "Expect expression.");
    var printed := Some(Print(Literal(t[4].literal)));
    FailingStatement(t);
    PrintStatementAfter(t);
    ProgramEnds(t, 6);
    ProgramSteps(t, 3, Parsed(printed, 6, []), Items([], 6, []));
    assert [printed] + [] == [printed];
    ProgramSteps(t, 0, Parsed(None, 3, [err]), Items([printed], 6, []));
  }

  /** In `n + ; …` the expression statement throws at the `;` and recovery resumes after it. */
  lemma {:induction false} FailingStatement(t: seq<Token>)
    requires |t| >= 4 && WellFormed(t)
    requires t[0].kind == NUMBER && t[1].kind == PLUS && t[2].kind == SEMICOLON
    ensures DeclarationAt(t, 0) == Parsed(None, 3, [ErrorAt(t[2], "Expect expression.")])
  {
    var n := Literal(t[0].literal);
    var failed := Parsed(None, 2, [ErrorAt(t[2], "Expect expression.")]);
    NumberAtom(t, 0);
    ExpectExpression(t, 2);
    assert BinaryAt(Factor, t, 2) == failed;
    TailStops(Term, t, 1, n, failed);
    assert BinaryAt(Term, t, 0) == failed;
    FailToTop(Term, t, 0, failed);
    FailedDeclaration(t, 0, 2, failed.errors);
  }

  /** `print n;` is one print statement. */
  lemma {:induction false} PrintStatementAfter(t: seq<Token>)
    requires |t| == 7 && WellFormed(t)
    requires t[3].kind == PRINT && t[4].kind == NUMBER && t[5].kind == SEMICOLON
    ensures DeclarationAt(t, 3) == Parsed(Some(Print(Literal(t[4].literal))), 6, [])
  {
    var n := Literal(t[4].literal);
    NumberAtom(t, 4);
    ToTop(Factor, t, 4, Parsed(Some(n), 5, []));
    PrintDeclaration(t, 3, n, 5);
  }
}

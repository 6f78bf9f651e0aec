/** Worked scans of small sources, each one fixing a behaviour of `scanTokens`. */
module LexicalExamples {
  import opened Tokens
  import opened Diagnostics
  import opened Lexical

  /** A '.' with no digit after it is not part of the number: "1." is NUMBER then DOT. */
  lemma {:induction false} TrailingDotIsNotFraction()
    ensures ScanAll("1.").tokens == [Token(NUMBER, "1", Number("1"), 1), Token(DOT, ".", Nil, 1), Token(EOF, "", Nil, 1)]
  {
    var s := "1.";
    var a := Scan(1, 1, [Token(NUMBER, "1", Number("1"), 1)], [], false);
    var b := Scan(2, 1, [Token(NUMBER, "1", Number("1"), 1), Token(DOT, ".", Nil, 1)], [], false);
    WholeNumberStep();
    TrailingDotStep();
    LoopThrough(s, Start, a);
    LoopThrough(s, a, b);
  }

  lemma {:induction false} WholeNumberStep()
    ensures Step("1.", Start) == Scan(1, 1, [Token(NUMBER, "1", Number("1"), 1)], [], false)
  {
    var s := "1.";
    assert s[0] == '1' && s[1] == '.' && s[0..1] == "1";
    assert DigitsEnd(s, 1) == 1;
    assert NumberEnd(s, 1) == 1;
    assert Step(s, Start) == NumberToken(s, Start);
  }

  lemma {:induction false} TrailingDotStep()
    ensures Step("1.", Scan(1, 1, [Token(NUMBER, "1", Number("1"), 1)], [], false))
         == Scan(2, 1, [Token(NUMBER, "1", Number("1"), 1), Token(DOT, ".", Nil, 1)], [], false)
  {
    var s := "1.";
    assert s[1] == '.' && s[1..2] == ".";
  }

  /** "!= =" is one two-character operator, then a lone '='. */
  lemma {:induction false} TwoCharacterOperator()
    ensures ScanAll("!= =").tokens == [Token(BANG_EQUAL, "!=", Nil, 1), Token(EQUAL, "=", Nil, 1), Token(EOF, "", Nil, 1)]
  {
    var s := "!= =";
    var a := Scan(2, 1, [Token(BANG_EQUAL, "!=", Nil, 1)], [], false);
    var b := Scan(3, 1, [Token(BANG_EQUAL, "!=", Nil, 1)], [], false);
    var c := Scan(4, 1, [Token(BANG_EQUAL, "!=", Nil, 1), Token(EQUAL, "=", Nil, 1)], [], false);
    BangEqualStep();
    SpaceStep(s, a, b);
    LoneEqualStep();
    LoopThrough(s, Start, a);
    LoopThrough(s, a, b);
    LoopThrough(s, b, c);
    Finish(s, c);
  }

  lemma {:induction false} BangEqualStep()
    ensures Step("!= =", Start) == Scan(2, 1, [Token(BANG_EQUAL, "!=", Nil, 1)], [], false)
  {
    var s := "!= =";
    assert s[0] == '!' && s[1] == '=' && s[0..2] == "!=";
  }

  lemma {:induction false} LoneEqualStep()
    ensures Step("!= =", Scan(3, 1, [Token(BANG_EQUAL, "!=", Nil, 1)], [], false))
         == Scan(4, 1, [Token(BANG_EQUAL, "!=", Nil, 1), Token(EQUAL, "=", Nil, 1)], [], false)
  {
    var s := "!= =";
    assert s[3] == '=' && s[3..4] == "=";
  }

  /** A blank moves the cursor and changes nothing else. */
  lemma {:induction false} SpaceStep(s: string, st: Scan, r: Scan)
    requires st.current < |s| && s[st.current] == ' '
    requires r == Scan(st.current + 1, st.line, st.tokens, st.errors, st.crashed)
    ensures Step(s, st) == r
  {
  }

  /** A keyword is recognised only as a whole run: "or ore" is OR then the identifier "ore". */
  lemma {:induction false} KeywordNeedsWholeRun()
    ensures ScanAll("or ore").tokens == [Token(OR, "or", Nil, 1), Token(IDENTIFIER, "ore", Nil, 1), Token(EOF, "", Nil, 1)]
  {
    var s := "or ore";
    var a := Scan(2, 1, [Token(OR, "or", Nil, 1)], [], false);
    var b := Scan(3, 1, [Token(OR, "or", Nil, 1)], [], false);
    var c := Scan(6, 1, [Token(OR, "or", Nil, 1), Token(IDENTIFIER, "ore", Nil, 1)], [], false);
    OrStep();
    SpaceStep(s, a, b);
    OreStep();
    LoopThrough(s, Start, a);
    LoopThrough(s, a, b);
    LoopThrough(s, b, c);
    Finish(s, c);
  }

  lemma {:induction false} OrStep()
    ensures Step("or ore", Start) == Scan(2, 1, [Token(OR, "or", Nil, 1)], [], false)
  {
    var s := "or ore";
    assert s[0] == 'o' && s[1] == 'r' && s[2] == ' ' && s[0..2] == "or";
    assert IdentifierEnd(s, 2) == 2;
    assert IdentifierEnd(s, 1) == 2;
    LetterStep(s, Start);
  }

  lemma {:induction false} OreStep()
    ensures Step("or ore", Scan(3, 1, [Token(OR, "or", Nil, 1)], [], false))
         == Scan(6, 1, [Token(OR, "or", Nil, 1), Token(IDENTIFIER, "ore", Nil, 1)], [], false)
  {
    var s := "or ore";
    var b := Scan(3, 1, [Token(OR, "or", Nil, 1)], [], false);
    assert s[3] == 'o' && s[4] == 'r' && s[5] == 'e' && s[3..6] == "ore";
    assert IdentifierEnd(s, 6) == 6;
    assert IdentifierEnd(s, 5) == 6;
    assert IdentifierEnd(s, 4) == 6;
    LetterStep(s, b);
  }

  /** A string may span lines: its token carries the line where it ends, and so does EOF. */
  lemma {:induction false} MultiLineString()
    ensures ScanAll("\"a\nb\"").tokens == [Token(STRING, "\"a\nb\"", Str("a\nb"), 2), Token(EOF, "", Nil, 2)]
  {
    var s := "\"a\nb\"";
    var a := Scan(5, 2, [Token(STRING, s, Str("a\nb"), 2)], [], false);
    MultiLineStringStep();
    LoopThrough(s, Start, a);
  }

  lemma {:induction false} MultiLineStringStep()
    ensures Step("\"a\nb\"", Start) == Scan(5, 2, [Token(STRING, "\"a\nb\"", Str("a\nb"), 2)], [], false)
  {
    var s := "\"a\nb\"";
    assert s[0] == '"' && s[1] == 'a' && s[2] == '\n' && s[3] == 'b' && s[4] == '"';
    assert StringEnd(s, 4) == 4;
    assert StringEnd(s, 3) == 4;
    assert StringEnd(s, 2) == 4;
    assert StringEnd(s, 1) == 4;
    assert s[1..4] == "a\nb" && s[0..5] == s;
    assert LineBreaks(s, 1, 2) == 0;
    assert LineBreaks(s, 1, 3) == 1;
    assert LineBreaks(s, 1, 4) == 1;
    assert Step(s, Start) == StringLiteral(s, Start);
  }

  /** A character outside the language is reported and skipped; scanning goes on. */
  lemma {:induction false} UnexpectedCharacter()
    ensures ScanAll("@").tokens == [Token(EOF, "", Nil, 1)]
    ensures ScanAll("@").errors == [Diagnostic(1, "", "Unexpected character.")]
  {
    var s := "@";
    var a := Step(s, Start);
    assert a == Scan(1, 1, [], [Diagnostic(1, "", "Unexpected character.")], false);
    assert ScanLoop(s, Start) == ScanLoop(s, a) == a;
  }

  /** A lone slash-star reports the unterminated comment and then throws: no token list is produced. */
  lemma {:induction false} BareBlockCommentThrows()
    ensures ScanAll("/*").crashed
    ensures ScanAll("/*").errors == [Diagnostic(1, "", "Unterminated block comment")]
  {
    var s := "/*";
    assert s[0] == '/' && s[1] == '*';
    var l := BlockCommentLoop(s, Start.(current := 2));
    assert l == Scan(2, 1, [], [Diagnostic(1, "", "Unterminated block comment")], true);
    var a := Step(s, Start);
    assert a == SlashCase(s, Start) == BlockComment(s, Start) == l;
    assert ScanLoop(s, Start) == ScanLoop(s, a) == a;
  }

  /**
   * The comment loop runs only while the current character is not '*' AND
   * the next is not '/', so slash-star, " a/b" stops before "a/", swallows those two
   * characters as the closing pair, and scans "b" as an identifier.
   */
  lemma {:induction false} BlockCommentClosesEarly()
    ensures ScanAll("/* a/b").tokens == [Token(IDENTIFIER, "b", Nil, 1), Token(EOF, "", Nil, 1)]
  {
    var s := "/* a/b";
    var a := Scan(5, 1, [], [], false);
    var b := Scan(6, 1, [Token(IDENTIFIER, "b", Nil, 1)], [], false);
    CommentSwallowsSlash();
    TrailingIdentifierStep();
    LoopThrough(s, Start, a);
    LoopThrough(s, a, b);
  }

  lemma {:induction false} CommentSwallowsSlash()
    ensures Step("/* a/b", Start) == Scan(5, 1, [], [], false)
  {
    var s := "/* a/b";
    assert s[0] == '/' && s[1] == '*' && s[2] == ' ' && s[3] == 'a' && s[4] == '/';
    var l3 := Scan(3, 1, [], [], false);
    assert PeekAt(s, 2) == ' ' && PeekNextAt(s, 2) == 'a';
    assert PeekNextAt(s, 3) == '/';
    assert BlockCommentLoop(s, l3) == l3;
    assert BlockCommentLoop(s, Start.(current := 2)) == BlockCommentLoop(s, l3);
    assert BlockComment(s, Start) == Scan(5, 1, [], [], false);
    assert Step(s, Start) == SlashCase(s, Start) == BlockComment(s, Start);
  }

  lemma {:induction false} TrailingIdentifierStep()
    ensures Step("/* a/b", Scan(5, 1, [], [], false)) == Scan(6, 1, [Token(IDENTIFIER, "b", Nil, 1)], [], false)
  {
    var s := "/* a/b";
    var a := Scan(5, 1, [], [], false);
    assert s[5] == 'b' && s[5..6] == "b";
    assert IdentifierEnd(s, 6) == 6;
    LetterStep(s, a);
  }

  /**
   * A comment ending in a lone star: the loop stops on the '*' without
   * reporting anything, and the second closing `advance()` reads past the end.
   */
  lemma {:induction false} TrailingStarThrowsSilently()
    ensures ScanAll("/* *").crashed && ScanAll("/* *").errors == []
  {
    var s := "/* *";
    assert s[0] == '/' && s[1] == '*' && s[2] == ' ' && s[3] == '*';
    var l3 := Scan(3, 1, [], [], false);
    assert BlockCommentLoop(s, l3) == l3;
    assert BlockCommentLoop(s, Start.(current := 2)) == l3;
    var a := Step(s, Start);
    assert a == SlashCase(s, Start) == BlockComment(s, Start) == l3.(crashed := true);
    assert ScanLoop(s, Start) == ScanLoop(s, a) == a;
  }

  /** An open comment that reaches "a/" ends quietly: all of it is comment, with no error and no throw. */
  lemma {:induction false} SlashEndsOpenComment()
    ensures ScanAll("/* a/") == Scan(5, 1, [Token(EOF, "", Nil, 1)], [], false)
  {
    var a := Scan(5, 1, [], [], false);
    OpenCommentStep();
    LoopThrough("/* a/", Start, a);
  }

  lemma {:induction false} OpenCommentStep()
    ensures Step("/* a/", Start) == Scan(5, 1, [], [], false)
  {
    var s := "/* a/";
    assert s[0] == '/' && s[1] == '*' && s[2] == ' ' && s[3] == 'a' && s[4] == '/';
    var l3 := Scan(3, 1, [], [], false);
    assert PeekAt(s, 2) == ' ' && PeekNextAt(s, 2) == 'a';
    assert PeekNextAt(s, 3) == '/';
    assert BlockCommentLoop(s, l3) == l3;
    assert BlockCommentLoop(s, Start.(current := 2)) == l3;
    assert Step(s, Start) == SlashCase(s, Start) == BlockComment(s, Start);
  }

  /** The scanning loop passes through a state that is not at the end. */
  lemma {:induction false} LoopThrough(s: string, st: Scan, r: Scan)
    requires st.current < |s| && !st.crashed && Step(s, st) == r
    ensures ScanLoop(s, st) == ScanLoop(s, r) && ScanFrom(s, st) == ScanFrom(s, r)
  {
  }

  /** At the end of the source the loop stops and EOF is appended, on the current line. */
  lemma {:induction false} Finish(s: string, st: Scan)
    requires st.current == |s| && !st.crashed
    ensures ScanFrom(s, st).tokens == st.tokens + [Token(EOF, "", Nil, st.line)]
  {
  }
}

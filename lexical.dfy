/**
 * The scanner's behaviour as pure functions over the source text: one
 * function per scanning loop, `Step` for one call of `scanToken`, and
 * `ScanAll` for `scanTokens`. The `Scanner` class is proved to compute
 * exactly these; the lemmas below state what the scanner promises.
 */
module Lexical {
  import opened Options
  import opened Tokens
  import opened Diagnostics

  /**
   * The scanner's fields after some steps: the cursor, the line counter,
   * the tokens added so far, the errors reported so far, and whether an
   * exception (a read past the end of the source) ended the scan.
   */
  datatype Scan = Scan(current: nat, line: nat, tokens: seq<Token>, errors: seq<Diagnostic>, crashed: bool)

  const Start := Scan(0, 1, [], [], false)

  predicate IsDigit(c: char) {
    '0' <= c <= '9'
  }

  predicate IsAlpha(c: char) {
    ('a' <= c <= 'z') || ('A' <= c <= 'Z') || c == '_'
  }

  predicate IsAlphaNumeric(c: char) {
    IsAlpha(c) || IsDigit(c)
  }

  /** `peek()` with the cursor at i: the NUL character past the end. */
  function PeekAt(s: string, i: nat): (c: char)
    ensures i < |s| ==> c == s[i]
    ensures c != '\0' ==> i < |s|
  {
    if i >= |s| then '\0' else s[i]
  }

  /** `peekNext()` with the cursor at i: what `peek()` would see one character on. */
  function PeekNextAt(s: string, i: nat): (c: char)
    ensures c == PeekAt(s, i + 1)
  {
    if i + 1 >= |s| then '\0' else s[i + 1]
  }

  /**
   * Whether `match(expected)` succeeds with the cursor at i: never at the
   * end, and for any character but NUL exactly when `peek()` shows it.
   */
  predicate MatchAt(s: string, i: nat, expected: char): (m: bool)
    ensures m ==> i < |s| && PeekAt(s, i) == expected
    ensures expected != '\0' ==> (m <==> PeekAt(s, i) == expected)
  {
    i < |s| && s[i] == expected
  }

  /** Number of line breaks in `s[i..j]`. */
  function LineBreaks(s: string, i: nat, j: nat): nat
    requires i <= j <= |s|
    decreases j - i
  {
    if i == j then 0
    else LineBreaks(s, i, j - 1) + (if s[j - 1] == '\n' then 1 else 0)
  }

  /** Counting line breaks is additive over adjacent slices. */
  lemma {:induction false} LineBreaksSplit(s: string, i: nat, j: nat, k: nat)
    requires i <= j <= k <= |s|
    ensures LineBreaks(s, i, k) == LineBreaks(s, i, j) + LineBreaks(s, j, k)
    decreases k - j
  {
    if j < k {
      LineBreaksSplit(s, i, j, k - 1);
    }
  }

  /** Where `identifier()`'s loop stops: the end of the longest alphanumeric run from i. */
  function IdentifierEnd(s: string, i: nat): (e: nat)
    requires i <= |s|
    ensures i <= e <= |s|
    ensures forall k | i <= k < e :: IsAlphaNumeric(s[k])
    ensures e == |s| || !IsAlphaNumeric(s[e])
    decreases |s| - i
  {
    if i < |s| && IsAlphaNumeric(s[i]) then IdentifierEnd(s, i + 1) else i
  }

  /** Where a `while (isDigit(peek())) advance();` loop stops. */
  function DigitsEnd(s: string, i: nat): (e: nat)
    requires i <= |s|
    ensures i <= e <= |s|
    ensures forall k | i <= k < e :: IsDigit(s[k])
    ensures e == |s| || !IsDigit(s[e])
    decreases |s| - i
  {
    if i < |s| && IsDigit(s[i]) then DigitsEnd(s, i + 1) else i
  }

  /** Where `number()` stops, given the cursor just after the first digit: a '.' is taken only with a digit after it. */
  function NumberEnd(s: string, i: nat): (e: nat)
    requires i <= |s|
    ensures i <= e <= |s|
  {
    var j := DigitsEnd(s, i);
    if PeekAt(s, j) == '.' && IsDigit(PeekNextAt(s, j)) then DigitsEnd(s, j + 1) else j
  }

  /**
   * Where a `while (peek() != stop && !isAtEnd()) advance();` loop stops:
   * at the next `stop` character (not consumed) or the end.
   */
  function Until(s: string, i: nat, stop: char): (e: nat)
    requires i <= |s|
    ensures i <= e <= |s|
    ensures forall k | i <= k < e :: s[k] != stop
    ensures e == |s| || s[e] == stop
    decreases |s| - i
  {
    if i < |s| && s[i] != stop then Until(s, i + 1, stop) else i
  }

  /** Where a `//` comment's loop stops: at the next line break or the end. */
  function LineCommentEnd(s: string, i: nat): nat
    requires i <= |s|
  {
    Until(s, i, '\n')
  }

  /** Where `string()`'s loop stops: at the next double quote or the end. */
  function StringEnd(s: string, i: nat): nat
    requires i <= |s|
  {
    Until(s, i, '"')
  }

  /**
   * What one step may do, with `st` the state at the start of the lexeme:
   * the cursor moves forward and stays within the source, the line counter
   * never goes back, errors are only appended, and the token list either
   * stays as it was or gains one token that is not EOF, whose lexeme is the
   * non-empty slice of the source the step consumed, on the line reached.
   */
  predicate Advanced(s: string, st: Scan, r: Scan) {
    && st.current < r.current <= |s|
    && r.line >= st.line
    && |r.errors| >= |st.errors| && r.errors[..|st.errors|] == st.errors
    && (|| r.tokens == st.tokens
        || (&& |r.tokens| == |st.tokens| + 1
            && r.tokens[..|st.tokens|] == st.tokens
            && var t := r.tokens[|st.tokens|];
               t.kind != EOF && t.lexeme == s[st.current..r.current] && t.line == r.line))
  }

  /** Consuming up to `end` without adding a token (whitespace, comments). */
  function Skip(s: string, st: Scan, end: nat, line: nat): (r: Scan)
    requires st.current < end <= |s| && line >= st.line
    ensures Advanced(s, st, r) && r.tokens == st.tokens && r.line == line
  {
    st.(current := end, line := line)
  }

  /**
   * `addToken` after consuming up to `end`: the new token's lexeme is the
   * source from the start of the lexeme up to the cursor, on the current line.
   */
  function AddToken(s: string, st: Scan, end: nat, kind: TokenKind, literal: Value): (r: Scan)
    requires st.current < end <= |s| && kind != EOF
    ensures Advanced(s, st, r) && |r.tokens| == |st.tokens| + 1 && r.line == st.line
  {
    var r := st.(current := end, tokens := st.tokens + [Token(kind, s[st.current..end], literal, st.line)]);
    assert r.tokens[..|st.tokens|] == st.tokens;
    r
  }

  /** A one-character operator, or its two-character form when '=' follows (the `match('=')` cases). */
  function Operator(s: string, st: Scan, one: TokenKind, two: TokenKind): (r: Scan)
    requires st.current < |s| && one != EOF && two != EOF
    ensures Advanced(s, st, r) && r.line == st.line
  {
    if MatchAt(s, st.current + 1, '=') then AddToken(s, st, st.current + 2, two, Nil)
    else AddToken(s, st, st.current + 1, one, Nil)
  }

  /**
   * Whether the block-comment loop's condition fails with the cursor at k:
   * a '*' under the cursor, or a '/' right after it.
   */
  predicate CommentLoopExits(s: string, k: nat) {
    PeekAt(s, k) == '*' || PeekNextAt(s, k) == '/'
  }

  /**
   * The block-comment loop: it runs while the character under the cursor
   * is not '*' AND the next one is not '/'. At the end of the source it
   * reports the error and then reads past the end, which throws. So it
   * stops at the first position where its condition fails, or throws at
   * the end of the source when there is none.
   */
  function BlockCommentLoop(s: string, st: Scan): (r: Scan)
    requires st.current <= |s|
    ensures st.current <= r.current <= |s| && r.tokens == st.tokens
    ensures forall k | st.current <= k < r.current :: !CommentLoopExits(s, k)
    ensures r.current < |s| ==> CommentLoopExits(s, r.current)
    ensures r.crashed <==> st.crashed || r.current == |s|
    ensures r.line == st.line + LineBreaks(s, st.current, r.current)
    ensures r.errors == if r.current == |s| then st.errors + [ErrorAtLine(r.line, "Unterminated block comment")] else st.errors
    decreases |s| - st.current
  {
    if PeekAt(s, st.current) != '*' && PeekNextAt(s, st.current) != '/' then
      if st.current >= |s| then
        st.(errors := st.errors + [ErrorAtLine(st.line, "Unterminated block comment")], crashed := true)
      else
        var r := BlockCommentLoop(s, st.(current := st.current + 1,
                                         line := if s[st.current] == '\n' then st.line + 1 else st.line));
        LineBreaksSplit(s, st.current, st.current + 1, r.current);
        r
    else st
  }

  /**
   * A block comment whose opening slash-star starts at the cursor: the
   * loop, then two `advance()` calls without an end check. It throws
   * exactly when no position before the last character ends the loop
   * (a comment ending in a lone '*' throws on the second `advance()`);
   * otherwise it ends two characters past the first such position, having
   * counted only the line breaks the loop passed. An error is reported
   * only when the loop ran off the end.
   */
  function BlockComment(s: string, st: Scan): (r: Scan)
    requires st.current + 2 <= |s|
    ensures Advanced(s, st, r) && r.tokens == st.tokens
    ensures r.crashed <==> st.crashed || forall k | st.current + 2 <= k < |s| - 1 :: !CommentLoopExits(s, k)
    ensures !r.crashed ==>
      && st.current + 4 <= r.current
      && CommentLoopExits(s, r.current - 2)
      && (forall k | st.current + 2 <= k < r.current - 2 :: !CommentLoopExits(s, k))
      && r.line == st.line + LineBreaks(s, st.current + 2, r.current - 2)
    ensures r.errors == st.errors
      || (&& r.crashed
          && r.errors == st.errors + [ErrorAtLine(r.line, "Unterminated block comment")]
          && forall k | st.current + 2 <= k < |s| :: !CommentLoopExits(s, k))
  {
    var r := BlockCommentLoop(s, st.(current := st.current + 2));
    if r.crashed then r
    else if r.current + 1 < |s| then r.(current := r.current + 2)
    else r.(crashed := true)
  }

  /** `string()`, the opening quote being at the cursor. */
  function StringLiteral(s: string, st: Scan): (r: Scan)
    requires st.current < |s|
    ensures Advanced(s, st, r)
  {
    var e := StringEnd(s, st.current + 1);
    var line := st.line + LineBreaks(s, st.current + 1, e);
    if e >= |s| then
      st.(current := e, line := line, errors := st.errors + [ErrorAtLine(line, "Unterminated String")])
    else
      var r := st.(current := e + 1, line := line,
                   tokens := st.tokens + [Token(STRING, s[st.current..e + 1], Str(s[st.current + 1..e]), line)]);
      assert r.tokens[..|st.tokens|] == st.tokens;
      r
  }

  /** `StringLiteral` written out when the closing quote is at e. */
  lemma {:induction false} StringLiteralClosed(s: string, st: Scan, e: nat)
    requires st.current < |s| && e == StringEnd(s, st.current + 1) < |s|
    ensures var r := StringLiteral(s, st);
      && r.current == e + 1 && r.line == st.line + LineBreaks(s, st.current + 1, e)
      && r.tokens == st.tokens + [Token(STRING, s[st.current..e + 1], Str(s[st.current + 1..e]), r.line)]
      && r.errors == st.errors && r.crashed == st.crashed
  {
  }

  /** `StringLiteral` written out when no closing quote follows. */
  lemma {:induction false} StringLiteralUnclosed(s: string, st: Scan, e: nat)
    requires st.current < |s| && e == StringEnd(s, st.current + 1) == |s|
    ensures var r := StringLiteral(s, st);
      && r.current == e && r.line == st.line + LineBreaks(s, st.current + 1, e)
      && r.tokens == st.tokens && r.errors == st.errors + [ErrorAtLine(r.line, "Unterminated String")]
      && r.crashed == st.crashed
  {
  }

  /** `identifier()`: the longest alphanumeric run, looked up in the keyword table as a whole. */
  function IdentifierToken(s: string, st: Scan): (r: Scan)
    requires st.current < |s|
    ensures Advanced(s, st, r) && r.line == st.line
  {
    var e := IdentifierEnd(s, st.current + 1);
    var kind := match Keyword(s[st.current..e]) case Some(k) => k case None => IDENTIFIER;
    AddToken(s, st, e, kind, Nil)
  }

  /** `number()`: the literal is the lexeme itself (its double value is not modelled). */
  function NumberToken(s: string, st: Scan): (r: Scan)
    requires st.current < |s|
    ensures Advanced(s, st, r) && r.line == st.line
  {
    var e := NumberEnd(s, st.current + 1);
    AddToken(s, st, e, NUMBER, Number(s[st.current..e]))
  }

  /** The '/' case: a line comment, a block comment, or the SLASH token. */
  function SlashCase(s: string, st: Scan): (r: Scan)
    requires st.current < |s|
    ensures Advanced(s, st, r)
    ensures r.line == st.line || MatchAt(s, st.current + 1, '*')
  {
    if MatchAt(s, st.current + 1, '/') then Skip(s, st, LineCommentEnd(s, st.current + 2), st.line)
    else if MatchAt(s, st.current + 1, '*') then BlockComment(s, st)
    else AddToken(s, st, st.current + 1, SLASH, Nil)
  }

  /** The single-character tokens of `scanToken`'s switch: ten punctuation characters, none of them EOF. */
  function SingleCharKind(c: char): (k: Option<TokenKind>)
    ensures k.Some? ==> k.value != EOF && k.value != SLASH
  {
    match c
    case '(' => Some(LEFT_PAREN)
    case ')' => Some(RIGHT_PAREN)
    case '{' => Some(LEFT_BRACE)
    case '}' => Some(RIGHT_BRACE)
    case ',' => Some(COMMA)
    case '.' => Some(DOT)
    case '-' => Some(MINUS)
    case '+' => Some(PLUS)
    case ';' => Some(SEMICOLON)
    case '*' => Some(STAR)
    case _ => None
  }

  /** One call of `scanToken()` with `start == current`. */
  function Step(s: string, st: Scan): (r: Scan)
    requires st.current < |s|
    ensures Advanced(s, st, r)
    ensures r.line == st.line || s[st.current] == '\n' || s[st.current] == '"' || (s[st.current] == '/' && MatchAt(s, st.current + 1, '*'))
    ensures r.crashed && !st.crashed ==> s[st.current] == '/' && MatchAt(s, st.current + 1, '*')
  {
    var c := s[st.current];
    if SingleCharKind(c).Some? then AddToken(s, st, st.current + 1, SingleCharKind(c).value, Nil)
    else if c == '!' then Operator(s, st, BANG, BANG_EQUAL)
    else if c == '=' then Operator(s, st, EQUAL, EQUAL_EQUAL)
    else if c == '<' then Operator(s, st, LESS, LESS_EQUAL)
    else if c == '>' then Operator(s, st, GREATER, GREATER_EQUAL)
    else if c == '/' then SlashCase(s, st)
    else if c == ' ' || c == '\r' || c == '\t' then Skip(s, st, st.current + 1, st.line)
    else if c == '\n' then Skip(s, st, st.current + 1, st.line + 1)
    else if c == '"' then StringLiteral(s, st)
    else if IsDigit(c) then NumberToken(s, st)
    else if IsAlpha(c) then IdentifierToken(s, st)
    else Skip(s, st, st.current + 1, st.line).(errors := st.errors + [ErrorAtLine(st.line, "Unexpected character.")])
  }

  /** A letter under the cursor starts an identifier. */
  lemma {:induction false} LetterStep(s: string, st: Scan)
    requires st.current < |s| && IsAlpha(s[st.current])
    ensures Step(s, st) == IdentifierToken(s, st)
  {
  }

  /** The `while (!isAtEnd())` loop of `scanTokens`; it ends early if a step threw. */
  function ScanLoop(s: string, st: Scan): (r: Scan)
    requires st.current <= |s|
    ensures st.current <= r.current <= |s|
    ensures !r.crashed ==> r.current == |s|
    ensures r.crashed && !st.crashed ==> exists i | st.current <= i < |s| - 1 :: s[i] == '/' && s[i + 1] == '*'
    decreases |s| - st.current
  {
    if st.crashed || st.current >= |s| then st else ScanLoop(s, Step(s, st))
  }

  /**
   * `scanTokens()` from a given state: the loop, then the EOF token unless
   * the loop threw. Without a throw the whole source is consumed and the
   * list ends with EOF on the final line; a throw needs a slash-star.
   */
  function ScanFrom(s: string, st: Scan): (r: Scan)
    requires st.current <= |s|
    ensures !r.crashed ==> r.current == |s| && |r.tokens| > 0 && r.tokens[|r.tokens| - 1] == Token(EOF, "", Nil, r.line)
    ensures r.crashed && !st.crashed ==> exists i | st.current <= i < |s| - 1 :: s[i] == '/' && s[i + 1] == '*'
  {
    var r := ScanLoop(s, st);
    if r.crashed then r else r.(tokens := r.tokens + [Token(EOF, "", Nil, r.line)])
  }

  /**
   * Scanning a whole source text with a fresh scanner: it ends with an EOF
   * token unless it threw, and it can throw only if the source holds a
   * slash-star.
   */
  function ScanAll(s: string): (r: Scan)
    ensures !r.crashed ==> |r.tokens| > 0 && r.tokens[|r.tokens| - 1].kind == EOF
    ensures r.crashed ==> exists i | 0 <= i < |s| - 1 :: s[i] == '/' && s[i + 1] == '*'
  {
    ScanFrom(s, Start)
  }
}

/** What scanning promises, stated over the reference functions. */
module LexicalFacts {
  import opened Options
  import opened Tokens
  import opened Diagnostics
  import opened Lexical

  predicate NoEof(ts: seq<Token>) {
    forall i | 0 <= i < |ts| :: ts[i].kind != EOF
  }

  /** Token lines never decrease, and none is beyond the scanner's current line. */
  predicate LinesOrdered(ts: seq<Token>, line: nat) {
    && (forall i, j | 0 <= i < j < |ts| :: ts[i].line <= ts[j].line)
    && (forall i | 0 <= i < |ts| :: ts[i].line <= line)
  }

  /**
   * The lexemes are non-empty slices of the source, in source order, not
   * overlapping, all ending at or before `upto`.
   */
  predicate Slices(s: string, ts: seq<Token>, upto: nat)
    decreases |ts|
  {
    || ts == []
    || exists i: nat, j: nat | i < j <= upto && j <= |s| ::
         ts[|ts| - 1].lexeme == s[i..j] && Slices(s, ts[..|ts| - 1], i)
  }

  lemma {:induction false} SlicesWiden(s: string, ts: seq<Token>, upto: nat, upto': nat)
    requires Slices(s, ts, upto) && upto <= upto'
    ensures Slices(s, ts, upto')
  {
    if ts != [] {
      var i: nat, j: nat :| i < j <= upto && j <= |s| && ts[|ts| - 1].lexeme == s[i..j] && Slices(s, ts[..|ts| - 1], i);
      assert i < j <= upto';
    }
  }

  /** One step keeps the three token-list invariants. */
  lemma {:induction false} StepKeepsInvariants(s: string, st: Scan)
    requires st.current < |s|
    requires NoEof(st.tokens) && LinesOrdered(st.tokens, st.line) && Slices(s, st.tokens, st.current)
    ensures var r := Step(s, st);
      NoEof(r.tokens) && LinesOrdered(r.tokens, r.line) && Slices(s, r.tokens, r.current)
  {
    AdvancedKeepsInvariants(s, st, Step(s, st));
  }

  lemma {:induction false} AdvancedKeepsInvariants(s: string, st: Scan, r: Scan)
    requires Advanced(s, st, r)
    requires NoEof(st.tokens) && LinesOrdered(st.tokens, st.line) && Slices(s, st.tokens, st.current)
    ensures NoEof(r.tokens) && LinesOrdered(r.tokens, r.line) && Slices(s, r.tokens, r.current)
  {
    if r.tokens == st.tokens {
      SlicesWiden(s, st.tokens, st.current, r.current);
    } else {
      var n := |st.tokens|;
      assert r.tokens[..n] == st.tokens;
      assert forall i | 0 <= i < n :: r.tokens[i] == st.tokens[i];
      assert r.tokens[n].lexeme == s[st.current..r.current];
      assert Slices(s, r.tokens[..n], st.current);
    }
  }

  lemma {:induction false} ScanLoopKeepsInvariants(s: string, st: Scan)
    requires st.current <= |s|
    requires NoEof(st.tokens) && LinesOrdered(st.tokens, st.line) && Slices(s, st.tokens, st.current)
    ensures var r := ScanLoop(s, st);
      NoEof(r.tokens) && LinesOrdered(r.tokens, r.line) && Slices(s, r.tokens, r.current)
    decreases |s| - st.current
  {
    if !(st.crashed || st.current >= |s|) {
      StepKeepsInvariants(s, st);
      ScanLoopKeepsInvariants(s, Step(s, st));
    }
  }

  /**
   * `scanTokens` ends the list with exactly one EOF token (empty lexeme,
   * null literal, the final line count); every other token's lexeme is a
   * non-empty slice of the source, in order and without overlap; and token
   * lines never decrease.
   */
  lemma {:induction false} ScanTokensShape(s: string)
    ensures var r := ScanAll(s);
      !r.crashed ==>
        && |r.tokens| > 0
        && r.tokens[|r.tokens| - 1] == Token(EOF, "", Nil, r.line)
        && NoEof(r.tokens[..|r.tokens| - 1])
        && Slices(s, r.tokens[..|r.tokens| - 1], |s|)
        && LinesOrdered(r.tokens, r.line)
  {
    ScanLoopKeepsInvariants(s, Start);
    var l := ScanLoop(s, Start);
    SlicesWiden(s, l.tokens, l.current, |s|);
    if !l.crashed {
      EofAppended(s, l.tokens, l.line, l.tokens + [Token(EOF, "", Nil, l.line)]);
    }
  }

  /** The invariants of the loop's tokens, carried over to the list with EOF appended. */
  lemma {:induction false} EofAppended(s: string, ts: seq<Token>, line: nat, all: seq<Token>)
    requires NoEof(ts) && LinesOrdered(ts, line) && Slices(s, ts, |s|)
    requires all == ts + [Token(EOF, "", Nil, line)]
    ensures |all| > 0 && all[|all| - 1] == Token(EOF, "", Nil, line)
    ensures NoEof(all[..|all| - 1]) && Slices(s, all[..|all| - 1], |s|) && LinesOrdered(all, line)
  {
    assert all[..|all| - 1] == ts;
  }

  /** The kinds `scanToken` gives `!`, `=`, `<` and `>`, alone or followed by '='. */
  function OperatorKind(c: char, withEqual: bool): TokenKind
    requires c in "!=<>"
  {
    match c
    case '!' => if withEqual then BANG_EQUAL else BANG
    case '=' => if withEqual then EQUAL_EQUAL else EQUAL
    case '<' => if withEqual then LESS_EQUAL else LESS
    case '>' => if withEqual then GREATER_EQUAL else GREATER
  }

  /** `!=`, `==`, `<=`, `>=` are one two-character token; otherwise the operator is one character. */
  lemma {:induction false} OperatorLongestMatch(s: string, st: Scan)
    requires st.current < |s| && s[st.current] in "!=<>"
    ensures var r := Step(s, st);
      var c := s[st.current];
      var two := MatchAt(s, st.current + 1, '=');
      && |r.tokens| == |st.tokens| + 1
      && r.tokens[|st.tokens|].kind == OperatorKind(c, two)
      && r.tokens[|st.tokens|].lexeme == (if two then [c, '='] else [c])
  {
    var c := s[st.current];
    if MatchAt(s, st.current + 1, '=') {
      assert s[st.current..st.current + 2] == [c, '='];
    } else {
      assert s[st.current..st.current + 1] == [c];
    }
  }

  /**
   * An identifier is the longest run of letters, digits and underscores,
   * and the keyword table is consulted on that whole run only.
   */
  lemma {:induction false} IdentifierLongestMatch(s: string, st: Scan)
    requires st.current < |s| && IsAlpha(s[st.current])
    ensures var r := Step(s, st);
      var t := r.tokens[|st.tokens|];
      && |r.tokens| == |st.tokens| + 1
      && t.lexeme == s[st.current..r.current]
      && (forall k | st.current <= k < r.current :: IsAlphaNumeric(s[k]))
      && (r.current == |s| || !IsAlphaNumeric(s[r.current]))
      && t.kind == (if Keyword(t.lexeme).Some? then Keyword(t.lexeme).value else IDENTIFIER)
  {
  }

  /** At most one '.', neither first nor last, and digits everywhere else. */
  predicate NumberText(t: string) {
    && |t| > 0 && IsDigit(t[0]) && IsDigit(t[|t| - 1])
    && (forall k | 0 <= k < |t| :: IsDigit(t[k]) || t[k] == '.')
    && (forall k, k' | 0 <= k < k' < |t| :: t[k] != '.' || t[k'] != '.')
  }

  /**
   * A number takes a fraction only when a digit follows the '.': its
   * lexeme has the shape above, its literal is that text, and no digit
   * (nor, without a fraction, a '.' followed by a digit) comes right after it.
   */
  lemma {:induction false} NumberLongestMatch(s: string, st: Scan)
    requires st.current < |s| && IsDigit(s[st.current])
    ensures var r := Step(s, st);
      var t := r.tokens[|st.tokens|];
      && |r.tokens| == |st.tokens| + 1
      && t.kind == NUMBER && t.literal == Number(t.lexeme)
      && NumberText(t.lexeme)
      && (r.current == |s| || !IsDigit(s[r.current]))
      && ('.' !in t.lexeme ==> !(PeekAt(s, r.current) == '.' && IsDigit(PeekNextAt(s, r.current))))
  {
    StepOnDigit(s, st);
    NumberEndShape(s, st.current);
  }

  /** The text `number()` consumes from a first digit at i. */
  lemma {:induction false} NumberEndShape(s: string, i: nat)
    requires i < |s| && IsDigit(s[i])
    ensures var e := NumberEnd(s, i + 1);
      var t := s[i..e];
      && NumberText(t)
      && (e == |s| || !IsDigit(s[e]))
      && ('.' !in t ==> !(PeekAt(s, e) == '.' && IsDigit(PeekNextAt(s, e))))
  {
    var j := DigitsEnd(s, i + 1);
    if PeekAt(s, j) == '.' && IsDigit(PeekNextAt(s, j)) {
      var e := DigitsEnd(s, j + 1);
      var t := s[i..e];
      assert t[j - i] == '.';
      assert forall k | 0 <= k < |t| && k != j - i :: IsDigit(t[k]);
    } else {
      var t := s[i..j];
      assert forall k | 0 <= k < |t| :: IsDigit(t[k]);
    }
  }

  /**
   * On a double quote a step runs `string()` (`StepOnQuote`).
   * A string with a closing quote becomes one STRING token whose literal is
   * its lexeme without the quotes; each line break inside it advances the
   * line. Without a closing quote the scan reaches the end, reports
   * "Unterminated String" and adds no token.
   */
  lemma {:induction false} StringLiteralToken(s: string, st: Scan)
    requires st.current < |s| && s[st.current] == '"'
    ensures var r := StringLiteral(s, st);
      var e := StringEnd(s, st.current + 1);
      && (e < |s| ==>
            var t := r.tokens[|st.tokens|];
            && |r.tokens| == |st.tokens| + 1 && r.current == e + 1
            && t.kind == STRING && t.lexeme == s[st.current..e + 1]
            && t.literal == Str(t.lexeme[1..|t.lexeme| - 1])
            && r.line == st.line + LineBreaks(s, st.current, e + 1))
      && (e == |s| ==>
            && r.tokens == st.tokens && r.current == |s|
            && r.line == st.line + LineBreaks(s, st.current, |s|)
            && r.errors == st.errors + [ErrorAtLine(r.line, "Unterminated String")])
  {
    var e := StringEnd(s, st.current + 1);
    if e < |s| {
      ClosedStringOf(s, st, e);
    } else {
      UnclosedStringError(s, st, e);
    }
  }

  /** The closed case of `StringLiteralToken`. */
  lemma {:induction false} ClosedStringOf(s: string, st: Scan, e: nat)
    requires st.current < |s| && s[st.current] == '"' && e == StringEnd(s, st.current + 1) < |s|
    ensures var r := StringLiteral(s, st);
      var t := r.tokens[|st.tokens|];
      && |r.tokens| == |st.tokens| + 1 && r.current == e + 1
      && t.kind == STRING && t.lexeme == s[st.current..e + 1]
      && t.literal == Str(t.lexeme[1..|t.lexeme| - 1])
      && r.line == st.line + LineBreaks(s, st.current, e + 1)
  {
    StringLiteralClosed(s, st, e);
    ClosedStringToken(s, st.current, e, st.line, st.tokens, StringLiteral(s, st));
  }

  /** The token `string()` adds for the quotes at i and e, on a scan that had read `before`. */
  lemma {:induction false} ClosedStringToken(s: string, i: nat, e: nat, line: nat, before: seq<Token>, r: Scan)
    requires i < e < |s| && s[i] == '"' && s[e] == '"'
    requires r.current == e + 1 && r.line == line + LineBreaks(s, i + 1, e)
    requires r.tokens == before + [Token(STRING, s[i..e + 1], Str(s[i + 1..e]), r.line)]
    ensures |r.tokens| == |before| + 1 && r.current == e + 1
    ensures r.tokens[|before|].kind == STRING && r.tokens[|before|].lexeme == s[i..e + 1]
    ensures r.tokens[|before|].literal == Str(s[i..e + 1][1..e - i])
    ensures r.line == line + LineBreaks(s, i, e + 1)
  {
    Appended(before, Token(STRING, s[i..e + 1], Str(s[i + 1..e]), r.line));
    QuotesBreakNoLine(s, i, e);
    InnerSlice(s, i, e + 1);
  }

  lemma {:induction false} Appended<T>(xs: seq<T>, x: T)
    ensures |xs + [x]| == |xs| + 1 && (xs + [x])[|xs|] == x
  {
  }

  /** Neither quote of a string literal is a line break. */
  lemma {:induction false} QuotesBreakNoLine(s: string, i: nat, e: nat)
    requires i < e < |s| && s[i] == '"' && s[e] == '"'
    ensures LineBreaks(s, i, e + 1) == LineBreaks(s, i + 1, e)
  {
    OpeningQuoteBreaksNoLine(s, i, e + 1);
    assert LineBreaks(s, i + 1, e + 1) == LineBreaks(s, i + 1, e);
  }

  /** Dropping the first and last character of `s[i..j]` leaves `s[i + 1..j - 1]`. */
  lemma {:induction false} InnerSlice(s: string, i: nat, j: nat)
    requires i + 2 <= j <= |s|
    ensures |s[i..j]| == j - i && s[i..j][1..j - i - 1] == s[i + 1..j - 1]
  {
    var inner := s[i..j][1..j - i - 1];
    assert |inner| == |s[i + 1..j - 1]|;
    forall k | 0 <= k < |inner|
      ensures inner[k] == s[i + 1..j - 1][k]
    {
      assert inner[k] == s[i + 1 + k];
    }
  }

  lemma {:induction false} UnclosedStringError(s: string, st: Scan, e: nat)
    requires st.current < |s| && s[st.current] == '"' && e == StringEnd(s, st.current + 1) == |s|
    ensures var r := StringLiteral(s, st);
      && r.tokens == st.tokens && r.current == |s|
      && r.line == st.line + LineBreaks(s, st.current, |s|)
      && r.errors == st.errors + [ErrorAtLine(r.line, "Unterminated String")]
  {
    StringLiteralUnclosed(s, st, e);
    OpeningQuoteBreaksNoLine(s, st.current, e);
  }

  /** The opening quote is no line break. */
  lemma {:induction false} OpeningQuoteBreaksNoLine(s: string, i: nat, j: nat)
    requires i < j <= |s| && s[i] == '"'
    ensures LineBreaks(s, i, j) == LineBreaks(s, i + 1, j)
  {
    LineBreaksSplit(s, i, i + 1, j);
  }

  /** Whitespace and `//` comments add no token and report nothing; only a line break advances the line. */
  lemma {:induction false} BlanksAddNoToken(s: string, st: Scan)
    requires st.current < |s| && !st.crashed
    requires s[st.current] in " \r\t\n" || (s[st.current] == '/' && MatchAt(s, st.current + 1, '/'))
    ensures var r := Step(s, st);
      && r.tokens == st.tokens && r.errors == st.errors && !r.crashed
      && r.line == st.line + (if s[st.current] == '\n' then 1 else 0)
  {
  }

  /** Exactly ten punctuation characters are tokens on their own. */
  lemma {:induction false} SingleCharacters(c: char)
    ensures SingleCharKind(c).Some? <==> c in "(){},.-+;*"
  {
  }

  /** A punctuation character is one token of its kind, spelled by that character alone. */
  lemma {:induction false} SingleCharacterToken(s: string, st: Scan)
    requires st.current < |s| && SingleCharKind(s[st.current]).Some?
    ensures Step(s, st) == st.(current := st.current + 1,
                               tokens := st.tokens + [Token(SingleCharKind(s[st.current]).value, [s[st.current]], Nil, st.line)])
  {
    assert s[st.current..st.current + 1] == [s[st.current]];
  }

  /**
   * A block comment with neither '*' nor '/' after its opening throws:
   * the loop reports "Unterminated block comment" and then reads past the end.
   */
  lemma {:induction false} UnterminatedBlockCommentThrows(s: string, st: Scan)
    requires st.current + 2 <= |s| && !st.crashed
    requires s[st.current] == '/' && s[st.current + 1] == '*'
    requires forall k | st.current + 2 <= k < |s| :: s[k] != '*' && s[k] != '/'
    ensures var r := Step(s, st);
      && r.crashed && r.tokens == st.tokens
      && |r.errors| == |st.errors| + 1 && r.errors[|st.errors|].message == "Unterminated block comment"
  {
    assert forall k | st.current + 2 <= k < |s| :: !CommentLoopExits(s, k);
  }

  /** The line counter moves only on line breaks: a step never adds more than it consumed. */
  lemma {:induction false} StepLineBound(s: string, st: Scan)
    requires st.current < |s| && !st.crashed
    ensures var r := Step(s, st); r.line <= st.line + LineBreaks(s, st.current, r.current)
  {
    var i := st.current;
    if s[i] == '\n' {
      NewlineLineBound(s, st);
    } else if s[i] == '"' {
      QuoteLineBound(s, st);
    } else if s[i] == '/' && MatchAt(s, i + 1, '*') {
      SlashStarLineBound(s, st);
    } else {
      OtherLineBound(s, st);
    }
  }

  lemma {:induction false} OtherLineBound(s: string, st: Scan)
    requires st.current < |s| && s[st.current] != '\n' && s[st.current] != '"'
    requires !(s[st.current] == '/' && MatchAt(s, st.current + 1, '*'))
    ensures Step(s, st).line == st.line
  {
  }

  lemma {:induction false} NewlineLineBound(s: string, st: Scan)
    requires st.current < |s| && s[st.current] == '\n'
    ensures var r := Step(s, st); r.line <= st.line + LineBreaks(s, st.current, r.current)
  {
    StepOnNewline(s, st);
    assert LineBreaks(s, st.current, st.current + 1) == 1;
  }

  lemma {:induction false} QuoteLineBound(s: string, st: Scan)
    requires st.current < |s| && s[st.current] == '"'
    ensures var r := Step(s, st); r.line <= st.line + LineBreaks(s, st.current, r.current)
  {
    StepOnQuote(s, st);
    StringLineBound(s, st);
  }

  lemma {:induction false} SlashStarLineBound(s: string, st: Scan)
    requires st.current < |s| && s[st.current] == '/' && MatchAt(s, st.current + 1, '*')
    ensures var r := Step(s, st); r.line <= st.line + LineBreaks(s, st.current, r.current)
  {
    StepOnSlash(s, st);
    BlockCommentLineBound(s, st);
  }

  lemma {:induction false} StringLineBound(s: string, st: Scan)
    requires st.current < |s|
    ensures var r := StringLiteral(s, st); r.line <= st.line + LineBreaks(s, st.current, r.current)
  {
    var i := st.current;
    var e := StringEnd(s, i + 1);
    if e < |s| {
      StringLiteralClosed(s, st, e);
    } else {
      StringLiteralUnclosed(s, st, e);
    }
    LineBreaksSplit(s, i, i + 1, e);
    LineBreaksSplit(s, i, e, StringLiteral(s, st).current);
  }

  lemma {:induction false} BlockCommentLineBound(s: string, st: Scan)
    requires st.current + 2 <= |s|
    ensures var r := BlockComment(s, st); r.line <= st.line + LineBreaks(s, st.current, r.current)
  {
    var i := st.current;
    var start := st.(current := i + 2);
    var l := BlockCommentLoop(s, start);
    var r := BlockComment(s, st);
    BlockCommentKeepsLoopLine(s, st, start, l);
    LineBreaksWithin(s, i, i + 2, l.current, r.current);
  }

  /** The two closing `advance()` calls after the loop move the cursor but not the line. */
  lemma {:induction false} BlockCommentKeepsLoopLine(s: string, st: Scan, start: Scan, l: Scan)
    requires st.current + 2 <= |s| && start == st.(current := st.current + 2) && l == BlockCommentLoop(s, start)
    ensures var r := BlockComment(s, st); r.line == l.line && l.current <= r.current
  {
  }

  /** The line breaks of a slice are at most those of any slice enclosing it. */
  lemma {:induction false} LineBreaksWithin(s: string, i: nat, j: nat, k: nat, m: nat)
    requires i <= j <= k <= m <= |s|
    ensures LineBreaks(s, j, k) <= LineBreaks(s, i, m)
  {
    LineBreaksSplit(s, i, j, k);
    LineBreaksSplit(s, i, k, m);
  }

  lemma {:induction false} ScanLoopLineBound(s: string, st: Scan)
    requires st.current <= |s| && !st.crashed
    ensures var r := ScanLoop(s, st); r.line <= st.line + LineBreaks(s, st.current, r.current)
    decreases |s| - st.current
  {
    var r := ScanLoop(s, st);
    if st.current < |s| {
      var n := Step(s, st);
      StepLineBound(s, st);
      if n.crashed {
        assert r == ScanLoop(s, n) == n;
      } else {
        ScanLoopLineBound(s, n);
        LineBreaksSplit(s, st.current, n.current, r.current);
      }
    }
  }

  /** Line numbers start at 1 and grow only on line breaks: no token's line exceeds one plus the source's line breaks. */
  lemma {:induction false} LinesBoundedBySource(s: string)
    ensures var r := ScanAll(s);
      forall i | 0 <= i < |r.tokens| :: 1 <= r.tokens[i].line <= 1 + LineBreaks(s, 0, |s|)
  {
    ScanLoopLineBound(s, Start);
    ScanLoopKeepsInvariants(s, Start);
    var l := ScanLoop(s, Start);
    LineBreaksSplit(s, 0, l.current, |s|);
    LinesNeverBelowStart(s, Start);
  }

  lemma {:induction false} LinesNeverBelowStart(s: string, st: Scan)
    requires st.current <= |s| && st.line >= 1
    requires forall i | 0 <= i < |st.tokens| :: st.tokens[i].line >= 1
    ensures var r := ScanLoop(s, st);
      r.line >= 1 && forall i | 0 <= i < |r.tokens| :: r.tokens[i].line >= 1
    decreases |s| - st.current
  {
    if !(st.crashed || st.current >= |s|) {
      var n := Step(s, st);
      assert forall i | 0 <= i < |st.tokens| :: n.tokens[i] == st.tokens[i];
      LinesNeverBelowStart(s, n);
    }
  }

  lemma {:induction false} StepOnDigit(s: string, st: Scan)
    requires st.current < |s| && IsDigit(s[st.current])
    ensures Step(s, st) == NumberToken(s, st)
  {
  }

  lemma {:induction false} StepOnQuote(s: string, st: Scan)
    requires st.current < |s| && s[st.current] == '"'
    ensures Step(s, st) == StringLiteral(s, st)
  {
  }

  lemma {:induction false} StepOnNewline(s: string, st: Scan)
    requires st.current < |s| && s[st.current] == '\n'
    ensures Step(s, st) == Skip(s, st, st.current + 1, st.line + 1)
  {
  }

  lemma {:induction false} StepOnSlash(s: string, st: Scan)
    requires st.current < |s| && s[st.current] == '/'
    ensures Step(s, st) == SlashCase(s, st)
  {
  }
}

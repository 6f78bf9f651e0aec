/**
 * The scanner as the source writes it: an object with a cursor, a lexeme
 * start, a line counter and a growing token list, advanced one character
 * at a time. Every method is proved to do exactly what the reference
 * functions of `Lexical` describe, so the facts proved there hold of it.
 * The errors handed to `Lox.error` are collected in the `errors` field; a
 * method that would read past the end of the source (and throw) returns
 * `false` instead.
 */
module Scanning {
  import opened Options
  import opened Tokens
  import opened Diagnostics
  import opened Lexical

  class Scanner {
    const source: string
    var tokens: seq<Token>
    var start: nat
    var current: nat
    var line: nat
    var errors: seq<Diagnostic>

    /** The scanner's fields as a reference-scanner state. */
    ghost function State(): Scan
      reads this
    {
      Scan(current, line, tokens, errors, false)
    }

    /** The state with the cursor put back at the start of the lexeme. */
    ghost function LexemeStart(): Scan
      reads this
    {
      Scan(start, line, tokens, errors, false)
    }

    constructor (source: string)
      ensures this.source == source && start == 0 && State() == Start
    {
      this.source := source;
      tokens := [];
      start := 0;
      current := 0;
      line := 1;
      errors := [];
    }

    predicate IsAtEnd()
      reads this
    {
      current >= |source|
    }

    function Peek(): char
      reads this
    {
      PeekAt(source, current)
    }

    function PeekNext(): char
      reads this
    {
      PeekNextAt(source, current)
    }

    /** `advance()`: the caller guarantees the cursor is on a character (otherwise `charAt` throws). */
    method Advance() returns (c: char)
      requires current < |source|
      modifies this
      ensures c == source[old(current)] && current == old(current) + 1
      ensures tokens == old(tokens) && start == old(start) && line == old(line) && errors == old(errors)
    {
      c := source[current];
      current := current + 1;
    }

    /** `match(expected)`: consumes the character under the cursor only when it is the expected one. */
    method Match(expected: char) returns (matched: bool)
      modifies this
      ensures matched == MatchAt(source, old(current), expected)
      ensures current == old(current) + (if matched then 1 else 0)
      ensures tokens == old(tokens) && start == old(start) && line == old(line) && errors == old(errors)
    {
      if IsAtEnd() {
        return false;
      }
      if source[current] != expected {
        return false;
      }
      current := current + 1;
      return true;
    }

    /** `addToken`: the lexeme is the source from `start` to the cursor. */
    method AddToken(kind: TokenKind, literal: Value)
      requires start <= current <= |source|
      modifies this
      ensures start == old(start) && current == old(current) && line == old(line) && errors == old(errors)
      ensures tokens == old(tokens) + [Token(kind, source[start..current], literal, line)]
    {
      tokens := tokens + [Token(kind, source[start..current], literal, line)];
    }

    /** `identifier()`, the first character having been consumed. */
    method Identifier()
      requires start < |source| && current == start + 1
      modifies this
      ensures State() == IdentifierToken(source, old(LexemeStart())) && start == old(start)
    {
      while IsAlphaNumeric(Peek())
        invariant start + 1 <= current <= |source|
        invariant IdentifierEnd(source, current) == IdentifierEnd(source, start + 1)
        invariant tokens == old(tokens) && start == old(start) && line == old(line) && errors == old(errors)
        decreases |source| - current
      {
        var _ := Advance();
      }
      var text := source[start..current];
      var kind := Keyword(text);
      AddToken(if kind.None? then IDENTIFIER else kind.value, Nil);
    }

    /** `while (isDigit(peek())) advance();`: the cursor moves to the end of the run of digits. */
    method Digits()
      requires current <= |source|
      modifies this
      ensures current == DigitsEnd(source, old(current))
      ensures tokens == old(tokens) && start == old(start) && line == old(line) && errors == old(errors)
    {
      while IsDigit(Peek())
        invariant old(current) <= current <= |source|
        invariant DigitsEnd(source, current) == DigitsEnd(source, old(current))
        invariant tokens == old(tokens) && start == old(start) && line == old(line) && errors == old(errors)
        decreases |source| - current
      {
        var _ := Advance();
      }
    }

    /** `number()`, the first digit having been consumed; the literal is kept as its text. */
    method Number()
      requires start < |source| && current == start + 1
      modifies this
      ensures State() == NumberToken(source, old(LexemeStart())) && start == old(start)
    {
      ghost var st := LexemeStart();
      Digits();
      if Peek() == '.' && IsDigit(PeekNext()) {
        var _ := Advance();
        Digits();
      }
      NumberTokenForm(source, st, current);
      AddToken(NUMBER, Value.Number(source[start..current]));
    }

    /** The `//` branch of `scanToken`: the loop skipping to the end of the line. */
    method LineComment()
      requires current <= |source|
      modifies this
      ensures current == LineCommentEnd(source, old(current))
      ensures tokens == old(tokens) && start == old(start) && line == old(line) && errors == old(errors)
    {
      while Peek() != '\n' && !IsAtEnd()
        invariant old(current) <= current <= |source|
        invariant LineCommentEnd(source, current) == LineCommentEnd(source, old(current))
        invariant tokens == old(tokens) && start == old(start) && line == old(line) && errors == old(errors)
        decreases |source| - current
      {
        var _ := Advance();
      }
    }

    /**
     * The loop of `string()`: up to the next double quote or the end,
     * counting the line breaks it passes.
     */
    method StringBody()
      requires current <= |source|
      modifies this
      ensures current == StringEnd(source, old(current))
      ensures line == old(line) + LineBreaks(source, old(current), current)
      ensures tokens == old(tokens) && start == old(start) && errors == old(errors)
    {
      while Peek() != '"' && !IsAtEnd()
        invariant old(current) <= current <= |source|
        invariant StringEnd(source, current) == StringEnd(source, old(current))
        invariant line == old(line) + LineBreaks(source, old(current), current)
        invariant tokens == old(tokens) && start == old(start) && errors == old(errors)
        decreases |source| - current
      {
        ghost var here := current;
        if Peek() == '\n' {
          line := line + 1;
        }
        var _ := Advance();
        assert LineBreaks(source, old(current), current)
            == LineBreaks(source, old(current), here) + (if source[here] == '\n' then 1 else 0);
      }
    }

    /** `string()`, the opening quote having been consumed. */
    method String()
      requires start < |source| && current == start + 1
      modifies this
      ensures State() == StringLiteral(source, old(LexemeStart())) && start == old(start)
    {
      ghost var st := LexemeStart();
      StringBody();
      if IsAtEnd() {
        StringLiteralUnclosed(source, st, current);
        errors := errors + [ErrorAtLine(line, "Unterminated String")];
        return;
      }
      ghost var closed := Scan(current + 1, line, tokens + [Token(STRING, source[start..current + 1], Str(source[start + 1..current]), line)], errors, false);
      StringLiteralClosed(source, st, current);
      var _ := Advance();
      AddToken(STRING, Str(source[start + 1..current - 1]));
      assert State() == closed;
    }

    /**
     * The block-comment branch of `scanToken`, the opening pair having been
     * consumed: the loop, then the two `advance()` calls for the closing
     * pair. It returns false where the source throws (a read past the end).
     */
    method BlockComment() returns (ok: bool)
      requires start + 2 == current <= |source|
      requires source[start] == '/' && source[start + 1] == '*'
      modifies this
      ensures var r := Lexical.BlockComment(source, old(LexemeStart()));
        && ok == !r.crashed && errors == r.errors && tokens == r.tokens
        && (ok ==> State() == r)
    {
      ghost var inside := State();
      while Peek() != '*' && PeekNext() != '/'
        invariant start + 2 <= current <= |source|
        invariant BlockCommentLoop(source, State()) == BlockCommentLoop(source, inside)
        invariant tokens == old(tokens) && start == old(start) && errors == old(errors)
        decreases |source| - current
      {
        if IsAtEnd() {
          errors := errors + [ErrorAtLine(line, "Unterminated block comment")];
          // the advance() that follows reads past the end
          return false;
        }
        if Peek() == '\n' {
          line := line + 1;
        }
        var _ := Advance();
      }
      var _ := Advance();
      if IsAtEnd() {
        // the second advance() reads past the end
        return false;
      }
      var _ := Advance();
      return true;
    }

    /** The `!`, `=`, `<` and `>` cases: `addToken(match('=') ? two : one)`. */
    method OperatorToken(one: TokenKind, two: TokenKind)
      requires start < |source| && current == start + 1 && one != EOF && two != EOF
      modifies this
      ensures State() == Operator(source, old(LexemeStart()), one, two) && start == old(start)
    {
      var m := Match('=');
      AddToken(if m then two else one, Nil);
    }

    /** The '/' case: a line comment, a block comment, or the SLASH token. */
    method Slash() returns (ok: bool)
      requires start < |source| && current == start + 1 && source[start] == '/'
      modifies this
      ensures var r := SlashCase(source, old(LexemeStart()));
        && ok == !r.crashed && errors == r.errors && tokens == r.tokens
        && (ok ==> State() == r)
    {
      var comment := Match('/');
      if comment {
        LineComment();
        return true;
      }
      var block := Match('*');
      if block {
        ok := BlockComment();
        return;
      }
      AddToken(SLASH, Nil);
      return true;
    }

    /** `scanToken()`: one lexeme from `start`, which the caller has set to the cursor. */
    method ScanToken() returns (ok: bool)
      requires start == current < |source|
      modifies this
      ensures var r := Step(source, old(State()));
        && ok == !r.crashed && errors == r.errors && tokens == r.tokens
        && (ok ==> State() == r)
    {
      ghost var st := State();
      var c := Advance();
      match c {
      case '(' => AddToken(LEFT_PAREN, Nil);
      case ')' => AddToken(RIGHT_PAREN, Nil);
      case '{' => AddToken(LEFT_BRACE, Nil);
      case '}' => AddToken(RIGHT_BRACE, Nil);
      case ',' => AddToken(COMMA, Nil);
      case '.' => AddToken(DOT, Nil);
      case '-' => AddToken(MINUS, Nil);
      case '+' => AddToken(PLUS, Nil);
      case ';' => AddToken(SEMICOLON, Nil);
      case '*' => AddToken(STAR, Nil);
      case '!' => OperatorToken(BANG, BANG_EQUAL);
      case '=' => OperatorToken(EQUAL, EQUAL_EQUAL);
      case '<' => OperatorToken(LESS, LESS_EQUAL);
      case '>' => OperatorToken(GREATER, GREATER_EQUAL);
      case '/' =>
        ok := Slash();
        return;
      case ' ' =>
      case '\r' =>
      case '\t' =>
      case '\n' => line := line + 1;
      case '"' => String();
      case _ =>
        if IsDigit(c) {
          Number();
        } else if IsAlpha(c) {
          Identifier();
        } else {
          errors := errors + [ErrorAtLine(line, "Unexpected character.")];
        }
      }
      return true;
    }

    /**
     * `scanTokens()`: lexemes until the end of the source, then the EOF
     * token. `None` stands for the exception a block comment can raise.
     */
    method ScanTokens() returns (result: Option<seq<Token>>)
      requires current <= |source|
      modifies this
      ensures var r := ScanFrom(source, old(State()));
        && (result.None? <==> r.crashed)
        && errors == r.errors
        && (result.Some? ==> result.value == r.tokens && tokens == r.tokens)
    {
      ghost var initial := State();
      while !IsAtEnd()
        invariant current <= |source|
        invariant ScanLoop(source, State()) == ScanLoop(source, initial)
        decreases |source| - current
      {
        start := current;
        ghost var before := State();
        var ok := ScanToken();
        if !ok {
          assert ScanLoop(source, before) == ScanLoop(source, Step(source, before)) == Step(source, before);
          return None;
        }
      }
      tokens := tokens + [Token(EOF, "", Nil, line)];
      return Some(tokens);
    }
  }

  /** `NumberToken` written out: one NUMBER token up to `NumberEnd`. */
  lemma {:induction false} NumberTokenForm(s: string, st: Scan, e: nat)
    requires st.current < |s| && e == NumberEnd(s, st.current + 1)
    ensures NumberToken(s, st) == st.(current := e, tokens := st.tokens + [Token(NUMBER, s[st.current..e], Value.Number(s[st.current..e]), st.line)])
  {
  }
}

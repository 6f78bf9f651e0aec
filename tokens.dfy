/** The optional-value wrapper used for Java's null. */
module Options {
  datatype Option<+T> = None | Some(value: T)
}

/**
 * Tokens as the scanner produces them and the parser consumes them:
 * the token kinds named by the scanner and the parser, the literal
 * values a token or a variable can carry, and the reserved-word table.
 */
module Tokens {
  import opened Options

  datatype TokenKind =
    // single-character punctuation
    | LEFT_PAREN | RIGHT_PAREN | LEFT_BRACE | RIGHT_BRACE
    | COMMA | DOT | MINUS | PLUS | SEMICOLON | SLASH | STAR
    // one- or two-character operators
    | BANG | BANG_EQUAL | EQUAL | EQUAL_EQUAL
    | GREATER | GREATER_EQUAL | LESS | LESS_EQUAL
    // literals
    | IDENTIFIER | STRING | NUMBER
    // reserved words
    | AND | CLASS | ELSE | FALSE | FUN | FOR | IF | NIL | OR
    | PRINT | RETURN | SUPER | THIS | TRUE | VAR | WHILE
    | EOF

  /**
   * A runtime or literal value. Java's `null` is `Nil`; a number is kept as
   * the text it was scanned from (the double it denotes is not modelled);
   * `Uninitialized` is the environment's sentinel, distinct from `Nil`.
   */
  datatype Value = Nil | Bool(b: bool) | Number(text: string) | Str(s: string) | Uninitialized

  datatype Token = Token(kind: TokenKind, lexeme: string, literal: Value, line: nat)

  predicate IsReservedWord(k: TokenKind) {
    k in {AND, CLASS, ELSE, FALSE, FOR, FUN, IF, NIL, OR, PRINT, RETURN, SUPER, THIS, TRUE, VAR, WHILE}
  }

  /** The spelling of each reserved word. */
  function ReservedSpelling(k: TokenKind): string
    requires IsReservedWord(k)
  {
    match k
    case AND => "and"
    case CLASS => "class"
    case ELSE => "else"
    case FALSE => "false"
    case FOR => "for"
    case FUN => "fun"
    case IF => "if"
    case NIL => "nil"
    case OR => "or"
    case PRINT => "print"
    case RETURN => "return"
    case SUPER => "super"
    case THIS => "this"
    case TRUE => "true"
    case VAR => "var"
    case WHILE => "while"
  }

  /** The scanner's `keywords` map: `None` plays the part of `keywords.get` returning null. */
  function Keyword(text: string): (r: Option<TokenKind>)
    ensures r.Some? ==> IsReservedWord(r.value) && ReservedSpelling(r.value) == text
  {
    match text
    case "and" => Some(AND)
    case "class" => Some(CLASS)
    case "else" => Some(ELSE)
    case "false" => Some(FALSE)
    case "for" => Some(FOR)
    case "fun" => Some(FUN)
    case "if" => Some(IF)
    case "nil" => Some(NIL)
    case "or" => Some(OR)
    case "print" => Some(PRINT)
    case "return" => Some(RETURN)
    case "super" => Some(SUPER)
    case "this" => Some(THIS)
    case "true" => Some(TRUE)
    case "var" => Some(VAR)
    case "while" => Some(WHILE)
    case _ => None
  }

  /** The keyword table and the spelling table are inverse to each other. */
  lemma {:induction false} KeywordTableComplete(k: TokenKind)
    requires IsReservedWord(k)
    ensures Keyword(ReservedSpelling(k)) == Some(k)
  {
  }

  /**
   * Java's `Object.toString` on a non-null value. `numberText` stands for
   * `Double.toString` applied to the parsed number; the sentinel object
   * overrides `toString` with the text "UNITIALIZED" (spelled so).
   */
  function ObjectText(v: Value, numberText: string -> string): string
    requires !v.Nil?
  {
    match v
    case Bool(b) => if b then "true" else "false"
    case Number(t) => numberText(t)
    case Str(s) => s
    case Uninitialized => "UNITIALIZED"
  }
}

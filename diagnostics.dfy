/**
 * The text of the error reports `Lox.error` and `Lox.report` write: a
 * syntax error carries a line, a location and a message, and is shown as
 * `[line N] Error<location>: <message>`.
 */
module Diagnostics {
  import opened Tokens

  datatype Diagnostic = Diagnostic(line: nat, where: string, message: string)

  /** A runtime error carries the offending token and its message. */
  datatype RuntimeError = RuntimeError(token: Token, message: string)

  /** The location text of `error(Token, …)`: " at end" exactly for the end-of-file token. */
  function Location(token: Token): (where: string)
    ensures where == " at end" <==> token.kind == EOF
    ensures token.kind != EOF ==> where == " at '" + token.lexeme + "'"
  {
    if token.kind == EOF then " at end"
    else
      var w := " at '" + token.lexeme + "'";
      assert w[4] == '\'' != " at end"[4];
      w
  }

  /** `error(Token, message)`: reported at the token's line and location. */
  function ErrorAt(token: Token, message: string): (d: Diagnostic)
    ensures d.line == token.line && d.message == message
    ensures d.where == " at end" <==> token.kind == EOF
  {
    Diagnostic(token.line, Location(token), message)
  }

  /** `error(int, message)`: a line-only error has an empty location. */
  function ErrorAtLine(line: nat, message: string): (d: Diagnostic)
    ensures d.line == line && d.where == "" && d.message == message
  {
    Diagnostic(line, "", message)
  }

  /** The line `report` prints. */
  function Format(d: Diagnostic): (text: string)
    ensures var n := NatToString(d.line);
      && |text| == 6 + |n| + 9 + |d.where| + |d.message|
      && text[..6] == "[line " && text[6..6 + |n|] == n
      && text[6 + |n|..] == "] Error" + d.where + ": " + d.message
  {
    "[line " + NatToString(d.line) + "] Error" + d.where + ": " + d.message
  }

  /** The text `runtimeError` prints: the message, then on a new line "[line N]". */
  function FormatRuntime(e: RuntimeError): (text: string)
    ensures var n := NatToString(e.token.line); var m := |e.message|;
      && |text| == m + 7 + |n| + 1
      && text[..m] == e.message
      && text[m..m + 7] == "\n[line "
      && text[m + 7..m + 7 + |n|] == n
      && text[|text| - 1] == ']'
  {
    e.message + "\n[line " + NatToString(e.token.line) + "]"
  }

  predicate IsDigitChar(c: char) {
    '0' <= c <= '9'
  }

  function DigitChar(d: nat): (c: char)
    requires d < 10
    ensures IsDigitChar(c) && c as int - '0' as int == d
  {
    (d + '0' as int) as char
  }

  /** The number a string of decimal digits denotes, read most-significant digit first. */
  function DigitsValue(s: string): nat
    requires forall i | 0 <= i < |s| :: IsDigitChar(s[i])
  {
    if s == [] then 0
    else 10 * DigitsValue(s[..|s| - 1]) + DigitValue(s[|s| - 1])
  }

  function DigitValue(c: char): nat
    requires IsDigitChar(c)
  {
    c as int - '0' as int
  }

  /** Java's decimal rendering of a non-negative int: digits only, no leading zero, and it reads back as n. */
  function NatToString(n: nat): (s: string)
    ensures |s| > 0 && (s[0] == '0' ==> s == "0")
    ensures forall i | 0 <= i < |s| :: IsDigitChar(s[i])
    ensures DigitsValue(s) == n
  {
    if n < 10 then [DigitChar(n)]
    else
      var s := NatToString(n / 10) + [DigitChar(n % 10)];
      assert s[..|s| - 1] == NatToString(n / 10);
      s
  }
}

/** What a lookup or an update yields: a value, or the `RuntimeError` thrown instead. */
module Results {
  import opened Diagnostics

  datatype Result<T> = Ok(value: T) | Err(error: RuntimeError)
}

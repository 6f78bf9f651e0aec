/**
 * The driver's decision rules: how syntax errors are reported and what
 * they stop, which statements reach the interpreter and how, the REPL's
 * flag reset, the exit codes, and the text `stringify` gives a value.
 *
 * The interpreter itself is not part of this model: its two entry points
 * are parameters (`Interpreter`), given and returning the global state
 * the static interpreter keeps between runs, and returning the runtime
 * error they reported, if any. Standard output and standard error are
 * lists of the lines written to them.
 */
module Lox {
  import opened Options
  import opened Tokens
  import opened Ast
  import opened Diagnostics
  import Scopes
  import Lexical
  import LexicalFacts
  import Grammar
  import Scanning
  import Parsing
  import RpnPrinter

  const UsageExit := 64
  const SyntaxErrorExit := 65
  const RuntimeErrorExit := 70
  const UsageText := "Usage: jlox [script]"

  /** The exit status of `runFile`: 0 stands for returning normally. */
  function ExitCode(hadError: bool, hadRuntimeError: bool): (code: int)
    ensures code == SyntaxErrorExit <==> hadError
    ensures code == RuntimeErrorExit <==> !hadError && hadRuntimeError
    ensures code == 0 <==> !hadError && !hadRuntimeError
  {
    if hadError then SyntaxErrorExit
    else if hadRuntimeError then RuntimeErrorExit
    else 0
  }

  predicate EndsWithPointZero(text: string) {
    |text| >= 2 && text[|text| - 2..] == ".0"
  }

  /**
   * `stringify`: `nil` for null; a number's text loses a trailing ".0" and
   * nothing else; any other value is its string form, a string that ends
   * in ".0" included.
   */
  function Stringify(v: Value, numberText: string -> string): (text: string)
    ensures v.Nil? ==> text == "nil"
    ensures v.Number? && EndsWithPointZero(numberText(v.text)) ==> text + ".0" == numberText(v.text)
    ensures v.Number? && !EndsWithPointZero(numberText(v.text)) ==> text == numberText(v.text)
    ensures !v.Nil? && !v.Number? ==> text == ObjectText(v, numberText)
  {
    if v.Nil? then "nil"
    else if v.Number? then
      var t := numberText(v.text);
      if EndsWithPointZero(t) then
        assert t == t[..|t| - 2] + ".0";
        t[..|t| - 2]
      else t
    else ObjectText(v, numberText)
  }

  /** Whole numbers lose their fraction; other numbers and strings keep their text. */
  lemma {:induction false} StringifyExamples(numberText: string -> string)
    requires numberText("3") == "3.0" && numberText("2.5") == "2.5"
    ensures Stringify(Number("3"), numberText) == "3"
    ensures Stringify(Number("2.5"), numberText) == "2.5"
    ensures Stringify(Str("3.0"), numberText) == "3.0"
    ensures Stringify(Uninitialized, numberText) == "UNITIALIZED"
  {
    assert EndsWithPointZero("3.0");
    assert !EndsWithPointZero("2.5") by {
      assert "2.5"[1..] == ".5";
    }
  }

  /**
   * The postfix printer's literal text agrees with `stringify` except on
   * numbers whose text ends in ".0", which the printer keeps whole.
   */
  lemma {:induction false} LiteralTextVersusStringify(v: Value, numberText: string -> string)
    ensures !(v.Number? && EndsWithPointZero(numberText(v.text))) ==> RpnPrinter.LiteralText(v, numberText) == Stringify(v, numberText)
    ensures v.Number? && EndsWithPointZero(numberText(v.text)) ==> RpnPrinter.LiteralText(v, numberText) == Stringify(v, numberText) + ".0"
  {
  }

  /** What `run` does after parsing. */
  datatype Action =
    | Skip
    | Evaluate(expression: Expr)
    | Interpret(statements: seq<Option<Stmt>>)

  /**
   * `run`'s dispatch: nothing after a syntax error; in the REPL, a lone
   * expression statement is evaluated and its value printed; everything
   * else, `null` entries included, goes to `interpret`.
   */
  function Dispatch(hadError: bool, isReplMode: bool, statements: seq<Option<Stmt>>): (a: Action)
    ensures a.Skip? <==> hadError
    ensures a.Evaluate? <==>
      !hadError && isReplMode && |statements| == 1 && statements[0].Some? && statements[0].value.Expression?
    ensures a.Evaluate? ==> a.expression == statements[0].value.expression
    ensures a.Interpret? ==> a.statements == statements
  {
    if hadError then Skip
    else if isReplMode && |statements| == 1 && statements[0].Some? && statements[0].value.Expression? then
      Evaluate(statements[0].value.expression)
    else Interpret(statements)
  }

  /**
   * What `evaluateExpression` does with an expression: it returns a value,
   * having first reported through `runtimeError` the runtime error it
   * caught, if any, together with the interpreter's new global state; or
   * it throws.
   */
  datatype Evaluated =
    | Returned(globals: Scopes.Chain, value: Value, reported: Option<RuntimeError>)
    | Threw

  /**
   * What `interpret` leaves behind: the interpreter's new global state,
   * the lines its print statements wrote, and the runtime error it
   * reported through `runtimeError`, if any.
   */
  datatype Interpreted = Interpreted(globals: Scopes.Chain, printed: seq<string>, reported: Option<RuntimeError>)

  /**
   * The interpreter's entry points, each given the global state the static
   * interpreter holds, and the number-to-text conversion of `Double.toString`.
   */
  datatype Interpreter = Interpreter(
    evaluate: (Scopes.Chain, Expr) -> Evaluated,
    interpret: (Scopes.Chain, seq<Option<Stmt>>) -> Interpreted,
    numberText: string -> string)

  /**
   * The driver's static state: its flags, what it has written so far, and
   * the global state of its one interpreter, which outlives each `run`.
   */
  datatype Console = Console(
    hadError: bool,
    hadRuntimeError: bool,
    isReplMode: bool,
    stdout: seq<string>,
    stderr: seq<string>,
    globals: Scopes.Chain)

  /** At start-up: no flag set, nothing written, and an interpreter whose globals are one empty scope. */
  const Initial := Console(false, false, false, [], [], [map[]])

  /** The lines `report` writes for a list of syntax errors. */
  function Formatted(ds: seq<Diagnostic>): (lines: seq<string>)
    ensures |lines| == |ds|
  {
    if ds == [] then [] else Formatted(ds[..|ds| - 1]) + [Format(ds[|ds| - 1])]
  }

  /** Each diagnostic gives the line of its own `report` text, in order. */
  lemma {:induction false} FormattedLines(ds: seq<Diagnostic>)
    ensures forall i | 0 <= i < |ds| :: Formatted(ds)[i] == Format(ds[i])
    decreases |ds|
  {
    if ds != [] {
      var front := ds[..|ds| - 1];
      FormattedLines(front);
      assert forall i | 0 <= i < |front| :: ds[i] == front[i];
    }
  }

  /**
   * `error`/`report` for each diagnostic in turn: one error line each, the
   * `report` text of that diagnostic, and `hadError` set if there was any.
   */
  function Reported(c: Console, ds: seq<Diagnostic>): (r: Console)
    ensures r.hadError <==> c.hadError || ds != []
    ensures r.hadRuntimeError == c.hadRuntimeError && r.isReplMode == c.isReplMode
    ensures r.stdout == c.stdout && r.globals == c.globals
    ensures |r.stderr| == |c.stderr| + |ds| && r.stderr[..|c.stderr|] == c.stderr
  {
    c.(hadError := c.hadError || |ds| > 0, stderr := c.stderr + Formatted(ds))
  }

  /** The `i`-th error line that reporting `ds` appends is the `report` text of `ds[i]`. */
  lemma {:induction false} ReportedLines(c: Console, ds: seq<Diagnostic>)
    ensures forall i | 0 <= i < |ds| :: Reported(c, ds).stderr[|c.stderr| + i] == Format(ds[i])
  {
    var r := Reported(c, ds);
    FormattedLines(ds);
    forall i | 0 <= i < |ds|
      ensures r.stderr[|c.stderr| + i] == Format(ds[i])
    {
      assert r.stderr[|c.stderr| + i] == r.stderr[|c.stderr|..][i];
    }
  }

  /** `runtimeError`: one more error line, with the message and the line, and `hadRuntimeError` set. */
  function RuntimeReported(c: Console, e: RuntimeError): (r: Console)
    ensures r.hadRuntimeError && r.hadError == c.hadError && r.isReplMode == c.isReplMode
    ensures r.stdout == c.stdout && r.globals == c.globals
    ensures |r.stderr| == |c.stderr| + 1 && r.stderr[..|c.stderr|] == c.stderr
    ensures r.stderr[|c.stderr|] == FormatRuntime(e)
  {
    c.(hadRuntimeError := true, stderr := c.stderr + [FormatRuntime(e)])
  }

  /** `runtimeError` if the interpreter reported an error, nothing otherwise. */
  function MaybeReported(c: Console, reported: Option<RuntimeError>): Console {
    if reported.Some? then RuntimeReported(c, reported.value) else c
  }

  /** The front end's results for one source text; `None` statements: the scanner threw. */
  datatype Front = Front(scanErrors: seq<Diagnostic>, parseErrors: seq<Diagnostic>, statements: Option<seq<Option<Stmt>>>)

  function FrontEnd(source: string): (f: Front)
    ensures f.statements.None? ==> f.parseErrors == []
    ensures f.statements.Some? && f.scanErrors == [] && f.parseErrors == [] ==> AllComplete(f.statements.value)
  {
    var scan := Lexical.ScanAll(source);
    if scan.crashed then Front(scan.errors, [], None)
    else
      LexicalFacts.ScanTokensShape(source);
      var parsed := Grammar.Parse(scan.tokens);
      Front(scan.errors, parsed.errors, Some(parsed.items))
  }

  /** A console after a run, and whether the run ended in an uncaught exception. */
  datatype Outcome = Outcome(console: Console, crashed: bool)

  /**
   * Carrying out the action. Whenever `evaluateExpression` returns, its
   * value is printed, even after it reported a runtime error; only a throw
   * ends the run. The flags other than `hadRuntimeError` are untouched, and
   * the outputs are only appended to, standard error by at most one line.
   */
  function Execute(c: Console, action: Action, interpreter: Interpreter): (o: Outcome)
    ensures action.Skip? ==> o == Outcome(c, false)
    ensures o.crashed <==> action.Evaluate? && interpreter.evaluate(c.globals, action.expression).Threw?
    ensures o.console.hadError == c.hadError && o.console.isReplMode == c.isReplMode
    ensures c.hadRuntimeError ==> o.console.hadRuntimeError
    ensures |c.stdout| <= |o.console.stdout| && o.console.stdout[..|c.stdout|] == c.stdout
    ensures action.Evaluate? && !o.crashed ==> |o.console.stdout| == |c.stdout| + 1
    ensures |c.stderr| <= |o.console.stderr| <= |c.stderr| + 1 && o.console.stderr[..|c.stderr|] == c.stderr
  {
    match action
    case Skip => Outcome(c, false)
    case Evaluate(e) =>
      (match interpreter.evaluate(c.globals, e)
       case Threw => Outcome(c, true)
       case Returned(globals, v, reported) =>
         var r := MaybeReported(c, reported);
         Outcome(r.(globals := globals, stdout := r.stdout + [Stringify(v, interpreter.numberText)]), false))
    case Interpret(statements) =>
      var ran := interpreter.interpret(c.globals, statements);
      var r := MaybeReported(c, ran.reported);
      Outcome(r.(globals := ran.globals, stdout := r.stdout + ran.printed), false)
  }

  /**
   * `run` once the scanner and the parser have produced `f`: a scanner
   * throw ends it; `hadError` ends up set exactly when it was or an error
   * was reported; no flag is cleared; the outputs are only appended to.
   */
  function RunWith(c: Console, f: Front, interpreter: Interpreter): (o: Outcome)
    ensures f.statements.None? ==> o.crashed
    ensures o.console.hadError <==> c.hadError || f.scanErrors != [] || (f.statements.Some? && f.parseErrors != [])
    ensures c.hadRuntimeError ==> o.console.hadRuntimeError
    ensures o.console.isReplMode == c.isReplMode
    ensures |c.stdout| <= |o.console.stdout| && o.console.stdout[..|c.stdout|] == c.stdout
    ensures |c.stderr| <= |o.console.stderr| && o.console.stderr[..|c.stderr|] == c.stderr
  {
    var scanned := Reported(c, f.scanErrors);
    if f.statements.None? then Outcome(scanned, true)
    else
      var parsed := Reported(scanned, f.parseErrors);
      Execute(parsed, Dispatch(parsed.hadError, c.isReplMode, f.statements.value), interpreter)
  }

  /**
   * `run(source)`: a scanner throw (no statements from `FrontEnd`) always
   * ends it, and outside the REPL nothing else can; `hadError` ends up set
   * exactly when it was or the source has a scan or parse error; no flag
   * is cleared and the outputs are only appended to.
   */
  function RunOn(c: Console, source: string, interpreter: Interpreter): (o: Outcome)
    ensures FrontEnd(source).statements.None? ==> o.crashed
    ensures o.crashed && FrontEnd(source).statements.Some? ==> c.isReplMode
    ensures o.console.hadError <==> c.hadError || FrontEnd(source).scanErrors != [] || FrontEnd(source).parseErrors != []
    ensures c.hadRuntimeError ==> o.console.hadRuntimeError
    ensures o.console.isReplMode == c.isReplMode
    ensures |c.stdout| <= |o.console.stdout| && o.console.stdout[..|c.stdout|] == c.stdout
    ensures |c.stderr| <= |o.console.stderr| && o.console.stderr[..|c.stderr|] == c.stderr
  {
    RunWith(c, FrontEnd(source), interpreter)
  }

  /**
   * `runPrompt`'s loop over the input lines; `hadError` is cleared after
   * every line, while `hadRuntimeError` and the interpreter's globals carry
   * over. A runtime error is never forgotten, and a syntax error never
   * outlives its line.
   */
  function PromptOn(c: Console, lines: seq<string>, interpreter: Interpreter): (o: Outcome)
    ensures c.hadRuntimeError ==> o.console.hadRuntimeError
    ensures !o.crashed && lines != [] ==> !o.console.hadError
    ensures o.console.isReplMode == c.isReplMode
    decreases |lines|
  {
    if lines == [] then Outcome(c, false)
    else
      var o := RunOn(c, lines[0], interpreter);
      if o.crashed then o else PromptOn(o.console.(hadError := false), lines[1..], interpreter)
  }

  /**
   * One turn of the prompt loop at line i: run the line; a throw ends the
   * loop with that run's outcome, otherwise the rest of the lines follow
   * with `hadError` cleared.
   */
  lemma {:induction false} PromptTurn(c: Console, lines: seq<string>, i: nat, interpreter: Interpreter, o: Outcome)
    requires i < |lines| && o == RunOn(c, lines[i], interpreter)
    ensures o.crashed ==> PromptOn(c, lines[i..], interpreter) == o
    ensures !o.crashed ==> PromptOn(c, lines[i..], interpreter) == PromptOn(o.console.(hadError := false), lines[i + 1..], interpreter)
  {
    assert lines[i..][0] == lines[i];
    assert lines[i..][1..] == lines[i + 1..];
  }

  /** How the process ends: an exit status, or an uncaught exception. */
  datatype Exit = Exit(code: int, console: Console) | Crash(console: Console)

  /**
   * `main`: more than one argument prints the usage and exits 64; one runs
   * that file and exits with the code its flags give; none runs the REPL,
   * which exits 0 at the end of the input.
   */
  function LaunchOn(args: seq<string>, contents: string, lines: seq<string>, interpreter: Interpreter): (x: Exit)
    ensures |args| > 1 ==> x.Exit? && x.code == UsageExit && x.console.stdout == [UsageText] && x.console.stderr == []
    ensures |args| == 1 && x.Exit? ==> x.code == ExitCode(x.console.hadError, x.console.hadRuntimeError)
    ensures |args| == 0 && x.Exit? ==> x.code == 0
    ensures |args| <= 1 ==> (x.console.isReplMode <==> |args| == 0)
  {
    if |args| > 1 then Exit(UsageExit, Initial.(stdout := [UsageText]))
    else if |args| == 1 then
      var o := RunOn(Initial, contents, interpreter);
      if o.crashed then Crash(o.console) else Exit(ExitCode(o.console.hadError, o.console.hadRuntimeError), o.console)
    else
      var o := PromptOn(Initial.(isReplMode := true), lines, interpreter);
      if o.crashed then Crash(o.console) else Exit(0, o.console)
  }

  // ---------------------------------------------------------------------
  // What the rules promise
  // ---------------------------------------------------------------------

  lemma {:induction false} FormattedAppend(a: seq<Diagnostic>, b: seq<Diagnostic>)
    ensures Formatted(a + b) == Formatted(a) + Formatted(b)
    decreases |b|
  {
    if b == [] {
      assert a + b == a;
    } else {
      assert (a + b)[..|a + b| - 1] == a + b[..|b| - 1];
      FormattedAppend(a, b[..|b| - 1]);
    }
  }

  /** Reporting two lists in turn is reporting their concatenation. */
  lemma {:induction false} ReportedTwice(c: Console, a: seq<Diagnostic>, b: seq<Diagnostic>)
    ensures Reported(Reported(c, a), b) == Reported(c, a + b)
  {
    FormattedAppend(a, b);
    assert c.stderr + Formatted(a) + Formatted(b) == c.stderr + Formatted(a + b);
  }

  /**
   * After a syntax error, in this run or left set before it, nothing is
   * executed or printed, and the interpreter's globals are untouched.
   */
  lemma {:induction false} SyntaxErrorRunsNothing(c: Console, f: Front, interpreter: Interpreter)
    requires f.statements.Some? && (c.hadError || f.scanErrors != [] || f.parseErrors != [])
    ensures var o := RunWith(c, f, interpreter);
      && !o.crashed
      && o.console == Reported(c, f.scanErrors + f.parseErrors)
      && o.console.hadError
      && o.console.stdout == c.stdout
      && o.console.globals == c.globals
      && o.console.hadRuntimeError == c.hadRuntimeError
  {
    ReportedTwice(c, f.scanErrors, f.parseErrors);
  }

  /**
   * Without a syntax error the run reaches the interpreter, with the
   * statements exactly as parsed.
   */
  lemma {:induction false} CleanRunExecutes(c: Console, f: Front, interpreter: Interpreter)
    requires !c.hadError && f.statements.Some? && f.scanErrors == [] && f.parseErrors == []
    ensures var a := Dispatch(false, c.isReplMode, f.statements.value);
      && (a.Evaluate? || a == Interpret(f.statements.value))
      && RunWith(c, f, interpreter) == Execute(c, a, interpreter)
  {
    assert Reported(c, []) == c;
  }

  /**
   * In the REPL a returned value is always printed, after the runtime error
   * that `evaluateExpression` reported, if any; the interpreter keeps the
   * globals it returned.
   */
  lemma {:induction false} EvaluationPrints(c: Console, e: Expr, interpreter: Interpreter)
    requires interpreter.evaluate(c.globals, e).Returned?
    ensures var x := interpreter.evaluate(c.globals, e);
      var o := Execute(c, Evaluate(e), interpreter);
      && !o.crashed
      && o.console.stdout == c.stdout + [Stringify(x.value, interpreter.numberText)]
      && o.console.globals == x.globals
      && (x.reported.Some? ==> o.console.hadRuntimeError && o.console.stderr == c.stderr + [FormatRuntime(x.reported.value)])
      && (x.reported.None? ==> o.console.stderr == c.stderr && o.console.hadRuntimeError == c.hadRuntimeError)
  {
  }

  /**
   * What `interpret` does to the console: its print lines are appended to
   * standard output, the globals become the ones it leaves behind, so the
   * next `run` sees them, and a runtime error it reported is written and
   * sets `hadRuntimeError`.
   */
  lemma {:induction false} InterpretationRuns(c: Console, statements: seq<Option<Stmt>>, interpreter: Interpreter)
    ensures var x := interpreter.interpret(c.globals, statements);
      var o := Execute(c, Interpret(statements), interpreter);
      && !o.crashed
      && o.console.stdout == c.stdout + x.printed
      && o.console.globals == x.globals
      && (x.reported.Some? ==> o.console.hadRuntimeError && o.console.stderr == c.stderr + [FormatRuntime(x.reported.value)])
      && (x.reported.None? ==> o.console.stderr == c.stderr && o.console.hadRuntimeError == c.hadRuntimeError)
  {
  }

  /**
   * Globals outlive a REPL line: after a clean line that goes to
   * `interpret` (a declaration, say), a clean expression line is evaluated
   * in the globals that `interpret` left behind, and its value is printed.
   */
  lemma {:induction false} GlobalsCarryOver(c: Console, first: string, second: string, e: Expr, interpreter: Interpreter)
    requires c.isReplMode && !c.hadError
    requires FrontEnd(first).scanErrors == [] && FrontEnd(first).parseErrors == [] && FrontEnd(first).statements.Some?
    requires Dispatch(false, true, FrontEnd(first).statements.value).Interpret?
    requires FrontEnd(second) == Front([], [], Some([Some(Expression(e))]))
    ensures var g := interpreter.interpret(c.globals, FrontEnd(first).statements.value).globals;
      var x := interpreter.evaluate(g, e);
      var o := PromptOn(c, [first, second], interpreter);
      && (o.crashed <==> x.Threw?)
      && (x.Returned? ==>
            o.console.globals == x.globals && |o.console.stdout| > 0
            && o.console.stdout[|o.console.stdout| - 1] == Stringify(x.value, interpreter.numberText))
  {
    TwoLines(c, first, second, interpreter);
    CleanLineInterprets(c, FrontEnd(first), interpreter);
    var c2 := RunOn(c, first, interpreter).console.(hadError := false);
    CleanLineEvaluates(c2, e, interpreter);
  }

  /** `runPrompt` on two lines: the second runs on the console the first left, unless the first threw. */
  lemma {:induction false} TwoLines(c: Console, first: string, second: string, interpreter: Interpreter)
    ensures var o1 := RunOn(c, first, interpreter);
      var o2 := RunOn(o1.console.(hadError := false), second, interpreter);
      PromptOn(c, [first, second], interpreter)
        == if o1.crashed then o1 else if o2.crashed then o2 else Outcome(o2.console.(hadError := false), false)
  {
    var lines := [first, second];
    assert lines[0..] == lines && lines[0] == first && lines[1] == second && lines[2..] == [];
    var o1 := RunOn(c, first, interpreter);
    PromptTurn(c, lines, 0, interpreter, o1);
    PromptTurn(o1.console.(hadError := false), lines, 1, interpreter, RunOn(o1.console.(hadError := false), second, interpreter));
  }

  /** A clean line that goes to `interpret` ends with the globals that `interpret` left behind. */
  lemma {:induction false} CleanLineInterprets(c: Console, f: Front, interpreter: Interpreter)
    requires !c.hadError && f.scanErrors == [] && f.parseErrors == [] && f.statements.Some?
    requires Dispatch(false, c.isReplMode, f.statements.value).Interpret?
    ensures var o := RunWith(c, f, interpreter);
      && !o.crashed && !o.console.hadError && o.console.isReplMode == c.isReplMode
      && o.console.globals == interpreter.interpret(c.globals, f.statements.value).globals
  {
    CleanRunExecutes(c, f, interpreter);
    InterpretationRuns(c, f.statements.value, interpreter);
  }

  /** A clean REPL line holding one expression statement is evaluated in the current globals. */
  lemma {:induction false} CleanLineEvaluates(c: Console, e: Expr, interpreter: Interpreter)
    requires c.isReplMode && !c.hadError
    ensures var x := interpreter.evaluate(c.globals, e);
      var o := RunWith(c, Front([], [], Some([Some(Expression(e))])), interpreter);
      && (o.crashed <==> x.Threw?)
      && (x.Returned? ==>
            o.console.globals == x.globals
            && o.console.stdout == c.stdout + [Stringify(x.value, interpreter.numberText)])
  {
    CleanRunExecutes(c, Front([], [], Some([Some(Expression(e))])), interpreter);
    if interpreter.evaluate(c.globals, e).Returned? {
      EvaluationPrints(c, e, interpreter);
    }
  }

  /** Outside the REPL nothing is evaluated for printing: every program goes to `interpret`. */
  lemma {:induction false} FileModeInterprets(statements: seq<Option<Stmt>>)
    ensures Dispatch(false, false, statements) == Interpret(statements)
  {
  }

  /**
   * File mode's exit status: 65 exactly when the source has a syntax
   * error, otherwise 70 exactly when the interpreter reported a runtime
   * error, otherwise 0; a scanner throw is an uncaught exception.
   */
  lemma {:induction false} LaunchExitCodes(args: seq<string>, contents: string, lines: seq<string>, interpreter: Interpreter)
    ensures var f := FrontEnd(contents);
      var x := LaunchOn(args, contents, lines, interpreter);
      |args| == 1 && f.statements.Some? ==>
        && x.Exit?
        && (x.code == SyntaxErrorExit <==> f.scanErrors != [] || f.parseErrors != [])
        && (x.code == RuntimeErrorExit <==>
              f.scanErrors == [] && f.parseErrors == [] && interpreter.interpret(Initial.globals, f.statements.value).reported.Some?)
        && (x.code == 0 <==>
              f.scanErrors == [] && f.parseErrors == [] && interpreter.interpret(Initial.globals, f.statements.value).reported.None?)
    ensures |args| == 1 && FrontEnd(contents).statements.None? ==> LaunchOn(args, contents, lines, interpreter).Crash?
  {
    var f := FrontEnd(contents);
    if |args| == 1 && f.statements.Some? {
      if f.scanErrors == [] && f.parseErrors == [] {
        CleanRunExecutes(Initial, f, interpreter);
      } else {
        SyntaxErrorRunsNothing(Initial, f, interpreter);
      }
    }
  }

  /**
   * The driver as the source writes it: static flags updated by
   * `report`, `runtimeError`, `run` and `runPrompt`.
   */
  class Session {
    var hadError: bool
    var hadRuntimeError: bool
    var isReplMode: bool
    var stdout: seq<string>
    var stderr: seq<string>
    var globals: Scopes.Chain

    function State(): Console
      reads this
    {
      Console(hadError, hadRuntimeError, isReplMode, stdout, stderr, globals)
    }

    constructor ()
      ensures State() == Initial
    {
      hadError := false;
      hadRuntimeError := false;
      isReplMode := false;
      stdout := [];
      stderr := [];
      globals := [map[]];
    }

    /** `report`, as `error(Token, …)` and `error(int, …)` call it. */
    method Report(d: Diagnostic)
      modifies this
      ensures State() == Reported(old(State()), [d])
    {
      stderr := stderr + [Format(d)];
      hadError := true;
    }

    method ReportAll(ds: seq<Diagnostic>)
      modifies this
      ensures State() == Reported(old(State()), ds)
    {
      for i := 0 to |ds|
        invariant State() == Reported(old(State()), ds[..i])
      {
        assert ds[..i + 1][..i] == ds[..i];
        Report(ds[i]);
      }
      assert ds[..|ds|] == ds;
    }

    /** `runtimeError`. */
    method RuntimeError(error: RuntimeError)
      modifies this
      ensures State() == RuntimeReported(old(State()), error)
    {
      stderr := stderr + [FormatRuntime(error)];
      hadRuntimeError := true;
    }

    /** `run`: scan, parse, stop after a syntax error, then evaluate or interpret. */
    method Run(source: string, interpreter: Interpreter) returns (crashed: bool)
      modifies this
      ensures Outcome(State(), crashed) == RunOn(old(State()), source, interpreter)
    {
      var f := ScanAndParse(source);
      ReportAll(f.scanErrors);
      if f.statements.None? {
        return true;
      }
      var statements := f.statements.value;
      ReportAll(f.parseErrors);
      if hadError {
        return false;
      }
      if isReplMode && |statements| == 1 && statements[0].Some? && statements[0].value.Expression? {
        crashed := EvaluateAndPrint(statements[0].value.expression, interpreter);
      } else {
        InterpretAll(statements, interpreter);
        crashed := false;
      }
    }

    /** The REPL branch of `run`: evaluate, then print the value unless the evaluation threw. */
    method EvaluateAndPrint(expression: Expr, interpreter: Interpreter) returns (crashed: bool)
      modifies this
      ensures Outcome(State(), crashed) == Execute(old(State()), Evaluate(expression), interpreter)
    {
      var result := interpreter.evaluate(globals, expression);
      if result.Threw? {
        return true;
      }
      if result.reported.Some? {
        RuntimeError(result.reported.value);
      }
      globals := result.globals;
      stdout := stdout + [Stringify(result.value, interpreter.numberText)];
      return false;
    }

    /** The other branch of `run`: hand the statements to `interpret`. */
    method InterpretAll(statements: seq<Option<Stmt>>, interpreter: Interpreter)
      modifies this
      ensures State() == Execute(old(State()), Interpret(statements), interpreter).console
    {
      var ran := interpreter.interpret(globals, statements);
      if ran.reported.Some? {
        RuntimeError(ran.reported.value);
      }
      globals := ran.globals;
      stdout := stdout + ran.printed;
    }

    /** `runPrompt`: every input line is run, and `hadError` is cleared after each. */
    method RunPrompt(lines: seq<string>, interpreter: Interpreter) returns (crashed: bool)
      modifies this
      ensures Outcome(State(), crashed) == PromptOn(old(State()).(isReplMode := true), lines, interpreter)
    {
      isReplMode := true;
      assert State() == old(State()).(isReplMode := true);
      ghost var whole := PromptOn(State(), lines, interpreter);
      var i := 0;
      while i < |lines|
        invariant 0 <= i <= |lines|
        invariant PromptOn(State(), lines[i..], interpreter) == whole
      {
        ghost var before := State();
        crashed := Run(lines[i], interpreter);
        PromptTurn(before, lines, i, interpreter, Outcome(State(), crashed));
        if crashed {
          return;
        }
        ghost var after := State();
        hadError := false;
        assert State() == after.(hadError := false);
        i := i + 1;
      }
      return false;
    }

    /** `runFile`: run the file's contents, then exit 65, 70 or normally. */
    method RunFile(contents: string, interpreter: Interpreter) returns (exit: Option<int>)
      modifies this
      ensures var o := RunOn(old(State()), contents, interpreter);
        State() == o.console
        && (exit.None? <==> o.crashed)
        && (exit.Some? ==> exit.value == ExitCode(o.console.hadError, o.console.hadRuntimeError))
    {
      var crashed := Run(contents, interpreter);
      if crashed {
        return None;
      }
      if hadError {
        return Some(SyntaxErrorExit);
      }
      if hadRuntimeError {
        return Some(RuntimeErrorExit);
      }
      return Some(0);
    }
  }

  /**
   * The first half of `run`: a fresh `Scanner` over the source, then,
   * unless it threw, a fresh `Parser` over its tokens.
   */
  method ScanAndParse(source: string) returns (f: Front)
    ensures f == FrontEnd(source)
  {
    var scanner := new Scanning.Scanner(source);
    var tokens := scanner.ScanTokens();
    if tokens.None? {
      return Front(scanner.errors, [], None);
    }
    LexicalFacts.ScanTokensShape(source);
    var parser := new Parsing.Parser(tokens.value);
    var statements := parser.Parse();
    return Front(scanner.errors, parser.errors, Some(statements));
  }

  /** `main`, with the file's contents and the standard input lines given up front. */
  method Launch(args: seq<string>, contents: string, lines: seq<string>, interpreter: Interpreter) returns (exit: Exit)
    ensures exit == LaunchOn(args, contents, lines, interpreter)
  {
    var session := new Session();
    if |args| > 1 {
      session.stdout := session.stdout + [UsageText];
      return Exit(UsageExit, session.State());
    } else if |args| == 1 {
      var code := session.RunFile(contents, interpreter);
      if code.None? {
        return Crash(session.State());
      }
      return Exit(code.value, session.State());
    } else {
      var crashed := session.RunPrompt(lines, interpreter);
      if crashed {
        return Crash(session.State());
      }
      return Exit(0, session.State());
    }
  }
}

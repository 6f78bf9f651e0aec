/**
 * The parser as the source writes it: an object holding the token list and
 * a cursor, with one method per grammar rule. A `ParseError` unwinding out
 * of a rule is a `None` result; the errors handed to `Lox.error` are
 * appended to the `errors` field. Every rule method is proved to leave the
 * cursor, the result and the reported errors exactly as the reference
 * function of `Grammar` for the same rule says, so the facts proved there
 * (bounds, progress, tree shapes, recovery points) hold of it.
 */
module Parsing {
  import opened Options
  import opened Tokens
  import Ast
  import opened Diagnostics
  import Grammar
  import GrammarFacts

  lemma {:induction false} EmptyAppended<T>(a: seq<T>)
    ensures a + [] == a
  {
  }

  lemma {:induction false} Associative<T>(a: seq<T>, b: seq<T>, c: seq<T>)
    ensures a + b + c == a + (b + c)
  {
  }

  /** What is left of a binary level's loop after `done` was reported, as one turn ends it. */
  lemma {:induction false} FoldStops(level: Grammar.Level, tokens: seq<Token>, pos: nat, left: Ast.Expr,
                                     right: Grammar.Parsed<Ast.Expr>, done: seq<Diagnostic>, whole: Grammar.Parsed<Ast.Expr>)
    requires Grammar.Valid(tokens, pos) && Grammar.Matches(tokens, pos, Grammar.Operators(level))
    requires right == Grammar.OperandAt(level, tokens, pos + 1) && right.result.None?
    requires var rest := Grammar.BinaryTail(level, tokens, pos, left);
      rest.result == whole.result && rest.pos == whole.pos && done + rest.errors == whole.errors
    ensures whole.result == None && whole.pos == right.pos && whole.errors == done + right.errors
  {
    GrammarFacts.TailStops(level, tokens, pos, left, right);
  }

  /** ... and as one turn folds an operand onto `left`. */
  lemma {:induction false} FoldTurns(level: Grammar.Level, tokens: seq<Token>, pos: nat, left: Ast.Expr,
                                     right: Grammar.Parsed<Ast.Expr>, done: seq<Diagnostic>, whole: Grammar.Parsed<Ast.Expr>)
    requires Grammar.Valid(tokens, pos) && Grammar.Matches(tokens, pos, Grammar.Operators(level))
    requires right == Grammar.OperandAt(level, tokens, pos + 1) && right.result.Some?
    requires var rest := Grammar.BinaryTail(level, tokens, pos, left);
      rest.result == whole.result && rest.pos == whole.pos && done + rest.errors == whole.errors
    ensures var rest := Grammar.BinaryTail(level, tokens, right.pos, Ast.Binary(left, tokens[pos], right.result.value));
      rest.result == whole.result && rest.pos == whole.pos && (done + right.errors) + rest.errors == whole.errors
  {
    var rest := Grammar.BinaryTail(level, tokens, right.pos, Ast.Binary(left, tokens[pos], right.result.value));
    GrammarFacts.TailFolds(level, tokens, pos, left, right, rest);
    Associative(done, right.errors, rest.errors);
  }

  class Parser {
    const tokens: seq<Token>
    var current: nat
    var errors: seq<Diagnostic>

    constructor (tokens: seq<Token>)
      ensures this.tokens == tokens && current == 0 && errors == []
    {
      this.tokens := tokens;
      current := 0;
      errors := [];
    }

    /** The cursor is on a token of a token list that ends in EOF. */
    predicate Valid()
      reads this
    {
      Grammar.Valid(tokens, current)
    }

    predicate IsAtEnd()
      reads this
      requires Valid()
    {
      Grammar.AtEnd(tokens, current)
    }

    function Peek(): Token
      reads this
      requires Valid()
    {
      tokens[current]
    }

    function Previous(): Token
      reads this
      requires Valid() && current >= 1
    {
      tokens[current - 1]
    }

    predicate Check(kind: TokenKind)
      reads this
      requires Valid()
    {
      if IsAtEnd() then false else Peek().kind == kind
    }

    /** `advance()`: never moves past EOF, and returns the token before the cursor. */
    method Advance() returns (t: Token)
      requires Valid() && (current >= 1 || !IsAtEnd())
      modifies this
      ensures Valid() && current == Grammar.Advance(tokens, old(current)) && errors == old(errors)
      ensures current >= 1 && t == tokens[current - 1]
    {
      if !IsAtEnd() {
        current := current + 1;
      }
      return Previous();
    }

    /** `match(kinds...)`: tries each kind in turn and consumes the token on the first that checks. */
    method Match(kinds: seq<TokenKind>) returns (matched: bool)
      requires Valid()
      modifies this
      ensures Valid() && matched == Grammar.Matches(tokens, old(current), kinds) && errors == old(errors)
      ensures current == if matched then old(current) + 1 else old(current)
    {
      for i := 0 to |kinds|
        invariant current == old(current) && errors == old(errors)
        invariant forall j | 0 <= j < i :: !Check(kinds[j])
      {
        if Check(kinds[i]) {
          var _ := Advance();
          return true;
        }
      }
      return false;
    }

    /** `error(token, message)`: the report; the caller decides whether to throw. */
    method Error(token: Token, message: string)
      modifies this
      ensures errors == old(errors) + [ErrorAt(token, message)] && current == old(current)
    {
      errors := errors + [ErrorAt(token, message)];
    }

    /** `consume(kind, message)`. */
    method Consume(kind: TokenKind, message: string) returns (t: Option<Token>)
      requires Valid()
      modifies this
      ensures var r := Grammar.Consume(tokens, old(current), kind, message);
        t == r.result && current == r.pos && errors == old(errors) + r.errors
    {
      if Check(kind) {
        var token := Advance();
        return Some(token);
      }
      Error(Peek(), message);
      return None;
    }

    /** `expression()`. */
    method Expression() returns (e: Option<Ast.Expr>)
      requires Valid()
      modifies this
      ensures var r := Grammar.ExpressionAt(tokens, old(current));
        e == r.result && current == r.pos && errors == old(errors) + r.errors
      decreases |tokens| - current, 20
    {
      e := BinaryLevel(Grammar.Comma);
    }

    /**
     * `comma()`, `equality()`, `comparison()`, `term()` and `factor()`: the
     * first operand, then the `while (match(...))` fold.
     */
    method BinaryLevel(level: Grammar.Level) returns (e: Option<Ast.Expr>)
      requires Valid()
      modifies this
      ensures var r := Grammar.BinaryAt(level, tokens, old(current));
        e == r.result && current == r.pos && errors == old(errors) + r.errors
      decreases |tokens| - current, 3 * Grammar.Rank(level) + 4
    {
      ghost var parsedFirst := Grammar.OperandAt(level, tokens, current);
      var first := Operand(level);
      if first.None? {
        return None;
      }
      ghost var rest := Grammar.BinaryTail(level, tokens, current, first.value);
      e := Fold(level, first.value);
      GrammarFacts.LevelFolds(level, tokens, old(current), parsedFirst, rest);
      Associative(old(errors), parsedFirst.errors, rest.errors);
    }

    /** The `while (match(operators))` loop of a binary level, folding onto `left`. */
    method Fold(level: Grammar.Level, left: Ast.Expr) returns (e: Option<Ast.Expr>)
      requires Valid()
      modifies this
      ensures var r := Grammar.BinaryTail(level, tokens, old(current), left);
        e == r.result && current == r.pos && errors == old(errors) + r.errors
      decreases |tokens| - current, 3 * Grammar.Rank(level) + 3
    {
      var expr := left;
      ghost var whole := Grammar.BinaryTail(level, tokens, current, expr);
      ghost var done: seq<Diagnostic> := [];
      while true
        invariant Valid() && old(current) <= current && errors == old(errors) + done
        invariant var rest := Grammar.BinaryTail(level, tokens, current, expr);
          rest.result == whole.result && rest.pos == whole.pos && done + rest.errors == whole.errors
        decreases |tokens| - current
      {
        ghost var before := current;
        var matched := Match(Grammar.Operators(level));
        if !matched {
          GrammarFacts.TailEnds(level, tokens, before, expr);
          EmptyAppended(done);
          break;
        }
        var operator := Previous();
        assert operator == tokens[before] && current == before + 1;
        ghost var parsedRight := Grammar.OperandAt(level, tokens, before + 1);
        var right := Operand(level);
        assert right == parsedRight.result && current == parsedRight.pos;
        if right.None? {
          FoldStops(level, tokens, before, expr, parsedRight, done, whole);
          Associative(old(errors), done, parsedRight.errors);
          return None;
        }
        FoldTurns(level, tokens, before, expr, parsedRight, done, whole);
        Associative(old(errors), done, parsedRight.errors);
        done := done + parsedRight.errors;
        expr := Ast.Binary(expr, operator, right.value);
      }
      return Some(expr);
    }

    /** The rule a binary level calls for its operands. */
    method Operand(level: Grammar.Level) returns (e: Option<Ast.Expr>)
      requires Valid()
      modifies this
      ensures var r := Grammar.OperandAt(level, tokens, old(current));
        e == r.result && current == r.pos && errors == old(errors) + r.errors
      decreases |tokens| - current, 3 * Grammar.Rank(level) + 2
    {
      match level
      case Comma => e := Assignment();
      case Equality => e := BinaryLevel(Grammar.Comparison);
      case Comparison => e := BinaryLevel(Grammar.Term);
      case Term => e := BinaryLevel(Grammar.Factor);
      case Factor => e := Unary();
    }

    /** `assignment()`: an invalid target is reported, not thrown. */
    method Assignment() returns (e: Option<Ast.Expr>)
      requires Valid()
      modifies this
      ensures var r := Grammar.AssignmentAt(tokens, old(current));
        e == r.result && current == r.pos && errors == old(errors) + r.errors
      decreases |tokens| - current, 14
    {
      var expr := BinaryLevel(Grammar.Equality);
      ghost var target := Grammar.BinaryAt(Grammar.Equality, tokens, old(current));
      if expr.None? {
        GrammarFacts.AssignmentStops(tokens, old(current), target);
        return None;
      }
      var matched := Match([EQUAL]);
      if !matched {
        GrammarFacts.AssignmentStops(tokens, old(current), target);
        return expr;
      }
      var equals := Previous();
      var value := Assignment();
      ghost var v := Grammar.AssignmentAt(tokens, target.pos + 1);
      Associative(old(errors), target.errors, v.errors);
      if value.None? {
        GrammarFacts.AssignmentFails(tokens, old(current), target, v);
        return None;
      }
      if expr.value.Variable? {
        GrammarFacts.Assigns(tokens, old(current), target, v);
        return Some(Ast.Assign(expr.value.name, value.value));
      }
      Error(equals, "Invalid assignment target.");
      GrammarFacts.AssignmentRejects(tokens, old(current), target, v);
      Associative(old(errors) + target.errors, v.errors, [ErrorAt(equals, "Invalid assignment target.")]);
      Associative(old(errors), target.errors + v.errors, [ErrorAt(equals, "Invalid assignment target.")]);
      return expr;
    }

    /** `unary()`. */
    method Unary() returns (e: Option<Ast.Expr>)
      requires Valid()
      modifies this
      ensures var r := Grammar.UnaryAt(tokens, old(current));
        e == r.result && current == r.pos && errors == old(errors) + r.errors
      decreases |tokens| - current, 1
    {
      var matched := Match([BANG, MINUS]);
      if matched {
        var operator := Previous();
        var right := Unary();
        if right.None? {
          return None;
        }
        return Some(Ast.Unary(operator, right.value));
      }
      e := Primary();
    }

    /** `primary()`. */
    method Primary() returns (e: Option<Ast.Expr>)
      requires Valid()
      modifies this
      ensures var r := Grammar.PrimaryAt(tokens, old(current));
        e == r.result && current == r.pos && errors == old(errors) + r.errors
      decreases |tokens| - current, 0
    {
      var matched := Match([FALSE]);
      if matched {
        return Some(Ast.Literal(Bool(false)));
      }
      matched := Match([TRUE]);
      if matched {
        return Some(Ast.Literal(Bool(true)));
      }
      matched := Match([NIL]);
      if matched {
        return Some(Ast.Literal(Nil));
      }
      matched := Match([NUMBER, STRING]);
      if matched {
        return Some(Ast.Literal(Previous().literal));
      }
      matched := Match([IDENTIFIER]);
      if matched {
        return Some(Ast.Variable(Previous()));
      }
      matched := Match([LEFT_PAREN]);
      if matched {
        e := Group();
        return;
      }
      GrammarFacts.PrimaryFails(tokens, old(current));
      Error(Peek(), "Expect expression.");
      return None;
    }

    /** The parenthesised case of `primary()`, the `(` having been matched. */
    method Group() returns (e: Option<Ast.Expr>)
      requires Valid() && current >= 1 && tokens[current - 1].kind == LEFT_PAREN
      modifies this
      ensures var r := Grammar.PrimaryAt(tokens, old(current) - 1);
        e == r.result && current == r.pos && errors == old(errors) + r.errors
      decreases |tokens| - current, 21
    {
      ghost var parsedInner := Grammar.ExpressionAt(tokens, current);
      GrammarFacts.PrimaryGroups(tokens, current - 1, parsedInner);
      var inner := Expression();
      if inner.None? {
        return None;
      }
      ghost var closing := Grammar.Consume(tokens, current, RIGHT_PAREN, "Expect ')' after expression.");
      var close := Consume(RIGHT_PAREN, "Expect ')' after expression.");
      if close.None? {
        Associative(old(errors), parsedInner.errors, closing.errors);
        return None;
      }
      return Some(Ast.Grouping(inner.value));
    }

    /** `declaration()`: a statement that throws becomes a `None` entry after resynchronising. */
    method Declaration() returns (s: Option<Ast.Stmt>)
      requires Valid() && !IsAtEnd()
      modifies this
      ensures var r := Grammar.DeclarationAt(tokens, old(current));
        s == r.result && current == r.pos && errors == old(errors) + r.errors
      decreases |tokens| - current, 1
    {
      var matched := Match([VAR]);
      if matched {
        s := VarDeclaration();
      } else {
        s := Statement();
      }
      if s.None? {
        Synchronize();
      }
    }

    /** `statement()`. */
    method Statement() returns (s: Option<Ast.Stmt>)
      requires Valid()
      modifies this
      ensures var r := Grammar.StatementAt(tokens, old(current));
        s == r.result && current == r.pos && errors == old(errors) + r.errors
      decreases |tokens| - current, 0
    {
      var matched := Match([PRINT]);
      if matched {
        s := PrintStatement();
        return;
      }
      matched := Match([LEFT_BRACE]);
      if matched {
        var statements := Block();
        if statements.None? {
          return None;
        }
        return Some(Ast.Block(statements.value));
      }
      s := ExpressionStatement();
    }

    /** `printStatement()`. */
    method PrintStatement() returns (s: Option<Ast.Stmt>)
      requires Valid()
      modifies this
      ensures var r := Grammar.PrintStatementAt(tokens, old(current));
        s == r.result && current == r.pos && errors == old(errors) + r.errors
    {
      var value := Expression();
      if value.None? {
        return None;
      }
      var semicolon := Consume(SEMICOLON, "Expect ';' after value.");
      if semicolon.None? {
        return None;
      }
      return Some(Ast.Print(value.value));
    }

    /** `varDeclaration()`. */
    method VarDeclaration() returns (s: Option<Ast.Stmt>)
      requires Valid()
      modifies this
      ensures var r := Grammar.VarDeclarationAt(tokens, old(current));
        s == r.result && current == r.pos && errors == old(errors) + r.errors
    {
      var name := Consume(IDENTIFIER, "Expect variable name.");
      if name.None? {
        return None;
      }
      var initializer: Option<Ast.Expr> := None;
      var matched := Match([EQUAL]);
      if matched {
        initializer := Expression();
        if initializer.None? {
          return None;
        }
      }
      var semicolon := Consume(SEMICOLON, "Expect ';' after variable declaration.");
      if semicolon.None? {
        return None;
      }
      return Some(Ast.Var(name.value, initializer));
    }

    /** `expressionStatement()`. */
    method ExpressionStatement() returns (s: Option<Ast.Stmt>)
      requires Valid()
      modifies this
      ensures var r := Grammar.ExpressionStatementAt(tokens, old(current));
        s == r.result && current == r.pos && errors == old(errors) + r.errors
    {
      var expr := Expression();
      if expr.None? {
        return None;
      }
      var semicolon := Consume(SEMICOLON, "Expect ';' after expression.");
      if semicolon.None? {
        return None;
      }
      return Some(Ast.Expression(expr.value));
    }

    /** `block()`: declarations up to `}` or EOF, then the closing brace. */
    method Block() returns (statements: Option<seq<Option<Ast.Stmt>>>)
      requires Valid()
      modifies this
      ensures var r := Grammar.BlockAt(tokens, old(current));
        statements == r.result && current == r.pos && errors == old(errors) + r.errors
      decreases |tokens| - current, 3
    {
      var items: seq<Option<Ast.Stmt>> := [];
      ghost var whole := Grammar.BlockItemsAt(tokens, current);
      ghost var done: seq<Diagnostic> := [];
      while !Check(RIGHT_BRACE) && !IsAtEnd()
        invariant Valid() && old(current) <= current && errors == old(errors) + done
        invariant var rest := Grammar.BlockItemsAt(tokens, current);
          items + rest.items == whole.items && rest.pos == whole.pos && done + rest.errors == whole.errors
        decreases |tokens| - current
      {
        ghost var before := current;
        ghost var parsed := Grammar.DeclarationAt(tokens, current);
        var d := Declaration();
        ghost var rest := Grammar.BlockItemsAt(tokens, current);
        GrammarFacts.BlockSteps(tokens, before, parsed, rest);
        Associative(items, [d], rest.items);
        Associative(old(errors), done, parsed.errors);
        Associative(done, parsed.errors, rest.errors);
        done := done + parsed.errors;
        items := items + [d];
      }
      GrammarFacts.BlockEnds(tokens, current);
      EmptyAppended(items);
      EmptyAppended(done);
      var close := Consume(RIGHT_BRACE, "Expect '}' after block.");
      Associative(old(errors), whole.errors, Grammar.Consume(tokens, whole.pos, RIGHT_BRACE, "Expect '}' after block.").errors);
      if close.None? {
        return None;
      }
      return Some(items);
    }

    /** `synchronize()`: one `advance()`, then skip to the next statement boundary. */
    method Synchronize()
      requires Valid() && (current >= 1 || !IsAtEnd())
      modifies this
      ensures Valid() && current == Grammar.Synchronize(tokens, old(current)) && errors == old(errors)
    {
      var _ := Advance();
      ghost var first := current;
      while !IsAtEnd()
        invariant Valid() && current >= 1 && errors == old(errors)
        invariant Grammar.SyncLoop(tokens, current) == Grammar.SyncLoop(tokens, first)
        decreases |tokens| - current
      {
        if Previous().kind == SEMICOLON {
          return;
        }
        if Peek().kind in Grammar.StatementStarts {
          return;
        }
        var _ := Advance();
      }
    }

    /** `parse()`: declarations until EOF; each failed one leaves a `None` entry. */
    method Parse() returns (statements: seq<Option<Ast.Stmt>>)
      requires Valid()
      modifies this
      ensures var r := Grammar.ProgramAt(tokens, old(current));
        statements == r.items && current == r.pos && errors == old(errors) + r.errors
    {
      statements := [];
      ghost var whole := Grammar.ProgramAt(tokens, current);
      ghost var done: seq<Diagnostic> := [];
      while !IsAtEnd()
        invariant Valid() && old(current) <= current && errors == old(errors) + done
        invariant var rest := Grammar.ProgramAt(tokens, current);
          statements + rest.items == whole.items && rest.pos == whole.pos && done + rest.errors == whole.errors
        decreases |tokens| - current
      {
        ghost var before := current;
        ghost var parsed := Grammar.DeclarationAt(tokens, current);
        var d := Declaration();
        ghost var rest := Grammar.ProgramAt(tokens, current);
        GrammarFacts.ProgramSteps(tokens, before, parsed, rest);
        Associative(statements, [d], rest.items);
        Associative(old(errors), done, parsed.errors);
        Associative(done, parsed.errors, rest.errors);
        done := done + parsed.errors;
        statements := statements + [d];
      }
      GrammarFacts.ProgramEnds(tokens, current);
      EmptyAppended(statements);
      EmptyAppended(done);
    }
  }
}

# Lox front end, modelled in Dafny

This project models the front end of `jlox`, the tree-walking Lox interpreter from *Crafting Interpreters*:

- the scanner, which turns source text into tokens;
- the recursive-descent parser, which turns tokens into statements and expressions;
- the scope chain that stores variables;
- the postfix (reverse Polish) expression printer;
- the driver rules that decide what happens after scanning and parsing.

It follows the Java code in `com/craftinginterpreters/lox/`.

Each imperative Java class becomes a Dafny `class` whose methods change its fields as the Java methods do. Each such method is proved equal to a pure reference function, and the properties are proved about those functions as lemmas.

| Java | Dafny class | Reference functions | Properties |
|---|---|---|---|
| `Scanner` | `Scanning.Scanner` | `Lexical` | `LexicalFacts`, `LexicalExamples` |
| `Parser` | `Parsing.Parser` | `Grammar` | `GrammarFacts`, `GrammarExamples` |
| `Environment` | `Environments.Environment` | `Scopes` (a chain of maps, innermost first) | `Scopes` |
| `Lox` (static flags and interpreter) | `Lox.Session` | `Lox` functions | `Lox` lemmas |

`RPNPrinter` is pure recursion over the tree, so `RpnPrinter` is written with functions and lemmas only.

The shared vocabulary:

- `Tokens`: token kinds, literal values, tokens and the keyword table.
- `Ast`: the `Expr` and `Stmt` shapes from the `GenerateAst` tool's type descriptions.
- `Diagnostics`: syntax-error records and their `[line N] Error<where>: <message>` text.

Java exceptions become values:

- A `ParseError` is an `Option` result of `None`. The reported diagnostics are kept in an `errors` list.
- The out-of-range `charAt` that the block-comment code can provoke is a `crashed` flag on the scan.
- A `RuntimeError` from an environment lookup or assignment is a `Result` of `Err`.
- An exception thrown out of `evaluateExpression` is the `Threw` outcome, and the run ends with it uncaught.

The static `Lox.error` sink is modelled per phase. The scanner and the parser each keep the list of diagnostics they report. The driver appends them to its error output in the order the Java code reports them.

Behaviour of the code that this model keeps as written:

- The block-comment loop runs while `peek() != '*' && peekNext() != '/'`. So it stops at the first `*`, or one character before any `/`. The two `advance()` calls that close the comment do not count newlines.
- The loop and the two closing `advance()` calls read with no end check. With no stopping point left, the loop reports "Unterminated block comment" at the end of the source and then reads past it, which throws. A comment whose last character is a lone `*` throws on the second closing `advance()`, with no error reported. An open comment that reaches some `x/` ends there quietly, so `/* a/` is all comment. After a throw the scan is `crashed`, and the driver's run ends with an uncaught exception.
- A failed declaration leaves a `null` entry (`None`) in the list that `parse()` and `block()` return. The entry is not dropped.
- "Invalid assignment target." is reported without being thrown, and the left-hand expression is returned.
- `RPNPrinter` has no case for `Variable` or `Assign`, so `RpnPrinter.Print` gives `None` on such a tree.
- The uninitialized sentinel prints as `UNITIALIZED`, as its `toString` spells it.

## Model

| member | source | states |
|---|---|---|
| Tokens.Keyword | com/craftinginterpreters/lox/Scanner.java:20-38 | a text the table knows is the spelling of a reserved word, and maps to that word's kind |
| Tokens.KeywordTableComplete | com/craftinginterpreters/lox/Scanner.java:20-38 | every one of the sixteen reserved words is found under its own spelling |
| Diagnostics.Location | com/craftinginterpreters/lox/Lox.java:96-102 | the location is " at end" exactly for an EOF token, otherwise " at '<lexeme>'" |
| Diagnostics.ErrorAt | com/craftinginterpreters/lox/Lox.java:96-102 | a token error carries the token's line and the message, with the " at end" location exactly at EOF |
| Diagnostics.ErrorAtLine | com/craftinginterpreters/lox/Lox.java:85-87 | a line error carries that line, an empty location and the message |
| Diagnostics.Format | com/craftinginterpreters/lox/Lox.java:89-94 | the text is "[line ", the decimal line number, then "] Error", the location, ": " and the message, and has exactly that length |
| Diagnostics.NatToString | com/craftinginterpreters/lox/Lox.java:91 | the line number's text is a non-empty run of decimal digits with no leading zero, whose value is the number |
| Diagnostics.FormatRuntime | com/craftinginterpreters/lox/Lox.java:105 | a runtime error's text is its message, a line break, "[line ", the decimal line number and "]" |
| Lexical.PeekAt | com/craftinginterpreters/lox/Scanner.java:213-216 | `peek()` shows the character under the cursor, and an answer other than NUL means the cursor is inside the source |
| Lexical.PeekNextAt | com/craftinginterpreters/lox/Scanner.java:218-221 | `peekNext()` is what `peek()` would show one character further on |
| Lexical.MatchAt | com/craftinginterpreters/lox/Scanner.java:205-211 | `match` never succeeds at the end, and for any character but NUL succeeds exactly when `peek()` shows that character |
| Lexical.IdentifierEnd | com/craftinginterpreters/lox/Scanner.java:150-157 | the identifier loop stops at the first character that is not alphanumeric, or at the end, and everything it passes is alphanumeric |
| Lexical.DigitsEnd | com/craftinginterpreters/lox/Scanner.java:170 | the digit loop stops at the first non-digit or the end, and passes only digits |
| Lexical.Until | com/craftinginterpreters/lox/Scanner.java:103 | the comment and string loops stop at the first occurrence of their stop character (newline, `"`) or at the end, and pass no such character |
| Lexical.Skip | com/craftinginterpreters/lox/Scanner.java:123-131 | whitespace moves the cursor forward, adds no token, and sets the line as given |
| Lexical.AddToken | com/craftinginterpreters/lox/Scanner.java:67-70 | one non-EOF token is appended, whose lexeme is the source slice just scanned; the line is unchanged |
| Lexical.Operator | com/craftinginterpreters/lox/Scanner.java:88-99 | one of `!` `=` `<` `>` adds a token over the slice it consumed, on the same line |
| Lexical.BlockCommentLoop | com/craftinginterpreters/lox/Scanner.java:105-112 | the comment loop stops at the first position with `*` under the cursor or `/` after it, counting exactly the newlines it passes and reporting nothing; with no such position it runs to the end, reports "Unterminated block comment" on the line reached, and throws |
| Lexical.BlockComment | com/craftinginterpreters/lox/Scanner.java:104-116 | a block comment adds no token; it throws exactly when no position before the last character stops the loop, so a comment ending in a lone `*` throws with no error; otherwise it ends two characters after the first stopping position and counts only the newlines before it; an error is reported only when the loop ran off the end |
| Lexical.StringLiteral | com/craftinginterpreters/lox/Scanner.java:184-199 | a string consumes at least its opening quote and adds at most one token over the slice it consumed |
| Lexical.IdentifierToken | com/craftinginterpreters/lox/Scanner.java:150-157 | an identifier or keyword adds one token over its slice, on the same line |
| Lexical.NumberToken | com/craftinginterpreters/lox/Scanner.java:169-182 | a number adds one token over its slice, on the same line |
| Lexical.SlashCase | com/craftinginterpreters/lox/Scanner.java:100-120 | a `/` consumes at least itself; only a block comment can move the line |
| Lexical.SingleCharKind | com/craftinginterpreters/lox/Scanner.java:76-85 | a single-character kind is never EOF or SLASH |
| Lexical.Step | com/craftinginterpreters/lox/Scanner.java:72-148 | each `scanToken()` consumes at least one character, keeps earlier tokens and errors, adds at most one non-EOF token over its slice, changes the line only on a newline, a string or a block comment, and throws only on `/*` |
| Lexical.ScanLoop | com/craftinginterpreters/lox/Scanner.java:44-49 | the loop only moves forward within the source, consumes all of it unless a step threw, and throws only where a `/*` is left in the source |
| Lexical.ScanFrom | com/craftinginterpreters/lox/Scanner.java:44-53 | without a throw the whole source is consumed and the list ends with an EOF token on the final line; a throw needs a `/*` in the part still to scan |
| Lexical.ScanAll | com/craftinginterpreters/lox/Scanner.java:44-53 | a fresh scan ends with EOF unless it threw, and it can throw only on a source holding `/*` |
| LexicalFacts.StepKeepsInvariants | com/craftinginterpreters/lox/Scanner.java:72-148 | one `scanToken()` keeps three facts about the tokens: none is EOF, lines never decrease, and lexemes are ordered, disjoint, non-empty source slices |
| LexicalFacts.ScanLoopKeepsInvariants | com/craftinginterpreters/lox/Scanner.java:44-49 | the scanning loop keeps the same three facts |
| LexicalFacts.ScanTokensShape | com/craftinginterpreters/lox/Scanner.java:44-53 | unless the scan threw, the list ends with exactly one EOF token with empty lexeme, no literal and the final line; the other tokens are ordered non-empty slices of the source; lines never decrease |
| LexicalFacts.OperatorLongestMatch | com/craftinginterpreters/lox/Scanner.java:88-99 | `!=` `==` `<=` `>=` become one two-character token; otherwise `!` `=` `<` `>` become one-character tokens |
| LexicalFacts.IdentifierLongestMatch | com/craftinginterpreters/lox/Scanner.java:150-157 | an identifier takes the longest alphanumeric run, and the keyword table is consulted on that whole run only |
| LexicalFacts.NumberLongestMatch | com/craftinginterpreters/lox/Scanner.java:169-182 | a number token's lexeme is digits with at most one inner `.`, its literal is that text, no digit follows it, and without a fraction no `.`-then-digit follows it |
| LexicalFacts.NumberEndShape | com/craftinginterpreters/lox/Scanner.java:169-182 | the number loops stop where the lexeme has that shape |
| LexicalFacts.StringLiteralToken | com/craftinginterpreters/lox/Scanner.java:184-199 | a closed string's literal is its lexeme without the quotes, and the line grows by the newlines it spans; an unclosed one adds no token and reports "Unterminated String" |
| LexicalFacts.UnclosedStringError | com/craftinginterpreters/lox/Scanner.java:190-193 | an unclosed string reports its error on the line the scanner reached at the end of the source |
| LexicalFacts.SingleCharacters | com/craftinginterpreters/lox/Scanner.java:76-85 | exactly the ten characters `(){},.-+;*` are tokens on their own |
| LexicalFacts.SingleCharacterToken | com/craftinginterpreters/lox/Scanner.java:76-85 | such a character becomes one token of its kind whose lexeme is that character, on the same line, and nothing else changes |
| LexicalFacts.BlanksAddNoToken | com/craftinginterpreters/lox/Scanner.java:100-131 | whitespace and `//` comments add no token and no error, and only a newline moves the line, by one |
| LexicalFacts.UnterminatedBlockCommentThrows | com/craftinginterpreters/lox/Scanner.java:104-116 | `/*` followed by no `*` or `/` throws, adds no token, and adds exactly one error, "Unterminated block comment" |
| LexicalFacts.StepLineBound | com/craftinginterpreters/lox/Scanner.java:72-148 | one `scanToken()` moves the line by at most the newlines it consumed |
| LexicalFacts.ScanLoopLineBound | com/craftinginterpreters/lox/Scanner.java:44-49 | the loop moves the line by at most the newlines it consumed |
| LexicalFacts.LinesBoundedBySource | com/craftinginterpreters/lox/Scanner.java:44-53 | every token's line is between 1 and one more than the number of newlines in the source |
| LexicalFacts.LinesNeverBelowStart | com/craftinginterpreters/lox/Scanner.java:16 | starting from line 1, no line and no token's line drops below 1 |
| LexicalExamples.TrailingDotIsNotFraction | com/craftinginterpreters/lox/Scanner.java:173-178 | `1.` scans as NUMBER "1", DOT, EOF |
| LexicalExamples.TwoCharacterOperator | com/craftinginterpreters/lox/Scanner.java:88-93 | `!= =` scans as BANG_EQUAL, EQUAL, EOF |
| LexicalExamples.KeywordNeedsWholeRun | com/craftinginterpreters/lox/Scanner.java:150-157 | `or ore` scans as OR then IDENTIFIER "ore" |
| LexicalExamples.MultiLineString | com/craftinginterpreters/lox/Scanner.java:184-199 | a string holding a newline becomes one token on line 2, with the newline in its literal |
| LexicalExamples.UnexpectedCharacter | com/craftinginterpreters/lox/Scanner.java:143-145 | `@` adds no token and reports "Unexpected character." on line 1 |
| LexicalExamples.BareBlockCommentThrows | com/craftinginterpreters/lox/Scanner.java:104-116 | `/*` alone throws after reporting "Unterminated block comment" |
| LexicalExamples.BlockCommentClosesEarly | com/craftinginterpreters/lox/Scanner.java:104-116 | in `/* a/b` the comment ends before the `/`, so `b` is scanned as an identifier |
| LexicalExamples.CommentSwallowsSlash | com/craftinginterpreters/lox/Scanner.java:104-116 | that comment consumes the `/` and ends with no token |
| LexicalExamples.TrailingStarThrowsSilently | com/craftinginterpreters/lox/Scanner.java:104-116 | `/* *` throws with no error reported: the loop stops on the `*` and the second closing `advance()` reads past the end |
| LexicalExamples.SlashEndsOpenComment | com/craftinginterpreters/lox/Scanner.java:104-116 | `/* a/` is all comment: the scan ends with only EOF, no error and no throw |
| Scanning.Scanner.constructor | com/craftinginterpreters/lox/Scanner.java:40-42 | a new scanner holds the source, is at offset 0 on line 1, and has no tokens or errors |
| Scanning.Scanner.Advance | com/craftinginterpreters/lox/Scanner.java:59-61 | returns the character under the cursor and moves past it, changing nothing else |
| Scanning.Scanner.Match | com/craftinginterpreters/lox/Scanner.java:205-211 | consumes the expected character exactly when it is next, and never moves past the end |
| Scanning.Scanner.AddToken | com/craftinginterpreters/lox/Scanner.java:67-70 | appends one token whose lexeme is `source[start..current]` and whose line is the current line |
| Scanning.Scanner.Identifier | com/craftinginterpreters/lox/Scanner.java:150-157 | the new state is the reference identifier step's |
| Scanning.Scanner.Digits | com/craftinginterpreters/lox/Scanner.java:170 | the cursor ends after the run of digits, and nothing else changes |
| Scanning.Scanner.Number | com/craftinginterpreters/lox/Scanner.java:169-182 | the new state is the reference number step's |
| Scanning.Scanner.LineComment | com/craftinginterpreters/lox/Scanner.java:103 | the cursor ends at the newline that ends the comment, or at the end |
| Scanning.Scanner.StringBody | com/craftinginterpreters/lox/Scanner.java:185-188 | the cursor ends at the closing quote or the end, and the line grows by the newlines passed |
| Scanning.Scanner.String | com/craftinginterpreters/lox/Scanner.java:184-199 | the new state is the reference string step's |
| Scanning.Scanner.BlockComment | com/craftinginterpreters/lox/Scanner.java:104-116 | it throws (returns false) exactly when the reference comment step does, with the same tokens and errors; otherwise the state is the reference one |
| Scanning.Scanner.OperatorToken | com/craftinginterpreters/lox/Scanner.java:88-99 | the new state is the reference operator step's |
| Scanning.Scanner.Slash | com/craftinginterpreters/lox/Scanner.java:100-120 | it agrees with the reference `/` case, including whether it throws |
| Scanning.Scanner.ScanToken | com/craftinginterpreters/lox/Scanner.java:72-148 | one `scanToken()` agrees with the reference step, including whether it throws |
| Scanning.Scanner.ScanTokens | com/craftinginterpreters/lox/Scanner.java:44-53 | the result is the reference scan's token list, or nothing when the scan throws; the errors agree in either case |
| Grammar.AtEnd | com/craftinginterpreters/lox/Parser.java:256-258 | the last token of a well-formed list is always at the end |
| Grammar.Check | com/craftinginterpreters/lox/Parser.java:244-247 | `check(EOF)` is always false; for any other kind, `check` is whether the token under the cursor has that kind |
| Grammar.Matches | com/craftinginterpreters/lox/Parser.java:227-236 | `match` succeeds exactly when some kind in its list checks |
| Grammar.Advance | com/craftinginterpreters/lox/Parser.java:250-253 | `advance()` moves by one exactly when not at EOF, so the cursor never leaves the list |
| Grammar.Consume | com/craftinginterpreters/lox/Parser.java:238-242 | succeeds exactly when the expected kind is next, returning that token and moving by one; otherwise reports the message at the token under the cursor and stays |
| Grammar.ExpressionAt | com/craftinginterpreters/lox/Parser.java:34-36 | success consumes at least one token and builds a tree of the comma level's shape; failure reports at least one error |
| Grammar.BinaryAt | com/craftinginterpreters/lox/Parser.java:147-192 | each binary level returns a tree that fits that level's rung of the precedence ladder, and consumes tokens when it succeeds |
| Grammar.BinaryTail | com/craftinginterpreters/lox/Parser.java:150-153 | the `while (match(...))` fold keeps the level's shape and never moves back |
| Grammar.OperandAt | com/craftinginterpreters/lox/Parser.java:111-192 | each level's operand rule, the next rung down, returns a tree that fits that rung and consumes tokens when it succeeds |
| Grammar.AssignmentAt | com/craftinginterpreters/lox/Parser.java:128-145 | assignment returns a tree of its rung's shape and consumes tokens when it succeeds |
| Grammar.UnaryAt | com/craftinginterpreters/lox/Parser.java:194-202 | the result is a prefix chain over a primary |
| Grammar.PrimaryAt | com/craftinginterpreters/lox/Parser.java:204-224 | the result is a literal, a variable or a grouping |
| Grammar.DeclarationAt | com/craftinginterpreters/lox/Parser.java:38-46 | each declaration consumes at least one token, on success or through recovery; with no error it yields a statement with no `null` inside |
| Grammar.StatementAt | com/craftinginterpreters/lox/Parser.java:48-53 | a statement with no error is complete |
| Grammar.PrintStatementAt | com/craftinginterpreters/lox/Parser.java:55-59 | success yields a print statement |
| Grammar.VarDeclarationAt | com/craftinginterpreters/lox/Parser.java:61-71 | success yields a `var` statement named by the identifier under the cursor |
| Grammar.ExpressionStatementAt | com/craftinginterpreters/lox/Parser.java:73-77 | success yields an expression statement |
| Grammar.BlockAt | com/craftinginterpreters/lox/Parser.java:80-89 | a block with no error holds no `null` entry |
| Grammar.BlockItemsAt | com/craftinginterpreters/lox/Parser.java:80-89 | the block loop stops at `}` or EOF, with at most one entry per token consumed |
| Grammar.ProgramAt | com/craftinginterpreters/lox/Parser.java:24-32 | the program loop stops at EOF, with at most one entry per token consumed |
| Grammar.Parse | com/craftinginterpreters/lox/Parser.java:24-32 | `parse()` ends at the EOF token; with no error it holds no `null` entry |
| Grammar.SyncLoop | com/craftinginterpreters/lox/Parser.java:284-300 | the skip loop stops at the first stopping point: `;` just passed, a statement keyword next, or EOF |
| Grammar.Synchronize | com/craftinginterpreters/lox/Parser.java:279-301 | after its first `advance()`, `synchronize()` stops at the first stopping point, and it always moves unless at EOF |
| GrammarFacts.OperatorLevels | com/craftinginterpreters/lox/Parser.java:147-192 | an operator is in a level's list exactly when that is its level |
| GrammarFacts.LevelBinds | com/craftinginterpreters/lox/Parser.java:147-192 | a binary node a level returns carries an operator of that level or a tighter one |
| GrammarFacts.OperandBinds | com/craftinginterpreters/lox/Parser.java:147-192 | a binary node a level's operand rule returns carries a strictly tighter operator |
| GrammarFacts.UnaryIsNotBinary | com/craftinginterpreters/lox/Parser.java:194-202 | `unary()` never returns a binary node |
| GrammarFacts.FoldShape | com/craftinginterpreters/lox/Parser.java:147-192 | binary levels fold left: a right operand binds strictly tighter, never an ungrouped operator of the same level, and a left operand binds no looser |
| GrammarFacts.DeclarationStarts | com/craftinginterpreters/lox/Parser.java:24-32 | the program loop starts its first declaration at the cursor and each next one where the previous left the cursor, never at EOF, and the last one leaves the cursor at EOF |
| GrammarFacts.ProgramEntries | com/craftinginterpreters/lox/Parser.java:24-32 | `parse()` holds exactly one entry per declaration the loop ran, in order: that declaration's statement, or `null` when it failed |
| GrammarExamples.SubtractionFoldsLeft | com/craftinginterpreters/lox/Parser.java:170-180 | `a - b - c` parses as `(a - b) - c` |
| GrammarExamples.SubtractionOn | com/craftinginterpreters/lox/Parser.java:170-180 | so does any such token list |
| GrammarExamples.CommaFoldsLeft | com/craftinginterpreters/lox/Parser.java:111-126 | `1, 2, 3` parses as `(1, 2), 3` |
| GrammarExamples.CommaOn | com/craftinginterpreters/lox/Parser.java:111-126 | so does any such token list |
| GrammarExamples.ProductBindsTighter | com/craftinginterpreters/lox/Parser.java:170-192 | `1 + 2 * 3` parses as `1 + (2 * 3)` |
| GrammarExamples.ProductOn | com/craftinginterpreters/lox/Parser.java:170-192 | so does any such token list |
| GrammarExamples.PrefixesNestRight | com/craftinginterpreters/lox/Parser.java:194-202 | `!-x` parses as `!(-x)` |
| GrammarExamples.PrefixesOn | com/craftinginterpreters/lox/Parser.java:194-202 | so does any such token list |
| GrammarExamples.GroupingOverridesPrecedence | com/craftinginterpreters/lox/Parser.java:204-224 | `(1 + 2) * 3` parses as a product whose left operand is a grouping |
| GrammarExamples.GroupingOn | com/craftinginterpreters/lox/Parser.java:204-224 | so does any such token list |
| GrammarExamples.AssignmentNestsRight | com/craftinginterpreters/lox/Parser.java:128-145 | `a = b = c` parses as `a = (b = c)` |
| GrammarExamples.AssignmentOn | com/craftinginterpreters/lox/Parser.java:128-145 | so does any such token list |
| GrammarExamples.InvalidTargetIsNotThrown | com/craftinginterpreters/lox/Parser.java:135-144 | `1 = 2` yields the literal `1` and one "Invalid assignment target." error at `=`, with no throw |
| GrammarExamples.InvalidTargetOn | com/craftinginterpreters/lox/Parser.java:135-144 | so does any such token list |
| GrammarExamples.ExpectExpression | com/craftinginterpreters/lox/Parser.java:223 | a `;` where an operand belongs throws "Expect expression." there |
| GrammarExamples.FailingStatement | com/craftinginterpreters/lox/Parser.java:38-46 | `1 + ;` fails with one error and recovers just past the `;` |
| GrammarExamples.FailedDeclaration | com/craftinginterpreters/lox/Parser.java:38-46 | an expression statement that fails right before a `;` recovers just past it, as `null` |
| GrammarExamples.PrintDeclaration | com/craftinginterpreters/lox/Parser.java:55-59 | `print e;` is a print statement that ends after the `;` |
| GrammarExamples.PrintStatementAfter | com/craftinginterpreters/lox/Parser.java:55-59 | `print 2;` parses to a print of the literal |
| GrammarExamples.RecoveryAfterSemicolon | com/craftinginterpreters/lox/Parser.java:24-46 | `1 + ; print 2;` gives a `null` entry, then the print statement, with one error |
| GrammarExamples.RecoveryOn | com/craftinginterpreters/lox/Parser.java:24-46 | so does any such token list |
| Parsing.Parser.constructor | com/craftinginterpreters/lox/Parser.java:14-16 | a new parser holds the tokens, at index 0, with no errors |
| Parsing.Parser.Advance | com/craftinginterpreters/lox/Parser.java:250-253 | moves as the reference `advance()` does and returns the token just passed |
| Parsing.Parser.Match | com/craftinginterpreters/lox/Parser.java:227-236 | consumes one token exactly when its kind is one of those given and it is not EOF |
| Parsing.Parser.Error | com/craftinginterpreters/lox/Parser.java:272-275 | appends one diagnostic at the token, without moving |
| Parsing.Parser.Consume | com/craftinginterpreters/lox/Parser.java:238-242 | result, cursor and errors are the reference `consume`'s |
| Parsing.Parser.Expression | com/craftinginterpreters/lox/Parser.java:34-36 | result, cursor and errors are the reference rule's |
| Parsing.Parser.BinaryLevel | com/craftinginterpreters/lox/Parser.java:147-192 | result, cursor and errors are the reference level's |
| Parsing.Parser.Fold | com/craftinginterpreters/lox/Parser.java:150-153 | the level's loop agrees with the reference fold |
| Parsing.Parser.Operand | com/craftinginterpreters/lox/Parser.java:111-192 | the next rung down agrees with the reference |
| Parsing.Parser.Assignment | com/craftinginterpreters/lox/Parser.java:128-145 | result, cursor and errors are the reference rule's |
| Parsing.Parser.Unary | com/craftinginterpreters/lox/Parser.java:194-202 | result, cursor and errors are the reference rule's |
| Parsing.Parser.Primary | com/craftinginterpreters/lox/Parser.java:204-224 | result, cursor and errors are the reference rule's |
| Parsing.Parser.Group | com/craftinginterpreters/lox/Parser.java:217-221 | after `(`, the grouping agrees with the reference primary |
| Parsing.Parser.Declaration | com/craftinginterpreters/lox/Parser.java:38-46 | result, cursor and errors are the reference rule's |
| Parsing.Parser.Statement | com/craftinginterpreters/lox/Parser.java:48-53 | result, cursor and errors are the reference rule's |
| Parsing.Parser.PrintStatement | com/craftinginterpreters/lox/Parser.java:55-59 | result, cursor and errors are the reference rule's |
| Parsing.Parser.VarDeclaration | com/craftinginterpreters/lox/Parser.java:61-71 | result, cursor and errors are the reference rule's |
| Parsing.Parser.ExpressionStatement | com/craftinginterpreters/lox/Parser.java:73-77 | result, cursor and errors are the reference rule's |
| Parsing.Parser.Block | com/craftinginterpreters/lox/Parser.java:80-89 | result, cursor and errors are the reference rule's |
| Parsing.Parser.Synchronize | com/craftinginterpreters/lox/Parser.java:279-301 | stops where the reference `synchronize()` stops, reporting nothing |
| Parsing.Parser.Parse | com/craftinginterpreters/lox/Parser.java:24-32 | the statement list, `null` entries included, and the errors are the reference program's |
| Scopes.Lookup | com/craftinginterpreters/lox/Environment.java:43-65 | a successful lookup never yields the uninitialized sentinel |
| Scopes.AssignIn | com/craftinginterpreters/lox/Environment.java:68-81 | assignment keeps the number of scopes |
| Scopes.DefineIn | com/craftinginterpreters/lox/Environment.java:83-85 | define binds the name in the innermost scope only; every enclosing scope is unchanged |
| Scopes.LookupInnermost | com/craftinginterpreters/lox/Environment.java:43-62 | `get` answers from the innermost scope that has the name, failing with "used before initialization" if it holds the sentinel, even when an outer scope has a value |
| Scopes.LookupUnbound | com/craftinginterpreters/lox/Environment.java:64 | a name no scope has fails with "Undefined variable" |
| Scopes.AssignInnermost | com/craftinginterpreters/lox/Environment.java:68-77 | `assign` overwrites the name in the nearest scope that has it; every other scope and name is unchanged |
| Scopes.AssignUnbound | com/craftinginterpreters/lox/Environment.java:80 | assigning a name no scope has fails with "Undefined variable" |
| Scopes.AssignKeepsNames | com/craftinginterpreters/lox/Environment.java:68-81 | `assign` never creates a binding: every scope keeps its set of names |
| Scopes.LookupAfterDefine | com/craftinginterpreters/lox/Environment.java:83-89 | right after define, `get` yields the value, or the sentinel error after `defineUninitialized` |
| Environments.Environment.constructor | com/craftinginterpreters/lox/Environment.java:32-34 | a global environment is one empty scope |
| Environments.Environment.Nested | com/craftinginterpreters/lox/Environment.java:37-39 | a nested environment is an empty scope in front of the enclosing chain |
| Environments.Environment.Get | com/craftinginterpreters/lox/Environment.java:43-65 | the recursive walk up `enclosing` is the chain lookup |
| Environments.Environment.Assign | com/craftinginterpreters/lox/Environment.java:68-81 | the chain becomes the chain assignment's result, or on "Undefined variable" stays unchanged |
| Environments.Environment.Define | com/craftinginterpreters/lox/Environment.java:83-85 | only this scope's map changes, at that name; the enclosing chain is unchanged |
| Environments.Environment.DefineUninitialized | com/craftinginterpreters/lox/Environment.java:87-89 | binds the sentinel in this scope only |
| Environments.SentinelShadowsOuterBinding | com/craftinginterpreters/lox/Environment.java:44-53 | an inner uninitialized binding hides an initialized outer one: `get` fails with "used before initialization" |
| Environments.AssignedNilIsInitialized | com/craftinginterpreters/lox/Environment.java:87-89 | after `defineUninitialized(a)` then `assign(a, nil)`, `get(a)` yields nil: the sentinel is not nil |
| RpnPrinter.Print | com/craftinginterpreters/lox/RPNPrinter.java:5-43 | a tree has a rendering exactly when it holds no variable or assignment |
| RpnPrinter.Postfix | com/craftinginterpreters/lox/RPNPrinter.java:10-43 | every printable tree has at least one postfix word |
| RpnPrinter.PrintIsJoinedPostfix | com/craftinginterpreters/lox/RPNPrinter.java:10-43 | the output is the postfix words joined by single spaces: operands first, then the operator; `-` as a prefix is "negate", nil is "nil" |
| RpnPrinter.PrintIgnoresGrouping | com/craftinginterpreters/lox/RPNPrinter.java:31-34 | a grouping renders exactly as its inner expression |
| RpnPrinter.PostfixRoundTrip | com/craftinginterpreters/lox/RPNPrinter.java:10-43 | a stack machine rebuilds the tree, minus its groupings, from the postfix words |
| RpnPrinter.PostfixDeterminesTree | com/craftinginterpreters/lox/RPNPrinter.java:10-43 | two trees with the same postfix words differ only in their groupings |
| RpnPrinter.TextIsAmbiguous | com/craftinginterpreters/lox/RPNPrinter.java:25-28 | the joined text alone does not: a string literal "1 2 +" prints like `1 + 2` |
| RpnPrinter.DemoNegation | com/craftinginterpreters/lox/RPNPrinter.java:47-58 | `-123 * (45.67)` prints as "123 negate 45.67 *" |
| RpnPrinter.DemoProduct | com/craftinginterpreters/lox/RPNPrinter.java:62-83 | `(1 + 2) * (4 - 3)` prints as "1 2 + 4 3 - *" although every operator token has kind STAR |
| RpnPrinter.PrefixText | com/craftinginterpreters/lox/RPNPrinter.java:38-42 | a prefix operator's word is never "-"; other lexemes are kept, so "negate" stands for a minus or for an operator spelled "negate" |
| Lox.ExitCode | com/craftinginterpreters/lox/Lox.java:36-37 | 65 exactly after a syntax error, 70 exactly after a runtime error and no syntax error, 0 otherwise |
| Lox.Stringify | com/craftinginterpreters/lox/Lox.java:109-121 | nil is "nil"; a number's text loses a trailing ".0" and nothing else; any other value is its string form |
| Lox.StringifyExamples | com/craftinginterpreters/lox/Lox.java:109-121 | 3 prints as "3", 2.5 as "2.5", the string "3.0" unchanged, the sentinel as "UNITIALIZED" |
| Lox.LiteralTextVersusStringify | com/craftinginterpreters/lox/RPNPrinter.java:25-28 | the printer's literal text agrees with `stringify` except on whole numbers, which keep their ".0" |
| Lox.Dispatch | com/craftinginterpreters/lox/Lox.java:66-81 | after a syntax error nothing runs; in the REPL a single expression statement is evaluated; everything else is interpreted |
| Lox.FrontEnd | com/craftinginterpreters/lox/Lox.java:58-64 | a scan that throws never reaches the parser; with no scan or parse error every statement is complete |
| Lox.FormattedLines | com/craftinginterpreters/lox/Lox.java:89-94 | the error lines for a list of diagnostics are, one for one and in order, the `report` text of each |
| Lox.Reported | com/craftinginterpreters/lox/Lox.java:85-94 | reporting sets `hadError` exactly when there was an error, appends after the earlier lines one error line per diagnostic, namely the `report` lines of `Formatted`, and changes nothing else |
| Lox.ReportedLines | com/craftinginterpreters/lox/Lox.java:89-94 | the i-th error line that reporting appends is the `[line N] Error<where>: <message>` text of the i-th diagnostic |
| Lox.RuntimeReported | com/craftinginterpreters/lox/Lox.java:104-107 | `runtimeError` sets `hadRuntimeError`, appends exactly one line, the error's text, and changes nothing else |
| Lox.Execute | com/craftinginterpreters/lox/Lox.java:73-81 | a value that `evaluateExpression` returns is always printed, one line, even after it reported a runtime error; only a throw from it ends the run; `hadError` and the REPL mode are untouched, `hadRuntimeError` is never cleared, and the outputs are only appended to, standard error by at most one line |
| Lox.EvaluationPrints | com/craftinginterpreters/lox/Lox.java:73-76 | the printed line is `stringify` of the returned value, the reported error is printed first if there is one, and the interpreter keeps the globals it returned |
| Lox.InterpretationRuns | com/craftinginterpreters/lox/Lox.java:79-81 | handing statements to `interpret` appends the lines it prints to standard output, leaves its globals as the interpreter's globals for the next `run`, and writes the runtime error it reported, if any, setting `hadRuntimeError` |
| Lox.CleanLineInterprets | com/craftinginterpreters/lox/Lox.java:58-82 | a line with no scan or parse error that is not a lone expression ends without a throw, with `hadError` clear and the globals `interpret` left |
| Lox.CleanLineEvaluates | com/craftinginterpreters/lox/Lox.java:58-82 | in the REPL a clean line holding one expression statement is evaluated in the current globals; it throws exactly when the evaluation throws, and otherwise prints the value and keeps the returned globals |
| Lox.GlobalsCarryOver | com/craftinginterpreters/lox/Lox.java:13-15 | across two REPL lines, a clean expression line is evaluated in the globals that the previous line's `interpret` left, so definitions outlive their line |
| Lox.RunWith | com/craftinginterpreters/lox/Lox.java:58-82 | a scanner throw ends the run; `hadError` ends up set exactly when it was or an error was reported; no flag is cleared, the REPL mode is kept, and the outputs are only appended to |
| Lox.RunOn | com/craftinginterpreters/lox/Lox.java:58-82 | a scanner throw always ends `run`, and outside the REPL nothing else can; `hadError` ends up set exactly when it was or the source has a scan or parse error; no flag is cleared and the outputs only grow |
| Lox.PromptOn | com/craftinginterpreters/lox/Lox.java:42-56 | the REPL never clears `hadRuntimeError`, a syntax error never outlives its line, and the REPL mode stays on |
| Lox.LaunchOn | com/craftinginterpreters/lox/Lox.java:21-40 | more than one argument prints only the usage and exits 64; a file exits with the code its flags give; the REPL exits 0 at the end of its input; REPL mode is on exactly when there is no argument |
| Lox.ReportedTwice | com/craftinginterpreters/lox/Lox.java:89-94 | reporting two error lists one after the other is reporting their concatenation |
| Lox.SyntaxErrorRunsNothing | com/craftinginterpreters/lox/Lox.java:66 | after a syntax error `run` only reports: the output, the interpreter's globals and `hadRuntimeError` are unchanged, and `hadError` is set |
| Lox.CleanRunExecutes | com/craftinginterpreters/lox/Lox.java:73-81 | with no syntax error, the statements are evaluated or interpreted |
| Lox.FileModeInterprets | com/craftinginterpreters/lox/Lox.java:73-81 | outside the REPL, a clean parse is always interpreted |
| Lox.LaunchExitCodes | com/craftinginterpreters/lox/Lox.java:32-40 | a file exits 65 exactly on a syntax error, 70 exactly when the interpreter reported a runtime error after a clean parse, 0 otherwise; a scanner throw is an uncaught exception |
| Lox.Session.constructor | com/craftinginterpreters/lox/Lox.java:17-19 | all flags start false, with no output |
| Lox.Session.Report | com/craftinginterpreters/lox/Lox.java:89-94 | prints the formatted diagnostic on the error output and sets `hadError` |
| Lox.Session.ReportAll | com/craftinginterpreters/lox/Lox.java:89-94 | reports a list of diagnostics in order |
| Lox.Session.RuntimeError | com/craftinginterpreters/lox/Lox.java:104-107 | prints the runtime error and sets `hadRuntimeError` |
| Lox.Session.Run | com/craftinginterpreters/lox/Lox.java:58-82 | the new flags and output are those of the reference `run` |
| Lox.Session.EvaluateAndPrint | com/craftinginterpreters/lox/Lox.java:73-76 | the REPL branch of `run` agrees with the reference action, including whether it throws |
| Lox.Session.InterpretAll | com/craftinginterpreters/lox/Lox.java:79-81 | the other branch of `run` agrees with the reference action |
| Lox.Session.RunPrompt | com/craftinginterpreters/lox/Lox.java:42-56 | sets REPL mode, then the loop agrees with the reference REPL |
| Lox.Session.RunFile | com/craftinginterpreters/lox/Lox.java:32-40 | runs the contents, then yields the exit code of the flags, or nothing on an uncaught exception |
| Lox.ScanAndParse | com/craftinginterpreters/lox/Lox.java:59-64 | the scanner and parser objects give the reference front end's results |
| Lox.Launch | com/craftinginterpreters/lox/Lox.java:21-30 | `main` agrees with the reference launch rules |

## Left out

- File reading, reading standard input and process exit are not modelled. The file contents and the input lines are parameters. The `> ` prompt that `runPrompt` writes to standard output before each line, and once more at the end of input, is not in the modelled standard output. The exit status is a returned value. Printing is a list of output lines and a list of error lines.
- `Double.parseDouble` and `Double.toString` are not modelled. Number literals keep their lexeme text, and the number-to-text step is an opaque function parameter. Only the `.0` suffix rule of `stringify` is modelled.
- `Interpreter.java` is not part of this model. `evaluateExpression` and `interpret` are opaque function parameters of the driver. Each takes and returns the global state of the one static interpreter, which is a scope chain that starts as one empty scope. Any other state an `Interpreter` keeps is not modelled.
- `evaluateExpression` is taken to return a value after reporting, through `runtimeError`, any runtime error it catches, or else to throw. The driver prints every value it returns, because `run` has no handler around it. `interpret` is taken to report its own runtime errors and never to throw. The lines its print statements write are returned as a list.
- The object identity of the `UNINITIALIZED` sentinel is a distinct `Value` constructor.
- The `GenerateAst` tool that writes Java files is not modelled. Only its type descriptions give the shape of `Expr` and `Stmt`.
- An uncaught exception is modelled as a `Crash` outcome. Its stack trace and exit status are not modelled.
- Concurrency: the Java code is single-threaded, and so is this model.
- Characters are Unicode scalar values here, while a Java `char` is a UTF-16 code unit. A character outside the Basic Multilingual Plane, such as U+1F600, is one character here but two in Java. Source offsets then differ, and Java reports "Unexpected character." twice where the model reports it once.
- After a throw, the model's scanner cursor stays at the failed read, while Java's `current++` has already moved it. Nothing reads the scanner after it throws.
- `RPNPrinter` as written does not compile. It implements `Expr.Visitor<String>` but has no `visitAssignExpr` or `visitVariableExpr`. `None` from `RpnPrinter.Print` stands for those missing cases.
- The printer's `main` builds its literals from Java `int` values such as `new Expr.Literal(123)`, which print through `Integer.toString`. So `RpnPrinter.DemoNegation` and `RpnPrinter.DemoProduct` require `numberText` to leave "123", "1" and the like unchanged, unlike `Double.toString`.
- Some Java loops and branches are separate methods here so each proof stays small. `Scanning.Scanner.Digits`, `LineComment`, `StringBody`, `BlockComment`, `OperatorToken` and `Slash` are parts of `scanToken`, `number` and `string`. `Parsing.Parser.Fold`, `Operand` and `Group` are the `while` loop, the next rung and the `(` case of the binary levels and `primary`. `Lox.Session.EvaluateAndPrint` and `InterpretAll` are the two branches at the end of `run`. Their calls happen in the Java order.
- The five binary levels (`equality`, `comparison`, `term`, `factor`, `comma`) share one method, `Parsing.Parser.BinaryLevel`, which takes the level as a parameter. The Java code repeats that method once per level.

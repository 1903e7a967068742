# Acalc2 core in Dafny

Acalc2 is a small calculator language with plotting. A line of input goes through three stages:

- the **lexer** turns the text into tokens;
- the **parser** turns the tokens into one statement at a time, by recursive descent;
- the **interpreter** walks the tree against an **environment**, a map from names to values.

The environment is seeded with the constants `pi`, `e`, `phi` and `tau` and with the variable `x`.

This project models those four components, plus the token and tree types they share. Each one takes the form it has in the C++ sources:

- `Lexer.Lexer`, `Parser.Parser`, `Environment.Environment` and `Interpreter.Interpreter` are classes. Their fields and cursors are updated in place, as in the C++.
- Every method that models a source function is proved against a specification function of the old state. Examples: `Lex`, `ParseStatement`, `Defined`, `Eval`, `Exec`. The cursor helpers (`Advance`, `Match`, `MatchAny`) state their effect directly.
- The properties of the language are proved about those functions as lemmas.

Files:

- `results.dfy`: `Option` and `Result`. A C++ `throw` becomes an `Err` carrying the same message.
- `token.dfy`: the 36 token categories, as a newtype over their C++ enumerator values, and the token record.
- `lexer.dfy`: the scanner, as a specification (`Scan`, `Lex`) and as the `Lexer` class.
- `expr.dfy`: the five expression shapes and the eleven statement shapes.
- `parser.dfy`: the grammar, as functions over a token vector and a cursor, and as the `Parser` class.
- `rendering.dfy`: a fully parenthesised printer for trees. The parser round-trip is stated against it.
- `parser_facts.dfy`: the step lemmas of the grammar and the round trip `parse(render(e)) == e`.
- `parser_props.dfy`: associativity, precedence, prefix nesting and the error messages of the parser.
- `environment.dfy`: `define` and `get`, and the fact that constants can never change.
- `interpreter.dfy`: evaluation, statements, and `integ` as a right-endpoint Riemann sum.

Numbers are `real`. The library routines (`sin`, `cos`, `tan`, `log`, `pow`) are fields of a `Numerics` record the interpreter is given. So are the value of a float division by zero and the sample points of `graph`. The calls into the graphics engine and the console are `Event`s appended to the interpreter's `log`.

Behaviour of the code that the model keeps, where a reader might expect otherwise:

- Whitespace is skipped only before a token. Trailing blanks therefore produce an ERROR token before EOF (`TrailingBlankGivesError`).
- A tab is an error character (`TabIsError`).
- Scanning stops at a NUL only at a token start. A NUL right after blanks gives ERROR, and scanning then continues after it (`NulAfterBlankExample`).
- Every word that begins with `cot` is the COT keyword (`CotPrefixIsCot`).
- `1.` is a number (`TrailingDotNumber`).
- All binary operators are left-associative, `^` included, and `^` binds as tightly as `*` (`PowerExample`).
- `integ` overwrites `x`.
- A failing statement keeps every change made before the failure.

## Model

| member | source | states |
|---|---|---|
| Lexer.SkipBlanks | src/lexer/lexer.cpp:48-58 | The cursor never moves backwards or past the terminator, and it stops on a character that is not a blank (space, CR, LF). |
| Lexer.BlankRun | src/lexer/lexer.cpp:48-58 | Every character passed over is a blank, so the run skipped is exactly the maximal blank run. |
| Lexer.DigitsEnd | src/lexer/lexer.cpp:63-65 | The loop stops on a non-digit, and the last character it passed over, if any, is a digit. |
| Lexer.DigitRun | src/lexer/lexer.cpp:63-65 | Everything the loop passes over is a digit, so the run is maximal. |
| Lexer.WordEnd | src/lexer/lexer.cpp:84-86 | The loop stops on a character that is neither letter nor digit, and the last character passed over, if any, is one. |
| Lexer.WordRun | src/lexer/lexer.cpp:84-86 | Everything the loop passes over is a letter or a digit. |
| Lexer.NumberEnd | src/lexer/lexer.cpp:60-78 | A number is never empty, is followed by a non-digit, and ends on a digit or a `.`. |
| Lexer.NumberShape | src/lexer/lexer.cpp:60-78 | A number is digits, then, only when a `.` follows them, that `.` and a possibly empty digit run. |
| Lexer.KeywordKind | src/lexer/lexer.cpp:92-186 | A word never classifies as EOF, INT, ERROR or NUMBER. |
| Lexer.PunctuationKind | src/lexer/lexer.cpp:24-36 | A punctuation category is never EOF or INT, and never comes from a blank or NUL. |
| Lexer.ScanNumber | src/lexer/lexer.cpp:60-78 | A NUMBER token ends on its last digit or dot, within the text. |
| Lexer.ScanWord | src/lexer/lexer.cpp:80-187 | A word token ends on its last letter or digit and is never EOF or INT. |
| Lexer.Scan | src/lexer/lexer.cpp:20-46 | `getNextToken` never yields EOF or INT. It stops on a non-blank. At the end of the text it yields ERROR. |
| Lexer.KeywordKindIsTable | src/lexer/lexer.cpp:92-186 | The nested switch equals the keyword table, except that any word beginning `cot` is COT. The two case fall-throughs change nothing. |
| Lexer.CotPrefixIsCot | src/lexer/lexer.cpp:109 | Every word with prefix `cot` is classified COT, whatever follows. |
| Lexer.PunctuationToken | src/lexer/lexer.cpp:25-36 | Each of the twelve punctuation characters becomes its own token, with the character as lexeme. |
| Lexer.StrayCharacter | src/lexer/lexer.cpp:37-45 | Any other non-blank, non-alphanumeric character gives `ERROR "err"` and consumes exactly one character. |
| Lexer.WordToken | src/lexer/lexer.cpp:80-187 | A word is cut maximally, keeps its text, and is classified by the switch. |
| Lexer.EofOnlyLastCons | src/lexer/lexer.cpp:6-18 | Prefixing a non-EOF token keeps "EOF only last". |
| Lexer.LexEndsWithEof | src/lexer/lexer.cpp:6-18 | The token vector ends in EOF, and EOF occurs nowhere else. |
| Lexer.LexNeverInt | src/lexer/lexer.cpp:6-46 | The lexer never produces the INT category. |
| Lexer.LexLength | src/lexer/lexer.cpp:6-18 | There are at most as many tokens as characters, plus one. |
| Lexer.TrailingBlankGivesError | src/lexer/lexer.cpp:9-13 | Text that ends in a blank (with no NUL) always lexes to `..., ERROR, EOF`. |
| Lexer.LexStep | src/lexer/lexer.cpp:9-13 | One loop iteration: the next token, then lexing resumes one past its last character. |
| Lexer.LexAccumulate | src/lexer/lexer.cpp:9-13 | Pushing the token and advancing keeps "tokens so far, then the rest of the text lexed" equal to the whole result. |
| Lexer.EndsErrorEofCons | src/lexer/lexer.cpp:9-13 | Prefixing a token keeps "ends in ERROR, EOF". |
| Lexer.LexStop | src/lexer/lexer.cpp:9-15 | At the end of the text, or at a NUL where a token would start, only EOF is added. |
| Lexer.TrailingDotNumber | src/lexer/lexer.cpp:67-69 | `1.` lexes to a single NUMBER `1.`. |
| Lexer.TwoDotsNumber | src/lexer/lexer.cpp:60-78 | `1.2.3` lexes to NUMBER `1.2`, ERROR, NUMBER `3`. |
| Lexer.TabIsError | src/lexer/lexer.cpp:48-58 | A tab between words is an ERROR token. |
| Lexer.CottonIsCot | src/lexer/lexer.cpp:98-111 | `cotton` is the COT keyword. |
| Lexer.TrailingBlankExample | src/lexer/lexer.cpp:6-18 | `x ` lexes to IDENTIFIER, ERROR, EOF. |
| Lexer.NulAfterBlankExample | src/lexer/lexer.cpp:189-191 | A NUL after a blank is an ERROR token, and scanning resumes after it. |
| Lexer.Lexer.constructor | src/lexer/lexer.h:11 | The lexer holds the text with its cursor at 0. |
| Lexer.Lexer.Advance | src/lexer/lexer.h:19 | The cursor moves by one. |
| Lexer.Lexer.SkipWhitespace | src/lexer/lexer.cpp:48-58 | The cursor ends where `SkipBlanks` says. |
| Lexer.Lexer.Number | src/lexer/lexer.cpp:60-78 | The token and the final cursor are `ScanNumber`'s, including the final step back of `--cur`. |
| Lexer.Lexer.Identifier | src/lexer/lexer.cpp:80-187 | The token and the final cursor are `ScanWord`'s. |
| Lexer.Lexer.GetNextToken | src/lexer/lexer.cpp:20-46 | The token and the final cursor are `Scan`'s. |
| Lexer.Lexer.GetTokens | src/lexer/lexer.cpp:6-18 | The returned vector is `Lex` of the text. The lemmas above then give EOF last and no INT. |
| Parser.Expect | src/parser/parser.cpp:176-179 | `consume` succeeds iff the current token has the kind, and then moves past it. Otherwise it fails with the given message. |
| Parser.ParseExpression | src/parser/parser.cpp:106-118 | A successful parse consumes at least one token and stops before EOF's end. |
| Parser.ParseTerm | src/parser/parser.cpp:120-128 | Same progress bound for `term`. |
| Parser.TermTail | src/parser/parser.cpp:122-126 | The `+`/`-` loop never moves the cursor back or past the vector. |
| Parser.ParseFactor | src/parser/parser.cpp:130-138 | Same progress bound for `factor`. |
| Parser.FactorTail | src/parser/parser.cpp:132-136 | The `*`, `/`, `^` loop never moves the cursor back or past the vector. |
| Parser.ParseUnary | src/parser/parser.cpp:140-147 | Same progress bound for `unary`. |
| Parser.ParsePrimary | src/parser/parser.cpp:149-166 | Same progress bound for `primary`. |
| Parser.ParseExprStmt | src/parser/parser.cpp:57-61 | On success the statement ends with the `;` just consumed. |
| Parser.ParsePrintStmt | src/parser/parser.cpp:63-67 | On success the statement ends with `;`. |
| Parser.ParseVarDecl | src/parser/parser.cpp:69-78 | On success the declaration ends with `;`. |
| Parser.ParseGraphStmt | src/parser/parser.cpp:80-84 | On success the statement ends with `;`. |
| Parser.ParsePlotStmt | src/parser/parser.cpp:86-92 | On success the statement ends with `;`. |
| Parser.ParseLineStmt | src/parser/parser.cpp:94-104 | On success the statement ends with `;`. |
| Parser.ParseCommand | src/parser/parser.cpp:34-53 | A command keyword succeeds iff `;` follows. Otherwise it fails with "Expected ';' after '<word>'.". |
| Parser.ParseStatement | src/parser/parser.cpp:28-55 | Every statement that parses ends with `;` and advances the cursor. |
| Parser.ParseStep | src/parser/parser.cpp:23-26 | `parse` yields no statement exactly at EOF. Otherwise it yields a statement ending in `;`. |
| Parser.Parser.constructor | src/parser/parser.h:12 | The parser holds the tokens with its cursor at 0. |
| Parser.Parser.Advance | src/parser/parser.h:34 | The cursor moves by one. |
| Parser.Parser.Match | src/parser/parser.cpp:168-174 | The result is whether the current token has the kind. The cursor moves exactly when it does. |
| Parser.Parser.MatchAny | src/parser/parser.h:39-42 | The result is whether the current kind is in the list. The cursor moves exactly when it is. |
| Parser.Parser.Consume | src/parser/parser.cpp:176-179 | The result and the new cursor are `Expect`'s. |
| Parser.Parser.Parse | src/parser/parser.cpp:23-26 | The result and the new cursor are `ParseStep`'s. |
| Parser.Parser.Statement | src/parser/parser.cpp:28-55 | The result and the new cursor are `ParseStatement`'s. |
| Parser.Parser.Command | src/parser/parser.cpp:34-53 | The result and the new cursor are `ParseCommand`'s. |
| Parser.Parser.ExprStmt | src/parser/parser.cpp:57-61 | The result and the new cursor are `ParseExprStmt`'s. |
| Parser.Parser.PrintStmt | src/parser/parser.cpp:63-67 | The result and the new cursor are `ParsePrintStmt`'s. |
| Parser.Parser.VarDecl | src/parser/parser.cpp:69-78 | The result and the new cursor are `ParseVarDecl`'s. |
| Parser.Parser.GraphStmt | src/parser/parser.cpp:80-84 | The result and the new cursor are `ParseGraphStmt`'s. |
| Parser.Parser.PlotStmt | src/parser/parser.cpp:86-92 | The result and the new cursor are `ParsePlotStmt`'s. |
| Parser.Parser.LineStmt | src/parser/parser.cpp:94-104 | The result and the new cursor are `ParseLineStmt`'s. |
| Parser.Parser.Expression | src/parser/parser.cpp:106-118 | The result and the new cursor are `ParseExpression`'s. |
| Parser.Parser.Term | src/parser/parser.cpp:120-128 | The loop builds the left-nested tree `TermTail` describes. |
| Parser.Parser.Factor | src/parser/parser.cpp:130-138 | The loop builds the left-nested tree `FactorTail` describes. |
| Parser.Parser.Unary | src/parser/parser.cpp:140-147 | The result and the new cursor are `ParseUnary`'s. |
| Parser.Parser.Primary | src/parser/parser.cpp:149-166 | The result and the new cursor are `ParsePrimary`'s, including the throw for an unclosed parenthesis. |
| ParserFacts.UnaryIsPrimary | src/parser/parser.cpp:140-147 | Without a prefix operator, `unary` is `primary`. |
| ParserFacts.PrimaryParen | src/parser/parser.cpp:159-163 | `( e )` parses to `e` itself, with no node for the parentheses. |
| ParserFacts.ExpressionIsTerm | src/parser/parser.cpp:106-118 | Without `integ`, `expression` is `term`. |
| ParserFacts.TermStart | src/parser/parser.cpp:120-128 | `term` is one `factor` followed by the `+`/`-` loop. |
| ParserFacts.TermTailStep | src/parser/parser.cpp:122-126 | One iteration of the `+`/`-` loop makes the left operand a new binary node. |
| ParserFacts.TermTailStop | src/parser/parser.cpp:122 | The loop stops at any other token without consuming it. |
| ParserFacts.FactorStart | src/parser/parser.cpp:130-138 | `factor` is one `unary` followed by the `*`, `/`, `^` loop. |
| ParserFacts.FactorTailStep | src/parser/parser.cpp:132-136 | One iteration of that loop makes the left operand a new binary node. |
| ParserFacts.FactorTailStop | src/parser/parser.cpp:132 | The loop stops at any other token without consuming it. |
| ParserFacts.TermOfFactor | src/parser/parser.cpp:120-128 | A factor not followed by `+`/`-` is the whole term. |
| ParserFacts.FactorOfUnary | src/parser/parser.cpp:130-138 | A unary not followed by `*`, `/`, `^` is the whole factor. |
| ParserFacts.TermOfUnary | src/parser/parser.cpp:120-138 | A unary followed by no binary operator is the whole term. |
| ParserFacts.FactorOfProduct | src/parser/parser.cpp:130-138 | `l op r`, with a multiplicative `op`, parses to one binary node. |
| ParserFacts.TermOfSum | src/parser/parser.cpp:120-128 | `l op r`, with an additive `op`, parses to one binary node. |
| ParserFacts.ParenTerm | src/parser/parser.cpp:159-163 | A parenthesised term is a unary with the term's tree. |
| ParserFacts.ParenBinary | src/parser/parser.cpp:120-163 | `( l op r )` parses to the binary node, for either precedence of `op`. |
| ParserFacts.ParenInteg | src/parser/parser.cpp:106-163 | `( integ ( f , a , b ) )` parses to the integral node. |
| ParserFacts.IntegForm | src/parser/parser.cpp:107-115 | `integ ( f , a , b )` parses to `IntegExpr(f, a, b)`. |
| ParserFacts.PrefixStep | src/parser/parser.cpp:141-145 | A prefix operator wraps the unary that follows it. |
| ParserFacts.ParenIntegOfUnaries | src/parser/parser.cpp:106-163 | The parenthesised integral, with each part a unary. |
| ParserFacts.UnaryRoundTrip | src/parser/parser.cpp:106-166 | Parsing the rendering of any printable tree gives back that tree and stops right after it. |
| ParserFacts.PrefixRoundTrip | src/parser/parser.cpp:140-147 | The round trip for a prefix node. |
| ParserFacts.BinaryRoundTrip | src/parser/parser.cpp:120-138 | The round trip for a binary node. |
| ParserFacts.BinaryRight | src/parser/parser.cpp:120-163 | The right operand's round trip closes the binary node. |
| ParserFacts.IntegRoundTrip | src/parser/parser.cpp:106-118 | The round trip for an integral node. |
| ParserFacts.IntegLimitStart | src/parser/parser.cpp:106-118 | Once the formula has parsed back, the lower and upper limits and the closing parentheses parse back to the same integral node. |
| ParserFacts.IntegLimitEnd | src/parser/parser.cpp:113-115 | The upper limit's round trip closes the integral node. |
| ParserFacts.PrintRoundTrip | src/parser/parser.cpp:63-67 | `print <rendering> ; EOF` parses to `PrintStmt(e)` and stops at EOF. |
| ParserFacts.PrintLayout | src/parser/parser.cpp:63-67 | Where the keyword, expression and `;` lie in that vector. |
| ParserFacts.PrintStep | src/parser/parser.cpp:23-67 | `parse` on `print e ;` yields `PrintStmt(e)`. |
| ParserProps.FoldLeftLast | src/parser/parser.cpp:122-126 | Folding one more operator puts it at the root, with the earlier fold as left child. |
| ParserProps.AtomIsUnary | src/parser/parser.cpp:140-157 | A number or name is a one-token unary. |
| ParserProps.TermTailChain | src/parser/parser.cpp:122-126 | The `+`/`-` loop over `op a op a ...` yields the left fold. |
| ParserProps.FactorTailChain | src/parser/parser.cpp:132-136 | The `*`, `/`, `^` loop over a chain yields the left fold. |
| ParserProps.SumsAssociateLeft | src/parser/parser.cpp:120-128 | `a1 op a2 op ... an` with `+`/`-` parses left-associated. |
| ParserProps.ProductsAssociateLeft | src/parser/parser.cpp:130-138 | A `*`, `/`, `^` chain parses left-associated, `^` included. |
| ParserProps.PrefixesNestRight | src/parser/parser.cpp:140-147 | A run of prefix operators nests right to left around the atom. |
| ParserProps.DifferenceExample | src/parser/parser.cpp:120-128 | `a - b - c ;` is `(a - b) - c`. |
| ParserProps.PowerExample | src/parser/parser.cpp:130-138 | `2 ^ 3 ^ 2` is `(2 ^ 3) ^ 2`. |
| ParserProps.PrecedenceExample | src/parser/parser.cpp:120-138 | `a + b * c` is `a + (b * c)`. |
| ParserProps.NestedSineExample | src/parser/parser.cpp:140-147 | `sin sin x` is `sin(sin(x))`. |
| ParserProps.IntegMessages | src/parser/parser.cpp:107-115 | Each missing piece of an integral gives its own message. |
| ParserProps.CommandNeedsSemicolon | src/parser/parser.cpp:34-53 | `show`, `hide`, `clear`, `clean` and `exit` parse iff `;` follows, each with its own message otherwise. |
| ParserProps.VarNeedsName | src/parser/parser.cpp:70 | `var` not followed by a name fails with "identifier expected after 'var'". |
| ParserProps.VarWithoutInit | src/parser/parser.cpp:69-78 | `var n ;` declares `n` without an initializer. Anything else after `n` is "forgot ';'?". |
| ParserProps.VarWithInit | src/parser/parser.cpp:69-78 | `var n = e ;` declares `n` with `e` as initializer. |
| ParserProps.PrimaryMessages | src/parser/parser.cpp:149-166 | A token that cannot start a primary, or an unclosed parenthesis, gives "unrecognised character encountered.". |
| ParserProps.CommaMessages | src/parser/parser.cpp:86-100 | `plot` and `line` without the first comma fail with "Expected ',' after first expression.". |
| ParserProps.PrintNeedsSemicolon | src/parser/parser.cpp:63-67 | `print e` parses iff `;` follows, and fails with "forgot ';'?" otherwise. |
| Environment.Defined | src/environment/environment.h:18-23 | `define` fails iff the name is a constant, with the C++ message. Otherwise the name is bound to the value and every other name is untouched. |
| Environment.Lookup | src/environment/environment.h:25-29 | `get` succeeds iff the name is bound, with its value. Otherwise it fails with "<name> not declared". |
| Environment.SeededNames | src/environment/environment.h:10-16 | A new environment binds exactly the four constants and `x`, with `x` = 0. |
| Environment.DefineThenLookup | src/environment/environment.h:18-29 | Reading back a name just defined gives the value defined. |
| Environment.DefineFrame | src/environment/environment.h:18-23 | A define never changes what any other name reads. |
| Environment.DefinesKeepConstants | src/environment/environment.h:18-23 | No sequence of defines removes a name or changes a constant's value. |
| Environment.SeededConstantsForever | src/environment/environment.h:10-23 | From a new environment, each constant keeps its seeded value after any defines. |
| Environment.Environment.constructor | src/environment/environment.h:10-16 | The store starts as the seeded map. |
| Environment.Environment.Define | src/environment/environment.h:18-23 | Fails iff the name is a constant, leaving the store unchanged. Otherwise the store becomes `Defined`'s map. |
| Environment.Environment.Get | src/environment/environment.h:25-29 | The result is `Lookup` of the store. |
| Interpreter.Reciprocal | src/interpreter/interpreter.h:92-94 | `1.0f / v` is the inverse of a non-zero `v`, and the engine's infinity at 0. |
| Interpreter.ApplyUnary | src/interpreter/interpreter.h:85-100 | Minus negates; `sin`, `cos`, `tan` and `log` give the library's value; `cosec`, `sec` and `cot` give the reciprocal of `sin`, `cos` and `tan`; `abs` is the magnitude; any other operator (`+`) returns the operand. |
| Interpreter.ApplyBinary | src/interpreter/interpreter.h:102-125 | Fails iff dividing by 0 or raising a negative base to a non-integer power, with the two C++ messages. `+`, `-` and `*` give the sum, difference and product. A quotient times the divisor is the dividend. A power that succeeds is `std::pow`'s value. Any other operator gives 0. |
| Interpreter.OnlyXTrans | src/interpreter/interpreter.h:131-146 | "Differs only in `x`" is transitive. |
| Interpreter.EvalOnlyX | src/interpreter/interpreter.h:81-146 | Evaluating any expression changes at most the binding of `x`. |
| Interpreter.IntegSumOnlyX | src/interpreter/interpreter.h:140-143 | The `integ` loop changes at most the binding of `x`. |
| Interpreter.EvalKeepsConstants | src/interpreter/interpreter.h:81-146 | Evaluating never changes a constant. |
| Interpreter.NoIntegKeepsEnv | src/interpreter/interpreter.h:81-129 | An expression with no `integ` leaves the environment exactly as it was. |
| Interpreter.BinaryLeftFirst | src/interpreter/interpreter.h:102-104 | The left operand is evaluated first. The right one sees the environment it leaves, and is not evaluated when the left one fails. |
| Interpreter.RebindX | src/interpreter/interpreter.h:141 | Two environments that differ only in `x` are equal once `x` is rebound. |
| Interpreter.RebindXAgain | src/interpreter/interpreter.h:141 | Rebinding `x` keeps the rest of the environment. |
| Interpreter.IntegSumStep | src/interpreter/interpreter.h:140-143 | One turn of the loop: bind `x` to the sample point, evaluate the formula, stop on its error or add its value. |
| Interpreter.SampleStep | src/interpreter/interpreter.h:141-142 | For any formula, including one with a nested `integ`, a sample depends only on the names other than `x`, and what it leaves differs from them at most in `x`. |
| Interpreter.IntegSumIsRightSum | src/interpreter/interpreter.h:140-143 | For any formula, when no sample fails, the loop's accumulator ends as the sum of the formula at `a + i*h` for `i` = 1..100000, and the environment is the one the last sample leaves. |
| Interpreter.IntegSumTotal | src/interpreter/interpreter.h:135-143 | The whole loop, starting from 0: the sum of all 100000 samples. |
| Interpreter.IntegSumStops | src/interpreter/interpreter.h:140-143 | For any formula, the first failing sample ends the loop: the loop's error and environment are that sample's. |
| Interpreter.SampleLeavesPoint | src/interpreter/interpreter.h:141-142 | For a formula without `integ`, a sample leaves `x` at its sample point, whether or not it fails. |
| Interpreter.EvalInteg | src/interpreter/interpreter.h:131-146 | Once both limits have evaluated, left to right, `integ` is the loop's sum times `h`, or the loop's error. |
| Interpreter.IntegIsRiemannSum | src/interpreter/interpreter.h:131-146 | For any formula and limits, when no sample fails, `integ(f, lo, hi)` is `h` times the right-endpoint Riemann sum with 100000 slices of width `(hi - lo) / 100000`, and leaves the environment its last sample leaves. |
| Interpreter.IntegEndsAtUpperLimit | src/interpreter/interpreter.h:140-146 | When the formula has no `integ` of its own, the same `integ` leaves `x` bound to the upper limit and every other name as the limits left it. |
| Interpreter.EvalAll | src/interpreter/interpreter.h:48-54 | When all arguments evaluate, there is one value per argument. |
| Interpreter.PlotDrawsBothValues | src/interpreter/interpreter.h:48-50 | `plot a, b` evaluates `a`, then `b` in the environment `a` leaves, and plots the two values. The first error stops it with nothing plotted. |
| Interpreter.EvalAllOnlyX | src/interpreter/interpreter.h:48-54 | Evaluating the arguments of `plot`/`line` changes at most `x`. |
| Interpreter.GraphStepsOnlyX | src/interpreter/interpreter.h:37-46 | `graph` changes at most `x` and only appends to the log. |
| Interpreter.ExecKeepsConstants | src/interpreter/interpreter.h:14-79 | No statement removes a name or changes a constant, and every statement only appends to the log. |
| Interpreter.VariableStmtBinds | src/interpreter/interpreter.h:29-35 | `var n = e` binds `n` to `e`'s value, and `var n` binds `n` to 0. A failing initializer binds nothing. A constant is refused after its initializer runs. Other names are untouched. |
| Interpreter.SamplesOfTail | src/interpreter/interpreter.h:41-45 | The samples after the first still all evaluate. |
| Interpreter.GraphStep | src/interpreter/interpreter.h:41-45 | One iteration of the `graph` loop for any expression: bind `x`, evaluate, plot `(400 + x, 300 - y)`. What the sample leaves differs from the old environment at most in `x`. |
| Interpreter.GraphLogStep | src/interpreter/interpreter.h:41-45 | One iteration adds the first sample's point in front of the points of the rest. |
| Interpreter.GraphSucceeds | src/interpreter/interpreter.h:37-46 | For any expression, when every sample evaluates, `graph` succeeds. |
| Interpreter.GraphPlotsEachSample | src/interpreter/interpreter.h:37-46 | For any expression, including one with `integ`, when every sample evaluates, `graph` plots exactly one point per sample, in order. |
| Interpreter.GraphLeavesLastSample | src/interpreter/interpreter.h:37-46 | For any expression, the same run leaves the environment that the last sample leaves. |
| Interpreter.GraphEndsAtLastSample | src/interpreter/interpreter.h:37-46 | When the expression has no `integ`, the run leaves `x` bound to the last sample and every other name as it was. |
| Interpreter.EvalAllCons | src/interpreter/interpreter.h:49-53 | Arguments are evaluated left to right, and the first error stops the rest. |
| Interpreter.Interpreter.constructor | src/interpreter/interpreter.h:147-148 | A new interpreter owns a fresh seeded environment and an empty log. |
| Interpreter.Interpreter.Evaluate | src/interpreter/interpreter.h:81-146 | The value and the new environment are `Eval`'s. |
| Interpreter.Interpreter.Integrate | src/interpreter/interpreter.h:135-145 | The counted loop yields `Scaled(IntegSum(...), h)`, or the first sample's error, with the environment the loop leaves. |
| Interpreter.Interpreter.Interpret | src/interpreter/interpreter.h:14-79 | The result, environment and log are `Exec`'s. |
| Interpreter.Interpreter.Graph | src/interpreter/interpreter.h:37-46 | The loop's result, environment and log are `GraphSteps`' over the sample points. |
| Interpreter.Interpreter.Line | src/interpreter/interpreter.h:52-54 | Four coordinates evaluated left to right, then one line event. The first error stops the statement. |

## Left out

- The read-eval-print loop, the window thread and the `try`/`catch` in `src/main.cpp`. They are not part of this model. A caught error abandons the rest of that input line; here it is the `Err` of one statement.
- The graphics engine (`Graph::Engine`) is not part of this model. Its calls (`plot`, `line`, `show`, `hide`, `clean`, `exit`) are events in the interpreter's log.
- `system("clear")` and `exit(0)`: they are the events `ScreenCleared` and `Exited`. The model does not stop after `exit`.
- `std::cout` output: a `Printed` event carrying the value.
- Float arithmetic: values are exact reals. The model has no rounding, NaN, overflow or float-to-int conversion.
- `std::stof`, `std::sin`, `std::cos`, `std::tan`, `std::log` and `std::pow` are uninterpreted functions passed in as parameters. `stof`'s own exceptions are not modelled.
- Interpreter.GraphSteps: the `graph` loop's sample points (from -400 to 400 in float steps of 0.05, accumulated with rounding) are a parameter `graphDomain`. They are not computed.
- Interpreter.Exec: the C++ evaluates the arguments of `plot` and `line` in an unspecified order. The model fixes left to right.
- Interpreter.ApplyUnary: for `sin`, `cos`, `tan` and `log` it states only that the value is the library function's. Those functions are parameters, so nothing about their numbers is modelled.
- `isdigit` and `isalpha` are the ASCII ranges. Locales are not modelled.
- Token lexemes are Dafny strings. The C++ `char` signedness and strings longer than memory are not modelled.
- `for` loops: the grammar comment in `src/parser/parser.cpp` mentions them, but the parser has no rule for them. They are absent from the model too.

# BasicCalc in Dafny

A model of `BasicCalc.py`, a four-function integer calculator. Each line the user types is handled by the same pipeline:

- **Lexer.** Splits the line into INTEGER, PLUS, MINUS, MUL, DIV, LPAREN, RPAREN and EOF tokens. It skips whitespace and raises on any other character.
- **Parser.** A recursive-descent parser over the grammar
  `expr := term ((+|-) term)*`, `term := factor ((*|/) factor)*`, `factor := INTEGER | ( expr )`.
  It builds a tree of `BinOp` and `Num` nodes.
- **Visitor `Interpreter`.** Evaluates the tree. `/` is Python's floor division `//`.

The lexer, the parser and both interpreters change state step by step, so they are Dafny classes with `modifies` clauses:

- `Lexing.Lexer`
- `Parsing.Parser`
- `Interpreting.Interpreter`
- `Direct.Interpreter`

Each method is proved against a pure function of the text and the parser state. The state is a `Cursor`: the lexer position plus one token of lookahead. These functions are:

| Function | Models |
|---|---|
| `Lexing.Scan` | one `get_next_token` |
| `Parsing.EatToken` | `eat` |
| `Parsing.ParseFactor` | `factor` |
| `Parsing.ParseTerm` with its loop `TermLoop` | `term` |
| `Parsing.ParseExpr` with its loop `ExprLoop` | `expr` |
| `Ast.Eval` | `visit` |
| `Interpreting.Evaluate` | a whole line |

The properties of the calculator are proved as lemmas about these functions.

A Python exception becomes an `Err` of `Results.Error`. One constructor stands for each way a line can be aborted. The `None` that `factor` returns on an unexpected token becomes the tree node `Ast.Missing`.

The model keeps two quirks of the source as they are:

- **A missing operand is not a syntax error.** The parser accepts `+` or `2*` and builds a tree with a `Missing` node. The error only comes when that node is visited (`generic_visit`).
- **The parser never checks that the input is used up.** `1)2` evaluates to `1`, and `)` parses to no node at all.

The round-trip property needs a printer, `Printing.Show`, which is part of the model rather than of the source. It writes a tree with no whitespace and the fewest parentheses that precedence and left-associativity allow. `Printing.ParsePrinted` proves that the parser reads every printed tree back as the same tree. That lemma states precedence, left grouping and the handling of parentheses for every printed text, not for every text. `Printing.RedundantParenthesesIgnored` extends it to a printed tree wrapped in any number of extra parentheses, such as `((((1))))`.

The first `Interpreter` class in the file computes while it parses. The second class of the same name replaces it, so `main` never calls it. It is modelled in `Direct`, and `Direct.DirectAgreesWithVisitor` proves how its results relate to parse-then-visit.

## Model

| member | source | states |
|---|---|---|
| Tokens.SymbolChar | BasicCalc.py:45-62 | each operator or parenthesis kind has one character, and the lexer maps that character back to the kind |
| Tokens.SymbolRoundTrip | BasicCalc.py:45-62 | the character-to-kind mapping of `get_next_token` is inverted by `SymbolChar` |
| Tokens.SymbolKind | BasicCalc.py:45-62 | the characters `+ - * / ( )` name operator and parenthesis kinds, never INTEGER or EOF |
| Tokens.NumeralValue | BasicCalc.py:36 | `int` of a run of `k` digits is below `10^k`, and at least `10^(k-1)` when there is no leading zero |
| Tokens.Digits | BasicCalc.py:31-36 | the decimal numeral of a number is a non-empty run of digits with no leading zero |
| Tokens.NumeralValueOfDigits | BasicCalc.py:36 | `int` applied to the printed numeral of `n` gives `n` back |
| Tokens.SpacesListed | BasicCalc.py:28 | whitespace (`str.isspace` restricted to ASCII) is exactly space, tab through carriage return and the separators `\x1c`-`\x1f`, none of them a digit or symbol |
| Tokens.DigitsListed | BasicCalc.py:33 | a digit (`str.isdigit` restricted to ASCII) is exactly one of `0`-`9`, never a symbol |
| Lexing.CharAt | BasicCalc.py:25 | `current_char` is None exactly past the end of the text, and otherwise the character at the position |
| Lexing.SkipSpaces | BasicCalc.py:27-29 | whitespace skipping stops at or after the start, at the end of the text or at a non-space |
| Lexing.SkippedAreSpaces | BasicCalc.py:27-29 | every character passed over while skipping is whitespace |
| Lexing.DigitRun | BasicCalc.py:31-36 | digit collection stops at the end of the text or at a non-digit; if nothing is collected, the value is unchanged |
| Lexing.DigitRunIsNumeral | BasicCalc.py:31-36 | the collected digits are a maximal run, and the value is their base-10 value (`int`) |
| Lexing.Scan | BasicCalc.py:38-66 | a token other than EOF consumes at least one character and stays within the text; EOF leaves the cursor at or past the end; the only error is an invalid character, since the digit limit of `int` is not modelled |
| Lexing.EofIsSticky | BasicCalc.py:38-66 | once EOF is returned, every later call returns EOF again and does not move the cursor |
| Lexing.IntegerTokenIsMaximalRun | BasicCalc.py:31-44 | an INTEGER token follows only whitespace; its digits form a maximal run; its value is that run's `int` |
| Lexing.ScanNumeral | BasicCalc.py:43-44 | a numeral followed by a non-digit is read as one INTEGER token with exactly its value |
| Lexing.ScanSymbol | BasicCalc.py:45-62 | each of `+ - * / ( )` is read as its own token kind, carrying its own character, and moves the cursor by one |
| Lexing.InvalidCharacterIsTheOnlyError | BasicCalc.py:38-66 | the lexer fails if and only if the first non-space character is neither a digit nor a symbol; the error names that character and its position |
| Lexing.SpacesAreSkipped | BasicCalc.py:39-42 | scanning from before a whitespace run reads the same token, ending at the same position, as scanning from after it |
| Lexing.Lexer.constructor | BasicCalc.py:15-18 | the cursor starts at position 0, on the first character; an empty text is refused as the source's indexing refuses it |
| Lexing.Lexer.Advance | BasicCalc.py:23-25 | the position moves by one; `current_char` is the character there, or None past the end |
| Lexing.Lexer.SkipWhitespace | BasicCalc.py:27-29 | the cursor ends where `SkipSpaces` says |
| Lexing.Lexer.Integer | BasicCalc.py:31-36 | the cursor moves past the maximal digit run; the result is the run's `int` for a run of any length, or an error when the run is empty |
| Lexing.Lexer.GetNextToken | BasicCalc.py:38-66 | the token returned (or the error raised) and the new cursor are exactly those of `Scan` |
| Ast.FloorDiv | BasicCalc.py:226 | Python's `//`: the quotient is rounded toward negative infinity, for either sign of the divisor |
| Ast.FloorDivAgainstEuclidean | BasicCalc.py:226 | floor division agrees with Euclidean division for a positive divisor and differs for `7 // -2` |
| Ast.Apply | BasicCalc.py:218-226 | an operator fails if and only if it divides by zero; division gives the floor quotient |
| Ast.Eval | BasicCalc.py:203-229 | a successful visit means the tree has no missing node; the only failures are a missing node and a division by zero |
| Ast.CompleteTreesEvaluate | BasicCalc.py:203-229 | a tree with no missing node and no zero divisor always evaluates |
| Parsing.Lookahead | BasicCalc.py:82-83 | reading the next token into `current_token` moves past at least one character unless it is EOF, which sits at the end; its only error is an invalid character |
| Parsing.EatToken | BasicCalc.py:76-85 | a mismatched token is a syntax error naming the expected and found kinds; a matching one is replaced by the next token, or by the lexer's error; eating anything but EOF shortens the unread input |
| Parsing.ParseFactor | BasicCalc.py:87-97 | `factor` never leaves more unread input than it started with, and fails only with an invalid character or a syntax error |
| Parsing.TermLoop | BasicCalc.py:103-110 | the loop of `term` never leaves more unread input than it started with, and fails only with an invalid character or a syntax error |
| Parsing.ParseTerm | BasicCalc.py:99-112 | `term` never leaves more unread input than it started with, and fails only with an invalid character or a syntax error |
| Parsing.ExprLoop | BasicCalc.py:123-130 | the loop of `expr` never leaves more unread input than it started with, and fails only with an invalid character or a syntax error |
| Parsing.ParseExpr | BasicCalc.py:114-132 | `expr` never leaves more unread input than it started with, and fails only with an invalid character or a syntax error |
| Parsing.FactorWithoutOperand | BasicCalc.py:87-97 | on a lookahead that is neither INTEGER nor `(`, `factor` yields no node (None) and consumes nothing |
| Parsing.FactorNumber | BasicCalc.py:89-92 | on an INTEGER, `factor` yields `Num` of its value and moves to the next token |
| Parsing.FactorParenthesised | BasicCalc.py:93-97 | on `(`, `factor` yields the inner expression when that expression stops on `)` |
| Parsing.FactorUnclosed | BasicCalc.py:93-97 | on `(`, an inner expression that stops on anything but `)` makes `factor` fail with a syntax error naming RPAREN and the kind found |
| Parsing.TermStartsWithFactor | BasicCalc.py:99-103 | `term` reads a factor and continues with its loop after it |
| Parsing.ExprStartsWithTerm | BasicCalc.py:114-123 | `expr` reads a term and continues with its loop where the term stopped |
| Parsing.OpOf | BasicCalc.py:103-130 | `+ - * /` tokens become the Add, Subtract, Multiply and Divide nodes, each from its own token only |
| Parsing.TermLoopRound | BasicCalc.py:103-110 | one round of `term`'s loop eats `*` or `/`, reads a factor and builds `BinOp(acc, op, factor)` |
| Parsing.ExprLoopRound | BasicCalc.py:123-130 | one round of `expr`'s loop eats `+` or `-`, reads a term and builds `BinOp(acc, op, term)` |
| Parsing.TermJoin | BasicCalc.py:103-110 | a term that has read `l`, then meets `*` or `/` and a factor `r`, continues from `l op r` |
| Parsing.ExprJoin | BasicCalc.py:123-130 | an expression that has read `l`, then meets `+` or `-` and a whole term `r`, continues from `l op r` |
| Parsing.TermLoopStops | BasicCalc.py:103-112 | `term`'s loop stops at once on any token other than `*` and `/` |
| Parsing.ExprLoopStops | BasicCalc.py:123-132 | `expr`'s loop stops at once on any token other than `+` and `-` |
| Parsing.TermLoopFoldsLeft | BasicCalc.py:103-110 | `term` builds left-leaning trees: the node so far always stays on the left spine of the result |
| Parsing.ExprLoopFoldsLeft | BasicCalc.py:123-130 | `expr` builds left-leaning trees: the node so far always stays on the left spine of the result |
| Parsing.EvalOnLeftSpine | BasicCalc.py:218-226 | a tree can be visited successfully only if every node on its left spine can |
| Parsing.Parser.constructor | BasicCalc.py:69-72 | the parser holds the given well-formed lexer and lookahead, and is itself well-formed |
| Parsing.Parser.Open | BasicCalc.py:69-72 | building a parser reads the first token; the result is the `Scan` of position 0, or its error |
| Parsing.Parser.Eat | BasicCalc.py:76-85 | the new state or the error is exactly that of `EatToken` |
| Parsing.Parser.Factor | BasicCalc.py:87-97 | the node or error, and the state left behind, are exactly those of `ParseFactor` |
| Parsing.Parser.Term | BasicCalc.py:99-112 | the node or error, and the state left behind, are exactly those of `ParseTerm`; the loop keeps `TermLoop` as its invariant |
| Parsing.Parser.Expr | BasicCalc.py:114-132 | the node or error, and the state left behind, are exactly those of `ParseExpr`; the loop keeps `ExprLoop` as its invariant |
| Parsing.Parser.Parse | BasicCalc.py:134-135 | `parse` is one `expr` and does not check the token after it |
| Parsing.ParseText | BasicCalc.py:134-135 | reading the first token and then `parse` fails only with an invalid character or a syntax error |
| Printing.OpKind | BasicCalc.py:123-130 | each tree operator comes from exactly one operator token, and `+`/`-` are the additive ones |
| Printing.EndRead | BasicCalc.py:39-66 | at the end of the text the lexer reads EOF and does not move |
| Printing.StopRead | BasicCalc.py:45-66 | a position that ends a construct is read as `)`, EOF or an operator of a lower level |
| Printing.SymbolRead | BasicCalc.py:45-62 | the character of a one-character kind is read as that token |
| Printing.StopIsNotDigit | BasicCalc.py:43-44 | a position that ends a construct never continues a numeral |
| Printing.NumberReadsShow | BasicCalc.py:89-92 | `factor` reads a printed number as `Num` of that number |
| Printing.FactorReadsShow | BasicCalc.py:87-97 | `factor` reads any tree printed at factor level back as that tree |
| Printing.ParenthesisedReadsShow | BasicCalc.py:93-97 | `factor` reads a parenthesised printed operator tree back as that tree |
| Printing.ParenthesisedRead | BasicCalc.py:93-97 | `(`, an expression reading `e`, then `)` is read by `factor` as `e` |
| Printing.TermReadsShow | BasicCalc.py:99-112 | `term` reads any tree printed at term level back as that tree |
| Printing.FactorAsTermReadsShow | BasicCalc.py:99-103 | a printed factor is read by `term` as that factor |
| Printing.ProductReadsShow | BasicCalc.py:103-110 | `term` reads a printed product or quotient back with its left operand grouped first |
| Printing.ProductRead | BasicCalc.py:103-110 | a term reading `l`, then `*` or `/`, then a factor reading `r`, is read as `l op r` |
| Printing.ExprReadsShow | BasicCalc.py:114-132 | `expr` reads any printed tree back as that tree |
| Printing.TermAsExprReadsShow | BasicCalc.py:114-123 | a printed term is read by `expr` as that term |
| Printing.SumReadsShow | BasicCalc.py:123-130 | `expr` reads a printed sum or difference back with its left operand grouped first |
| Printing.SumRead | BasicCalc.py:123-130 | an expression reading `l`, then `+` or `-`, then a term reading `r`, is read as `l op r` |
| Printing.ParsePrinted | BasicCalc.py:87-135 | for every tree other than a lone missing node, parsing its printed form gives the tree back: `* /` bind tighter than `+ -`, each level groups left, parentheses override |
| Printing.WholeRead | BasicCalc.py:134-135 | an expression read from the start to the end of the text is what `parse` returns |
| Printing.UnclosedRead | BasicCalc.py:93-97 | `(` followed by an expression running to the end of the text fails with a syntax error that expects RPAREN and finds EOF |
| Printing.ExprInParentheses | BasicCalc.py:87-132 | an expression reading `e` between `(` and `)`, followed by a stop, is read by `expr` as `e` |
| Printing.FactorReadsAsExpr | BasicCalc.py:99-132 | a factor followed by `)` or the end is read by `term` and then by `expr` as the same node |
| Printing.NestedRead | BasicCalc.py:87-132 | an expression reading `e` inside any number of parentheses is read by `expr` as `e` |
| Printing.RedundantParenthesesIgnored | BasicCalc.py:87-135 | a printed tree inside any number of redundant parentheses parses back as the same tree |
| Printing.TrailingInputIgnored | BasicCalc.py:134-135 | `parse` ignores a `)` after a complete expression and everything behind it |
| Interpreting.Interpreter.constructor | BasicCalc.py:215-216 | the interpreter holds its parser |
| Interpreting.Evaluate | BasicCalc.py:246-249 | a line evaluates only if it parses to a tree with no missing node; it fails only with a lexing or syntax error, a missing node or a division by zero |
| Interpreting.Interpreter.Interpret | BasicCalc.py:231-233 | `interpret` parses one expression from the parser's state and returns the visit of that tree, or the first error; after a successful parse the parser is left where `expr` stops |
| Interpreting.Calculate | BasicCalc.py:246-249 | one line at the prompt (lexer, parser, interpreter, interpret) computes `Evaluate(text)` |
| Interpreting.EvaluatePrinted | BasicCalc.py:203-233 | evaluating the printed form of a tree equals visiting the tree |
| Interpreting.SubtractionGroupsLeft | BasicCalc.py:114-132 | `10-2-3` evaluates to 5 |
| Interpreting.ProductBindsTighter | BasicCalc.py:99-132 | `2+3*4` evaluates to 14 |
| Interpreting.ParenthesesGroupFirst | BasicCalc.py:87-97 | `(2+3)*4` evaluates to 20 |
| Interpreting.DivisionGroupsLeft | BasicCalc.py:99-112 | `20/4/5` evaluates to 1 |
| Interpreting.DivisionFloors | BasicCalc.py:226 | `(0-7)/2` evaluates to -4 |
| Interpreting.NegativeDivisorFloors | BasicCalc.py:226 | `7/(0-2)` evaluates to -4 |
| Interpreting.ZeroDivisorFails | BasicCalc.py:226 | `1/(2-2)` fails with a division by zero |
| Interpreting.MissingOperandFailsOnVisit | BasicCalc.py:203-209 | `+` and `2*` parse, then fail on visiting the missing node |
| Interpreting.StrayParenthesisIgnored | BasicCalc.py:134-135 | `)` fails on visiting a missing node; `1)2` evaluates to 1 |
| Interpreting.UnclosedParenthesisFails | BasicCalc.py:93-97 | `(1+2` fails with a syntax error that expects RPAREN and finds EOF |
| Interpreting.InvalidCharacterFails | BasicCalc.py:38-66 | `1 @ 2` fails on `@` at position 2 |
| Interpreting.RedundantParenthesesAreHarmless | BasicCalc.py:87-97 | `((((1))))` evaluates to 1 |
| Direct.Combine | BasicCalc.py:162-187 | arithmetic on None is a TypeError; otherwise the result is that of the visitor's operator, including the zero-division error |
| Direct.DirectFactor | BasicCalc.py:151-160 | the direct `factor` never leaves more unread input than it started with, and fails only with a lexing or syntax error, a TypeError or a division by zero |
| Direct.DirectTermLoop | BasicCalc.py:165-172 | the direct `term` loop never leaves more unread input than it started with, and fails only with a lexing or syntax error, a TypeError or a division by zero |
| Direct.DirectTerm | BasicCalc.py:162-174 | the direct `term` never leaves more unread input than it started with, and fails only with a lexing or syntax error, a TypeError or a division by zero |
| Direct.DirectExprLoop | BasicCalc.py:178-185 | the direct `expr` loop never leaves more unread input than it started with, and fails only with a lexing or syntax error, a TypeError or a division by zero |
| Direct.DirectExpr | BasicCalc.py:176-187 | the direct `expr` never leaves more unread input than it started with, and fails only with a lexing or syntax error, a TypeError or a division by zero |
| Direct.Interpreter.constructor | BasicCalc.py:138-140 | the interpreter holds the given well-formed lexer and lookahead, and is itself well-formed |
| Direct.Interpreter.Open | BasicCalc.py:138-140 | building the interpreter makes a fresh lexer and reads the first token; the result is the `Scan` of position 0, or its error |
| Direct.Interpreter.Eat | BasicCalc.py:145-149 | the new state or the error is exactly that of `EatToken` |
| Direct.Interpreter.Factor | BasicCalc.py:151-160 | the value (or None) or error, and the state, are exactly those of `DirectFactor` |
| Direct.Interpreter.Term | BasicCalc.py:162-174 | the value or error, and the state, are exactly those of `DirectTerm`; the loop keeps `DirectTermLoop` as its invariant |
| Direct.Interpreter.Expr | BasicCalc.py:176-187 | the value or error, and the state, are exactly those of `DirectExpr`; the loop keeps `DirectExprLoop` as its invariant |
| Direct.DirectEvaluate | BasicCalc.py:138-187 | `Interpreter(text).expr()` fails only with a lexing or syntax error, a TypeError or a division by zero, never with the visitor's error |
| Direct.DirectCalculate | BasicCalc.py:138-187 | `Interpreter(text).expr()` computes `DirectEvaluate(text)` |
| Direct.RunAgreesWithEval | BasicCalc.py:162-187 | on a tree, computing left, then right, then the operator gives the visitor's number; only a lone missing node gives None |
| Direct.RunOnLeftSpine | BasicCalc.py:165-185 | a failure on the left spine is the failure of the whole computation |
| Direct.SpineKeepsFailure | BasicCalc.py:165-185 | once the value so far has failed, the rest of a loop cannot change that failure |
| Direct.FactorAgrees | BasicCalc.py:151-160 | the direct `factor` computes the value of the parser's `factor` tree and stops at the same state, or fails where it fails |
| Direct.TermLoopAgrees | BasicCalc.py:165-172 | the same agreement for the loop of `term` |
| Direct.TermAgrees | BasicCalc.py:162-174 | the same agreement for `term` |
| Direct.ExprLoopAgrees | BasicCalc.py:178-185 | the same agreement for the loop of `expr` |
| Direct.ExprAgrees | BasicCalc.py:176-187 | the same agreement for `expr` |
| Direct.DirectAgreesWithVisitor | BasicCalc.py:137-187 | the direct interpreter gives a number if and only if parse-then-visit does, and the same number; it gives None exactly when no node is parsed; it fails wherever the parser fails |
| Direct.DirectDiffersOnMissing | BasicCalc.py:151-160 | on missing operands the two interpreters part: `)` is None for the direct one and an error for the visitor, and `2*` is a TypeError for the direct one (that they agree otherwise is `Direct.DirectAgreesWithVisitor`) |

## Left out

- `main`'s prompt loop (`input`, `print`, EOF handling, and skipping empty lines) is I/O. `Interpreting.Calculate` is the body of one loop round. In the source, an uncaught exception ends the loop; in the model it is an `Err` result.
- `Token.__str__` and `Token.__repr__` are only used for display.
- The text of exception messages is not modelled. An error is identified by its `Results.Error` constructor and its fields.
- `NodeVisitor.visit` looks up `visit_<class name>` with `getattr`. The model replaces this with a match on `Node`, where `Missing` (Python's None) plays the part of `generic_visit`.
- `NodeVisitor.parse` (line 211) is never called, and calling it would fail because the visitor has no `expr`.
- Python's `str.isspace` and `str.isdigit` accept non-ASCII characters. The model only accepts ASCII whitespace and the digits `0`-`9`.
- `Parser.__init__` reads the first token and can raise. The model splits this into the constructor and the static method `Parsing.Parser.Open`, which returns a `Result`. The direct interpreter's `__init__` is modelled the same way as `Direct.Interpreter.Open`.
- `Lexing.Lexer.Integer`: `int("")` is modelled as the error `InvalidLiteral`. `get_next_token` only calls `integer` on a digit, so in the model this error is unreachable.
- Lexing.Scan, Lexing.Lexer.Integer: CPython limits `int()` on a decimal string to 4300 digits (3.11 and later, and the 3.7.14, 3.8.14, 3.9.14 and 3.10.7 security releases), so on those interpreters a run of more than 4300 digits makes `integer` (line 36) raise ValueError, which ends the program. The limit depends on the interpreter version and its settings, so the model reads a digit run of any length as one INTEGER token and never fails there.
- Integers are otherwise unbounded in both Python and the model, so arithmetic has no overflow to model.
- `Printing.Show` writes no whitespace, so the round trip covers only texts without spaces, printed with the fewest parentheses or wrapped in extra ones.
- Lexing.SpacesAreSkipped: it states that a whitespace run before one token does not change that token. That parsing a whole text is unchanged by adding or removing whitespace between tokens is not proved.
- Python's recursion limit is not modelled. In the source, a left-deep tree of about 500 chained `+` terms makes the recursive `visit` (lines 204-226) raise RecursionError, and so do deeply nested parentheses in `factor` and `expr`. The model returns a value in both cases.
- Direct.DirectAgreesWithVisitor: where the parser fails, it only proves that the direct interpreter also fails, not that it fails with the same error. After a missing operand the direct interpreter stops with a TypeError, while the parser may go on and fail later.
- Parsing.ParseFactor, Parsing.TermLoop, Parsing.ParseTerm, Parsing.ExprLoop, Parsing.ParseExpr: their own ensures only bound the unread input and the kind of error. What they compute is stated by the lemmas and the `Parsing.Parser` method contracts above.
- Direct.DirectFactor, Direct.DirectTermLoop, Direct.DirectTerm, Direct.DirectExprLoop, Direct.DirectExpr: the same holds. Their meaning is stated by the `Agrees` lemmas and the `Direct.Interpreter` methods.

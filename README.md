# Sentience scripting engine: a Dafny model

Sentience is a small scripting language with AI constructs: `EMBED text WITH model`,
`AI model(args)` and the `PIPE` operator. This project models its Python engine and the
runtime helpers of its C++ back end. The model follows the engine's own stages:

- **Lexer** (`lexer.dfy`, `lexer_facts.dfy`, `constants.dfy`). A `Lexer` class with a mutable
  cursor. Each of its `make_*` methods is proved to agree with a function over the source
  text. The lemmas cover the shape of the token list, numbers (including the round trip of
  decimal integers and the value of `a.b` floats), string escapes, keywords, two-character
  operators and comments.
- **Parser** (`parse_result.dfy`, `parser.dfy`, `nodes.dfy`, `ai_nodes.dfy`). A `Parser`
  class over the token list, with one method per production. Each method is specified by how
  far it moves the cursor and what node or error it reports: deepest-error-wins, left
  associativity of the operator levels, right nesting of `^`, left nesting of pipes, block
  flags and the error messages.
- **Runtime results** (`runtime.dfy`). The `RTResult` carrier class and its algebra: at most
  one field is set, `should_return` counts signals, and `register` overwrites.
- **Values** (`values.dfy`). Numbers (int or float), strings, lists whose element storage is
  shared by reference, functions, symbol tables chained to their parents, and every operator
  method with its error cases.
- **Functions** (`basefun.dfy`). The arity check, the new call context and argument binding.
- **Interpreter** (`interpreter.dfy`, `interpreter_loops.dfy`, `interpreter_facts.dfy`). A
  fuel-bounded evaluator, one rule per node kind; FOR and WHILE also as imperative loops that
  are proved against it. The facts cover divergence, counting loops, break escaping a call,
  arity errors, assignment read-back, the missing short-circuit of `AND`, and the
  never-succeeding `PIPE`.
- **C++ back end** (`cpp_runtime.dfy`, `code_generator.dfy`, `ast_visitor.dfy`). The runtime's
  value classes: lists mutated in place, operator overrides, `toString`, contexts and the
  builtins. The runtime's `Context` class is `CContext` here, to keep it apart from the
  interpreter's `Context`. The code generator's text templates and its line-indentation loop. The visitor's
  scopes, unique names and program assembly.

Outside calls are parameters of the model:
- the AI back end (embedding vectors and model answers);
- the C++ number format (`std::to_string`);
- a depth bound for rendering nested lists.

## Model

| member | source | states |
|---|---|---|
| Constants.TagRoundTrip | utils/constants.py:6-37 | every token type's tag string reads back as that token type |
| Constants.TagsDistinct | utils/constants.py:6-37 | the 32 tag strings are pairwise distinct |
| Constants.KeywordTable | utils/constants.py:39-64 | the keyword table has 24 distinct entries, all upper-case letters, including VEC, DOT and COSINE |
| Constants.DigitsAreDecimal | utils/constants.py:71 | membership in DIGITS is exactly the decimal-digit test |
| Constants.CharacterClasses | utils/constants.py:71-76 | whitespace is space and tab; number characters are the ten digits and the dot; `_` is neither a letter nor a digit |
| Utils.NatToStringRoundTrip | core/lexer.py:176-193 | reading back the decimal rendering of a natural number gives the number |
| Utils.NatToStringInjective | functions/basefun.py:24-49 | different numbers render to different strings |
| Lexer.Advance | core/lexer.py:75-85 | the index goes up by one; a newline moves to the next line at column 0, anything else moves one column right |
| Lexer.AdvanceOverCounts | core/lexer.py:75-85 | advancing over a text adds its length to the index and its newline count to the line |
| Lexer.MakeToken | core/lexer.py:41-53 | a token without an explicit end ends one column after its start |
| Lexer.NumberLoop | core/lexer.py:176-193 | the number scan never moves backwards and stays inside the text |
| Lexer.NumberLoopShape | core/lexer.py:176-193 | the scanned run consists of number characters, with the dot count it reports |
| Lexer.NumberLoopLexeme | core/lexer.py:176-193 | the scan stops at the end, at a non-number character, or at a second dot |
| Lexer.NumberToken | core/lexer.py:176-193 | make_number gives an INT or a FLOAT spanning exactly the characters consumed, at least one |
| Lexer.StringLoop | core/lexer.py:195-220 | the string scan stops at the closing quote or at the end of the text |
| Lexer.StringToken | core/lexer.py:195-220 | make_string gives a STRING token spanning what it consumed |
| Lexer.IdentLoop | core/lexer.py:222-234 | the identifier scan takes the maximal run of identifier characters |
| Lexer.IdentifierToken | core/lexer.py:222-234 | make_identifier gives a KEYWORD or an IDENTIFIER spanning the word |
| Lexer.PairToken | core/lexer.py:236-294 | the two-character operators take one or two characters and give the single or the double token |
| Lexer.NotEqualsToken | core/lexer.py:248-258 | `!` succeeds exactly when `=` follows; otherwise the error is ExpectedChar "'=' (after '!')" |
| Lexer.CommentLoop | core/lexer.py:296-303 | a comment scan that ends has moved forward |
| Lexer.CommentEnd | core/lexer.py:296-303 | skipping a comment ends past the comment, or not at all |
| Lexer.Step | core/lexer.py:109-174 | one step of make_tokens: at the end exactly when there is no character; a skip or an emitted token moves forward, and no emitted token is EOF |
| Lexer.Lexer.constructor | core/lexer.py:94-101 | the cursor starts on the first character: index 0, line 0, column 0 |
| Lexer.Lexer.Advance | core/lexer.py:102-108 | the cursor moves one character |
| Lexer.Lexer.MakeTokens | core/lexer.py:109-174 | the token loop gives exactly the tokens of the scan function |
| Lexer.Lexer.MakeNumber | core/lexer.py:176-193 | the number loop agrees with NumberToken, token and cursor |
| Lexer.Lexer.MakeString | core/lexer.py:195-220 | the string loop agrees with StringToken |
| Lexer.Lexer.MakeIdentifier | core/lexer.py:222-234 | the identifier loop agrees with IdentifierToken |
| Lexer.Lexer.MakePair | core/lexer.py:236-294 | the shared one-character lookahead agrees with PairToken |
| Lexer.Lexer.MakeMinusOrArrow | core/lexer.py:236-246 | `-` or `->` |
| Lexer.Lexer.MakeEquals | core/lexer.py:260-270 | `=` or `==` |
| Lexer.Lexer.MakeLessThan | core/lexer.py:272-282 | `<` or `<=` |
| Lexer.Lexer.MakeGreaterThan | core/lexer.py:284-294 | `>` or `>=` |
| Lexer.Lexer.MakeNotEquals | core/lexer.py:248-258 | agrees with NotEqualsToken, the error included |
| Lexer.Lexer.SkipComment | core/lexer.py:296-303 | hangs exactly when the comment reaches the end of input; otherwise stops after the newline |
| LexerFacts.ScanAtEnd | core/lexer.py:173-174 | at the end of input the scan appends EOF and stops |
| LexerFacts.LastToken | core/lexer.py:109-174 | a token that consumes the rest of the input is followed only by EOF |
| LexerFacts.ScanShape | core/lexer.py:109-174 | a scan either succeeds with its tokens followed by exactly one EOF, at the end, or fails with no tokens |
| LexerFacts.TokenizeShape | core/lexer.py:109-174 | tokenizing a text: success ends in exactly one EOF; an error comes with an empty list |
| LexerFacts.IllegalCharacter | core/lexer.py:167-171 | a character that starts no token stops lexing with an IllegalCharError naming it |
| LexerFacts.BangWithoutEquals | core/lexer.py:153-157 | a `!` not followed by `=` stops lexing with an ExpectedCharError |
| LexerFacts.SeparatorsOnly | core/lexer.py:114-120 | over blanks, `;` and newlines, one NEWLINE is emitted per `;` or newline, then EOF |
| LexerFacts.SeparatorText | core/lexer.py:114-120 | the same for a whole text |
| LexerFacts.NumberTokenLexeme | core/lexer.py:176-193 | make_number reads the maximal run of number characters with at most one dot; the token is INT exactly when the run has no dot |
| LexerFacts.IntRoundTrip | core/lexer.py:176-193 | every natural number, written in decimal, lexes to one INT token of that value |
| LexerFacts.FloatLiteral | core/lexer.py:176-193 | `a.b` with digit strings lexes to one FLOAT token of value a + b/10^\|b\| |
| LexerFacts.SecondDot | core/lexer.py:176-193 | in `a.b.rest` the second dot ends the number and is then an illegal character |
| LexerFacts.TwoDotsNotFloat | core/lexer.py:176-193 | a lexeme with two dots is not a float lexeme |
| LexerFacts.StringLiteral | core/lexer.py:195-220 | a quoted literal holding the escaped form of `v` lexes to one STRING token of value `v`; the closing quote is consumed but not kept |
| LexerFacts.UnterminatedString | core/lexer.py:195-220 | a literal without its closing quote is still accepted at the end of input |
| LexerFacts.StringLoopEscape | core/lexer.py:202-214 | a backslash and the character after it stand for the unescaped character (`n` and `t` translated) |
| LexerFacts.WordLexing | core/lexer.py:222-234 | a word lexes to one token carrying it: KEYWORD when it is reserved, IDENTIFIER otherwise |
| LexerFacts.KeywordsLexAsKeywords | core/lexer.py:222-234 | every entry of the keyword table lexes to a KEYWORD |
| LexerFacts.Lookahead | core/lexer.py:236-294 | one character of lookahead decides between the one- and the two-character operator |
| LexerFacts.NotEqualsText | core/lexer.py:248-258 | `!=` lexes to a single NE token |
| LexerFacts.PairText | core/lexer.py:236-294 | `->`, `==`, `<=` and `>=` each lex to a single token |
| LexerFacts.MatchesOnePair | core/lexer.py:54-56 | `matches` compares both type and value, so a token matches at most one pair |
| LexerFacts.CommentToNewline | core/lexer.py:296-303 | a comment whose line ends is skipped through its newline |
| LexerFacts.CommentHangs | core/lexer.py:296-303 | a comment that reaches the end of input never finishes |
| LexerFacts.CommentLine | core/lexer.py:116 | `#`, a comment and its newline produce no token at all |
| LexerFacts.TrailingComment | core/lexer.py:296-303 | a text ending in a comment without a newline is one where tokenizing hangs |
| Nodes.MakeNumber | core/parser.py:412 | a Number node holding the token and spanning it |
| Nodes.MakeString | core/parser.py:417 | a String node holding the token and spanning it |
| Nodes.MakeVarAccess | core/parser.py:422 | a variable-access node holding the name token and spanning it |
| Nodes.MakeVarAssign | core/parser.py:273 | an assignment of the value to the name, from the name's start to the value's end |
| Nodes.MakeBinOp | core/parser.py:1018 | the operation on both operands, from the left operand's start to the right operand's end |
| Nodes.MakeUnaryOp | core/parser.py:304 | the operator applied to the operand, from the operator's start to the operand's end |
| Nodes.MakeIf | core/parser.py:556 | the cases and the else case, from the first condition to the else body's end, or without an else to the last condition's end |
| Nodes.MakeFor | core/parser.py:790-798 | the loop's name, bounds, body and block flag, from the name's start to the body's end |
| Nodes.MakeWhile | core/parser.py:856-862 | the condition, body and block flag, from the condition's start to the body's end |
| Nodes.MakeFuncDef | core/parser.py:962-992 | name, parameters, body and auto-return flag; it starts at the name, else the first parameter, else the body, and ends with the body |
| Nodes.MakeCall | core/parser.py:397 | the callee and arguments, from the callee's start to the last argument's end, or the callee's end without arguments |
| AiNodes.MakeEmbed | core/ai_nodes.py:2-6 | the node spans from the text to the model if there is one, else to the end of the text |
| AiNodes.MakeAICall | core/ai_nodes.py:14-18 | the node starts at the model name and ends with the last argument, or with the name when there are none |
| AiNodes.MakePipe | core/ai_nodes.py:24-27 | spans from the left node's start to the right node's end |
| AiNodes.PipeChainSpan | core/ai_nodes.py:24-27 | a chain of pipes covers its first operand to its last stage, and its leftmost leaf is the first operand |
| AiNodes.PipeChainDepth | core/ai_nodes.py:24-27 | a chain of k stages has pipe depth k along its left spine |
| AiNodes.TokenRepr | core/lexer.py:58-63 | a token prints as its tag, followed by `:` and its value exactly when the value is truthy: a text as is, an int in decimal with its sign, a float through the float-format parameter |
| AiNodes.IntToString | core/lexer.py:61-62 | an int's decimal text: the digits of a non-negative int, `-` and the digits of its magnitude otherwise |
| AiNodes.TokenReprReadsBack | core/lexer.py:58-63 | the value a positive INT token prints after its `:` is all digits and reads back to the token's value |
| AiNodes.EmbedRepr | core/ai_nodes.py:8-11 | `(EMBED text)`, or `(EMBED text WITH model)` when there is a model |
| AiNodes.EmbedReprForms | core/ai_nodes.py:8-11 | the two EMBED forms never print alike; the form with a model is longer by " WITH " and the model's text |
| AiNodes.AICallRepr | core/ai_nodes.py:20-21 | `(AI `, the model token, then the arguments as Python prints a list: bracketed, their texts joined by ", ", `[]` for none, and `)` |
| AiNodes.ShowAll | core/ai_nodes.py:20-21 | the arguments print one by one, in order |
| AiNodes.PipeRepr | core/ai_nodes.py:30-31 | `(`, the left node's text, ` PIPE `, the right node's text and `)`, at those offsets |
| ParseResults.AdvanceCounts | core/parser.py:72-76 | register_advancement counts one token and sets the last count to one |
| ParseResults.RegisterCounts | core/parser.py:77-88 | register adds the sub-result's count, records it as the last count, and adopts its error |
| ParseResults.TryRegisterFailed | core/parser.py:89-101 | a failed sub-result only records how far to reverse; a successful one is registered |
| ParseResults.DeepestErrorWins | core/parser.py:107-122 | once a sub-result that consumed tokens has failed, a later failure does not replace its error |
| ParseResults.ShallowErrorReplaced | core/parser.py:107-122 | a sub-result that failed without consuming anything gives way to the new error |
| ParseResults.FailureAfterAdvance | core/parser.py:107-122 | after a token match, a failure reports its own error when there was none yet |
| ParseResults.FailureKeepsCounts | core/parser.py:107-122 | failure changes only the error |
| ParseResults.LevelsDisjoint | core/parser.py:292-347 | the operator sets of the precedence levels do not overlap |
| ParseResults.FoldOpsSnoc | core/parser.py:994-1021 | one more operator wraps the whole tree built so far |
| ParseResults.LeftAssociative | core/parser.py:994-1021 | `a op b op c` is `(a op b) op c` |
| ParseResults.FoldOpsDepth | core/parser.py:994-1021 | the left spine has one BinOp per operator and its leftmost leaf is the first operand |
| ParseResults.ExpectedErrorNamesTheWord | core/parser.py:107-122 | two "Expected '...'" errors with the same details expect the same word |
| ParseResults.ExpectedTextShape | core/parser.py:107-122 | the word of an "Expected '...'" message sits between its quotes |
| Parser.Parser.constructor | core/parser.py:124-129 | the cursor starts on the first token |
| Parser.Parser.Advance | core/parser.py:130-135 | the index goes up by one; the current token follows it while it stays inside the list |
| Parser.Parser.Reverse | core/parser.py:136-141 | the index goes back by the amount; the current token follows it while it stays inside the list |
| Parser.Parser.UpdateCurrentTok | core/parser.py:142-146 | the current token is refreshed only while the index is inside the list |
| Parser.Parser.Step | core/parser.py:130-135 | a matched token: the count and the index both go up by one |
| Parser.Parser.Parse | core/parser.py:147-159 | a parse that built a list of statements fails exactly when tokens remain, with the trailing-token error at the first of them |
| Parser.Parser.Statements | core/parser.py:160-198 | the advance count is how far the cursor moved; the list's span is that of its tokens, and it never stops in front of a NEWLINE |
| Parser.Parser.SkipNewlines | core/parser.py:160-198 | one counted advance per NEWLINE passed, and it stops at the first other token |
| Parser.Parser.MoreStatements | core/parser.py:160-198 | never fails: a statement that does not parse is reversed over, by exactly the count its attempt reports, and ends the list |
| Parser.Parser.Statement | core/parser.py:199-237 | RETURN with an optional expression (never failing), CONTINUE, BREAK, or an expression; a failure without progress gives the generic statement message |
| Parser.Parser.Expr | core/parser.py:238-291 | VAR gives an assignment; otherwise the AND/OR level followed by pipe stages, and it stops at a token that is not PIPE |
| Parser.Parser.VarAssign | core/parser.py:238-291 | the name after VAR is the assigned variable; a missing identifier or `=` is the matching error |
| Parser.Parser.PipeLoop | core/parser.py:238-291 | each PIPE takes one atom and wraps the tree so far: the result is the left-nested pipe chain |
| Parser.Parser.LeftOperand | core/parser.py:994-1021 | an operand is parsed at the next tighter level, and the count and cursor agree |
| Parser.Parser.RightOperand | core/parser.py:344-347 | at the power level the right operand is a factor, which takes every further `^` |
| Parser.Parser.BinOp | core/parser.py:994-1021 | stops only at a token that is not an operator of its level |
| Parser.Parser.BinOpLoop | core/parser.py:994-1021 | the tree is the left fold of the operators and operands read; at the power level the loop runs at most once, so `^` nests to the right |
| Parser.Parser.CompExpr | core/parser.py:292-320 | NOT and a comparison give a unary NOT node; a failure without progress gives the generic comparison message |
| Parser.Parser.Factor | core/parser.py:329-343 | a unary `+`/`-` gives a unary node over a factor; either way every `^` that follows is taken |
| Parser.Parser.Call | core/parser.py:348-399 | a call node ends with its closing `)` |
| Parser.Parser.CallArgs | core/parser.py:348-399 | `()` gives no arguments; a failing first argument gives the generic argument message unless it consumed tokens |
| Parser.Parser.Items | core/parser.py:493-548 | an immediate closing token gives no items; a successful list ends with the closing token |
| Parser.Parser.ArgsTail | core/parser.py:348-399 | the first expression is kept first; a missing closing token is reported at the token found instead |
| Parser.Parser.CommaExprs | core/parser.py:348-399 | each COMMA adds one expression at the end, in order; it stops at a token that is not COMMA |
| Parser.Parser.Atom | core/parser.py:400-492 | a one-token literal gives its node after one advance; a token that starts no atom is the atom error at that token |
| Parser.Parser.Bracketed | core/parser.py:400-492 | `( expr )` is the expression itself and ends at `)` |
| Parser.Parser.CompoundAtom | core/parser.py:400-492 | the node's kind follows the first token: EMBED, AI, list, IF, FOR, WHILE or FUN |
| Parser.Parser.ListExpr | core/parser.py:493-548 | a list starts at `[` and ends where the token after `]` ends |
| Parser.Parser.IfExpr | core/parser.py:549-557 | an IF node has at least one case |
| Parser.Parser.IfExprB | core/parser.py:558-561 | the ELIF cases are at least one |
| Parser.Parser.IfExprC | core/parser.py:562-598 | without ELSE nothing is consumed and there is no else case; a block ELSE sets its flag |
| Parser.Parser.IfExprBOrC | core/parser.py:599-615 | ELIF gives at least one case; otherwise there are no further cases |
| Parser.Parser.IfExprCases | core/parser.py:616-681 | keyword, condition, THEN and body; a NEWLINE after THEN makes the first case a block |
| Parser.Parser.IfCaseBody | core/parser.py:616-681 | a block body ends at END or continues with ELIF or ELSE; a single statement always continues with them |
| Parser.Parser.ForExpr | core/parser.py:682-800 | `FOR name = start TO end [STEP s] THEN body`; the flag is set exactly when a NEWLINE follows THEN |
| Parser.Parser.ForHeadTail | core/parser.py:682-800 | a missing `=` is reported at the token found |
| Parser.Parser.ForRange | core/parser.py:682-800 | a STEP after the end value always gives a step value |
| Parser.Parser.OptionalStep | core/parser.py:682-800 | without STEP nothing is consumed and there is no step |
| Parser.Parser.ThenBody | core/parser.py:682-800 | a missing THEN is reported at the token found; there is no body exactly when this part fails |
| Parser.Parser.Body | core/parser.py:682-800 | a block exactly when a NEWLINE comes first, and a block closes with END |
| Parser.Parser.WhileExpr | core/parser.py:801-863 | `WHILE cond THEN body`; the flag is set exactly when a NEWLINE follows THEN |
| Parser.Parser.FuncDef | core/parser.py:864-993 | FUN with an optional name; without a name, a token other than `(` gives "Expected identifier or '('" |
| Parser.Parser.FuncParams | core/parser.py:864-993 | every parameter is an identifier token |
| Parser.Parser.ParamNames | core/parser.py:864-993 | no names or comma-separated identifiers, stopping on the `)` |
| Parser.Parser.ParamLoop | core/parser.py:864-993 | each COMMA takes one more identifier; anything else after a COMMA is "Expected identifier" |
| Parser.Parser.FuncBody | core/parser.py:864-993 | `->` and an expression auto-return; NEWLINE, statements and END make a block; anything else is an error |
| Parser.Parser.EmbedExpr | core/parser.py:1022-1062 | `EMBED text [WITH model]` with the model read as a variable |
| Parser.Parser.EmbedModel | core/parser.py:1022-1062 | without WITH nothing is consumed; WITH without an identifier is an error |
| Parser.Parser.AiExpr | core/parser.py:1063-1133 | `AI model(args)`: the model is an identifier token and the call closes with `)` |
| Parser.Parser.AiArgs | core/parser.py:1063-1133 | a missing `(` is reported at the token found |
| Runtime.SignalCount | execution/runtime.py:71-85 | at most four signals |
| Runtime.Registered | execution/runtime.py:29-40 | register keeps the value and takes the sub-result's signals |
| Runtime.ShouldReturnCountsSignals | execution/runtime.py:71-85 | should_return holds exactly when at least one signal is set |
| Runtime.ExactlyOneField | execution/runtime.py:41-70 | each success, return, continue, break or failure sets exactly one field; only success leaves should_return false |
| Runtime.RegisterAdoptsSignals | execution/runtime.py:29-40 | after register, should_return is the sub-result's; registering a plain success clears every signal |
| Runtime.RegisterOverwrites | execution/runtime.py:29-40 | registering twice is registering the second result |
| Runtime.RTResult.constructor | execution/runtime.py:18-20 | a fresh carrier is in the reset state |
| Runtime.RTResult.Reset | execution/runtime.py:21-28 | every field cleared |
| Runtime.RTResult.Register | execution/runtime.py:29-40 | the new state is the registered state and the sub-result's value is handed back |
| Runtime.RTResult.Success | execution/runtime.py:41-46 | reset, then the value |
| Runtime.RTResult.SuccessReturn | execution/runtime.py:47-52 | reset, then the return value |
| Runtime.RTResult.SuccessContinue | execution/runtime.py:53-58 | reset, then the continue flag |
| Runtime.RTResult.SuccessBreak | execution/runtime.py:59-64 | reset, then the break flag |
| Runtime.RTResult.Failure | execution/runtime.py:65-70 | reset, then the error |
| Runtime.RTResult.ShouldReturn | execution/runtime.py:71-85 | true exactly when some signal is set |
| Values.Chain | core/values.py:45-51 | the tables a lookup visits, starting with the table itself |
| Values.Get | core/values.py:45-51 | a binding in the starting table wins; any result is the binding of some table at or below the start (nearest-first, as Values.GetIsNearest states in full) |
| Values.GetIsNearest | core/values.py:45-51 | a lookup succeeds iff some table on the chain binds the name, and then gives the nearest binding |
| Values.Bind | core/values.py:52-55 | set keeps the lists and the number of tables |
| Values.Unbind | core/values.py:56-65 | remove succeeds exactly when the name is bound in that table itself (KeyError otherwise) |
| Values.BindLocal | core/values.py:52-55 | a written binding reads back; every other table and the parent link stay as they were |
| Values.BindKeepsOtherNames | core/values.py:52-55 | a write changes no lookup of any other name |
| Values.BindInvisibleBelow | core/values.py:45-55 | a write into a child table never shows in its ancestors' lookups |
| Values.UnbindFallsBack | core/values.py:56-65 | after a removal the name falls back on the parent chain |
| Values.UnbindInvisibleBelow | core/values.py:56-65 | a removal in a child table never shows in its ancestors' lookups |
| Values.NewTable | core/values.py:41-44 | a new empty table with the given parent, at the next index; nothing else changes |
| Values.NewTableKeepsLookups | core/values.py:41-44 | allocating a table changes no existing lookup |
| Values.NewTableReadsParent | core/values.py:41-51 | a new table reads through to its parent |
| Values.NewList | core/values.py:360-363 | new element storage at the next index; no other list changes |
| Values.PyIndex | core/values.py:305-318 | Python indexing: success exactly in range, and the result is inside the sequence |
| Values.PyIndexIsModulo | core/values.py:305-318 | in range, a Python index is the index modulo the length |
| Values.Arith | core/values.py:156-173 | `+ - *` give an int exactly when both operands are ints, with the exact sum, difference or product |
| Values.NumPow | core/values.py:185-190 | a non-negative int exponent gives the power, an int for an int base; zero to a negative power raises ZeroDivisionError; a fractional exponent is outside the model |
| Values.Truncate | core/values.py:239-256 | `int()` truncates toward zero |
| Values.NumberOp | core/values.py:156-268 | a non-Number right operand is illegal; division by zero is the "Division by zero" error; comparisons give 0/1; results carry the left operand's context and no span |
| Values.Notted | core/values.py:257-259 | NOT gives 1 for zero and 0 otherwise; only a Number has it |
| Values.IllegalOperation | core/values.py:140-143 | "Illegal operation" from the left operand's start to the right operand's end, in the left operand's context |
| Values.NottedNegatesTruth | core/values.py:257-267 | NOT of a Number has the opposite truth |
| Values.StringOp | core/values.py:293-336 | only `+ * / == !=` are defined on strings; the rest are illegal |
| Values.StringRepeat | core/values.py:299-304 | `*` by an int count repeats; by a float raises TypeError; by a non-Number is illegal |
| Values.StringIndex | core/values.py:305-318 | `/` gives the one-character string at a Python index; out of range or float is an error at the index operand |
| Values.StringEquality | core/values.py:319-336 | `==` and `!=` on two strings give opposite flags; against anything else they are illegal |
| Values.ListOp | core/values.py:364-406 | `+ - *` return the left operand itself and change only its storage; `/` changes nothing |
| Values.ListAdd | core/values.py:364-368 | `+` appends the right operand as one element |
| Values.ListPop | core/values.py:369-384 | `-` removes the element at a Python index; on an error nothing is removed |
| Values.ListExtend | core/values.py:385-392 | `*` appends another list's elements; anything else is illegal and changes nothing |
| Values.ListIndex | core/values.py:393-406 | `/` returns the stored element at a Python index, or the index error |
| Values.Apply | core/interpreter.py:114-155 | only a List operand can change the store |
| Values.ComparisonsComplement | core/values.py:191-238 | `==`/`!=`, `<`/`>=` and `>`/`<=` always give opposite flags |
| Values.AndOrOnInts | core/values.py:239-256 | on ints AND/OR are Python's `a and b` / `a or b`, not a 0/1 flag |
| Values.AndOrTruncateFloats | core/values.py:239-256 | truncation of float results: `1 AND 0.5` is 0 and `0.5 OR 0` is 0 |
| Values.ArithInverses | core/values.py:156-184 | subtracting undoes adding, and multiplying a quotient by the divisor gives the dividend |
| Values.IsTrue | core/values.py:137-139 | only a Number or a String can be true; zero and the empty String are false (lists and functions: Values.ListsAreFalse) |
| Values.ListsAreFalse | core/values.py:137-139 | lists and functions are never true |
| Values.ListAddAliases | core/values.py:407-412 | a value sharing the left operand's storage sees the appended element too |
| Values.ListSubRemovesOne | core/values.py:369-384 | `-` removes exactly the element at the index and keeps the others in order |
| Values.ListMulSelfDoubles | core/values.py:385-392 | a list extended with itself doubles |
| Values.StringIndexModulo | core/values.py:305-318 | a string index reads the character at that index modulo the length; `-1` is the last character |
| Values.Heap.constructor | core/values.py:41-44 | the heap holds the given state |
| Values.Heap.Set | core/values.py:52-55 | the new state is Bind of the old, and the name reads back |
| Values.Heap.Remove | core/values.py:56-65 | removes exactly when Unbind succeeds; otherwise nothing changes |
| Values.Heap.ListAddedTo | core/values.py:364-368 | the in-place append agrees with ListAdd |
| Values.Heap.ListSubbedBy | core/values.py:369-384 | the in-place pop agrees with ListPop |
| Values.Heap.ListMultedBy | core/values.py:385-392 | the in-place extend agrees with ListExtend |
| BaseFun.FunctionName | functions/basefun.py:14-17 | a non-empty name is kept; a missing or empty one is "<anonymous>" |
| BaseFun.NewContext | functions/basefun.py:18-23 | a child context named after the function, whose parent is the function's context and whose table's parent is that context's table; none without a context |
| BaseFun.NewContextSeesParent | functions/basefun.py:18-23 | the new context reads exactly what the function's context reads |
| BaseFun.CheckArgs | functions/basefun.py:24-49 | no error iff the counts agree; otherwise "k too many/too few args passed into <function f>" at the function's span |
| BaseFun.ArityMessageNamesTheCount | functions/basefun.py:24-49 | different differences in count give different messages |
| BaseFun.Populate | functions/basefun.py:50-57 | binding keeps the lists and the number of tables |
| BaseFun.PopulateBinds | functions/basefun.py:50-57 | each distinct parameter name reads back its argument in the new context |
| BaseFun.PopulateLocal | functions/basefun.py:50-57 | binding touches only the new context's table |
| BaseFun.PopulateArgs | functions/basefun.py:50-57 | the binding loop agrees with Populate |
| BaseFun.CheckAndPopulate | functions/basefun.py:58-65 | an error exactly on an arity mismatch, and then nothing is bound |
| Interpreter.Eval | core/interpreter.py:27-38 | every finished evaluation sets exactly one carrier field |
| Interpreter.EvalNumber | core/interpreter.py:50-57 | a Number of the token's value with the node's span and the current context |
| Interpreter.EvalString | core/interpreter.py:58-65 | a String of the token's text with the node's span |
| Interpreter.EvalAll | core/interpreter.py:66-83 | left to right, stopping at the first signal; all values when none |
| Interpreter.EvalList | core/interpreter.py:66-83 | a finished list literal sets exactly one carrier field, and a value it yields is a List at the node's span in the current context |
| Interpreter.EvalVarAccess | core/interpreter.py:84-102 | an unbound name is "'x' is not defined"; a bound one is its value re-stamped with the access span; the store is unchanged |
| Interpreter.EvalVarAssign | core/interpreter.py:103-113 | a finished assignment sets exactly one carrier field |
| Interpreter.Finish | core/interpreter.py:114-155 | an operator result is stamped with the node's span; an error is the failure; the store is kept |
| Interpreter.EvalBinOp | core/interpreter.py:114-155 | a finished binary operation sets exactly one carrier field, and a value it yields carries the node's span |
| Interpreter.EvalUnaryOp | core/interpreter.py:156-175 | a finished unary operation sets exactly one carrier field, and a value it yields carries the node's span |
| Interpreter.EvalCases | core/interpreter.py:176-204 | a finished IF sets exactly one carrier field |
| Interpreter.EvalBranch | core/interpreter.py:176-204 | a finished branch sets exactly one carrier field; a block branch that does not signal is null; a single-statement branch is the statement's own outcome |
| Interpreter.EvalFor | core/interpreter.py:205-264 | a finished FOR sets exactly one carrier field; a value it yields is null for a block body, else a List at the node's span in the current context |
| Interpreter.EvalStep | core/interpreter.py:205-264 | no STEP node means a step of 1 |
| Interpreter.ForFrom | core/interpreter.py:225-264 | the same for the loop over evaluated bounds; bounds that are not all Numbers halt as Interpreter.ForBoundsFault says |
| Interpreter.ForBoundsFault | core/interpreter.py:229-235 | no fault exactly when all three bounds are Numbers; a List or Function start, or (after that) step, or (after those) end raises AttributeError; a String step, or one String against a Number, raises TypeError; only two String bounds are outside the model |
| Interpreter.LoopValue | core/interpreter.py:255-264 | null for a block body, else a new List at the node's span holding exactly the values |
| Interpreter.ForLoop | core/interpreter.py:205-264 | the values collected keep those collected before |
| Interpreter.AfterBody | core/interpreter.py:205-264 | an error or return ends the loop with it; continue accumulates nothing; break ends with the values so far; a plain value is accumulated |
| Interpreter.EvalWhile | core/interpreter.py:265-306 | a finished WHILE sets exactly one carrier field; a value it yields is null for a block body, else a List at the node's span in the current context |
| Interpreter.WhileLoop | core/interpreter.py:265-306 | the values collected keep those collected before |
| Interpreter.WhileTested | core/interpreter.py:265-306 | the values collected keep those collected before |
| Interpreter.Names | core/interpreter.py:307-329 | the parameter names, one per token, in order |
| Interpreter.EvalFuncDef | core/interpreter.py:307-329 | a function value over the definition's context and span, bound under its name when it has one, "<anonymous>" otherwise |
| Interpreter.EvalCall | core/interpreter.py:330-359 | a finished call sets exactly one carrier field, and a value it yields carries the call's span and the caller's context |
| Interpreter.Execute | core/interpreter.py:484-512 | a value that is not a function is "Illegal operation" at its own span |
| Interpreter.RunBody | core/interpreter.py:484-512 | a finished body sets exactly one carrier field and leaves no return value pending; a signal from the body without a return value passes through unchanged |
| Interpreter.ReturnedValue | core/interpreter.py:484-512 | the body's value under auto-return, else the returned value, else null |
| Interpreter.EvalReturn | core/interpreter.py:360-376 | a finished RETURN always signals; a bare RETURN returns null and keeps the store |
| Interpreter.EvalEmbed | core/interpreter.py:385-416 | a finished EMBED sets exactly one carrier field, and a value it yields is a List |
| Interpreter.FloatValues | core/ai_runtime.py:13-17 | the embedding vector becomes one float Number per component, in order |
| Interpreter.EvalModelName | core/interpreter.py:385-416 | no model node gives no name; a model value must carry a raw value |
| Interpreter.EvalAICall | core/interpreter.py:417-439 | a finished AI call sets exactly one carrier field, and a value it yields has no span and no context |
| Interpreter.EvalRawArgs | core/interpreter.py:417-439 | every argument evaluated, each with a raw value, in order |
| Interpreter.RawsOf | core/interpreter.py:421-426 | the arguments handed to the back end are the arguments' `value`s, one per argument, in order |
| Interpreter.RawValues | core/ai_runtime.py:54-55 | a list answer becomes one value per item, in order |
| Interpreter.EvalPipe | core/interpreter.py:440-472 | a finished PIPE sets exactly one carrier field |
| InterpreterLoops.RunFor | core/interpreter.py:205-264 | the imperative FOR loop gives exactly the outcome of ForLoop |
| InterpreterLoops.RunWhile | core/interpreter.py:265-306 | the imperative WHILE loop gives exactly the outcome of WhileLoop |
| InterpreterFacts.LiteralIsPlain | core/interpreter.py:50-57 | a number literal is a plain value and leaves the store unchanged |
| InterpreterFacts.ForStepZeroNeverEnds | core/interpreter.py:225-244 | FOR with step 0 and a start below the end never finishes when the body does not signal |
| InterpreterFacts.WhileTrueNeverEnds | core/interpreter.py:265-306 | WHILE whose condition stays true and whose body does not signal never finishes |
| InterpreterFacts.ForCountsUp | core/interpreter.py:205-264 | `FOR v = j TO k THEN v` runs to its end and collects exactly j, j+1, ..., k-1 |
| InterpreterFacts.ForCountStep | core/interpreter.py:205-264 | one iteration: the body reads the variable just bound |
| InterpreterFacts.ForCountDone | core/interpreter.py:225-244 | a counting loop at or past its end collects nothing more and keeps the store |
| InterpreterFacts.ForExpressionLists | core/interpreter.py:205-264 | the FOR expression over int literals gives a new List of the counter's values |
| InterpreterFacts.BreakEscapesCall | core/interpreter.py:484-512 | a function whose body breaks makes the call itself break |
| InterpreterFacts.ArityMismatchFails | core/interpreter.py:484-512 | a call with the wrong number of arguments gives the arity error before the body runs |
| InterpreterFacts.AssignThenRead | core/interpreter.py:84-113 | an assignment yields its value, and a later access reads it back with the access's span |
| InterpreterFacts.DefinitionIsBound | core/interpreter.py:307-329 | a named definition can be looked up by its name right away |
| InterpreterFacts.AndEvaluatesBothSides | core/interpreter.py:114-155 | AND does not short-circuit: a false left operand still has the right one's error as result |
| InterpreterFacts.LeftSignalSkipsRight | core/interpreter.py:114-155 | a signal from the left operand is the result, and the right operand is not evaluated |
| InterpreterFacts.PipeNeverYields | core/interpreter.py:440-472 | no PIPE expression yields a value: it passes on the left operand's signal or raises NameError |
| InterpreterFacts.NoTrueCaseIsNull | core/interpreter.py:176-204 | an IF whose conditions are all false and which has no ELSE is null |
| InterpreterFacts.IfFirstTrueCase | core/interpreter.py:176-204 | when the conditions before case k are false and case k's is true, the IF is case k's branch, whatever the later cases and the ELSE are |
| InterpreterFacts.IfElseWhenNoneTrue | core/interpreter.py:176-204 | when every condition is false, the IF is its ELSE branch |
| InterpreterFacts.EvalAllAppend | core/interpreter.py:66-83 | evaluating `ns + rest` evaluates `ns`, then `rest` from the store `ns` leaves; a signal in `ns` is the result and `rest` is not evaluated |
| InterpreterFacts.ListLiteralHoldsElements | core/interpreter.py:66-83 | a list literal whose elements finish is a new List holding their values in order; a signal from an element is the result |
| InterpreterFacts.BinOpAppliesOperator | core/interpreter.py:114-155 | on two plain operands, the value of the operator the token selects, stamped with the node's span, or the error it raises; a token selecting no operator is UnboundLocalError |
| InterpreterFacts.RightSignalIsResult | core/interpreter.py:114-155 | a signal from the right operand, after a plain left one, is the result |
| InterpreterFacts.NotGivesFlag | core/interpreter.py:156-175 | NOT on a Number is the flag of its falsehood at the node's span, so truth flips; on any other value it is a TypeError |
| InterpreterFacts.NegationMultipliesByMinusOne | core/interpreter.py:156-175 | `-x` on a Number is x times -1, the negated int for an int, and keeps the store |
| InterpreterFacts.OtherUnaryKeepsValue | core/interpreter.py:156-175 | any other unary operator gives the operand's value at the node's span |
| InterpreterFacts.ForIsLoopValue | core/interpreter.py:205-264 | FOR over Number bounds is the loop started from the store the bounds leave: the signal that ends it, or the loop value of what it collected |
| InterpreterFacts.WhileIsLoopValue | core/interpreter.py:265-306 | WHILE is the signal that ends its loop or the loop value of what it collected; a condition false at once gives null or an empty List |
| InterpreterFacts.ArgumentSignalAbortsCall | core/interpreter.py:330-359 | a signal from argument k, after a plain callee and plain earlier arguments, is the call's result: nothing after it is evaluated |
| InterpreterFacts.CallResultOfBody | core/interpreter.py:330-359 | a matching call runs the body in the new context: a signal without a return value reaches the caller; else the returned value, the auto-returned value or null, stamped with the call span and the caller's context |
| InterpreterFacts.ReturnSignalsValue | core/interpreter.py:360-376 | RETURN signals its expression's value with the store it leaves; a signal from the expression is the result |
| InterpreterFacts.EmbedRejectsNonString | core/interpreter.py:393-398 | a text that is not a String is "First argument must be a string" at the node, and the back end is not asked |
| InterpreterFacts.EmbedUsesBackEnd | core/interpreter.py:400-416 | the back end is asked with model 'default' or the model's `value`; a vector becomes a new List of floats, a failure "Error generating embedding: " and its message at the node |
| InterpreterFacts.AIAnswerConverted | core/ai_runtime.py:39-63 | the back end gets the model's name and the raw arguments; a text or number answer becomes a String or Number, a list a new List of its items, and a failure is the result at the node |
| InterpreterFacts.RawRoundTrip | core/ai_runtime.py:50-57 | the `value` of a value made from a raw answer is that answer |
| CppRuntime.ListObject.constructor | compiler/runtime.h:146 | the list holds the given elements |
| CppRuntime.ListObject.GetItem | compiler/runtime.cpp:298-308 | a negative index has the length added once; success exactly in Python's range, else "List index out of range" |
| CppRuntime.ListObject.SetItem | compiler/runtime.cpp:310-320 | success exactly in range; only that slot changes and reads back; on error nothing changes |
| CppRuntime.ListObject.Append | compiler/runtime.cpp:322-324 | one slot at the end holding the value; the old slots read as before |
| CppRuntime.ListObject.AsList | compiler/runtime.cpp:270-272 | a new list object with the same elements |
| CppRuntime.Repeated | compiler/runtime.cpp:256-267 | no characters for a non-positive count, else count copies |
| CppRuntime.RepeatedIsPeriodic | compiler/runtime.cpp:256-267 | a repetition starts with the string, and each later character is the one a string's length earlier |
| CppRuntime.RepeatFront | compiler/runtime.cpp:256-267 | n copies are one copy followed by n-1 copies |
| CppRuntime.RepeatText | compiler/runtime.cpp:256-267 | the repeat loop gives Repeated |
| CppRuntime.Power | compiler/runtime.cpp:143-149 | an integral exponent gives the exact power; zero to a negative power and fractional exponents are outside the model |
| CppRuntime.NumberOp | compiler/runtime.cpp:98-209 | arithmetic and ordering need a Number, division by zero throws "Division by zero", `^` is the power, `>`/`<=` are the exact comparisons, `*` by a String repeats, `==`/`!=` answer for any operand, and/or use isTrue |
| CppRuntime.Show | compiler/runtime.cpp:282-292 | a list renders as "[", its elements' texts joined by ", ", and "]"; a list nested deeper than the bound has no text |
| CppRuntime.ShowAllPointwise | compiler/runtime.cpp:282-292 | the element texts are exactly the texts of the elements, in order |
| CppRuntime.ToText | compiler/runtime.cpp:282-292 | the virtual toString agrees with Show |
| CppRuntime.ListText | compiler/runtime.cpp:282-292 | the loop that puts ", " before all elements but the first agrees with Show |
| CppRuntime.StringOp | compiler/runtime.cpp:248-267 | `+` appends the other operand's text, `*` by a Number repeats, everything else is the base class's throw |
| CppRuntime.Binary | compiler/runtime.cpp:25-91 | the operator is the receiver's override: a Number's, a String's, and the base class's throw for a List or Function |
| CppRuntime.Notted | compiler/runtime.cpp:199-209 | only a Number has NOT: 1 for false, 0 for true |
| CppRuntime.DoubleNotIsTruth | compiler/runtime.cpp:94-96 | `not not x` on a Number is the flag of isTrue |
| CppRuntime.IsTrue | compiler/runtime.cpp:94-96 | a Function is always true; a false value is the number 0, the empty String or an empty List (Lists in full: CppRuntime.ListTruthIsNonEmpty) |
| CppRuntime.ListObject.Length | compiler/runtime.cpp:326-328 | the size is 0 exactly when the list has no elements |
| CppRuntime.ListTruthIsNonEmpty | compiler/runtime.cpp:294-296 | a List is true exactly when it has elements |
| CppRuntime.ListsAndFunctionsRejectOperators | compiler/runtime.cpp:25-91 | lists and functions accept no operator at all |
| CppRuntime.StringsDoNotCompare | compiler/runtime.cpp:25-91 | a string has no comparison operators, not even equality |
| CppRuntime.RepeatCommutes | compiler/runtime.cpp:114-129 | Number×String and String×Number give the same repetition |
| CppRuntime.EqualityComplements | compiler/runtime.cpp:151-165 | `==` and `!=` on a Number always answer, and always oppositely |
| CppRuntime.CContext.Chain | compiler/runtime.cpp:356-368 | a context is on its own chain |
| CppRuntime.CContext.constructor | compiler/runtime.h:203-204 | empty variables under the given parent |
| CppRuntime.CContext.SetVariable | compiler/runtime.cpp:352-354 | writes the local map only, and the name then reads back |
| CppRuntime.CContext.GetVariable | compiler/runtime.cpp:356-368 | the local binding, else the parent's answer, else "Variable 'x' not defined" |
| CppRuntime.CContext.HasVariable | compiler/runtime.cpp:369-379 | a local variable is found; a name found elsewhere needs a parent (it agrees with getVariable: CppRuntime.CContext.HasAgreesWithGet) |
| CppRuntime.CContext.HasAgreesWithGet | compiler/runtime.cpp:369-379 | hasVariable says yes exactly when getVariable would not throw |
| CppRuntime.CContext.GetFindsABinding | compiler/runtime.cpp:356-368 | getVariable succeeds iff some context on the chain binds the name, and returns one of those bindings |
| CppRuntime.CContext.CreateChild | compiler/runtime.cpp:381-383 | an empty context under this one, which reads what this one reads |
| CppRuntime.Len | compiler/runtime.cpp:424-436 | a list's or string's length; other arguments and wrong counts throw |
| CppRuntime.AppendBuiltin | compiler/runtime.cpp:438-453 | a new list of the first argument's elements followed by the others; the first argument is unchanged |
| CppRuntime.Pop | compiler/runtime.cpp:455-477 | the element at the index (default -1), read from a copy; nothing is removed |
| CppRuntime.Str | compiler/runtime.cpp:479-485 | the first argument's text, or "" with no arguments |
| CodeGenerator.Spaces | compiler/code_generator.cpp:255-261 | n spaces |
| CodeGenerator.NewlineAt | compiler/code_generator.cpp:243-253 | the position of the first newline, or the end |
| CodeGenerator.Lines | compiler/code_generator.cpp:243-253 | std::getline's lines: an unterminated last line counts, and a final newline starts no further line |
| CodeGenerator.IndentLine | compiler/code_generator.cpp:255-261 | an empty line stays empty; others get four spaces per level |
| CodeGenerator.IndentedStep | compiler/code_generator.cpp:243-253 | the first line indented, then the rest of the text |
| CodeGenerator.IndentAtLevelZero | compiler/code_generator.cpp:243-253 | at level zero, indenting gives back the code, with a newline added when its last line has none |
| CodeGenerator.Parameters | compiler/code_generator.cpp:53-72 | one "type name" per parameter |
| CodeGenerator.JoinHasPartsInOrder | compiler/code_generator.cpp:166-184 | each joined part sits where the previous parts and their separators end |
| CodeGenerator.JoinLength | compiler/code_generator.cpp:166-184 | a join is as long as its parts plus one separator between each two |
| CodeGenerator.CallHasArguments | compiler/code_generator.cpp:166-184 | every argument of a generated call appears in it, in order, after "name(" |
| CodeGenerator.AIArgumentsAreJoined | compiler/code_generator.cpp:223-241 | the AI call's list is the model's string and the arguments joined by ", " |
| CodeGenerator.Generator.constructor | compiler/code_generator.cpp:6-7 | the indentation level starts at 0 |
| CodeGenerator.Generator.Indent | compiler/code_generator.cpp:243-253 | the getline loop gives Indented |
| CodeGenerator.Generator.LineEnd | compiler/code_generator.cpp:248 | the scan std::getline does: stops at the first newline at or after the start, or at the end, with no newline before it |
| CodeGenerator.Generator.WriteHeader | compiler/code_generator.cpp:53-72 | the parameter loop gives the shared header |
| CodeGenerator.Generator.GenerateFunctionDeclaration | compiler/code_generator.cpp:53-72 | the header and ");" |
| CodeGenerator.Generator.GenerateFunctionDefinition | compiler/code_generator.cpp:74-96 | the header, ") {", the body indented one level, and "}" |
| CodeGenerator.Generator.VariableDeclaration | compiler/code_generator.cpp:98-114 | the " = init" part exactly when an initializer is given |
| CodeGenerator.Generator.IfStatement | compiler/code_generator.cpp:116-136 | the else block only when there is one |
| CodeGenerator.Generator.ForLoop | compiler/code_generator.cpp:138-151 | the `for (init; cond; update) {` header, the body indented at the current level, and `}` |
| CodeGenerator.Generator.WhileLoop | compiler/code_generator.cpp:153-164 | the `while (cond) {` header, the body indented at the current level, and `}` |
| CodeGenerator.Generator.ReturnStatement | compiler/code_generator.cpp:186-192 | a bare return for an empty value |
| CodeGenerator.Generator.GenerateFunctionCall | compiler/code_generator.cpp:166-184 | the argument loop gives "name(a1, a2, ...)" |
| CodeGenerator.Generator.GenerateAIModelCall | compiler/code_generator.cpp:223-241 | the loop gives the model string followed by ", arg" per argument |
| CodeGenerator.Generator.Program | compiler/code_generator.cpp:12-26 | the header, declarations, definitions and main code in order, at those offsets, each of the first three followed by a newline |
| CodeGenerator.DeclarationMatchesDefinition | compiler/code_generator.cpp:53-96 | a prototype and a definition begin with the same header; at level 0 the body is kept as written |
| CodeGenerator.InitializerOnlyWhenGiven | compiler/code_generator.cpp:98-114 | the initializer appears in the text exactly when one is given |
| AstVisitor.SymbolTable.Chain | compiler/ast_visitor.cpp:11-34 | a scope is on its own chain |
| AstVisitor.SymbolTable.constructor | compiler/ast_visitor.h:58 | an empty scope under the given parent |
| AstVisitor.SymbolTable.Define | compiler/ast_visitor.cpp:7-9 | the name is then defined with that type |
| AstVisitor.SymbolTable.GetType | compiler/ast_visitor.cpp:23-34 | a local definition's type wins |
| AstVisitor.SymbolTable.IsDefined | compiler/ast_visitor.cpp:11-21 | a local symbol is defined; a name defined elsewhere needs a parent (on the whole chain: AstVisitor.SymbolTable.DefinedSomewhereOnChain) |
| AstVisitor.SymbolTable.DefinedSomewhereOnChain | compiler/ast_visitor.cpp:11-21 | a name is defined iff some scope on the chain defines it |
| AstVisitor.SymbolTable.TypeOfDefinedName | compiler/ast_visitor.cpp:23-34 | "unknown" for an undefined name, else the type recorded by the nearest scope on the chain that defines it |
| AstVisitor.SymbolTable.ChainDepths | compiler/ast_visitor.cpp:23-34 | every scope on the chain is at most as deep as this one |
| AstVisitor.SymbolTable.CreateChildScope | compiler/ast_visitor.cpp:36-38 | an empty child scope that sees what its parent sees |
| AstVisitor.UniqueNamesDiffer | compiler/ast_visitor.cpp:101-103 | different counter values give different names |
| AstVisitor.Visitor.constructor | compiler/ast_visitor.cpp:41-61 | a fresh global scope, the standard headers, main's prologue, nothing else |
| AstVisitor.Visitor.EnterScope | compiler/ast_visitor.cpp:93-95 | the current scope becomes a fresh child of the previous one |
| AstVisitor.Visitor.GenerateUniqueVarName | compiler/ast_visitor.cpp:101-103 | prefix_N for the current counter, which then goes up by one |
| AstVisitor.Layout | compiler/ast_visitor.cpp:66-91 | the program text that Visitor.GeneratedCode builds from the visitor's sections: the header, the declarations banner and declarations, a newline, the definitions banner and definitions, a newline, the main banner, main's code and the epilogue, each at its offset |
| AstVisitor.TwoNamesDiffer | compiler/ast_visitor.cpp:101-103 | two names drawn one after the other from the same visitor differ |

## Left out

- The span rules of the core node constructors (Nodes.MakeNumber to Nodes.MakeCall): core/nodes.py, which defines the core node classes, is not part of this model. Each constructor's fields follow the parser's call, and its span follows what the interpreter reads.
- Printing and reading (the `print`/`input` builtins), the script driver, the REPL and file loading are I/O and are not modelled.
- The AI back end (embedding, model calls) is a parameter: its answers or failures are inputs of the model, not computed.
- Floating point is modelled as exact reals: no rounding, no infinities, no NaN. A float `**` with a fractional exponent, and zero to a negative power in C++, give an "outside the model" outcome.
- Evaluation is bounded by fuel. A program that runs out of fuel gives OutOfFuel, which the source has no counterpart for; the divergence lemmas show which programs run out whatever the fuel.
- Python exceptions the engine does not catch (TypeError, NameError, AttributeError, ZeroDivisionError, KeyError) become a crash outcome carrying the exception's name; the traceback is not modelled.
- A BinOp token that selects no method makes the source hit an unbound local variable; the model gives the crash "UnboundLocalError".
- set_pos and set_context update an object in place. The model stamps a copy of the value instead, so a change is not seen through other references to the same Number, String or Function object (it is seen for a List's elements, which are shared storage).
- A FOR whose start and end are both Strings (with a Number step) compares the strings and then fails adding the step; the model gives "outside the model" there. Every other FOR over bounds that are not all Numbers raises before the first iteration, and the model gives that exception (Interpreter.ForBoundsFault).
- Identifier and keyword tokens without text read as the empty name.
- The parser's methods are specified production by production (progress, nodes and errors); they are not proved against a grammar, and the round trip of parsing printed trees is not stated.
- InterpreterFacts.IfFirstTrueCase and InterpreterFacts.IfElseWhenNoneTrue: stated for conditions that leave the store as it is; conditions with side effects are only covered by EvalCases's definition.
- AiNodes.TokenRepr and AiNodes.AICallRepr: Python's text for a float is a parameter, not computed.
- Interpreter.Eval: the no_visit_method fallback is not reachable, since every node kind has a rule.
- CppRuntime: List::copy (a deep copy that no code calls, and that terminates only on acyclic lists) is not modelled.
- CppRuntime: `num` (std::stod parsing), Function::call (native code), and the embed, aiCall, print, input and initializeRuntime builtins (placeholders or I/O) are not modelled.
- CppRuntime: the asNumber/asString/asList/asFunction conversion throws are not modelled, since each conversion is called only after a type test; the Number statics null, true, false and pi are plain constants.
- CppRuntime.Len: counts characters; the C++ counts bytes of its UTF-8 strings.
- CppRuntime.Count and AstVisitor.Visitor.GenerateUniqueVarName: the `int` width of static_cast and of the counter is not modelled; both are unbounded here.
- CppRuntime.Show: std::to_string's number format is a parameter, and lists nested deeper than a given bound have no text.
- CppRuntime.CContext.CreateChild and AstVisitor.SymbolTable.CreateChildScope: the C++ calls shared_from_this on classes that do not derive from enable_shared_from_this. The model gives the child the intended parent.
- AstVisitor.Visitor.ExitScope: the source's exitScope is empty; the method changes no field, which its empty modifies frame already says, so it has no contract of its own.
- CodeGenerator: generateTensorOperation and generateEmbeddingCode, and the unused parts of the AST visitor (the visit methods are placeholders), are not modelled; compiler.cpp and compiler_main.cpp are not part of this model.
- Lexer.Lexer.SkipComment: at the end of input the source loops forever; the model reports that it hangs instead of looping.
- Number.copy, String.copy and Function.copy: values are immutable here, so a copy is the value itself, with its positions and context; only a List copy is visible, through its shared storage.
- populate_args stamps each argument object with the new context in place; the model binds a stamped copy (Bound), so the caller's own value keeps its context.

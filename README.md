# mylang front end and interpreter, modelled in Dafny

mylang is a small typed scripting language. This project models its Python
implementation, which has four parts, and proves properties of each part.

- **Lexer.** A character-cursor state machine turns a source string into
  tokens. Module `Scanning` gives each lexing rule as a function of the
  source and a position. Class `Lexing.Lexer` has the fields of the Python
  `Lexer` (position, read position, line number, current character), and
  each of its methods is proved to move the cursor and build the token
  exactly as `Scanning` says. `TokenTypes`, `Tokens` and `Precedences` are
  the constant tables: token kinds and their values, keywords, and
  operator precedence.
- **Parser.** A Pratt parser with a two-token window and an error list.
  Module `ParserSpec` gives every parse routine as a function from a
  token sequence and a parser state (a position and the errors so far) to
  a result and the next state. Class `Parsing.Parser` keeps the window and
  the errors as fields; each method ends in the state its `ParserSpec`
  function gives. `ParserFacts` proves statement dispatch, the let shape
  and its error recovery, and that no list literal can come from lexed
  text. `ParserShapes` gives operator grouping and the shapes of
  functions, parameter lists, argument lists, parenthesised expressions,
  assignments and `else` branches: what each yields, and the one error it
  records when a token is missing.
- **Syntax tree.** `NodeTypes` is the tag enumeration. `Ast` holds one
  `Node` datatype for all node classes (a Python `None` field is
  `Option.None`). `AstJson` gives the `json()` debug projection, and proves
  that a projection exists exactly when no needed field is `None` and that
  different trees project differently.
- **Interpreter.** Environments live in an arena: a sequence of frames,
  each holding a store and the index of its parent, which is always
  smaller than its own. A closure records the index of its defining
  frame. Module `Evaluation` gives evaluation as functions returning an
  outcome (`Normal`, `Returned` for a pending `return`, or `Raised`) and
  the arena after it. Class `Interpreting.Interpreter` holds the arena as
  a field, and each of its visit methods is proved to end in the state
  `Evaluation` gives. `InterpreterFacts` proves the following:
  - lookup walks the parent chain;
  - `set` touches one frame;
  - calls are lexically scoped;
  - `return` carries its value and stops at the call;
  - operands and arguments run left to right, and each operator gives Python's result on two ints or two strings;
  - a call dispatches to `print`, to a user function, or to the "Not a callable object" error;
  - assignment, `print`, booleans, `%`/`^` and `main` behave as the code says.

  `InterpreterExample` proves that a two-function program evaluates to 5
  and that `(1 + 2) * 3` evaluates to 9.

Four behaviours of the Python code a reader might not expect:

- Assignment needs no earlier declaration. It binds the name in the
  current environment, as `let` does (`InterpreterFacts.AssignIsLet`).
- A block runs in the environment it is in, so a name bound inside a
  nested `if` block stays visible after it. Only a call makes a new frame.
- `print` is recognised by name before any lookup.
- `bool` is not a type keyword, so it lexes as an identifier.

## Model

| member | source | states |
|---|---|---|
| TokenTypes.NameLookupRoundTrip | src/lexer/TokenType.py:4-58 | lookup by name, `TokenType[s]`, gives back the member with that name, for every member |
| TokenTypes.DeclaredAttribute | src/lexer/TokenType.py:4-58 | attribute access finds exactly the declared members by name; LBRACKET and RBRACKET are not among them |
| TokenTypes.WordNameRoundTrip | src/lexer/TokenType.py:36-58 | each punctuation and keyword member is found by its own name |
| TokenTypes.OperatorNameRoundTrip | src/lexer/TokenType.py:6-33 | each other member is found by its own name |
| TokenTypes.ComparisonValues | src/lexer/TokenType.py:28-33 | the six comparison kinds have their operator spelling as value |
| TokenTypes.OtherValuesAreNames | src/lexer/TokenType.py:4-58 | every other kind's value is its own name |
| TokenTypes.ByValueRoundTrip | src/lexer/TokenType.py:4-58 | looking up a declared kind's value gives back that kind |
| TokenTypes.ByValue | src/lexer/TokenType.py:4-58 | lookup by value, `TokenType(s)`: any value that looks up to a kind is that kind's value, and the kind is a declared one (not LBRACKET/RBRACKET) |
| TokenTypes.OperatorByValue | src/lexer/TokenType.py:6-33 | value lookup among the special, data, arithmetic, assignment and comparison members: a hit is a declared kind carrying that value |
| TokenTypes.SymbolByValue | src/lexer/TokenType.py:36-45 | value lookup among the punctuation members: a hit is a declared kind carrying that value |
| TokenTypes.KeywordByValue | src/lexer/TokenType.py:48-58 | value lookup among the keyword and typing members: a hit is a declared kind carrying that value |
| TokenTypes.OperatorValueRoundTrip | src/lexer/TokenType.py:6-33 | each of these members is found by its own value |
| TokenTypes.SymbolValueRoundTrip | src/lexer/TokenType.py:36-45 | a punctuation value is no operator-group value, and finds its own member |
| TokenTypes.KeywordValueRoundTrip | src/lexer/TokenType.py:48-58 | a keyword value belongs to neither other group, and finds its own member |
| TokenTypes.KeywordMissesOperators | src/lexer/TokenType.py:6-58 | no keyword value coincides with an operator-group value |
| TokenTypes.ValuesDistinct | src/lexer/TokenType.py:4-58 | no two declared kinds share a value, so no member is an alias |
| Tokens.LookupIdentifier | src/lexer/Token.py:21-45 | each keyword kind comes from exactly its word; TYPE from exactly str, int, float; IDENTIFIER from every other word |
| Tokens.BoolIsAnIdentifier | src/lexer/Token.py:31-45 | "bool" is not a type keyword and lexes as IDENTIFIER |
| Tokens.TokenText | src/lexer/Token.py:14-15 | the rendering starts with "Token[TokenType.<kind> : " and ends with ']' |
| Tokens.TokenTextDeterminesKind | src/lexer/Token.py:14-15 | two tokens with the same rendering have the same kind |
| Tokens.NamesDistinct | src/lexer/TokenType.py:4-58 | no two kinds have the same name |
| Tokens.NamesHaveNoSpace | src/lexer/TokenType.py:4-58 | no kind name contains a space, so a rendering's kind ends at the first space |
| Numerals.DigitChar | src/lexer/Lexer.py:48-49 | each digit value below ten has a digit character with that value |
| Numerals.NatText | src/interpreter/Interpreter.py:220-221 | the decimal text of a count is non-empty, all digits, with no leading zero |
| Numerals.IntText | src/interpreter/Interpreter.py:193-195 | the text of an integer starts with '-' exactly when it is negative, followed by the digits of its magnitude |
| Numerals.IntTextInjective | src/interpreter/Interpreter.py:193-195 | different integers have different texts |
| Numerals.NatTextRoundTrip | src/lexer/Lexer.py:75-76 | reading the decimal text of n back as digits gives n |
| Numerals.NatTextInjective | src/interpreter/Interpreter.py:220-221 | different counts have different decimal texts |
| Scanning.SkipWhitespace | src/lexer/Lexer.py:37-42 | skips exactly a maximal run of ' ', '\t', '\n', '\r', and leaves the line number alone when nothing is skipped |
| Scanning.SkipCountsNewlines | src/lexer/Lexer.py:37-42 | the line number grows by the number of '\n' among the skipped blanks |
| Scanning.SkipOneBlank | src/lexer/Lexer.py:38-41 | one pass of the loop: a blank under the cursor is stepped over, a '\n' adding one line, and the skip goes on from there |
| Scanning.IdentifierEnd | src/lexer/Lexer.py:82-87 | the identifier run is maximal: letters, digits and '_' up to the first other character or the end |
| Scanning.NumberEnd | src/lexer/Lexer.py:56-74 | the number scan stops inside the source, never before its start |
| Scanning.NumberEndCounts | src/lexer/Lexer.py:56-74 | the scanned run is digits and dots; with at most one dot it is maximal and the dot count is exact; otherwise it stops on the second dot |
| Scanning.PointlessRunIsDigits | src/lexer/Lexer.py:75-76 | a digit/dot run without a dot is all digits |
| Scanning.ScanNumber | src/lexer/Lexer.py:56-78 | a number scan consumes at least one character and yields INT, FLOAT or ILLEGAL |
| Scanning.StringEnd | src/lexer/Lexer.py:191-209 | a string's text ends at the first '"' or at the end of input |
| Scanning.ScanString | src/lexer/Lexer.py:191-209 | a string scan consumes at least the opening quote and stays inside the source |
| Scanning.NextToken | src/lexer/Lexer.py:89-189 | EOF (with literal "") exactly when only whitespace is left; any other token consumes at least one character; every kind is a declared one, and its literal has the type its kind calls for |
| Scanning.LookaheadOperators | src/lexer/Lexer.py:100-147 | '-', '<', '>', '=', '!' followed by '>' or '=' give ARROW, LT_EQ, GT_EQ, EQ_EQ, NOT_EQ with the two-character literal; otherwise the one-character token, and a lone '!' is ILLEGAL "!" |
| Scanning.SingleCharacterTokens | src/lexer/Lexer.py:98-188 | any other character is one token of exactly that character: its symbol kind if it has one, ILLEGAL exactly when it has none; the cursor moves by one |
| Scanning.BracketsAreIllegal | src/lexer/Lexer.py:185-186 | '[' and ']' lex as ILLEGAL |
| Scanning.NumberTokens | src/lexer/Lexer.py:56-78 | no dot gives INT with the run's decimal value; one dot and a maximal run gives FLOAT; a second dot gives ILLEGAL with the text before it, and the cursor stays on that dot |
| Scanning.IdentifierTokens | src/lexer/Lexer.py:175-180 | a letter or '_' starts a maximal identifier run, whose kind is the keyword lookup of its text and whose literal is its text |
| Scanning.StringTokens | src/lexer/Lexer.py:95-97 | a STR literal is the text after '"' up to the next '"' or the end; the closing quote is consumed only if present, with no error and no escapes |
| Scanning.EofForever | src/lexer/Lexer.py:19-28 | after EOF, the next call returns EOF with literal "" again |
| Scanning.ScanToken | src/lexer/Lexer.py:93-188 | on a character that is there, the token is never EOF, consumes at least one character and stays on the line it started on; its kind is declared and its literal has the type its kind calls for |
| Scanning.TokensFrom | src/lexer/Lexer.py:89-189 | repeated calls reach EOF: the stream ends with exactly one EOF, and every token is of a declared kind with a fitting literal |
| Lexing.Lexer.constructor | src/lexer/Lexer.py:7-16 | a new lexer has read the first character, at position 0 on line 1 |
| Lexing.Lexer.ReadChar | src/lexer/Lexer.py:19-28 | the cursor moves to the read position, and the current character is the one there, or none past the end |
| Lexing.Lexer.PeekChar | src/lexer/Lexer.py:30-34 | the character after the cursor, or none past the end |
| Lexing.Lexer.NewToken | src/lexer/Lexer.py:44-45 | the token carries the given kind and literal and the current line and position |
| Lexing.Lexer.SkipWhitespace | src/lexer/Lexer.py:37-42 | the cursor and line number end where Scanning.SkipWhitespace puts them |
| Lexing.Lexer.ReadNumber | src/lexer/Lexer.py:56-78 | the token and the cursor are those of Scanning.ScanNumber |
| Lexing.Lexer.ReadIdentifier | src/lexer/Lexer.py:82-87 | returns the maximal identifier run and leaves the cursor after it |
| Lexing.Lexer.ReadString | src/lexer/Lexer.py:191-209 | the text and the cursor are those of Scanning.ScanString |
| Lexing.Lexer.ReadToken | src/lexer/Lexer.py:93-188 | the token, cursor and line number are those of Scanning.ScanToken |
| Lexing.Lexer.NextToken | src/lexer/Lexer.py:89-189 | the token, cursor and line number are those of Scanning.NextToken |
| Precedences.Level | legacy-python/src/parser/Precedences.py:5-16 | each precedence level is a number from 0 to 8 |
| Precedences.Precedence | legacy-python/src/parser/Precedences.py:19-35 | no kind is mapped to LOWEST, PREFIX or INDEX, and exactly LPAREN is mapped to CALL |
| Precedences.LevelOf | src/parser/Parser.py:85-95 | a token's level is at most CALL's, and a kind missing from the table counts as LOWEST |
| Precedences.LevelsOrdered | legacy-python/src/parser/Precedences.py:5-16 | LOWEST < EQUALS < LESSSGREATER < SUM < PRODUCT < EXPONENT < PREFIX < CALL < INDEX, and levels are distinct |
| Precedences.ArithmeticLevels | legacy-python/src/parser/Precedences.py:20-25 | '+' and '-' are SUM; '*', '/' and '%' are PRODUCT; '^' is EXPONENT |
| Precedences.ComparisonLevels | legacy-python/src/parser/Precedences.py:27-32 | '==' and '!=' are EQUALS; '<', '>', '<=', '>=' are LESSSGREATER |
| Precedences.CallBindsTightest | legacy-python/src/parser/Precedences.py:19-35 | LPAREN, and only LPAREN, is CALL, above every other operator; no token is PREFIX or INDEX |
| Precedences.LeveledKinds | legacy-python/src/parser/Precedences.py:19-35 | exactly the comparisons, the arithmetic operators and LPAREN have a level, which is then above LOWEST |
| NodeTypes.ByValueRoundTrip | src/ast/NodeType.py:3-28 | looking up a tag's value gives back that tag |
| NodeTypes.ValuesDistinct | src/ast/NodeType.py:3-28 | all tag values are distinct |
| NodeTypes.GroupMembers | src/ast/NodeType.py:7-28 | exactly seven statement tags, two compound-expression tags, five literal tags, the Program root and the FunctionParameter helper |
| NodeTypes.NoListLiteralTag | src/ast/NodeType.py:3-28 | no tag is ListLiteral, and looking it up finds nothing |
| Ast.TypeOf | src/ast/expression/literal/ListLiteral.py:9-10 | every node class except ListLiteral has a tag; statement tags go to exactly the statement nodes; no node has the Program or FunctionParameter tag |
| Ast.TagDeterminesKind | src/ast/NodeType.py:3-28 | two nodes with the same tag are of the same class |
| AstJson.LiteralJson | src/ast/statement/FunctionParameter.py:13-18 | a raw copied literal is a JSON string exactly when it is a string literal |
| AstJson.ToJson | src/ast/statement/ExpressionStatement.py:13-17 | every projection that exists is an object whose first key, "type", holds the node's own tag |
| AstJson.AllJson | src/ast/statement/BlockStatement.py:11-15 | a list projects element by element, in order; it fails exactly when some element's projection fails |
| AstJson.SlotsJson | src/ast/expression/CallExpression.py:13-18 | arguments project element by element, in order; it fails exactly when some argument's projection fails |
| AstJson.ProgramJson | src/ast/Program.py:17-22 | the program object is tagged Program, and "statements" has one entry per statement, in order, each a one-key map from the statement's tag to its projection |
| AstJson.WrappedJson | src/ast/Program.py:21 | each wrapped entry is a one-key map from the statement's tag to its projection |
| AstJsonFacts.ProjectsIffComplete | src/ast/statement/IfStatement.py:21-27 | a node projects exactly when no field that `json()` calls into is None and it holds no list literal |
| AstJsonFacts.SlotProjectsIffComplete | src/ast/statement/ExpressionStatement.py:16 | a field projects exactly when it holds a complete node |
| AstJsonFacts.AllProjectIffComplete | src/ast/statement/BlockStatement.py:14 | a statement list projects exactly when every statement is complete |
| AstJsonFacts.SlotsProjectIffComplete | src/ast/expression/CallExpression.py:17 | an argument list projects exactly when every argument is complete |
| AstJsonFacts.LiteralJsonInjective | src/ast/statement/FunctionParameter.py:16-17 | different literals copy to different JSON |
| AstJsonFacts.TaggedInjective | src/ast/statement/LetStatement.py:14-19 | equal tagged objects have equal fields |
| AstJsonFacts.ProjectionInjective | legacy-python/src/ast/statement/FunctionStatement.py:20-27 | two nodes with the same projection are the same tree |
| AstJsonFacts.SlotProjectionInjective | src/ast/statement/ExpressionStatement.py:16 | two fields with the same projection are the same |
| AstJsonFacts.AllProjectionInjective | src/ast/statement/BlockStatement.py:14 | two statement lists with the same projection are the same |
| AstJsonFacts.SlotsProjectionInjective | src/ast/expression/CallExpression.py:17 | two argument lists with the same projection are the same |
| AstJsonFacts.BlockProjection | src/ast/statement/BlockStatement.py:11-15 | a block projects to its tag and its statements' projections, in order, without tag-keyed wrapping |
| AstJsonFacts.CallProjection | src/ast/expression/CallExpression.py:13-18 | a call projects to its tag, the callee's projection and one projection per argument, in order |
| AstJsonFacts.IfProjection | src/ast/statement/IfStatement.py:21-27 | an if projects its condition and "consenquence", and "alternative" is null when absent and its projection otherwise |
| AstJsonFacts.ListLiteralNeverProjects | src/ast/expression/literal/ListLiteral.py:9-16 | a list literal has no tag, so its projection fails |
| AstJsonFacts.ProgramProjectsIffComplete | src/ast/Program.py:17-22 | a program projects exactly when every statement is complete |
| AstJsonFacts.WrappedIffComplete | src/ast/Program.py:21 | the wrapped statements project exactly when every statement is complete |
| ParserSpec.Advance | src/parser/Parser.py:67-69 | the window shifts: the new current token is the old peek token, one position on until the final EOF, and the errors are unchanged |
| ParserSpec.ExpectPeek | src/parser/Parser.py:77-83 | advances exactly when the peek token has the expected kind; otherwise appends one error naming the expected and the found kind (ErrorText prints it as "Expected next token to be X, got Y instead") and leaves the window alone |
| ParserSpec.ParseProgram | src/parser/Parser.py:103-110 | parsing stops with EOF as the current token |
| ParserSpec.ProgramFrom | src/parser/Parser.py:105-109 | the loop only moves forward, keeps the statements already collected, grows the error list only, and ends on EOF |
| ParserSpec.ParseStatement | src/parser/Parser.py:112-125 | a statement parse only moves forward and only appends errors |
| ParserSpec.ParseExpressionStatement | src/parser/Parser.py:127-131 | always yields an expression statement |
| ParserSpec.ParseLet | src/parser/Parser.py:133-149 | a let parse only moves forward and only appends errors |
| ParserSpec.LetValue | src/parser/Parser.py:143-149 | after '=' the let always yields a LetStatement with the name and type read from the header |
| ParserSpec.SkipToSemicolon | src/parser/Parser.py:147-148 | skips to the first ';' or EOF and passes no ';' on the way |
| ParserSpec.ParseFunction | src/parser/Parser.py:151-167 | a function parse only moves forward and only appends errors |
| ParserSpec.ParseParameters | src/parser/Parser.py:169-192 | a parameter list that is kept ends on ')' |
| ParserSpec.ParametersFrom | src/parser/Parser.py:181-192 | the parameter loop keeps the parameters already read and ends on ')' when it succeeds |
| ParserSpec.ParseReturn | src/parser/Parser.py:194-200 | a return parse only moves forward and only appends errors |
| ParserSpec.ParseBlock | src/parser/Parser.py:202-210 | a block is always a BlockStatement and ends on '}' or EOF |
| ParserSpec.BlockFrom | src/parser/Parser.py:205-209 | the block loop keeps the statements already read and stops on '}' or EOF |
| ParserSpec.ParseAssignment | src/parser/Parser.py:212-219 | always yields an AssignStatement |
| ParserSpec.ParseIf | src/parser/Parser.py:221-235 | an if parse only moves forward and only appends errors |
| ParserSpec.IfBranches | src/parser/Parser.py:226-235 | the branches only move forward and only append errors |
| ParserSpec.ParseExpression | src/parser/Parser.py:237-249 | an expression parse only moves forward and only appends errors |
| ParserSpec.ParsePrefix | src/parser/Parser.py:35-46 | a prefix parse only moves forward and only appends errors |
| ParserSpec.InfixLoop | src/parser/Parser.py:243-248 | when the loop adds no error, it stops with ';' as the peek token or with a peek level not above the threshold |
| ParserSpec.ParseInfixOrCall | src/parser/Parser.py:48-62 | an infix or call parse only moves forward and only appends errors |
| ParserSpec.ParseInfix | src/parser/Parser.py:251-256 | an infix parse only moves forward and only appends errors |
| ParserSpec.ParseCall | src/parser/Parser.py:265-268 | a call parse only moves forward and only appends errors |
| ParserSpec.ParseExpressionList | src/parser/Parser.py:270-283 | a kept argument list ends on the closing token |
| ParserSpec.ExpressionsFrom | src/parser/Parser.py:277-283 | the argument loop keeps the arguments already read and ends on the closing token when it succeeds |
| ParserSpec.ParseGrouped | src/parser/Parser.py:258-263 | a grouped parse only moves forward and only appends errors |
| ParserSpec.ParseList | src/parser/Parser.py:313-324 | a list parse only moves forward and only appends errors |
| ParserSpec.ElementsFrom | src/parser/Parser.py:318-321 | the element loop keeps the elements already read |
| Parsing.Parser.constructor | src/parser/Parser.py:64-65 | a new parser has read two tokens: at position 0 with no errors |
| Parsing.Parser.NextToken | src/parser/Parser.py:67-69 | the window moves exactly as ParserSpec.Advance says |
| Parsing.Parser.ExpectPeek | src/parser/Parser.py:77-83 | result and window are those of ParserSpec.ExpectPeek |
| Parsing.Parser.ParseProgram | src/parser/Parser.py:103-110 | the program and the final state are those of ParserSpec.ProgramFrom |
| Parsing.Parser.ParseStatement | src/parser/Parser.py:112-125 | result and state are those of ParserSpec.ParseStatement |
| Parsing.Parser.ParseExpressionStatement | src/parser/Parser.py:127-131 | result and state are those of ParserSpec.ParseExpressionStatement |
| Parsing.Parser.ParseLet | src/parser/Parser.py:133-149 | result and state are those of ParserSpec.ParseLet |
| Parsing.Parser.ParseFunction | src/parser/Parser.py:151-167 | result and state are those of ParserSpec.ParseFunction |
| Parsing.Parser.ParseParameters | src/parser/Parser.py:169-192 | result and state are those of ParserSpec.ParseParameters |
| Parsing.Parser.ParseReturn | src/parser/Parser.py:194-200 | result and state are those of ParserSpec.ParseReturn |
| Parsing.Parser.ParseBlock | src/parser/Parser.py:202-210 | result and state are those of ParserSpec.ParseBlock |
| Parsing.Parser.ParseAssignment | src/parser/Parser.py:212-219 | result and state are those of ParserSpec.ParseAssignment |
| Parsing.Parser.ParseIf | src/parser/Parser.py:221-235 | result and state are those of ParserSpec.ParseIf |
| Parsing.Parser.ParseExpression | src/parser/Parser.py:237-249 | result and state are those of ParserSpec.ParseExpression |
| Parsing.Parser.ParsePrefix | src/parser/Parser.py:237-241 | result and state are those of ParserSpec.ParsePrefix |
| Parsing.Parser.ParseInfixOrCall | src/parser/Parser.py:243-248 | result and state are those of ParserSpec.ParseInfixOrCall |
| Parsing.Parser.ParseInfix | src/parser/Parser.py:251-256 | result and state are those of ParserSpec.ParseInfix |
| Parsing.Parser.ParseGrouped | src/parser/Parser.py:258-263 | result and state are those of ParserSpec.ParseGrouped |
| Parsing.Parser.ParseCall | src/parser/Parser.py:265-268 | result and state are those of ParserSpec.ParseCall |
| Parsing.Parser.ParseExpressionList | src/parser/Parser.py:270-283 | result and state are those of ParserSpec.ParseExpressionList |
| Parsing.Parser.ParseList | src/parser/Parser.py:313-324 | result and state are those of ParserSpec.ParseList |
| ParserFacts.StatementDispatch | src/parser/Parser.py:112-125 | IDENTIFIER followed by '=' is an assignment, decided first; let, fn and return give their own statement or nothing; '{' gives a block; every other start gives an expression statement |
| ParserFacts.LetParses | src/parser/Parser.py:133-149 | `let NAME : TYPE =` yields a LetStatement with that name and that type |
| ParserFacts.LetRejects | src/parser/Parser.py:133-144 | any other let header records exactly one error and yields no statement |
| ParserFacts.ReturnNeedsSemicolon | src/parser/Parser.py:194-200 | a return is kept exactly when ';' follows its value, and then ends on it; otherwise one error names the token found |
| ParserFacts.IfNeedsBrace | src/parser/Parser.py:221-228 | without '{' after the condition the if records one error and yields nothing; a kept if holds the parsed condition |
| ParserFacts.FunctionNeedsName | src/parser/Parser.py:151-154 | `fn` not followed by a name records one error and yields nothing |
| ParserFacts.NoPrefixRecordsError | src/parser/Parser.py:237-241 | a token with no prefix function records one error naming its kind (ErrorText prints it as "No Prefix Parse Function for X Found") and parses to nothing |
| ParserFacts.EmptyLists | src/parser/Parser.py:169-173 | `()` gives an empty parameter list, and likewise an empty argument list (lines 270-274), each ending on ')' |
| ParserFacts.ProgramHasNoList | src/parser/Parser.py:313-324 | a token stream without '[' yields no list literal anywhere in the program |
| ParserFacts.SourceHasNoList | src/lexer/Lexer.py:185-186 | no source text parses to a program holding a list literal, because '[' never lexes as LBRACKET |
| ParserFacts.PrefixKeysAsWritten | src/parser/Parser.py:36-45 | the table's keys, looked up as attributes of the declared enumeration: one per name, or a raise when some name is not a member |
| ParserFacts.AsWrittenRaisesAt | src/parser/Parser.py:36-45 | one missing member among the names makes building the table raise |
| ParserFacts.PrefixTableRaises | src/parser/Parser.py:44 | as written, the table's LBRACKET key is not a member, so building the parser raises |
| ParserFacts.PrefixKeys | src/parser/Parser.py:36-45 | with LBRACKET and RBRACKET declared, each name resolves to the kind it names |
| ParserFacts.KeysOfNames | src/parser/Parser.py:36-45 | the names of some kinds resolve back to exactly those kinds, in order |
| ParserFacts.PrefixTableBuilds | src/parser/Parser.py:36-45 | with LBRACKET declared the table builds, and its keys are exactly the kinds the prefix dispatch accepts |
| ParserShapes.FunctionHeader | src/parser/Parser.py:151-158 | `fn NAME (` reads the parameters from the '(' and the rest of the statement from where they end, with NAME's text as the name |
| ParserShapes.FunctionNeedsParen | src/parser/Parser.py:156-157 | `fn NAME` without '(' yields nothing with one error naming '(' and the token found, on the name |
| ParserShapes.FunctionRestCases | src/parser/Parser.py:159-167 | a missing '->', TYPE or '{' each yields nothing with one error naming it and the token found; with all three the statement holds the name, the parameters, the block and the type's text |
| ParserShapes.ParameterStop | src/parser/Parser.py:181-192 | in the parameter loop, ')' ends the list with what it has; ',' not followed by `NAME :` drops it with one error naming ':'; any other token drops it with one error naming ')' |
| ParserShapes.ParametersRead | src/parser/Parser.py:181-192 | m groups `, NAME : TYPE` and ')' keep one parameter per group (NAME's and TYPE's literals), in order, after those already read, ending on the ')' |
| ParserShapes.ParametersKept | src/parser/Parser.py:181-192 | conversely, a kept loop that added m parameters read exactly m such groups and ended on the ')' |
| ParserShapes.KeptGroups | src/parser/Parser.py:181-192 | a kept loop that added m parameters passed over m groups `, NAME : TYPE` and a ')' |
| ParserShapes.ParameterListRead | src/parser/Parser.py:169-192 | `( NAME : TYPE` and m more groups up to ')' give those m + 1 parameters in order, with no error, ending on the ')' |
| ParserShapes.ParameterListNeedsColon | src/parser/Parser.py:174-177 | a first NAME not followed by ':' yields nothing with one error naming ':' and the token found |
| ParserShapes.ParameterListKept | src/parser/Parser.py:169-192 | a kept parameter list is either `()`, giving no parameters, or `( NAME : TYPE` and groups `, NAME : TYPE` up to ')', giving their literals in order with no error |
| ParserShapes.ListedExpressions | src/parser/Parser.py:277-283 | groups `, expression` up to the closing token are kept in order after the items already read, each parsed at LOWEST, ending on the closing token |
| ParserShapes.ExpressionsListed | src/parser/Parser.py:277-283 | conversely, a kept expression loop read exactly such groups |
| ParserShapes.ExpressionListItems | src/parser/Parser.py:270-283 | a non-empty list is its first expression, parsed at LOWEST, followed by `, expression` groups up to the closing token; such groups are kept in order, and every kept list is made of them |
| ParserShapes.ArgumentsNeedClose | src/parser/Parser.py:277-283 | when neither ',' nor the closing token follows an item, the list is dropped with one error naming the closing token and the token found |
| ParserShapes.AtomParses | src/parser/Parser.py:237-249 | a name, number or string followed by a token that does not bind tighter parses to its literal node and stays put |
| ParserShapes.ExpressionsRead | src/parser/Parser.py:277-283 | `, a , b ... )` over single-token items keeps their literal nodes in order, ending on the ')' |
| ParserShapes.ArgumentsRead | src/parser/Parser.py:270-283 | `( a , b ... )` over single-token items gives their literal nodes in order, ending on the ')' |
| ParserShapes.GroupedParses | src/parser/Parser.py:258-263 | `( e )` yields e's parse at LOWEST, ending on the ')'; without the ')' it yields nothing with one error naming ')' and the token found |
| ParserShapes.Grouping | src/parser/Parser.py:243-256 | in `a op1 b op2 c`, op2 groups to the right exactly when its level is strictly higher; equal levels group to the left |
| ParserShapes.GroupsRight | src/parser/Parser.py:243-256 | `a op1 b op2 c ;` with op2 binding tighter parses as `a op1 (b op2 c)`, ending on c |
| ParserShapes.GroupsLeft | src/parser/Parser.py:243-256 | `a op1 b op2 c ;` with op2 not binding tighter parses as `(a op1 b) op2 c`, ending on c |
| ParserShapes.RightOperandTakes | src/parser/Parser.py:243-256 | a right operand `b op c ;` whose operator binds tighter than the level it is parsed at is one infix node over b and c |
| ParserShapes.RightOperandStops | src/parser/Parser.py:243-256 | a right operand whose following operator does not bind tighter is the bare literal, and the outer loop then takes that operator and c |
| ParserShapes.ProductInsideSum | src/parser/Parser.py:251-256 | `1+2*3` parses as `1+(2*3)` |
| ParserShapes.PowerGroupsLeft | src/parser/Parser.py:251-256 | `a^b^c` parses as `(a^b)^c` |
| ParserShapes.OperandLast | src/parser/Parser.py:243-256 | after a left operand, `op n` followed by ')' or ';' gives one infix node over the left operand and n, ending on n |
| ParserShapes.PairParses | src/parser/Parser.py:237-256 | `a op b )` parses to one infix node over the two literals, ending before the ')' |
| ParserShapes.GroupedPairFirst | src/parser/Parser.py:258-263 | `( a op b )` parses as the pair's node, and the operator loop goes on after the ')' |
| ParserShapes.ParenthesesGroupFirst | src/parser/Parser.py:243-263 | `( a op1 b ) op2 c ;` groups the parenthesised pair first, whatever the two operators' levels |
| ParserShapes.AssignmentParses | src/parser/Parser.py:212-219 | `NAME = value` assigns the value parsed at LOWEST two tokens on to NAME's text, and moves one token past the value, onto the ';' when one follows |
| ParserShapes.IfBranchesCases | src/parser/Parser.py:226-235 | after the consequence: no `else` keeps the if without an alternative; `else {` adds the alternative block; `else` without '{' drops the if with one error naming '{' and the token found |
| Environments.Get | src/interpreter/Interpreter.py:15-21 | a value found by lookup refers only to frames that exist |
| Environments.Set | src/interpreter/Interpreter.py:23-25 | only the given frame's store changes, with the name bound to the value; other frames and all parent links stay the same |
| Environments.Push | src/interpreter/Interpreter.py:217-218 | a new frame, whose parent is the given frame, is added at the end; existing frames are unchanged |
| Environments.Globals | src/interpreter/Interpreter.py:56-57 | the interpreter starts with one frame that has no parent |
| Environments.ExtendsTransitive | src/interpreter/Interpreter.py:6-25 | a later arena of a later arena is a later arena: frames are never lost and parents never change |
| Evaluation.Message | src/interpreter/Interpreter.py:99-100 | every error the interpreter raises itself has a fixed message |
| Evaluation.Truthy | src/interpreter/Interpreter.py:235-236 | Python's `bool()`: None is false, a bool is itself, an int is true when non-zero, a string or list when non-empty, a function always; only a float's truth is left unmodelled |
| Evaluation.BinaryOp | src/interpreter/Interpreter.py:156-182 | an operator other than + - * / == != < > <= >= raises "Unsupported operator"; a result is an int, string or bool; the value for each operator is in IntegerOperators and StringOperators |
| Evaluation.Bindings | src/interpreter/Interpreter.py:223-224 | the call frame binds exactly the parameter names, each to one of the arguments |
| Evaluation.BindingsByPosition | src/interpreter/Interpreter.py:223-224 | the i-th parameter's name is bound to the i-th argument, unless a later parameter has the same name |
| Evaluation.StrLess | src/interpreter/Interpreter.py:173-174 | string '<' holds only between different strings, and always when the first is a proper prefix of the second |
| Evaluation.Visit | src/interpreter/Interpreter.py:91-212 | evaluation only adds frames and writes stores; no parent link changes, and the value refers to existing frames |
| Evaluation.VisitSlot | src/interpreter/Interpreter.py:91-100 | same invariant for a field that may be None |
| Evaluation.VisitBinding | src/interpreter/Interpreter.py:114-122 | same invariant for let and assignment |
| Evaluation.VisitReturn | src/interpreter/Interpreter.py:124-126 | same invariant for return; what it yields is in InterpreterFacts.ReturnCarries |
| Evaluation.RunStatements | src/interpreter/Interpreter.py:128-132 | same invariant for a statement sequence |
| Evaluation.VisitIf | src/interpreter/Interpreter.py:134-140 | same invariant for if |
| Evaluation.VisitInfix | src/interpreter/Interpreter.py:156-182 | same invariant for an infix expression; the order and the result are in InterpreterFacts.InfixEvaluates |
| Evaluation.VisitSlots | src/interpreter/Interpreter.py:186 | evaluating arguments keeps those already computed and yields one value per argument |
| Evaluation.VisitCall | src/interpreter/Interpreter.py:184-195 | same invariant for a call; the dispatch is in InterpreterFacts.CallDispatches |
| Evaluation.CallFunction | src/interpreter/Interpreter.py:217-230 | a call never lets a pending return escape, and keeps the invariant |
| Evaluation.InterpretFrom | src/interpreter/Interpreter.py:62-79 | success needs fuel left; with no top-level statements and no `main` in the global store the result is "No 'main' function defined." |
| Evaluation.Interpret | src/interpreter/Interpreter.py:62-79 | success needs fuel left; an empty program fails with "No 'main' function defined." |
| Interpreting.Interpreter.constructor | src/interpreter/Interpreter.py:56-60 | a new interpreter has only the global frame |
| Interpreting.Interpreter.Set | src/interpreter/Interpreter.py:23-25 | the arena becomes Environments.Set of the old one |
| Interpreting.Interpreter.Interpret | src/interpreter/Interpreter.py:62-79 | the result is that of Evaluation.InterpretFrom on the arena at the start |
| Interpreting.Interpreter.Visit | src/interpreter/Interpreter.py:91-212 | outcome and arena are those of Evaluation.Visit |
| Interpreting.Interpreter.VisitSlot | src/interpreter/Interpreter.py:91-100 | outcome and arena are those of Evaluation.VisitSlot |
| Interpreting.Interpreter.VisitBinding | src/interpreter/Interpreter.py:114-122 | outcome and arena are those of Evaluation.VisitBinding |
| Interpreting.Interpreter.VisitReturn | src/interpreter/Interpreter.py:124-126 | outcome and arena are those of Evaluation.VisitReturn |
| Interpreting.Interpreter.RunStatements | src/interpreter/Interpreter.py:128-132 | outcome and arena are those of Evaluation.RunStatements |
| Interpreting.Interpreter.VisitIf | src/interpreter/Interpreter.py:134-140 | outcome and arena are those of Evaluation.VisitIf |
| Interpreting.Interpreter.VisitInfix | src/interpreter/Interpreter.py:156-182 | outcome and arena are those of Evaluation.VisitInfix |
| Interpreting.Interpreter.VisitSlots | src/interpreter/Interpreter.py:186 | outcome and arena are those of Evaluation.VisitSlots |
| Interpreting.Interpreter.VisitCall | src/interpreter/Interpreter.py:184-195 | outcome and arena are those of Evaluation.VisitCall |
| Interpreting.Interpreter.CallFunction | src/interpreter/Interpreter.py:217-230 | outcome and arena are those of Evaluation.CallFunction |
| Interpreting.Interpreter.BindParameters | src/interpreter/Interpreter.py:218-224 | the arena gains one frame under the defining environment, holding exactly the parameter bindings (`Bindings`) |
| InterpreterFacts.ChainGoesDown | src/interpreter/Interpreter.py:15-21 | every frame on a parent chain comes no later than where the chain starts, so lookup terminates |
| InterpreterFacts.GetWalksChain | src/interpreter/Interpreter.py:15-21 | lookup succeeds exactly when a frame on the chain binds the name; what it returns is bound there; a binding in the starting frame shadows all others |
| InterpreterFacts.GetReadsBelow | src/interpreter/Interpreter.py:15-21 | lookup from a frame reads only that frame and earlier ones |
| InterpreterFacts.GetAfterSet | src/interpreter/Interpreter.py:23-25 | after `set`, the name reads back the new value, overwriting any earlier binding |
| InterpreterFacts.GetOtherAfterSet | src/interpreter/Interpreter.py:23-25 | `set` changes no other name seen from that frame |
| InterpreterFacts.SetInvisibleBelow | src/interpreter/Interpreter.py:23-25 | a write into a frame is not seen from its parents or any earlier frame |
| InterpreterFacts.CallFrameFallsThrough | src/interpreter/Interpreter.py:217-218 | in a call frame, a name that is not a parameter is looked up from the defining frame, not the caller's |
| InterpreterFacts.AssignIsLet | src/interpreter/Interpreter.py:114-122 | assignment behaves exactly as let: no declaration is needed, and the binding is created if absent |
| InterpreterFacts.LetBinds | src/interpreter/Interpreter.py:114-117 | a let whose value evaluates yields it and binds it in the current frame; a failing value ends the let unchanged |
| InterpreterFacts.FunctionBinds | src/interpreter/Interpreter.py:142-151 | a function statement binds, in its own frame, a closure over that frame, so the function can find itself |
| InterpreterFacts.RunStatementsAppend | src/interpreter/Interpreter.py:128-132 | statements run in order, and the first that does not finish normally ends the run |
| InterpreterFacts.ReturnSkipsRest | src/interpreter/Interpreter.py:124-132 | a return inside a block skips the rest of the block and carries its value out |
| InterpreterFacts.EmptyBlock | src/interpreter/Interpreter.py:128-132 | an empty block yields None |
| InterpreterFacts.IfChooses | src/interpreter/Interpreter.py:134-140 | a truthy condition runs the consequence, a falsy one the alternative, or yields None without one |
| InterpreterFacts.ReturnCarries | src/interpreter/Interpreter.py:124-126 | `return e` yields `Returned` with e's value in the arena e left; an error in e is the result instead |
| InterpreterFacts.InfixEvaluates | src/interpreter/Interpreter.py:156-159 | the left operand runs first and the right one in the arena it left; the first that does not finish normally is the result, otherwise BinaryOp on the two values |
| InterpreterFacts.ArityChecked | src/interpreter/Interpreter.py:220-221 | a wrong argument count raises the arity error with the expected and actual counts, binding nothing |
| InterpreterFacts.CallFrameParent | src/interpreter/Interpreter.py:217-218 | the call frame's parent is the defining frame, and no existing parent link changes |
| InterpreterFacts.CallCatchesReturn | src/interpreter/Interpreter.py:226-230 | a return in the body becomes the call's value; a body without one gives None; an error passes through |
| InterpreterFacts.PrintBeforeLookup | src/interpreter/Interpreter.py:197-200 | the identifier `print` is the string "print", whatever is bound under that name |
| InterpreterFacts.CallDispatches | src/interpreter/Interpreter.py:184-195 | callee first, then the arguments in order; `print` gives None, a function is called with the argument values, anything else raises "Not a callable object"; an error on the way is the result |
| InterpreterFacts.BooleansHaveNoVisitor | src/interpreter/Interpreter.py:91-100 | `true` and `false` raise "No visit_BooleanLiteral method defined." |
| InterpreterFacts.ModuloAndPowerUnsupported | src/interpreter/Interpreter.py:181-182 | '%' and '^' raise "Unsupported operator: op" |
| InterpreterFacts.IntegerOperators | src/interpreter/Interpreter.py:161-180 | int with int: `+ - *` are the integer operations and the six comparisons their truth values; `/` is left unmodelled |
| InterpreterFacts.StringOperators | src/interpreter/Interpreter.py:161-180 | str with str: `+` concatenates, `==`/`!=` compare contents, `< > <= >=` follow code-point order; `- * /` raise TypeError |
| InterpreterFacts.StrLessTrichotomy | src/interpreter/Interpreter.py:173-174 | string '<' is a strict total order |
| InterpreterFacts.StrLessOrEqual | src/interpreter/Interpreter.py:177-178 | string '<=' is '<' or equality |
| InterpreterFacts.InterpretCases | src/interpreter/Interpreter.py:62-79 | after the top-level statements: their error; an uncaught top-level return; "No 'main' function defined."; "'main' is not callable."; or, for a callable main, the value or error of calling it with no arguments; success needs a callable main |
| InterpreterFacts.EmptyProgramHasNoMain | src/interpreter/Interpreter.py:78-79 | an empty program fails with "No 'main' function defined." |
| InterpreterFacts.IntegerMainIsNotCallable | src/interpreter/Interpreter.py:76-77 | `let main: int = 1;` fails with "'main' is not callable." |
| InterpreterExample.AddCallGivesSum | src/interpreter/Interpreter.py:217-230 | calling `fn add(a, b) { return a + b; }` on two ints gives their sum |
| InterpreterExample.IntegerPair | src/interpreter/Interpreter.py:156-166 | `x + y` and `x * y` over integer literals evaluate to the integer sum and product |
| InterpreterExample.GroupedSumTimes | src/interpreter/Interpreter.py:156-166 | `(x + y) * z` over integer literals evaluates to (x + y) * z, so `(1 + 2) * 3` gives 9 |
| InterpreterExample.AddProgramGivesFive | src/interpreter/Interpreter.py:62-79 | a program defining `add` and a `main` that returns `add(2, 3)` evaluates to 5 |

## Left out

- Floating point. A FLOAT literal keeps its scanned text, and `float()` is not modelled. True division `/` always yields a float in Python, so it is modelled as an unmodelled-operation error. A float's truth value is also unmodelled. Because a float keeps its text, the projection tells apart trees that Python's JSON values would call equal: the float texts `1.0` and `1.00`, and a parameter literal `1` against `1.0` (AstJsonFacts.ProjectionInjective and LiteralJsonInjective are stated for the model's literals).
- Evaluation.BinaryOp: mixed-type operands (int with str, bool as int, list concatenation) and division raise a host or unmodelled error instead of following Python's host semantics; only int×int arithmetic and comparison and str×str '+' and comparison are modelled.
- Character classes are ASCII: `str.isalpha`/`str.isalnum` on other Unicode letters are not modelled.
- Output. The `print` builtin is modelled only as returning None. The lexer's diagnostic `print` on a second '.' is not modelled; only the ILLEGAL token it returns is.
- Recursion depth. Each user-function call spends one unit of fuel, and running out raises an out-of-fuel error. This stands in for Python's recursion limit; the model does not give the limit's actual depth. The parser also recurses (ParseExpression through the prefix and infix functions, src/parser/Parser.py:237-268); Python's RecursionError on deeply nested input, such as a few thousand '(', is not modelled, and ParserSpec parses such input without limit.
- The parser reads a finished token sequence instead of pulling tokens from a live lexer. `Scanning.Tokenize` gives that sequence, and past its end the final EOF repeats, as the lexer's does. Token line numbers and positions are never read by the parser.
- The `FunctionStatement` default argument list is one object shared across instances. Every instance the parser builds replaces it, so the sharing is not modelled.
- `call_function` creates its new environment before checking the arity. The model pushes the frame after the check; the unused frame cannot be observed.
- Host exceptions. A `.json()` reached through a `None` field raises AttributeError in Python; the model gives a failed projection with no message. `visit` on a `None` field is not a host exception: it raises the interpreter's own "No visit_NoneType method defined." (Evaluation.VisitSlot). `len(None)` on a missing parameter list and iterating a `None` argument list raise TypeError with Python's own messages (Evaluation.CallFunction, Evaluation.VisitCall).
- The "Could Not Parse" errors for int and float literals are not modelled. The lexer only hands the parser INT and FLOAT tokens whose text parses (`Scanning.NextToken` ensures this), so those errors cannot occur.
- LBRACKET and RBRACKET are added to the token kinds, because the parser refers to them while the enumeration lacks them. As written, constructing a parser raises AttributeError (see "## Findings"); the model is the parser with those two members declared. The list-literal parser is modelled, but no lexed source reaches it.
- ListLiteral's `type()` names a tag that the enumeration lacks. Its tag, and with it its projection, is therefore absent.
- The command-line driver (main.py), the LLVM compiler and its builtins, the printf builtins (Builtins.py) and the C prototype (src/main.c) are not part of this model.
- Tokens.TokenText: only the prefix up to the kind and the closing ']' are stated. Rendering a literal, line and position is modelled, but no separate property of it is proved.
- ParserSpec.ParseProgram: its contract says only that parsing ends on EOF. That statements are kept in source order is stated through Parsing.Parser.ParseProgram and ParserSpec.ProgramFrom.
- ParserSpec.ParseFunction: its own contract says only that the parse moves forward and appends errors. The statement it builds and each rejection are stated by ParserShapes.FunctionHeader, FunctionNeedsParen and FunctionRestCases (with ParserFacts.FunctionNeedsName); no single lemma composes them.
- ParserSpec.ParseParameters: its own contract says only that a kept list ends on ')'. The contents and the missing ':' or ')' cases are stated by ParserShapes.ParameterListRead, ParameterListKept, ParameterListNeedsColon and ParameterStop.
- ParserSpec.ParametersFrom: its own contract keeps earlier parameters only. One parameter per group is stated by ParserShapes.ParametersRead and ParametersKept.
- ParserSpec.ParseAssignment: its own contract says only that it yields an AssignStatement. Its name, value and trailing advance are stated by ParserShapes.AssignmentParses.
- ParserSpec.IfBranches: its own contract says only that the parse moves forward and appends errors. The three cases after the consequence are stated by ParserShapes.IfBranchesCases.
- ParserSpec.ParseExpressionList: its own contract says only that a kept list ends on the closing token. The contents are stated by ParserShapes.ExpressionListItems and ArgumentsRead, and the missing closing token by ArgumentsNeedClose.
- ParserSpec.ExpressionsFrom: its own contract keeps earlier items only. One item per group is stated by ParserShapes.ListedExpressions and ExpressionsListed.
- ParserSpec.ParseGrouped: its own contract says only that the parse moves forward. `( e )` and the missing ')' are stated by ParserShapes.GroupedParses.
- Evaluation.Bindings: its own contract says only that each name is bound to some argument. Binding by position is stated by Evaluation.BindingsByPosition.

## Findings

| source | as written | input that shows it | evidently intended | confidence | as-written member | corrected member |
|---|---|---|---|---|---|---|
| src/parser/Parser.py:44 | the prefix table names `TokenType.LBRACKET`, which src/lexer/TokenType.py does not declare, so `Parser.__init__` raises AttributeError | any program: `Parser(Lexer("let x: int = 1;"))` | LBRACKET (and RBRACKET, used at lines 316 and 322) declared in the enumeration, so the table builds and '[' starts a list literal | high; not executed | ParserFacts.PrefixTableRaises | ParserFacts.PrefixTableBuilds |

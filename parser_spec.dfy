/**
 * The Pratt parser of src/parser/Parser.py as functions of the token stream
 * and a parser state.  The two-token window is (ts[pos], ts[pos + 1]); the
 * lexer keeps answering EOF after the end, so the window stops at the final
 * EOF token.  Every function returns its result and the state after it; the
 * error list is only ever appended to.
 */
module ParserSpec {
  import opened Wrappers
  import opened TokenTypes
  import opened Tokens
  import opened Precedences
  import opened Ast
  import Scanning

  /** A stream the lexer can produce: one final EOF, and literals that fit their kinds. */
  predicate WellFormed(ts: seq<Token>) {
    && |ts| > 0
    && ts[|ts| - 1].kind == EOF
    && (forall i :: 0 <= i < |ts| ==> Fits(ts, i))
  }

  /** The token at `i` is EOF only at the end, and its literal fits its kind. */
  predicate Fits(ts: seq<Token>, i: nat)
    requires i < |ts|
  {
    (i < |ts| - 1 ==> ts[i].kind != EOF) && Scanning.LiteralFits(ts[i])
  }

  /**
   * The errors the parser records: an expected token that was not next, and
   * a token with no prefix parse function.  `ErrorText` is the message the
   * source appends to its error list for each.
   */
  datatype ParseError = PeekError(expected: TokenType, got: TokenType) | NoPrefixError(t: TokenType)

  /** The cursor into the stream and the errors recorded so far. */
  datatype PState = PState(pos: nat, errors: seq<ParseError>)

  /** A parse result and the state after it. */
  datatype Parsed<T> = Parsed(value: T, st: PState)

  predicate Inside(ts: seq<Token>, st: PState) {
    WellFormed(ts) && st.pos < |ts|
  }

  /** `current_token`. */
  function Cur(ts: seq<Token>, st: PState): (t: Token)
    requires Inside(ts, st)
    ensures Fits(ts, st.pos) && Scanning.LiteralFits(t)
  {
    ts[st.pos]
  }

  /** `peek_token`. */
  function Peek(ts: seq<Token>, st: PState): (t: Token)
    requires Inside(ts, st)
    ensures Scanning.LiteralFits(t)
  {
    if st.pos + 1 < |ts| then
      assert Fits(ts, st.pos + 1);
      ts[st.pos + 1]
    else
      assert Fits(ts, |ts| - 1);
      ts[|ts| - 1]
  }

  /** The text of a token whose kind is neither INT nor FLOAT. */
  function Text(t: Token): string
    requires Scanning.LiteralFits(t) && t.kind != INT && t.kind != FLOAT
  {
    t.literal.s
  }

  /** The value of the INT token at `i`. */
  function IntAt(ts: seq<Token>, i: nat): int
    requires WellFormed(ts) && i < |ts| && ts[i].kind == INT
  {
    assert Fits(ts, i);
    ts[i].literal.i
  }

  /** The text of the token at `i`, which is neither INT nor FLOAT. */
  function TextAt(ts: seq<Token>, i: nat): string
    requires WellFormed(ts) && i < |ts| && ts[i].kind != INT && ts[i].kind != FLOAT
  {
    assert Fits(ts, i);
    ts[i].literal.s
  }

  /** `__next_token`: shift the window by one token. */
  function Advance(ts: seq<Token>, st: PState): (r: PState)
    requires Inside(ts, st)
    ensures Inside(ts, r) && r.errors == st.errors
    ensures Cur(ts, r) == Peek(ts, st)
    ensures Cur(ts, st).kind != EOF ==> r.pos == st.pos + 1
  {
    st.(pos := if st.pos + 1 < |ts| then st.pos + 1 else st.pos)
  }

  /** The message of an error: its kind is told by the fixed words in front. */
  function ErrorText(e: ParseError): (r: string)
    ensures e.PeekError? ==> "Expected next token to be " <= r
    ensures e.NoPrefixError? ==> "No Prefix Parse Function for " <= r
  {
    match e
    case PeekError(expected, got) => "Expected next token to be " + Show(expected) + ", got " + Show(got) + " instead"
    case NoPrefixError(t) => "No Prefix Parse Function for " + Show(t) + " Found"
  }

  /** `__expect_peek`: advance when the peek token has kind `k`, else record why not and stay. */
  function ExpectPeek(ts: seq<Token>, st: PState, k: TokenType): (r: Parsed<bool>)
    requires Inside(ts, st)
    ensures Inside(ts, r.st)
    ensures r.value <==> Peek(ts, st).kind == k
    ensures r.value ==> r.st == Advance(ts, st) && Cur(ts, r.st).kind == k
    ensures r.value && k != EOF ==> r.st.pos == st.pos + 1
    ensures !r.value ==> r.st == st.(errors := st.errors + [PeekError(k, Peek(ts, st).kind)])
  {
    if Peek(ts, st).kind == k then Parsed(true, Advance(ts, st))
    else Parsed(false, st.(errors := st.errors + [PeekError(k, Peek(ts, st).kind)]))
  }

  /** The state only moves forward and the errors only grow. */
  predicate Forward(ts: seq<Token>, st: PState, r: PState) {
    Inside(ts, r) && st.pos <= r.pos && st.errors <= r.errors
  }

  /** The kinds with a prefix parse function. */
  predicate HasPrefix(k: TokenType) {
    k in {IDENTIFIER, INT, FLOAT, LPAREN, IF, TRUE, FALSE, STR, LBRACKET, LBRACE}
  }

  /** The kinds with an infix parse function: the twelve binary operators and '('. */
  predicate HasInfix(k: TokenType) {
    k in {PLUS, MINUS, DIVIDE, MULTIPLY, POW, MODULUS, EQ_EQ, NOT_EQ, LT, GT, LT_EQ, GT_EQ, LPAREN}
  }

  /** `parse_program`. */
  function ParseProgram(ts: seq<Token>): (r: Parsed<Program>)
    requires WellFormed(ts)
    ensures Inside(ts, r.st) && Cur(ts, r.st).kind == EOF
  {
    var body := ProgramFrom(ts, PState(0, []), []);
    Parsed(Program(body.value), body.st)
  }

  /** The loop of `parse_program` from state `st`, with `acc` parsed so far. */
  function ProgramFrom(ts: seq<Token>, st: PState, acc: seq<Node>): (r: Parsed<seq<Node>>)
    requires Inside(ts, st)
    ensures Forward(ts, st, r.st) && Cur(ts, r.st).kind == EOF
    ensures acc <= r.value
    decreases |ts| - st.pos, 6
  {
    if Cur(ts, st).kind == EOF then Parsed(acc, st)
    else
      var s := ParseStatement(ts, st);
      ProgramFrom(ts, Advance(ts, s.st), if s.value.Some? then acc + [s.value.value] else acc)
  }

  /** `__parse_statement`. */
  function ParseStatement(ts: seq<Token>, st: PState): (r: Parsed<Option<Node>>)
    requires Inside(ts, st)
    ensures Forward(ts, st, r.st)
    decreases |ts| - st.pos, 4
  {
    var k := Cur(ts, st).kind;
    if k == IDENTIFIER && Peek(ts, st).kind == EQ then ParseAssignment(ts, st)
    else if k == LET then ParseLet(ts, st)
    else if k == FN then ParseFunction(ts, st)
    else if k == RETURN then ParseReturn(ts, st)
    else if k == LBRACE then
      var b := ParseBlock(ts, st);
      Parsed(Some(b.value), b.st)
    else ParseExpressionStatement(ts, st)
  }

  /** `__parse_expression_statement`: an expression, and a ';' after it when there is one. */
  function ParseExpressionStatement(ts: seq<Token>, st: PState): (r: Parsed<Option<Node>>)
    requires Inside(ts, st)
    ensures Forward(ts, st, r.st) && r.value.Some? && r.value.value.ExpressionStatement?
    decreases |ts| - st.pos, 3
  {
    var e := ParseExpression(ts, st, Level(P_LOWEST));
    var after := if Peek(ts, e.st).kind == SEMICOLON then Advance(ts, e.st) else e.st;
    Parsed(Some(ExpressionStatement(e.value)), after)
  }

  /** `__parse_let_statement`: `let NAME : TYPE = value`, then everything up to ';' or EOF. */
  function ParseLet(ts: seq<Token>, st: PState): (r: Parsed<Option<Node>>)
    requires Inside(ts, st)
    ensures Forward(ts, st, r.st)
    decreases |ts| - st.pos, 0
  {
    var a := ExpectPeek(ts, st, IDENTIFIER);
    if !a.value then Parsed(None, a.st)
    else
      var name := Text(Cur(ts, a.st));
      var b := ExpectPeek(ts, a.st, COLON);
      if !b.value then Parsed(None, b.st)
      else
        var c := ExpectPeek(ts, b.st, TYPE);
        if !c.value then Parsed(None, c.st)
        else
          var valueType := Text(Cur(ts, c.st));
          var d := ExpectPeek(ts, c.st, EQ);
          if !d.value then Parsed(None, d.st)
          else LetValue(ts, d.st, name, valueType)
  }

  /**
   * The rest of a let once its header is read, from the '=': the value
   * expression, then the skip to ';'.
   */
  function LetValue(ts: seq<Token>, st: PState, name: string, valueType: string): (r: Parsed<Option<Node>>)
    requires Inside(ts, st) && Cur(ts, st).kind == EQ
    ensures Forward(ts, st, r.st)
    ensures r.value.Some? && r.value.value.LetStatement?
    ensures r.value.value.name == name && r.value.value.valueType == valueType
    decreases |ts| - st.pos, 0
  {
    var e := ParseExpression(ts, Advance(ts, st), Level(P_LOWEST));
    Parsed(Some(LetStatement(name, e.value, valueType)), SkipToSemicolon(ts, e.st))
  }

  /** The skipping loop at the end of a let: stop on ';' or EOF. */
  function SkipToSemicolon(ts: seq<Token>, st: PState): (r: PState)
    requires Inside(ts, st)
    ensures Forward(ts, st, r) && r.errors == st.errors
    ensures Cur(ts, r).kind == SEMICOLON || Cur(ts, r).kind == EOF
    ensures forall i :: st.pos <= i < r.pos ==> ts[i].kind != SEMICOLON
    decreases |ts| - st.pos
  {
    if Cur(ts, st).kind == SEMICOLON || Cur(ts, st).kind == EOF then st
    else SkipToSemicolon(ts, Advance(ts, st))
  }

  /** `__parse_function_statement`: `fn NAME ( parameters ) -> TYPE { body }`. */
  function ParseFunction(ts: seq<Token>, st: PState): (r: Parsed<Option<Node>>)
    requires Inside(ts, st)
    ensures Forward(ts, st, r.st)
    ensures r.value.Some? ==> st.pos + 1 < |ts| && ts[st.pos + 1].kind == IDENTIFIER
    ensures r.value.Some? ==> r.value.value.FunctionStatement? && r.value.value.fnName == TextAt(ts, st.pos + 1)
    decreases |ts| - st.pos, 1
  {
    var a := ExpectPeek(ts, st, IDENTIFIER);
    if !a.value then Parsed(None, a.st)
    else
      var name := Text(Cur(ts, a.st));
      var b := ExpectPeek(ts, a.st, LPAREN);
      if !b.value then Parsed(None, b.st)
      else
        var ps := ParseParameters(ts, b.st);
        FunctionRest(ts, ps.st, name, ps.value)
  }

  /**
   * The rest of a function statement once its parameters are read (kept or
   * not, as `statement.parameters` may be None): `-> TYPE { body }`.
   */
  function FunctionRest(ts: seq<Token>, st: PState, name: string, parameters: Option<seq<FunctionParameter>>)
    : (r: Parsed<Option<Node>>)
    requires Inside(ts, st)
    ensures Forward(ts, st, r.st)
    ensures r.value.Some? ==> r.value.value.FunctionStatement? && r.value.value.fnName == name
    ensures r.value.Some? ==> r.value.value.parameters == parameters
    decreases |ts| - st.pos, 0
  {
    var c := ExpectPeek(ts, st, ARROW);
    if !c.value then Parsed(None, c.st)
    else
      var d := ExpectPeek(ts, c.st, TYPE);
      if !d.value then Parsed(None, d.st)
      else
        var returnType := Text(Cur(ts, d.st));
        var e := ExpectPeek(ts, d.st, LBRACE);
        if !e.value then Parsed(None, e.st)
        else
          var body := ParseBlock(ts, e.st);
          Parsed(Some(FunctionStatement(name, parameters, body.value, returnType)), body.st)
  }

  /** `__parse_function_parameters`, with the '(' as the current token. */
  function ParseParameters(ts: seq<Token>, st: PState): (r: Parsed<Option<seq<FunctionParameter>>>)
    requires Inside(ts, st)
    ensures Forward(ts, st, r.st)
    ensures r.value.Some? ==> Cur(ts, r.st).kind == RPAREN && r.st.errors == st.errors
    ensures r.value.None? ==> |r.st.errors| == |st.errors| + 1
    decreases |ts| - st.pos
  {
    if Peek(ts, st).kind == RPAREN then Parsed(Some([]), Advance(ts, st))
    else
      var s := Advance(ts, st);
      var name := Cur(ts, s).literal;
      var a := ExpectPeek(ts, s, COLON);
      if !a.value then Parsed(None, a.st)
      else
        var t := Advance(ts, a.st);
        ParametersFrom(ts, t, [FunctionParameter(name, Cur(ts, t).literal)])
  }

  /** The loop of `__parse_function_parameters` over ", name : type" groups. */
  function ParametersFrom(ts: seq<Token>, st: PState, acc: seq<FunctionParameter>)
    : (r: Parsed<Option<seq<FunctionParameter>>>)
    requires Inside(ts, st)
    ensures Forward(ts, st, r.st)
    ensures r.value.Some? ==> Cur(ts, r.st).kind == RPAREN && acc <= r.value.value && r.st.errors == st.errors
    ensures r.value.None? ==> |r.st.errors| == |st.errors| + 1
    decreases |ts| - st.pos
  {
    if Peek(ts, st).kind == COMMA then
      var s := Advance(ts, Advance(ts, st));
      var name := Cur(ts, s).literal;
      var a := ExpectPeek(ts, s, COLON);
      if !a.value then Parsed(None, a.st)
      else
        var t := Advance(ts, a.st);
        ParametersFrom(ts, t, acc + [FunctionParameter(name, Cur(ts, t).literal)])
    else
      var e := ExpectPeek(ts, st, RPAREN);
      if !e.value then Parsed(None, e.st) else Parsed(Some(acc), e.st)
  }

  /** `__parse_return_statement`: `return value ;` (the ';' is required). */
  function ParseReturn(ts: seq<Token>, st: PState): (r: Parsed<Option<Node>>)
    requires Inside(ts, st) && Cur(ts, st).kind == RETURN
    ensures Forward(ts, st, r.st)
    decreases |ts| - st.pos, 0
  {
    var e := ParseExpression(ts, Advance(ts, st), Level(P_LOWEST));
    var a := ExpectPeek(ts, e.st, SEMICOLON);
    if !a.value then Parsed(None, a.st) else Parsed(Some(ReturnStatement(e.value)), a.st)
  }

  /** `__parse_block_statement`, with the '{' as the current token. */
  function ParseBlock(ts: seq<Token>, st: PState): (r: Parsed<Node>)
    requires Inside(ts, st) && Cur(ts, st).kind == LBRACE
    ensures Forward(ts, st, r.st) && r.value.BlockStatement?
    ensures Cur(ts, r.st).kind == RBRACE || Cur(ts, r.st).kind == EOF
    decreases |ts| - st.pos, 0
  {
    var body := BlockFrom(ts, Advance(ts, st), []);
    Parsed(BlockStatement(body.value), body.st)
  }

  /** The loop of `__parse_block_statement`: statements up to '}' or EOF. */
  function BlockFrom(ts: seq<Token>, st: PState, acc: seq<Node>): (r: Parsed<seq<Node>>)
    requires Inside(ts, st)
    ensures Forward(ts, st, r.st)
    ensures Cur(ts, r.st).kind == RBRACE || Cur(ts, r.st).kind == EOF
    ensures acc <= r.value
    decreases |ts| - st.pos, 5
  {
    if Cur(ts, st).kind == RBRACE || Cur(ts, st).kind == EOF then Parsed(acc, st)
    else
      var s := ParseStatement(ts, st);
      BlockFrom(ts, Advance(ts, s.st), if s.value.Some? then acc + [s.value.value] else acc)
  }

  /** `__parse_assignment_statement`: NAME '=' value, then one more token. */
  function ParseAssignment(ts: seq<Token>, st: PState): (r: Parsed<Option<Node>>)
    requires Inside(ts, st) && Cur(ts, st).kind == IDENTIFIER && Peek(ts, st).kind == EQ
    ensures Forward(ts, st, r.st) && r.value.Some? && r.value.value.AssignStatement?
    ensures r.value.value.identifier == Text(Cur(ts, st))
    decreases |ts| - st.pos, 0
  {
    var name := Text(Cur(ts, st));
    var e := ParseExpression(ts, Advance(ts, Advance(ts, st)), Level(P_LOWEST));
    Parsed(Some(AssignStatement(name, e.value)), Advance(ts, e.st))
  }

  /** `__parse_if_statement`: `if condition { ... }`, optionally `else { ... }`. */
  function ParseIf(ts: seq<Token>, st: PState): (r: Parsed<Option<Node>>)
    requires Inside(ts, st) && Cur(ts, st).kind == IF
    ensures Forward(ts, st, r.st)
    decreases |ts| - st.pos, 0
  {
    var c := ParseExpression(ts, Advance(ts, st), Level(P_LOWEST));
    var a := ExpectPeek(ts, c.st, LBRACE);
    if !a.value then Parsed(None, a.st) else IfBranches(ts, a.st, c.value)
  }

  /** The rest of `__parse_if_statement`, from the '{' of the consequence. */
  function IfBranches(ts: seq<Token>, st: PState, condition: Option<Node>): (r: Parsed<Option<Node>>)
    requires Inside(ts, st) && Cur(ts, st).kind == LBRACE
    ensures Forward(ts, st, r.st)
    decreases |ts| - st.pos, 1
  {
    var cons := ParseBlock(ts, st);
    if Peek(ts, cons.st).kind == ELSE then
      var b := ExpectPeek(ts, Advance(ts, cons.st), LBRACE);
      if !b.value then Parsed(None, b.st)
      else
        var alt := ParseBlock(ts, b.st);
        Parsed(Some(IfStatement(condition, cons.value, Some(alt.value))), alt.st)
    else
      Parsed(Some(IfStatement(condition, cons.value, None)), cons.st)
  }

  /** `__parse_expression`: a prefix parse, then infix parses while the next operator binds tighter. */
  function ParseExpression(ts: seq<Token>, st: PState, precedence: nat): (r: Parsed<Option<Node>>)
    requires Inside(ts, st)
    ensures Forward(ts, st, r.st)
    decreases |ts| - st.pos, 2
  {
    if !HasPrefix(Cur(ts, st).kind) then
      Parsed(None, st.(errors := st.errors + [NoPrefixError(Cur(ts, st).kind)]))
    else
      var left := ParsePrefix(ts, st);
      InfixLoop(ts, left.st, precedence, left.value)
  }

  /** The prefix parse function of the current token. */
  function ParsePrefix(ts: seq<Token>, st: PState): (r: Parsed<Option<Node>>)
    requires Inside(ts, st) && HasPrefix(Cur(ts, st).kind)
    ensures Forward(ts, st, r.st)
    decreases |ts| - st.pos, 1
  {
    var t := Cur(ts, st);
    match t.kind
    case IDENTIFIER => Parsed(Some(IdentifierLiteral(Text(t))), st)
    case INT => Parsed(Some(IntegerLiteral(t.literal.i)), st)
    case FLOAT => Parsed(Some(FloatLiteral(t.literal.f)), st)
    case LPAREN => ParseGrouped(ts, st)
    case IF => ParseIf(ts, st)
    case TRUE => Parsed(Some(BooleanLiteral(true)), st)
    case FALSE => Parsed(Some(BooleanLiteral(false)), st)
    case STR => Parsed(Some(StringLiteral(Text(t))), st)
    case LBRACKET => ParseList(ts, st)
    case LBRACE =>
      var b := ParseBlock(ts, st);
      Parsed(Some(b.value), b.st)
  }

  /** The loop of `__parse_expression`, with `left` parsed so far. */
  function InfixLoop(ts: seq<Token>, st: PState, precedence: nat, left: Option<Node>): (r: Parsed<Option<Node>>)
    requires Inside(ts, st)
    ensures Forward(ts, st, r.st)
    ensures r.st.errors == st.errors ==> Peek(ts, r.st).kind == SEMICOLON || LevelOf(Peek(ts, r.st).kind) <= precedence
    decreases |ts| - st.pos, 1
  {
    if Peek(ts, st).kind != SEMICOLON && precedence < LevelOf(Peek(ts, st).kind) then
      if !HasInfix(Peek(ts, st).kind) then Parsed(left, st)
      else
        var next := ParseInfixOrCall(ts, Advance(ts, st), left);
        InfixLoop(ts, next.st, precedence, next.value)
    else
      Parsed(left, st)
  }

  /** The infix parse function of the current token. */
  function ParseInfixOrCall(ts: seq<Token>, st: PState, left: Option<Node>): (r: Parsed<Option<Node>>)
    requires Inside(ts, st) && HasInfix(Cur(ts, st).kind)
    ensures Forward(ts, st, r.st)
    decreases |ts| - st.pos, 3
  {
    if Cur(ts, st).kind == LPAREN then ParseCall(ts, st, left) else ParseInfix(ts, st, left)
  }

  /** `__parse_infix_expression`: the right operand binds at the operator's own level. */
  function ParseInfix(ts: seq<Token>, st: PState, left: Option<Node>): (r: Parsed<Option<Node>>)
    requires Inside(ts, st) && HasInfix(Cur(ts, st).kind)
    ensures Forward(ts, st, r.st)
    decreases |ts| - st.pos, 0
  {
    var op := Text(Cur(ts, st));
    var right := ParseExpression(ts, Advance(ts, st), LevelOf(Cur(ts, st).kind));
    Parsed(Some(InfixExpression(left, op, right.value)), right.st)
  }

  /** `__parse_call_expression`, with the '(' as the current token. */
  function ParseCall(ts: seq<Token>, st: PState, callee: Option<Node>): (r: Parsed<Option<Node>>)
    requires Inside(ts, st) && Cur(ts, st).kind == LPAREN
    ensures Forward(ts, st, r.st)
    decreases |ts| - st.pos, 2
  {
    var args := ParseExpressionList(ts, st, RPAREN);
    Parsed(Some(CallExpression(callee, args.value)), args.st)
  }

  /** `__parase_expression_list`: comma-separated expressions up to `end`. */
  function ParseExpressionList(ts: seq<Token>, st: PState, end: TokenType): (r: Parsed<Arguments>)
    requires Inside(ts, st) && Cur(ts, st).kind != EOF
    ensures Forward(ts, st, r.st)
    ensures r.value.Arguments? ==> Cur(ts, r.st).kind == end
    decreases |ts| - st.pos, 1
  {
    if Peek(ts, st).kind == end then Parsed(Arguments([]), Advance(ts, st))
    else
      var first := ParseExpression(ts, Advance(ts, st), Level(P_LOWEST));
      ExpressionsFrom(ts, first.st, end, [first.value])
  }

  /** The loop of `__parase_expression_list` over ", expression" groups. */
  function ExpressionsFrom(ts: seq<Token>, st: PState, end: TokenType, acc: seq<Option<Node>>): (r: Parsed<Arguments>)
    requires Inside(ts, st)
    ensures Forward(ts, st, r.st)
    ensures r.value.Arguments? ==> Cur(ts, r.st).kind == end && acc <= r.value.items
    decreases |ts| - st.pos, 0
  {
    if Peek(ts, st).kind == COMMA then
      var e := ParseExpression(ts, Advance(ts, Advance(ts, st)), Level(P_LOWEST));
      ExpressionsFrom(ts, e.st, end, acc + [e.value])
    else
      var a := ExpectPeek(ts, st, end);
      if !a.value then Parsed(NoArguments, a.st) else Parsed(Arguments(acc), a.st)
  }

  /** `__parse_grouped_expression`: `( expression )`. */
  function ParseGrouped(ts: seq<Token>, st: PState): (r: Parsed<Option<Node>>)
    requires Inside(ts, st) && Cur(ts, st).kind == LPAREN
    ensures Forward(ts, st, r.st)
    ensures r.value.Some? ==> Cur(ts, r.st).kind == RPAREN
    decreases |ts| - st.pos, 0
  {
    var e := ParseExpression(ts, Advance(ts, st), Level(P_LOWEST));
    var a := ExpectPeek(ts, e.st, RPAREN);
    if !a.value then Parsed(None, a.st) else Parsed(e.value, a.st)
  }

  /**
   * `__parse_list_literal`, with the '[' as the current token.  As written it
   * expects a ']' after the token that ends the elements, so `[]` needs a
   * second ']'.
   */
  function ParseList(ts: seq<Token>, st: PState): (r: Parsed<Option<Node>>)
    requires Inside(ts, st) && Cur(ts, st).kind == LBRACKET
    ensures Forward(ts, st, r.st)
    decreases |ts| - st.pos, 0
  {
    var s := Advance(ts, st);
    var elements :=
      if Cur(ts, s).kind != RBRACKET then
        var first := ParseExpression(ts, s, Level(P_LOWEST));
        ElementsFrom(ts, first.st, [first.value])
      else
        Parsed([], s);
    var a := ExpectPeek(ts, elements.st, RBRACKET);
    if !a.value then Parsed(None, a.st) else Parsed(Some(ListLiteral(elements.value)), a.st)
  }

  /** The loop of `__parse_list_literal` over ", expression" groups. */
  function ElementsFrom(ts: seq<Token>, st: PState, acc: seq<Option<Node>>): (r: Parsed<seq<Option<Node>>>)
    requires Inside(ts, st)
    ensures Forward(ts, st, r.st) && acc <= r.value
    decreases |ts| - st.pos, 0
  {
    if Peek(ts, st).kind == COMMA then
      var e := ParseExpression(ts, Advance(ts, Advance(ts, st)), Level(P_LOWEST));
      ElementsFrom(ts, e.st, acc + [e.value])
    else
      Parsed(acc, st)
  }
}

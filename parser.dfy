/**
 * The Parser class of src/parser/Parser.py: a two-token window over the token
 * stream, a cursor, and an error list, all updated in place by the parse
 * methods.  Each method leaves the parser in the state, and returns the
 * node, that the matching function of ParserSpec computes.
 */
module Parsing {
  import opened Wrappers
  import opened TokenTypes
  import opened Tokens
  import opened Precedences
  import opened Ast
  import opened ParserSpec

  class Parser {
    const tokens: seq<Token>
    var cursor: nat
    var currentToken: Token
    var peekToken: Token
    var errors: seq<ParseError>

    /** The parser state the window and the error list stand for. */
    function State(): PState
      reads this
    {
      PState(cursor, errors)
    }

    ghost predicate Valid()
      reads this
    {
      Inside(tokens, State()) && currentToken == Cur(tokens, State()) && peekToken == Peek(tokens, State())
    }

    /** The window starts on the first two tokens, with no errors. */
    constructor (tokens: seq<Token>)
      requires WellFormed(tokens)
      ensures Valid() && this.tokens == tokens && State() == PState(0, [])
    {
      this.tokens := tokens;
      cursor := 0;
      errors := [];
      currentToken := tokens[0];
      peekToken := if 1 < |tokens| then tokens[1] else tokens[0];
    }

    /** `__next_token`: shift peek into current and pull one more token. */
    method NextToken()
      requires Valid()
      modifies this`cursor, this`currentToken, this`peekToken
      ensures Valid() && State() == Advance(tokens, old(State()))
    {
      if cursor + 1 < |tokens| {
        cursor := cursor + 1;
      }
      currentToken := peekToken;
      peekToken := if cursor + 1 < |tokens| then tokens[cursor + 1] else tokens[|tokens| - 1];
    }

    /** `__expect_peek`. */
    method ExpectPeek(k: TokenType) returns (ok: bool)
      requires Valid()
      modifies this
      ensures Valid() && Parsed(ok, State()) == ParserSpec.ExpectPeek(tokens, old(State()), k)
    {
      if peekToken.kind == k {
        NextToken();
        return true;
      } else {
        errors := errors + [PeekError(k, peekToken.kind)];
        return false;
      }
    }

    /** `parse_program`, from the current window. */
    method ParseProgram() returns (program: Program)
      requires Valid()
      modifies this
      ensures Valid()
      ensures var r := ProgramFrom(tokens, old(State()), []);
        program == Program(r.value) && State() == r.st
    {
      var statements := [];
      while currentToken.kind != EOF
        invariant Valid()
        invariant ProgramFrom(tokens, State(), statements) == ProgramFrom(tokens, old(State()), [])
        decreases |tokens| - cursor
      {
        ghost var before := State();
        var statement := ParseStatement();
        ghost var s := ParserSpec.ParseStatement(tokens, before);
        assert ProgramFrom(tokens, before, statements)
          == ProgramFrom(tokens, Advance(tokens, s.st), if s.value.Some? then statements + [s.value.value] else statements);
        if statement.Some? {
          statements := statements + [statement.value];
        }
        NextToken();
        assert cursor > before.pos by {
          if s.st.pos == before.pos {
            assert Cur(tokens, s.st) == Cur(tokens, before);
          }
        }
      }
      program := Program(statements);
    }

    /** `__parse_statement`. */
    method ParseStatement() returns (statement: Option<Node>)
      requires Valid()
      modifies this
      ensures Valid() && Parsed(statement, State()) == ParserSpec.ParseStatement(tokens, old(State()))
      decreases |tokens| - cursor, 4
    {
      if currentToken.kind == IDENTIFIER && peekToken.kind == EQ {
        statement := ParseAssignment();
        return;
      }
      match currentToken.kind {
        case LET => statement := ParseLet();
        case FN => statement := ParseFunction();
        case RETURN => statement := ParseReturn();
        case LBRACE =>
          var block := ParseBlock();
          statement := Some(block);
        case _ => statement := ParseExpressionStatement();
      }
    }

    /** `__parse_expression_statement`. */
    method ParseExpressionStatement() returns (statement: Option<Node>)
      requires Valid()
      modifies this
      ensures Valid() && Parsed(statement, State()) == ParserSpec.ParseExpressionStatement(tokens, old(State()))
      decreases |tokens| - cursor, 3
    {
      var expression := ParseExpression(Level(P_LOWEST));
      if peekToken.kind == SEMICOLON {
        NextToken();
      }
      return Some(ExpressionStatement(expression));
    }

    /** `__parse_let_statement`. */
    method ParseLet() returns (statement: Option<Node>)
      requires Valid()
      modifies this
      ensures Valid() && Parsed(statement, State()) == ParserSpec.ParseLet(tokens, old(State()))
      decreases |tokens| - cursor, 0
    {
      var ok := ExpectPeek(IDENTIFIER);
      if !ok {
        return None;
      }
      var name := Text(currentToken);
      ok := ExpectPeek(COLON);
      if !ok {
        return None;
      }
      ok := ExpectPeek(TYPE);
      if !ok {
        return None;
      }
      var valueType := Text(currentToken);
      ok := ExpectPeek(EQ);
      if !ok {
        return None;
      }
      NextToken();
      var value := ParseExpression(Level(P_LOWEST));
      ghost var afterValue := State();
      while currentToken.kind != SEMICOLON && currentToken.kind != EOF
        invariant Valid()
        invariant SkipToSemicolon(tokens, State()) == SkipToSemicolon(tokens, afterValue)
        decreases |tokens| - cursor
      {
        NextToken();
      }
      return Some(LetStatement(name, value, valueType));
    }

    /** `__parse_function_statement`. */
    method ParseFunction() returns (statement: Option<Node>)
      requires Valid()
      modifies this
      ensures Valid() && Parsed(statement, State()) == ParserSpec.ParseFunction(tokens, old(State()))
      decreases |tokens| - cursor, 0
    {
      var ok := ExpectPeek(IDENTIFIER);
      if !ok {
        return None;
      }
      var name := Text(currentToken);
      ok := ExpectPeek(LPAREN);
      if !ok {
        return None;
      }
      var parameters := ParseParameters();
      ok := ExpectPeek(ARROW);
      if !ok {
        return None;
      }
      ok := ExpectPeek(TYPE);
      if !ok {
        return None;
      }
      var returnType := Text(currentToken);
      ok := ExpectPeek(LBRACE);
      if !ok {
        return None;
      }
      var body := ParseBlock();
      return Some(FunctionStatement(name, parameters, body, returnType));
    }

    /** `__parse_function_parameters`. */
    method ParseParameters() returns (parameters: Option<seq<FunctionParameter>>)
      requires Valid()
      modifies this
      ensures Valid() && Parsed(parameters, State()) == ParserSpec.ParseParameters(tokens, old(State()))
    {
      if peekToken.kind == RPAREN {
        NextToken();
        return Some([]);
      }
      NextToken();
      var name := currentToken.literal;
      var ok := ExpectPeek(COLON);
      if !ok {
        return None;
      }
      NextToken();
      var list := [FunctionParameter(name, currentToken.literal)];
      ghost var start := State();
      ghost var first := list;
      while peekToken.kind == COMMA
        invariant Valid()
        invariant ParametersFrom(tokens, State(), list) == ParametersFrom(tokens, start, first)
        decreases |tokens| - cursor
      {
        ghost var before := State();
        NextToken();
        NextToken();
        name := currentToken.literal;
        ok := ExpectPeek(COLON);
        if !ok {
          return None;
        }
        NextToken();
        assert ParametersFrom(tokens, before, list)
          == ParametersFrom(tokens, State(), list + [FunctionParameter(name, currentToken.literal)]);
        list := list + [FunctionParameter(name, currentToken.literal)];
      }
      ok := ExpectPeek(RPAREN);
      if !ok {
        return None;
      }
      return Some(list);
    }

    /** `__parse_return_statement`. */
    method ParseReturn() returns (statement: Option<Node>)
      requires Valid() && currentToken.kind == RETURN
      modifies this
      ensures Valid() && Parsed(statement, State()) == ParserSpec.ParseReturn(tokens, old(State()))
      decreases |tokens| - cursor, 0
    {
      NextToken();
      var value := ParseExpression(Level(P_LOWEST));
      var ok := ExpectPeek(SEMICOLON);
      if !ok {
        return None;
      }
      return Some(ReturnStatement(value));
    }

    /** `__parse_block_statement`. */
    method ParseBlock() returns (block: Node)
      requires Valid() && currentToken.kind == LBRACE
      modifies this
      ensures Valid() && Parsed(block, State()) == ParserSpec.ParseBlock(tokens, old(State()))
      decreases |tokens| - cursor, 0
    {
      NextToken();
      ghost var start := State();
      var statements := [];
      while currentToken.kind != RBRACE && currentToken.kind != EOF
        invariant Valid() && cursor > old(cursor)
        invariant BlockFrom(tokens, State(), statements) == BlockFrom(tokens, start, [])
        decreases |tokens| - cursor
      {
        ghost var before := State();
        var statement := ParseStatement();
        ghost var s := ParserSpec.ParseStatement(tokens, before);
        assert BlockFrom(tokens, before, statements)
          == BlockFrom(tokens, Advance(tokens, s.st), if s.value.Some? then statements + [s.value.value] else statements);
        if statement.Some? {
          statements := statements + [statement.value];
        }
        NextToken();
        assert cursor > before.pos by {
          if s.st.pos == before.pos {
            assert Cur(tokens, s.st) == Cur(tokens, before);
          }
        }
      }
      return BlockStatement(statements);
    }

    /** `__parse_assignment_statement`. */
    method ParseAssignment() returns (statement: Option<Node>)
      requires Valid() && currentToken.kind == IDENTIFIER && peekToken.kind == EQ
      modifies this
      ensures Valid() && Parsed(statement, State()) == ParserSpec.ParseAssignment(tokens, old(State()))
      decreases |tokens| - cursor, 0
    {
      var name := Text(currentToken);
      NextToken();
      NextToken();
      var value := ParseExpression(Level(P_LOWEST));
      NextToken();
      return Some(AssignStatement(name, value));
    }

    /** `__parse_if_statement`. */
    method ParseIf() returns (statement: Option<Node>)
      requires Valid() && currentToken.kind == IF
      modifies this
      ensures Valid() && Parsed(statement, State()) == ParserSpec.ParseIf(tokens, old(State()))
      decreases |tokens| - cursor, 0
    {
      NextToken();
      var condition := ParseExpression(Level(P_LOWEST));
      var ok := ExpectPeek(LBRACE);
      if !ok {
        return None;
      }
      var consequence := ParseBlock();
      var alternative := None;
      if peekToken.kind == ELSE {
        NextToken();
        ok := ExpectPeek(LBRACE);
        if !ok {
          return None;
        }
        var block := ParseBlock();
        alternative := Some(block);
      }
      return Some(IfStatement(condition, consequence, alternative));
    }

    /** `__parse_expression`: the Pratt loop. */
    method ParseExpression(precedence: nat) returns (expression: Option<Node>)
      requires Valid()
      modifies this
      ensures Valid() && Parsed(expression, State()) == ParserSpec.ParseExpression(tokens, old(State()), precedence)
      decreases |tokens| - cursor, 2
    {
      if !HasPrefix(currentToken.kind) {
        errors := errors + [NoPrefixError(currentToken.kind)];
        return None;
      }
      var left := ParsePrefix();
      ghost var start := State();
      ghost var first := left;
      while peekToken.kind != SEMICOLON && precedence < LevelOf(peekToken.kind)
        invariant Valid() && cursor >= old(cursor)
        invariant InfixLoop(tokens, State(), precedence, left) == InfixLoop(tokens, start, precedence, first)
        decreases |tokens| - cursor
      {
        if !HasInfix(peekToken.kind) {
          return left;
        }
        NextToken();
        left := ParseInfixOrCall(left);
      }
      return left;
    }

    /** The prefix parse function table, applied to the current token. */
    method ParsePrefix() returns (expression: Option<Node>)
      requires Valid() && HasPrefix(currentToken.kind)
      modifies this
      ensures Valid() && Parsed(expression, State()) == ParserSpec.ParsePrefix(tokens, old(State()))
      decreases |tokens| - cursor, 1
    {
      match currentToken.kind {
        case IDENTIFIER => expression := Some(IdentifierLiteral(Text(currentToken)));
        case INT => expression := Some(IntegerLiteral(currentToken.literal.i));
        case FLOAT => expression := Some(FloatLiteral(currentToken.literal.f));
        case LPAREN => expression := ParseGrouped();
        case IF => expression := ParseIf();
        case TRUE => expression := Some(BooleanLiteral(currentToken.kind == TRUE));
        case FALSE => expression := Some(BooleanLiteral(currentToken.kind == TRUE));
        case STR => expression := Some(StringLiteral(Text(currentToken)));
        case LBRACKET => expression := ParseList();
        case LBRACE =>
          var block := ParseBlock();
          expression := Some(block);
      }
    }

    /** The infix parse function table, applied to the current token. */
    method ParseInfixOrCall(left: Option<Node>) returns (expression: Option<Node>)
      requires Valid() && HasInfix(currentToken.kind)
      modifies this
      ensures Valid() && Parsed(expression, State()) == ParserSpec.ParseInfixOrCall(tokens, old(State()), left)
      decreases |tokens| - cursor, 3
    {
      if currentToken.kind == LPAREN {
        expression := ParseCall(left);
      } else {
        expression := ParseInfix(left);
      }
    }

    /** `__parse_infix_expression`. */
    method ParseInfix(left: Option<Node>) returns (expression: Option<Node>)
      requires Valid() && HasInfix(currentToken.kind)
      modifies this
      ensures Valid() && Parsed(expression, State()) == ParserSpec.ParseInfix(tokens, old(State()), left)
      decreases |tokens| - cursor, 0
    {
      var operator := Text(currentToken);
      var precedence := LevelOf(currentToken.kind);
      NextToken();
      var right := ParseExpression(precedence);
      return Some(InfixExpression(left, operator, right));
    }

    /** `__parse_grouped_expression`. */
    method ParseGrouped() returns (expression: Option<Node>)
      requires Valid() && currentToken.kind == LPAREN
      modifies this
      ensures Valid() && Parsed(expression, State()) == ParserSpec.ParseGrouped(tokens, old(State()))
      decreases |tokens| - cursor, 0
    {
      NextToken();
      expression := ParseExpression(Level(P_LOWEST));
      var ok := ExpectPeek(RPAREN);
      if !ok {
        return None;
      }
    }

    /** `__parse_call_expression`. */
    method ParseCall(callee: Option<Node>) returns (expression: Option<Node>)
      requires Valid() && currentToken.kind == LPAREN
      modifies this
      ensures Valid() && Parsed(expression, State()) == ParserSpec.ParseCall(tokens, old(State()), callee)
      decreases |tokens| - cursor, 2
    {
      var arguments := ParseExpressionList(RPAREN);
      return Some(CallExpression(callee, arguments));
    }

    /** `__parase_expression_list`. */
    method ParseExpressionList(end: TokenType) returns (list: Arguments)
      requires Valid() && currentToken.kind != EOF
      modifies this
      ensures Valid() && Parsed(list, State()) == ParserSpec.ParseExpressionList(tokens, old(State()), end)
      decreases |tokens| - cursor, 1
    {
      if peekToken.kind == end {
        NextToken();
        return Arguments([]);
      }
      NextToken();
      var first := ParseExpression(Level(P_LOWEST));
      var items := [first];
      ghost var start := State();
      while peekToken.kind == COMMA
        invariant Valid() && cursor > old(cursor)
        invariant ExpressionsFrom(tokens, State(), end, items) == ExpressionsFrom(tokens, start, end, [first])
        decreases |tokens| - cursor
      {
        NextToken();
        NextToken();
        var next := ParseExpression(Level(P_LOWEST));
        items := items + [next];
      }
      var ok := ExpectPeek(end);
      if !ok {
        return NoArguments;
      }
      return Arguments(items);
    }

    /** `__parse_list_literal`. */
    method ParseList() returns (expression: Option<Node>)
      requires Valid() && currentToken.kind == LBRACKET
      modifies this
      ensures Valid() && Parsed(expression, State()) == ParserSpec.ParseList(tokens, old(State()))
      decreases |tokens| - cursor, 0
    {
      var elements := [];
      NextToken();
      if currentToken.kind != RBRACKET {
        var first := ParseExpression(Level(P_LOWEST));
        elements := [first];
        ghost var start := State();
        while peekToken.kind == COMMA
          invariant Valid() && cursor > old(cursor)
          invariant ElementsFrom(tokens, State(), elements) == ElementsFrom(tokens, start, [first])
          decreases |tokens| - cursor
        {
          NextToken();
          NextToken();
          var next := ParseExpression(Level(P_LOWEST));
          elements := elements + [next];
        }
      }
      var ok := ExpectPeek(RBRACKET);
      if !ok {
        return None;
      }
      return Some(ListLiteral(elements));
    }
  }
}

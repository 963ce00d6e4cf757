/**
 * What the parsers build, read off the token stream: operator grouping,
 * the parts of a function statement, the parameter and argument lists, a
 * grouped expression, an assignment and an if's branches, and which token
 * out of place makes each of them fail and with which error.
 */
module ParserShapes {
  import opened Wrappers
  import opened TokenTypes
  import opened Tokens
  import opened Precedences
  import opened Ast
  import opened ParserSpec
  import opened ParserFacts
  import Scanning

  // ---------------------------------------------------------------------
  // One expected token

  /** The expected token is next: the window moves onto it. */
  lemma Expected(ts: seq<Token>, st: PState, k: TokenType)
    requires Inside(ts, st) && k != EOF && KindAt(ts, st.pos + 1) == k
    ensures ExpectPeek(ts, st, k) == Parsed(true, st.(pos := st.pos + 1))
  {
    PeekKind(ts, st);
  }

  /** Another token is next: one error naming both, and the window stays. */
  lemma Unexpected(ts: seq<Token>, st: PState, k: TokenType)
    requires Inside(ts, st) && KindAt(ts, st.pos + 1) != k
    ensures ExpectPeek(ts, st, k) == Parsed(false, st.(errors := st.errors + [PeekError(k, KindAt(ts, st.pos + 1))]))
  {
    PeekKind(ts, st);
  }

  /** Before the final EOF, a shift moves the window by one. */
  lemma Moves(ts: seq<Token>, st: PState)
    requires Inside(ts, st) && st.pos + 1 < |ts|
    ensures Advance(ts, st) == st.(pos := st.pos + 1)
  {
  }

  /** The Pratt loop stops before a ';' or a token that does not bind tighter. */
  lemma LoopStops(ts: seq<Token>, st: PState, precedence: nat, left: Option<Node>)
    requires Inside(ts, st)
    requires KindAt(ts, st.pos + 1) == SEMICOLON || LevelOf(KindAt(ts, st.pos + 1)) <= precedence
    ensures InfixLoop(ts, st, precedence, left) == Parsed(left, st)
  {
    PeekKind(ts, st);
  }

  /** Before a binary operator that binds tighter, the loop takes it and its right operand. */
  lemma LoopTakes(ts: seq<Token>, st: PState, precedence: nat, left: Option<Node>)
    requires Inside(ts, st) && Binary(KindAt(ts, st.pos + 1)) && precedence < LevelOf(KindAt(ts, st.pos + 1))
    ensures st.pos + 2 < |ts| && Inside(ts, st.(pos := st.pos + 2))
    ensures var op := ts[st.pos + 1];
      var right := ParseExpression(ts, st.(pos := st.pos + 2), LevelOf(op.kind));
      InfixLoop(ts, st, precedence, left)
        == InfixLoop(ts, right.st, precedence, Some(InfixExpression(left, TextAt(ts, st.pos + 1), right.value)))
  {
    var p := st.pos;
    PeekKind(ts, st);
    Moves(ts, st);
    Moves(ts, st.(pos := p + 1));
    var op := ts[p + 1];
    var right := ParseExpression(ts, st.(pos := p + 2), LevelOf(op.kind));
    var next := Parsed(Some(InfixExpression(left, TextAt(ts, st.pos + 1), right.value)), right.st);
    assert ParseInfix(ts, st.(pos := p + 1), left) == next;
    assert ParseInfixOrCall(ts, st.(pos := p + 1), left) == next;
  }

  // ---------------------------------------------------------------------
  // Function statements

  /**
   * After the parameters, `-> TYPE {` must follow: each missing piece
   * records one error where the parse stopped; with all three the
   * statement holds the name, the parameters as read, the block and the
   * type's text.
   */
  lemma FunctionRestCases(ts: seq<Token>, st: PState, name: string, parameters: Option<seq<FunctionParameter>>)
    requires Inside(ts, st)
    ensures var q := st.pos; var r := FunctionRest(ts, st, name, parameters);
      && (KindAt(ts, q + 1) != ARROW ==>
            r == Parsed(None, st.(errors := st.errors + [PeekError(ARROW, KindAt(ts, q + 1))])))
      && (KindAt(ts, q + 1) == ARROW && KindAt(ts, q + 2) != TYPE ==>
            r == Parsed(None, st.(pos := q + 1, errors := st.errors + [PeekError(TYPE, KindAt(ts, q + 2))])))
      && (KindAt(ts, q + 1) == ARROW && KindAt(ts, q + 2) == TYPE && KindAt(ts, q + 3) != LBRACE ==>
            r == Parsed(None, st.(pos := q + 2, errors := st.errors + [PeekError(LBRACE, KindAt(ts, q + 3))])))
      && (KindAt(ts, q + 1) == ARROW && KindAt(ts, q + 2) == TYPE && KindAt(ts, q + 3) == LBRACE ==>
            var body := ParseBlock(ts, st.(pos := q + 3));
            r == Parsed(Some(FunctionStatement(name, parameters, body.value, TextAt(ts, q + 2))), body.st))
  {
    var q := st.pos;
    if KindAt(ts, q + 1) != ARROW {
      Unexpected(ts, st, ARROW);
    } else {
      Expected(ts, st, ARROW);
      var c := st.(pos := q + 1);
      if KindAt(ts, q + 2) != TYPE {
        Unexpected(ts, c, TYPE);
      } else {
        Expected(ts, c, TYPE);
        var d := st.(pos := q + 2);
        if KindAt(ts, q + 3) != LBRACE {
          Unexpected(ts, d, LBRACE);
        } else {
          Expected(ts, d, LBRACE);
        }
      }
    }
  }

  /**
   * `fn NAME (`: the parameters are read from the '(' and the rest of the
   * statement from where they end, with NAME's text as the name.
   */
  lemma FunctionHeader(ts: seq<Token>, st: PState)
    requires Inside(ts, st) && KindAt(ts, st.pos + 1) == IDENTIFIER && KindAt(ts, st.pos + 2) == LPAREN
    ensures var ps := ParseParameters(ts, st.(pos := st.pos + 2));
      ParseFunction(ts, st) == FunctionRest(ts, ps.st, TextAt(ts, st.pos + 1), ps.value)
  {
    var p := st.pos;
    Expected(ts, st, IDENTIFIER);
    Expected(ts, st.(pos := p + 1), LPAREN);
  }

  /** `fn NAME` without '(' is dropped with one error, on the name. */
  lemma FunctionNeedsParen(ts: seq<Token>, st: PState)
    requires Inside(ts, st) && KindAt(ts, st.pos + 1) == IDENTIFIER && KindAt(ts, st.pos + 2) != LPAREN
    ensures ParseFunction(ts, st)
      == Parsed(None, st.(pos := st.pos + 1, errors := st.errors + [PeekError(LPAREN, KindAt(ts, st.pos + 2))]))
  {
    var p := st.pos;
    Expected(ts, st, IDENTIFIER);
    Unexpected(ts, st.(pos := p + 1), LPAREN);
  }

  // ---------------------------------------------------------------------
  // Parameter lists

  /** m groups `, NAME : TYPE` after position p (',' at p+1, ':' at p+3), then ')'. */
  predicate ParamGroups(ts: seq<Token>, p: nat, m: nat)
    decreases m
  {
    if m == 0 then KindAt(ts, p + 1) == RPAREN
    else KindAt(ts, p + 1) == COMMA && KindAt(ts, p + 3) == COLON && ParamGroups(ts, p + 4, m - 1)
  }

  /** The groups end on a token of the stream. */
  lemma {:induction false} ParamGroupsInside(ts: seq<Token>, p: nat, m: nat)
    requires ParamGroups(ts, p, m)
    ensures p + 4 * m + 1 < |ts|
    decreases m
  {
    if 0 < m {
      ParamGroupsInside(ts, p + 4, m - 1);
    }
  }

  /** The parameters m groups after position p name: the NAME and TYPE literals of each. */
  function ParamsListed(ts: seq<Token>, p: nat, m: nat): (ps: seq<FunctionParameter>)
    requires p + 4 * m < |ts|
    ensures |ps| == m
    decreases m
  {
    if m == 0 then [] else [FunctionParameter(ts[p + 2].literal, ts[p + 4].literal)] + ParamsListed(ts, p + 4, m - 1)
  }

  /** One `, NAME : TYPE` group: the loop reads its parameter and goes on from the TYPE. */
  lemma ParameterStep(ts: seq<Token>, st: PState, acc: seq<FunctionParameter>)
    requires Inside(ts, st) && KindAt(ts, st.pos + 1) == COMMA && KindAt(ts, st.pos + 3) == COLON
    ensures st.pos + 4 < |ts|
    ensures ParametersFrom(ts, st, acc)
      == ParametersFrom(ts, st.(pos := st.pos + 4), acc + [FunctionParameter(ts[st.pos + 2].literal, ts[st.pos + 4].literal)])
  {
    var p := st.pos;
    PeekKind(ts, st);
    Moves(ts, st);
    Moves(ts, st.(pos := p + 1));
    Expected(ts, st.(pos := p + 2), COLON);
    Moves(ts, st.(pos := p + 3));
  }

  /**
   * A ',' not followed by `NAME :` drops the list with one error, on the
   * NAME; ')' instead of ',' ends it; any other token drops it with one
   * error naming ')'.
   */
  lemma ParameterStop(ts: seq<Token>, st: PState, acc: seq<FunctionParameter>)
    requires Inside(ts, st)
    ensures KindAt(ts, st.pos + 1) == COMMA && KindAt(ts, st.pos + 3) != COLON ==>
      ParametersFrom(ts, st, acc)
        == Parsed(None, st.(pos := st.pos + 2, errors := st.errors + [PeekError(COLON, KindAt(ts, st.pos + 3))]))
    ensures KindAt(ts, st.pos + 1) == RPAREN ==>
      ParametersFrom(ts, st, acc) == Parsed(Some(acc), st.(pos := st.pos + 1))
    ensures KindAt(ts, st.pos + 1) != COMMA && KindAt(ts, st.pos + 1) != RPAREN ==>
      ParametersFrom(ts, st, acc) == Parsed(None, st.(errors := st.errors + [PeekError(RPAREN, KindAt(ts, st.pos + 1))]))
  {
    var p := st.pos;
    PeekKind(ts, st);
    if KindAt(ts, p + 1) == COMMA && KindAt(ts, p + 3) != COLON {
      Moves(ts, st);
      Moves(ts, st.(pos := p + 1));
      Unexpected(ts, st.(pos := p + 2), COLON);
    } else if KindAt(ts, p + 1) != COMMA && KindAt(ts, p + 1) != RPAREN {
      Unexpected(ts, st, RPAREN);
    }
  }

  /**
   * The loop over `, NAME : TYPE` groups: m groups and a ')' give the
   * parameters they name, in order, after those already read, and the
   * parse ends on the ')'.
   */
  lemma {:induction false} ParametersRead(ts: seq<Token>, st: PState, acc: seq<FunctionParameter>, m: nat)
    requires Inside(ts, st) && ParamGroups(ts, st.pos, m)
    ensures st.pos + 4 * m + 1 < |ts|
    ensures ParametersFrom(ts, st, acc)
      == Parsed(Some(acc + ParamsListed(ts, st.pos, m)), st.(pos := st.pos + 4 * m + 1))
    decreases m
  {
    var p := st.pos;
    if m == 0 {
      ReadNone(ts, st, acc);
    } else {
      GroupsUncons(ts, p, m);
      var x := FunctionParameter(ts[p + 2].literal, ts[p + 4].literal);
      ParametersRead(ts, st.(pos := p + 4), acc + [x], m - 1);
      ReadMore(ts, st, acc, m);
    }
  }

  /** No groups: the loop stops on the ')' with what it has. */
  lemma ReadNone(ts: seq<Token>, st: PState, acc: seq<FunctionParameter>)
    requires Inside(ts, st) && ParamGroups(ts, st.pos, 0)
    ensures st.pos + 1 < |ts|
    ensures ParametersFrom(ts, st, acc) == Parsed(Some(acc + ParamsListed(ts, st.pos, 0)), st.(pos := st.pos + 4 * 0 + 1))
  {
    ParamGroupsInside(ts, st.pos, 0);
    ParameterStop(ts, st, acc);
    assert acc + ParamsListed(ts, st.pos, 0) == acc;
  }

  /** One group in front of m - 1 groups read as claimed gives m groups read as claimed. */
  lemma ReadMore(ts: seq<Token>, st: PState, acc: seq<FunctionParameter>, m: nat)
    requires Inside(ts, st) && 0 < m && ParamGroups(ts, st.pos, m)
    requires st.pos + 4 + 4 * (m - 1) < |ts|
    requires st.pos + 4 < |ts|
    requires var t := st.(pos := st.pos + 4);
      var x := FunctionParameter(ts[st.pos + 2].literal, ts[st.pos + 4].literal);
      ParametersFrom(ts, t, acc + [x])
        == Parsed(Some(acc + [x] + ParamsListed(ts, t.pos, m - 1)), t.(pos := t.pos + 4 * (m - 1) + 1))
    ensures st.pos + 4 * m + 1 < |ts|
    ensures ParametersFrom(ts, st, acc)
      == Parsed(Some(acc + ParamsListed(ts, st.pos, m)), st.(pos := st.pos + 4 * m + 1))
  {
    var p := st.pos;
    GroupsUncons(ts, p, m);
    ParameterStep(ts, st, acc);
    var x := FunctionParameter(ts[p + 2].literal, ts[p + 4].literal);
    AppendAssoc(acc, [x], ParamsListed(ts, p + 4, m - 1));
  }

  /** The first of m groups, and the m - 1 after it. */
  lemma GroupsUncons(ts: seq<Token>, p: nat, m: nat)
    requires 0 < m && ParamGroups(ts, p, m)
    ensures KindAt(ts, p + 1) == COMMA && KindAt(ts, p + 3) == COLON && ParamGroups(ts, p + 4, m - 1)
    ensures p + 4 < |ts| && p + 4 + 4 * (m - 1) < |ts| && p + 4 * m + 1 < |ts|
    ensures ParamsListed(ts, p, m) == [FunctionParameter(ts[p + 2].literal, ts[p + 4].literal)] + ParamsListed(ts, p + 4, m - 1)
  {
    ParamGroupsInside(ts, p, m);
  }

  /** Conversely, a kept parameter loop read exactly such groups. */
  lemma ParametersKept(ts: seq<Token>, st: PState, acc: seq<FunctionParameter>, m: nat)
    requires Inside(ts, st)
    ensures var r := ParametersFrom(ts, st, acc);
      r.value.Some? && |r.value.value| == |acc| + m ==>
        && ParamGroups(ts, st.pos, m)
        && st.pos + 4 * m + 1 < |ts|
        && r == Parsed(Some(acc + ParamsListed(ts, st.pos, m)), st.(pos := st.pos + 4 * m + 1))
  {
    var r := ParametersFrom(ts, st, acc);
    if r.value.Some? && |r.value.value| == |acc| + m {
      KeptGroups(ts, st, acc, m);
      ParametersRead(ts, st, acc, m);
    }
  }

  /** The parameter loop from `st` keeps its list and adds m parameters to `acc`. */
  predicate KeptAdding(ts: seq<Token>, st: PState, acc: seq<FunctionParameter>, m: nat)
    requires Inside(ts, st)
  {
    var r := ParametersFrom(ts, st, acc);
    r.value.Some? && |r.value.value| == |acc| + m
  }

  /** A kept loop read as many groups as it added parameters. */
  lemma {:induction false} KeptGroups(ts: seq<Token>, st: PState, acc: seq<FunctionParameter>, m: nat)
    requires Inside(ts, st) && KeptAdding(ts, st, acc, m)
    ensures ParamGroups(ts, st.pos, m)
    decreases m
  {
    var p := st.pos;
    if KindAt(ts, p + 1) == COMMA {
      KeptMore(ts, st, acc, m);
      KeptGroups(ts, st.(pos := p + 4), acc + [FunctionParameter(ts[p + 2].literal, ts[p + 4].literal)], m - 1);
      GroupsMore(ts, p, m);
    } else {
      KeptGroupsEnd(ts, st, acc, m);
    }
  }

  /** A `, NAME : TYPE` group in front of m - 1 groups makes m groups. */
  lemma GroupsMore(ts: seq<Token>, p: nat, m: nat)
    requires 1 <= m && KindAt(ts, p + 1) == COMMA && KindAt(ts, p + 3) == COLON
    requires ParamGroups(ts, p + 4, m - 1)
    ensures ParamGroups(ts, p, m)
  {
  }

  /** A kept loop that met ',' read one group and keeps m - 1 more parameters after it. */
  lemma KeptMore(ts: seq<Token>, st: PState, acc: seq<FunctionParameter>, m: nat)
    requires Inside(ts, st) && KeptAdding(ts, st, acc, m) && KindAt(ts, st.pos + 1) == COMMA
    ensures 1 <= m && KindAt(ts, st.pos + 3) == COLON && st.pos + 4 < |ts|
    ensures KeptAdding(ts, st.(pos := st.pos + 4), acc + [FunctionParameter(ts[st.pos + 2].literal, ts[st.pos + 4].literal)], m - 1)
  {
    KeptStep(ts, st, acc);
  }

  /** A kept loop that does not see ',' has no groups left. */
  lemma KeptGroupsEnd(ts: seq<Token>, st: PState, acc: seq<FunctionParameter>, m: nat)
    requires Inside(ts, st) && KeptAdding(ts, st, acc, m) && KindAt(ts, st.pos + 1) != COMMA
    ensures ParamGroups(ts, st.pos, m)
  {
      KeptStop(ts, st, acc);
      assert m == 0;
  }

  /** A kept loop that does not see ',' ends on ')'. */
  lemma KeptStop(ts: seq<Token>, st: PState, acc: seq<FunctionParameter>)
    requires Inside(ts, st) && KindAt(ts, st.pos + 1) != COMMA && ParametersFrom(ts, st, acc).value.Some?
    ensures KindAt(ts, st.pos + 1) == RPAREN
    ensures ParametersFrom(ts, st, acc) == Parsed(Some(acc), st.(pos := st.pos + 1))
  {
    ParameterStop(ts, st, acc);
  }

  /** A kept loop that sees ',' read a whole group. */
  lemma KeptStep(ts: seq<Token>, st: PState, acc: seq<FunctionParameter>)
    requires Inside(ts, st) && KindAt(ts, st.pos + 1) == COMMA && ParametersFrom(ts, st, acc).value.Some?
    ensures KindAt(ts, st.pos + 3) == COLON && st.pos + 4 < |ts|
    ensures ParametersFrom(ts, st, acc)
      == ParametersFrom(ts, st.(pos := st.pos + 4), acc + [FunctionParameter(ts[st.pos + 2].literal, ts[st.pos + 4].literal)])
  {
    ParameterStop(ts, st, acc);
    ParameterStep(ts, st, acc);
  }

  /** Concatenation regroups. */
  lemma AppendAssoc<T>(a: seq<T>, b: seq<T>, c: seq<T>)
    ensures a + b + c == a + (b + c)
  {
  }

  /** The parameters of `( NAME : TYPE` followed by m groups and ')'. */
  function ParameterList(ts: seq<Token>, p: nat, m: nat): (ps: seq<FunctionParameter>)
    requires p + 4 * m + 3 < |ts|
    ensures |ps| == m + 1
  {
    [FunctionParameter(ts[p + 1].literal, ts[p + 3].literal)] + ParamsListed(ts, p + 3, m)
  }

  /**
   * `( NAME : TYPE` and m more groups up to ')' give those m + 1 parameters
   * in order, with no error, ending on the ')'.
   */
  lemma ParameterListRead(ts: seq<Token>, st: PState, m: nat)
    requires Inside(ts, st) && KindAt(ts, st.pos + 1) != RPAREN && KindAt(ts, st.pos + 2) == COLON
    requires ParamGroups(ts, st.pos + 3, m)
    ensures st.pos + 4 * m + 4 < |ts|
    ensures ParseParameters(ts, st) == Parsed(Some(ParameterList(ts, st.pos, m)), st.(pos := st.pos + 4 * m + 4))
  {
    var p := st.pos;
    PeekKind(ts, st);
    Moves(ts, st);
    Expected(ts, st.(pos := p + 1), COLON);
    Moves(ts, st.(pos := p + 2));
    var t := st.(pos := p + 3);
    var x := FunctionParameter(ts[p + 1].literal, ts[p + 3].literal);
    assert ParseParameters(ts, st) == ParametersFrom(ts, t, [x]);
    ParametersRead(ts, t, [x], m);
  }

  /** A first NAME not followed by ':' drops the list with one error, on the NAME. */
  lemma ParameterListNeedsColon(ts: seq<Token>, st: PState)
    requires Inside(ts, st) && KindAt(ts, st.pos + 1) != RPAREN && KindAt(ts, st.pos + 2) != COLON
    ensures ParseParameters(ts, st)
      == Parsed(None, Advance(ts, st).(errors := st.errors + [PeekError(COLON, KindAt(ts, st.pos + 2))]))
  {
    PeekKind(ts, st);
    var s := Advance(ts, st);
    if st.pos + 1 < |ts| {
      Moves(ts, st);
      Unexpected(ts, s, COLON);
    } else {
      PeekKind(ts, s);
    }
  }

  /**
   * Conversely, a kept parameter list is either `()` or such a list: the
   * parameters are the NAME and TYPE literals in order, the parse ends on
   * the ')' and no error was recorded.
   */
  lemma ParameterListKept(ts: seq<Token>, st: PState, m: nat)
    requires Inside(ts, st)
    ensures var r := ParseParameters(ts, st); var p := st.pos;
      && (r.value.Some? && KindAt(ts, p + 1) == RPAREN ==> r == Parsed(Some([]), st.(pos := p + 1)))
      && (r.value.Some? && KindAt(ts, p + 1) != RPAREN && |r.value.value| == m + 1 ==>
            && KindAt(ts, p + 2) == COLON && ParamGroups(ts, p + 3, m)
            && p + 4 * m + 4 < |ts|
            && r == Parsed(Some(ParameterList(ts, p, m)), st.(pos := p + 4 * m + 4)))
  {
    var p := st.pos;
    var r := ParseParameters(ts, st);
    PeekKind(ts, st);
    if r.value.Some? && KindAt(ts, p + 1) != RPAREN {
      Moves(ts, st);
      Expected(ts, st.(pos := p + 1), COLON);
      Moves(ts, st.(pos := p + 2));
      var t := st.(pos := p + 3);
      var x := FunctionParameter(ts[p + 1].literal, ts[p + 3].literal);
      assert r == ParametersFrom(ts, t, [x]);
      ParametersKept(ts, t, [x], m);
    }
  }

  // ---------------------------------------------------------------------
  // Argument lists

  /**
   * The groups `, expression` up to `end`, each expression parsed at
   * LOWEST from two tokens after its ','; `fin` is the state on `end`.
   */
  predicate CommaItems(ts: seq<Token>, st: PState, end: TokenType, items: seq<Option<Node>>, fin: PState)
    requires Inside(ts, st)
    decreases |items|
  {
    if items == [] then Peek(ts, st).kind == end && fin == Advance(ts, st)
    else
      && Peek(ts, st).kind == COMMA
      && var e := ParseExpression(ts, Advance(ts, Advance(ts, st)), Level(P_LOWEST));
      && e.value == items[0]
      && CommaItems(ts, e.st, end, items[1..], fin)
  }

  /** The expression loop keeps exactly the items of such groups, after those already read. */
  lemma {:induction false} ListedExpressions(ts: seq<Token>, st: PState, end: TokenType, acc: seq<Option<Node>>,
                                             items: seq<Option<Node>>, fin: PState)
    requires Inside(ts, st) && end != COMMA && CommaItems(ts, st, end, items, fin)
    ensures ExpressionsFrom(ts, st, end, acc) == Parsed(Arguments(acc + items), fin)
    decreases |items|
  {
    if items == [] {
      ExpressionsEnd(ts, st, end, acc);
      assert acc + items == acc;
    } else {
      var e := ParseExpression(ts, Advance(ts, Advance(ts, st)), Level(P_LOWEST));
      ItemsUncons(ts, st, end, items, fin);
      ExpressionStep(ts, st, end, acc);
      ListedExpressions(ts, e.st, end, acc + [e.value], items[1..], fin);
      AppendAssoc(acc, [items[0]], items[1..]);
      assert [items[0]] + items[1..] == items;
    }
  }

  /** A first group: its ',' and expression, and the groups after it. */
  lemma ItemsUncons(ts: seq<Token>, st: PState, end: TokenType, items: seq<Option<Node>>, fin: PState)
    requires Inside(ts, st) && items != [] && CommaItems(ts, st, end, items, fin)
    ensures var e := ParseExpression(ts, Advance(ts, Advance(ts, st)), Level(P_LOWEST));
      && Peek(ts, st).kind == COMMA && e.value == items[0]
      && CommaItems(ts, e.st, end, items[1..], fin)
  {
  }

  /** One `, expression` group: the loop keeps the expression and goes on after it. */
  lemma ExpressionStep(ts: seq<Token>, st: PState, end: TokenType, acc: seq<Option<Node>>)
    requires Inside(ts, st) && Peek(ts, st).kind == COMMA
    ensures var e := ParseExpression(ts, Advance(ts, Advance(ts, st)), Level(P_LOWEST));
      ExpressionsFrom(ts, st, end, acc) == ExpressionsFrom(ts, e.st, end, acc + [e.value])
  {
  }

  /** `end` right after an item closes the list on it. */
  lemma ExpressionsEnd(ts: seq<Token>, st: PState, end: TokenType, acc: seq<Option<Node>>)
    requires Inside(ts, st) && end != COMMA && Peek(ts, st).kind == end
    ensures ExpressionsFrom(ts, st, end, acc) == Parsed(Arguments(acc), Advance(ts, st))
  {
  }

  /** Conversely, a kept expression loop read such groups. */
  lemma {:induction false} ExpressionsListed(ts: seq<Token>, st: PState, end: TokenType, acc: seq<Option<Node>>)
    requires Inside(ts, st) && end != COMMA
    ensures var r := ExpressionsFrom(ts, st, end, acc);
      r.value.Arguments? ==> CommaItems(ts, st, end, r.value.items[|acc|..], r.st)
    decreases |ts| - st.pos
  {
    var r := ExpressionsFrom(ts, st, end, acc);
    if r.value.Arguments? && Peek(ts, st).kind == COMMA {
      var e := ParseExpression(ts, Advance(ts, Advance(ts, st)), Level(P_LOWEST));
      assert r == ExpressionsFrom(ts, e.st, end, acc + [e.value]);
      ExpressionsListed(ts, e.st, end, acc + [e.value]);
      assert r.value.items[|acc|..][1..] == r.value.items[|acc| + 1..];
    }
  }

  /**
   * A non-empty list is its first expression, parsed at LOWEST from the
   * token after the opening one, followed by `, expression` groups up to
   * `end`: such groups are kept in order, and a kept list is made of them.
   */
  lemma ExpressionListItems(ts: seq<Token>, st: PState, end: TokenType, items: seq<Option<Node>>, fin: PState)
    requires Inside(ts, st) && Cur(ts, st).kind != EOF && end != COMMA && Peek(ts, st).kind != end
    ensures var e := ParseExpression(ts, Advance(ts, st), Level(P_LOWEST));
      var r := ParseExpressionList(ts, st, end);
      && (CommaItems(ts, e.st, end, items, fin) ==> r == Parsed(Arguments([e.value] + items), fin))
      && (r.value.Arguments? ==>
            |r.value.items| > 0 && r.value.items[0] == e.value && CommaItems(ts, e.st, end, r.value.items[1..], r.st))
  {
    var e := ParseExpression(ts, Advance(ts, st), Level(P_LOWEST));
    assert ParseExpressionList(ts, st, end) == ExpressionsFrom(ts, e.st, end, [e.value]);
    if CommaItems(ts, e.st, end, items, fin) {
      ListedExpressions(ts, e.st, end, [e.value], items, fin);
    }
    ExpressionsListed(ts, e.st, end, [e.value]);
  }

  /**
   * When neither ',' nor `end` follows an item, the whole list is dropped
   * with one error naming `end` and the token found.
   */
  lemma ArgumentsNeedClose(ts: seq<Token>, st: PState, end: TokenType, acc: seq<Option<Node>>)
    requires Inside(ts, st) && Peek(ts, st).kind != COMMA && Peek(ts, st).kind != end
    ensures ExpressionsFrom(ts, st, end, acc)
      == Parsed(NoArguments, st.(errors := st.errors + [PeekError(end, Peek(ts, st).kind)]))
  {
  }

  /** A single-token expression: a name, a number or a string. */
  predicate Atom(k: TokenType) {
    k == IDENTIFIER || k == INT || k == FLOAT || k == STR
  }

  /** The literal node of a single-token expression. */
  function AtomNode(t: Token): Node {
    match t.literal
    case IntLit(i) => IntegerLiteral(i)
    case FloatLit(f) => FloatLiteral(f)
    case StrLit(s) => if t.kind == STR then StringLiteral(s) else IdentifierLiteral(s)
  }

  /** A single token followed by a token that does not bind parses to its literal and stays put. */
  lemma AtomParses(ts: seq<Token>, st: PState, precedence: nat)
    requires Inside(ts, st) && Atom(Cur(ts, st).kind)
    requires KindAt(ts, st.pos + 1) == SEMICOLON || LevelOf(KindAt(ts, st.pos + 1)) <= precedence
    ensures ParseExpression(ts, st, precedence) == Parsed(Some(AtomNode(Cur(ts, st))), st)
  {
    PeekKind(ts, st);
    assert Scanning.LiteralFits(ts[st.pos]);
  }

  /** n groups `, ATOM` after position q (',' at q+1, the atom at q+2), then `end`. */
  predicate AtomGroups(ts: seq<Token>, q: nat, n: nat, end: TokenType)
    decreases n
  {
    if n == 0 then KindAt(ts, q + 1) == end
    else KindAt(ts, q + 1) == COMMA && Atom(KindAt(ts, q + 2)) && AtomGroups(ts, q + 2, n - 1, end)
  }

  /** The literal nodes of the atoms n groups after position q name. */
  function AtomsListed(ts: seq<Token>, q: nat, n: nat): (items: seq<Option<Node>>)
    requires q + 2 * n < |ts|
    ensures |items| == n
    decreases n
  {
    if n == 0 then [] else [Some(AtomNode(ts[q + 2]))] + AtomsListed(ts, q + 2, n - 1)
  }

  /** The closing tokens an argument or element list ends on. */
  predicate Closer(end: TokenType) {
    end == RPAREN || end == RBRACKET
  }

  /** The groups end on a token of the stream. */
  lemma {:induction false} AtomGroupsInside(ts: seq<Token>, q: nat, n: nat, end: TokenType)
    requires Closer(end) && AtomGroups(ts, q, n, end)
    ensures q + 2 * n + 1 < |ts|
    decreases n
  {
    if 0 < n {
      AtomGroupsInside(ts, q + 2, n - 1, end);
    }
  }

  /** `, a , b ... end` over atoms gives their literals in order, ending on `end`. */
  lemma {:induction false} ExpressionsRead(ts: seq<Token>, st: PState, end: TokenType, acc: seq<Option<Node>>, n: nat)
    requires Inside(ts, st) && Closer(end) && AtomGroups(ts, st.pos, n, end)
    ensures st.pos + 2 * n + 1 < |ts|
    ensures ExpressionsFrom(ts, st, end, acc)
      == Parsed(Arguments(acc + AtomsListed(ts, st.pos, n)), st.(pos := st.pos + 2 * n + 1))
    decreases n
  {
    var q := st.pos;
    if n == 0 {
      AtomsNone(ts, st, end, acc);
    } else {
      AtomsUncons(ts, q, n, end);
      ExpressionsRead(ts, st.(pos := q + 2), end, acc + [Some(AtomNode(ts[q + 2]))], n - 1);
      AtomsMore(ts, st, end, acc, n);
    }
  }

  /** No groups: the loop stops on `end` with what it has. */
  lemma AtomsNone(ts: seq<Token>, st: PState, end: TokenType, acc: seq<Option<Node>>)
    requires Inside(ts, st) && Closer(end) && AtomGroups(ts, st.pos, 0, end)
    ensures st.pos + 1 < |ts|
    ensures ExpressionsFrom(ts, st, end, acc)
      == Parsed(Arguments(acc + AtomsListed(ts, st.pos, 0)), st.(pos := st.pos + 2 * 0 + 1))
  {
    PeekKind(ts, st);
    assert acc + AtomsListed(ts, st.pos, 0) == acc;
  }

  /** The first of n atom groups, and the n - 1 after it. */
  lemma AtomsUncons(ts: seq<Token>, q: nat, n: nat, end: TokenType)
    requires 0 < n && Closer(end) && AtomGroups(ts, q, n, end) && q < |ts|
    ensures KindAt(ts, q + 1) == COMMA && Atom(KindAt(ts, q + 2)) && AtomGroups(ts, q + 2, n - 1, end)
    ensures KindAt(ts, q + 3) == COMMA || KindAt(ts, q + 3) == end
    ensures q + 2 < |ts| && q + 2 + 2 * (n - 1) < |ts| && q + 2 * n + 1 < |ts|
    ensures AtomsListed(ts, q, n) == [Some(AtomNode(ts[q + 2]))] + AtomsListed(ts, q + 2, n - 1)
  {
    AtomGroupsInside(ts, q, n, end);
  }

  /** One `, ATOM` group: the loop keeps the atom's literal and goes on from it. */
  lemma AtomStep(ts: seq<Token>, st: PState, end: TokenType, acc: seq<Option<Node>>)
    requires Inside(ts, st) && Closer(end) && KindAt(ts, st.pos + 1) == COMMA && Atom(KindAt(ts, st.pos + 2))
    requires KindAt(ts, st.pos + 3) == COMMA || KindAt(ts, st.pos + 3) == end
    ensures st.pos + 2 < |ts|
    ensures ExpressionsFrom(ts, st, end, acc)
      == ExpressionsFrom(ts, st.(pos := st.pos + 2), end, acc + [Some(AtomNode(ts[st.pos + 2]))])
  {
    var q := st.pos;
    PeekKind(ts, st);
    var s := Advance(ts, Advance(ts, st));
    assert s == st.(pos := q + 2);
    AtomParses(ts, s, Level(P_LOWEST));
  }

  /** One atom group in front of n - 1 groups read as claimed gives n groups read as claimed. */
  lemma AtomsMore(ts: seq<Token>, st: PState, end: TokenType, acc: seq<Option<Node>>, n: nat)
    requires Inside(ts, st) && Closer(end) && 0 < n && AtomGroups(ts, st.pos, n, end)
    requires st.pos + 2 + 2 * (n - 1) < |ts|
    requires st.pos + 2 < |ts|
    requires var t := st.(pos := st.pos + 2);
      var x := Some(AtomNode(ts[st.pos + 2]));
      ExpressionsFrom(ts, t, end, acc + [x])
        == Parsed(Arguments(acc + [x] + AtomsListed(ts, t.pos, n - 1)), t.(pos := t.pos + 2 * (n - 1) + 1))
    ensures st.pos + 2 * n + 1 < |ts|
    ensures ExpressionsFrom(ts, st, end, acc)
      == Parsed(Arguments(acc + AtomsListed(ts, st.pos, n)), st.(pos := st.pos + 2 * n + 1))
  {
    var q := st.pos;
    AtomsUncons(ts, q, n, end);
    AtomStep(ts, st, end, acc);
    AppendAssoc(acc, [Some(AtomNode(ts[q + 2]))], AtomsListed(ts, q + 2, n - 1));
  }

  /**
   * `( a , b ... )` over atoms (at least one) gives their literals in
   * order, ending on the ')'.
   */
  lemma ArgumentsRead(ts: seq<Token>, st: PState, end: TokenType, n: nat)
    requires Inside(ts, st) && Cur(ts, st).kind != EOF && Closer(end)
    requires Atom(KindAt(ts, st.pos + 1)) && AtomGroups(ts, st.pos + 1, n, end)
    ensures st.pos + 2 * n + 2 < |ts|
    ensures ParseExpressionList(ts, st, end)
      == Parsed(Arguments([Some(AtomNode(ts[st.pos + 1]))] + AtomsListed(ts, st.pos + 1, n)), st.(pos := st.pos + 2 * n + 2))
  {
    var p := st.pos;
    PeekKind(ts, st);
    var s := Advance(ts, st);
    assert s == st.(pos := p + 1);
    assert KindAt(ts, p + 2) == COMMA || KindAt(ts, p + 2) == end;
    AtomParses(ts, s, Level(P_LOWEST));
    var x := Some(AtomNode(ts[p + 1]));
    assert ParseExpressionList(ts, st, end) == ExpressionsFrom(ts, s, end, [x]);
    ExpressionsRead(ts, s, end, [x], n);
  }

  // ---------------------------------------------------------------------
  // Precedence and associativity

  /**
   * `a op1 b op2 c ;` groups to the right exactly when op2 binds strictly
   * tighter than op1; equal levels (including '^' after '^') group left.
   */
  lemma {:induction false} Grouping(ts: seq<Token>, st: PState)
    requires Inside(ts, st) && st.pos + 5 < |ts|
    requires ts[st.pos].kind == INT && ts[st.pos + 2].kind == INT && ts[st.pos + 4].kind == INT
    requires Binary(ts[st.pos + 1].kind) && Binary(ts[st.pos + 3].kind)
    requires ts[st.pos + 5].kind == SEMICOLON
    ensures
      var p := st.pos;
      var a := Some(IntegerLiteral(IntAt(ts, p)));
      var b := Some(IntegerLiteral(IntAt(ts, p + 2)));
      var c := Some(IntegerLiteral(IntAt(ts, p + 4)));
      var op1 := TextAt(ts, p + 1);
      var op2 := TextAt(ts, p + 3);
      ParseExpression(ts, st, Level(P_LOWEST)) ==
        Parsed(
          if LevelOf(ts[p + 1].kind) < LevelOf(ts[p + 3].kind)
          then Some(InfixExpression(a, op1, Some(InfixExpression(b, op2, c))))
          else Some(InfixExpression(Some(InfixExpression(a, op1, b)), op2, c)),
          st.(pos := p + 4))
  {
    if LevelOf(ts[st.pos + 1].kind) < LevelOf(ts[st.pos + 3].kind) {
      GroupsRight(ts, st);
    } else {
      GroupsLeft(ts, st);
    }
  }

  /** The first operator and its right operand, parsed at the operator's level. */
  lemma FirstOperator(ts: seq<Token>, st: PState)
    requires Inside(ts, st) && st.pos + 2 < |ts|
    requires ts[st.pos].kind == INT && Binary(ts[st.pos + 1].kind)
    ensures var right := ParseExpression(ts, st.(pos := st.pos + 2), LevelOf(ts[st.pos + 1].kind));
      ParseExpression(ts, st, Level(P_LOWEST)) == InfixLoop(ts, right.st, Level(P_LOWEST),
        Some(InfixExpression(Some(IntegerLiteral(IntAt(ts, st.pos))), TextAt(ts, st.pos + 1), right.value)))
  {
    var p := st.pos;
    LeveledKinds(ts[p + 1].kind);
    assert KindAt(ts, p + 1) == ts[p + 1].kind;
    assert ParseExpression(ts, st, Level(P_LOWEST)) == InfixLoop(ts, st, Level(P_LOWEST), Some(IntegerLiteral(IntAt(ts, p))));
    LoopTakes(ts, st, Level(P_LOWEST), Some(IntegerLiteral(IntAt(ts, p))));
  }

  /** `a op1 b op2 c ;` with op2 binding tighter: `a op1 (b op2 c)`. */
  lemma GroupsRight(ts: seq<Token>, st: PState)
    requires Inside(ts, st) && st.pos + 5 < |ts|
    requires ts[st.pos].kind == INT && ts[st.pos + 2].kind == INT && ts[st.pos + 4].kind == INT
    requires Binary(ts[st.pos + 1].kind) && Binary(ts[st.pos + 3].kind)
    requires ts[st.pos + 5].kind == SEMICOLON
    requires LevelOf(ts[st.pos + 1].kind) < LevelOf(ts[st.pos + 3].kind)
    ensures var p := st.pos;
      var bc := Some(InfixExpression(Some(IntegerLiteral(IntAt(ts, p + 2))), TextAt(ts, p + 3), Some(IntegerLiteral(IntAt(ts, p + 4)))));
      ParseExpression(ts, st, Level(P_LOWEST)) ==
        Parsed(Some(InfixExpression(Some(IntegerLiteral(IntAt(ts, p))), TextAt(ts, p + 1), bc)), st.(pos := p + 4))
  {
    var p := st.pos;
    var s2, s4 := st.(pos := p + 2), st.(pos := p + 4);
    var bc := Some(InfixExpression(Some(IntegerLiteral(IntAt(ts, p + 2))), TextAt(ts, p + 3), Some(IntegerLiteral(IntAt(ts, p + 4)))));
    var abc := Some(InfixExpression(Some(IntegerLiteral(IntAt(ts, p))), TextAt(ts, p + 1), bc));
    assert s2.pos + 1 == p + 3 && s2.pos + 3 == p + 5;
    RightOperandTakes(ts, s2, LevelOf(ts[p + 1].kind));
    assert s2.(pos := s2.pos + 2) == s4;
    assert KindAt(ts, p + 5) == SEMICOLON;
    LoopStops(ts, s4, Level(P_LOWEST), abc);
    FirstOperator(ts, st);
  }

  /** `a op1 b op2 c ;` with op2 not binding tighter: `(a op1 b) op2 c`. */
  lemma GroupsLeft(ts: seq<Token>, st: PState)
    requires Inside(ts, st) && st.pos + 5 < |ts|
    requires ts[st.pos].kind == INT && ts[st.pos + 2].kind == INT && ts[st.pos + 4].kind == INT
    requires Binary(ts[st.pos + 1].kind) && Binary(ts[st.pos + 3].kind)
    requires ts[st.pos + 5].kind == SEMICOLON
    requires LevelOf(ts[st.pos + 3].kind) <= LevelOf(ts[st.pos + 1].kind)
    ensures var p := st.pos;
      var ab := Some(InfixExpression(Some(IntegerLiteral(IntAt(ts, p))), TextAt(ts, p + 1), Some(IntegerLiteral(IntAt(ts, p + 2)))));
      ParseExpression(ts, st, Level(P_LOWEST)) ==
        Parsed(Some(InfixExpression(ab, TextAt(ts, p + 3), Some(IntegerLiteral(IntAt(ts, p + 4))))), st.(pos := p + 4))
  {
    var p := st.pos;
    FirstOperator(ts, st);
    var ab := Some(InfixExpression(Some(IntegerLiteral(IntAt(ts, p))), TextAt(ts, p + 1), Some(IntegerLiteral(IntAt(ts, p + 2)))));
    RightOperandStops(ts, st.(pos := p + 2), LevelOf(ts[p + 1].kind), ab);
  }

  /** `b op2 c ;` after an operator op2 binds tighter than: the right operand is `b op2 c`. */
  lemma RightOperandTakes(ts: seq<Token>, st: PState, precedence: nat)
    requires Inside(ts, st) && st.pos + 3 < |ts|
    requires ts[st.pos].kind == INT && ts[st.pos + 2].kind == INT && ts[st.pos + 3].kind == SEMICOLON
    requires Binary(ts[st.pos + 1].kind) && precedence < LevelOf(ts[st.pos + 1].kind)
    ensures ParseExpression(ts, st, precedence) ==
      Parsed(Some(InfixExpression(Some(IntegerLiteral(IntAt(ts, st.pos))), TextAt(ts, st.pos + 1),
                                  Some(IntegerLiteral(IntAt(ts, st.pos + 2))))),
             st.(pos := st.pos + 2))
  {
    var p := st.pos;
    var b := Some(IntegerLiteral(IntAt(ts, p)));
    assert KindAt(ts, p + 1) == ts[p + 1].kind && KindAt(ts, p + 3) == SEMICOLON;
    assert ParseExpression(ts, st, precedence) == InfixLoop(ts, st, precedence, b);
    LoopTakes(ts, st, precedence, b);
    AtomParses(ts, st.(pos := p + 2), LevelOf(ts[p + 1].kind));
    LoopStops(ts, st.(pos := p + 2), precedence, Some(InfixExpression(b, TextAt(ts, p + 1), Some(IntegerLiteral(IntAt(ts, p + 2))))));
  }

  /**
   * `b op2 c ;` after an operator op2 does not bind tighter than: the
   * right operand is `b`, and the outer loop then takes `op2 c`.
   */
  lemma RightOperandStops(ts: seq<Token>, st: PState, precedence: nat, left: Option<Node>)
    requires Inside(ts, st) && st.pos + 3 < |ts|
    requires ts[st.pos].kind == INT && ts[st.pos + 2].kind == INT && ts[st.pos + 3].kind == SEMICOLON
    requires Binary(ts[st.pos + 1].kind) && LevelOf(ts[st.pos + 1].kind) <= precedence
    ensures ParseExpression(ts, st, precedence) == Parsed(Some(IntegerLiteral(IntAt(ts, st.pos))), st)
    ensures InfixLoop(ts, st, Level(P_LOWEST), left) ==
      Parsed(Some(InfixExpression(left, TextAt(ts, st.pos + 1), Some(IntegerLiteral(IntAt(ts, st.pos + 2))))),
             st.(pos := st.pos + 2))
  {
    assert KindAt(ts, st.pos + 1) == ts[st.pos + 1].kind;
    AtomParses(ts, st, precedence);
    OperandLast(ts, st, left);
  }

  /** `1 + 2 * 3 ;` parses as `1 + (2 * 3)`. */
  lemma ProductInsideSum(ts: seq<Token>, st: PState)
    requires Inside(ts, st) && st.pos + 5 < |ts|
    requires ts[st.pos].kind == INT && ts[st.pos + 2].kind == INT && ts[st.pos + 4].kind == INT
    requires ts[st.pos + 1].kind == PLUS && ts[st.pos + 3].kind == MULTIPLY && ts[st.pos + 5].kind == SEMICOLON
    ensures var e := ParseExpression(ts, st, Level(P_LOWEST)).value;
      e.Some? && e.value.InfixExpression? && e.value.left == Some(IntegerLiteral(IntAt(ts, st.pos)))
      && e.value.right.Some? && e.value.right.value.InfixExpression?
  {
    Grouping(ts, st);
  }

  /** `2 ^ 3 ^ 2 ;` parses as `(2 ^ 3) ^ 2`: '^' is left-associative here. */
  lemma PowerGroupsLeft(ts: seq<Token>, st: PState)
    requires Inside(ts, st) && st.pos + 5 < |ts|
    requires ts[st.pos].kind == INT && ts[st.pos + 2].kind == INT && ts[st.pos + 4].kind == INT
    requires ts[st.pos + 1].kind == POW && ts[st.pos + 3].kind == POW && ts[st.pos + 5].kind == SEMICOLON
    ensures var e := ParseExpression(ts, st, Level(P_LOWEST)).value;
      e.Some? && e.value.InfixExpression? && e.value.right == Some(IntegerLiteral(IntAt(ts, st.pos + 4)))
      && e.value.left.Some? && e.value.left.value.InfixExpression?
  {
    Grouping(ts, st);
  }

  // ---------------------------------------------------------------------
  // Grouped expressions and assignments

  /**
   * `( expression )` is the inner expression, parsed at LOWEST, ending on
   * the ')'; without the ')' it is dropped with one error.
   */
  lemma GroupedParses(ts: seq<Token>, st: PState)
    requires Inside(ts, st) && Cur(ts, st).kind == LPAREN
    ensures var e := ParseExpression(ts, st.(pos := st.pos + 1), Level(P_LOWEST));
      var r := ParseGrouped(ts, st);
      && (Peek(ts, e.st).kind == RPAREN ==> r == Parsed(e.value, e.st.(pos := e.st.pos + 1)))
      && (Peek(ts, e.st).kind != RPAREN ==>
            r == Parsed(None, e.st.(errors := e.st.errors + [PeekError(RPAREN, Peek(ts, e.st).kind)])))
  {
    assert Advance(ts, st) == st.(pos := st.pos + 1);
  }

  /**
   * `op n` followed by ')' or ';' after a left operand: the loop takes the
   * operator and the number, and stops on the number.
   */
  lemma OperandLast(ts: seq<Token>, st: PState, left: Option<Node>)
    requires Inside(ts, st) && st.pos + 3 < |ts|
    requires Binary(ts[st.pos + 1].kind) && ts[st.pos + 2].kind == INT
    requires ts[st.pos + 3].kind == RPAREN || ts[st.pos + 3].kind == SEMICOLON
    ensures InfixLoop(ts, st, Level(P_LOWEST), left) ==
      Parsed(Some(InfixExpression(left, TextAt(ts, st.pos + 1), Some(IntegerLiteral(IntAt(ts, st.pos + 2))))),
             st.(pos := st.pos + 2))
  {
    var p := st.pos;
    var s2 := st.(pos := p + 2);
    var b := Some(IntegerLiteral(IntAt(ts, p + 2)));
    LeveledKinds(ts[p + 1].kind);
    assert s2.pos + 1 == p + 3 && KindAt(ts, p + 3) == ts[p + 3].kind && LevelOf(RPAREN) == Level(P_LOWEST);
    AtomParses(ts, s2, LevelOf(ts[p + 1].kind));
    assert ParseExpression(ts, s2, LevelOf(ts[p + 1].kind)) == Parsed(b, s2);
    LoopStops(ts, s2, Level(P_LOWEST), Some(InfixExpression(left, TextAt(ts, p + 1), b)));
    assert KindAt(ts, p + 1) == ts[p + 1].kind;
    LoopTakes(ts, st, Level(P_LOWEST), left);
  }

  /** `a op b )` is one infix node over the two literals, ending before the ')'. */
  lemma PairParses(ts: seq<Token>, st: PState)
    requires Inside(ts, st) && st.pos + 3 < |ts|
    requires ts[st.pos].kind == INT && Binary(ts[st.pos + 1].kind) && ts[st.pos + 2].kind == INT
    requires ts[st.pos + 3].kind == RPAREN
    ensures ParseExpression(ts, st, Level(P_LOWEST)) ==
      Parsed(Some(InfixExpression(Some(IntegerLiteral(IntAt(ts, st.pos))), TextAt(ts, st.pos + 1),
                                  Some(IntegerLiteral(IntAt(ts, st.pos + 2))))),
             st.(pos := st.pos + 2))
  {
    var a := Some(IntegerLiteral(IntAt(ts, st.pos)));
    assert ParseExpression(ts, st, Level(P_LOWEST)) == InfixLoop(ts, st, Level(P_LOWEST), a);
    OperandLast(ts, st, a);
  }

  /** `( a op b )` parses as the pair's node, with the loop going on from the ')'. */
  lemma GroupedPairFirst(ts: seq<Token>, st: PState)
    requires Inside(ts, st) && st.pos + 4 < |ts|
    requires ts[st.pos].kind == LPAREN && ts[st.pos + 4].kind == RPAREN
    requires ts[st.pos + 1].kind == INT && ts[st.pos + 3].kind == INT && Binary(ts[st.pos + 2].kind)
    ensures
      var p := st.pos;
      var ab := Some(InfixExpression(Some(IntegerLiteral(IntAt(ts, p + 1))), TextAt(ts, p + 2),
                                     Some(IntegerLiteral(IntAt(ts, p + 3)))));
      ParseExpression(ts, st, Level(P_LOWEST)) == InfixLoop(ts, st.(pos := p + 4), Level(P_LOWEST), ab)
  {
    PairParses(ts, st.(pos := st.pos + 1));
    GroupedParses(ts, st);
  }

  /**
   * `( a op1 b ) op2 c ;` groups the parenthesised pair first, whatever
   * the two operators' levels.
   */
  lemma ParenthesesGroupFirst(ts: seq<Token>, st: PState)
    requires Inside(ts, st) && st.pos + 7 < |ts|
    requires ts[st.pos].kind == LPAREN && ts[st.pos + 4].kind == RPAREN && ts[st.pos + 7].kind == SEMICOLON
    requires ts[st.pos + 1].kind == INT && ts[st.pos + 3].kind == INT && ts[st.pos + 6].kind == INT
    requires Binary(ts[st.pos + 2].kind) && Binary(ts[st.pos + 5].kind)
    ensures
      var p := st.pos;
      var a := Some(IntegerLiteral(IntAt(ts, p + 1)));
      var b := Some(IntegerLiteral(IntAt(ts, p + 3)));
      var c := Some(IntegerLiteral(IntAt(ts, p + 6)));
      ParseExpression(ts, st, Level(P_LOWEST)) ==
        Parsed(Some(InfixExpression(Some(InfixExpression(a, TextAt(ts, p + 2), b)), TextAt(ts, p + 5), c)),
               st.(pos := p + 6))
  {
    var p := st.pos;
    var ab := Some(InfixExpression(Some(IntegerLiteral(IntAt(ts, p + 1))), TextAt(ts, p + 2),
                                   Some(IntegerLiteral(IntAt(ts, p + 3)))));
    GroupedPairFirst(ts, st);
    OperandLast(ts, st.(pos := p + 4), ab);
  }

  /**
   * `NAME = value` assigns the value parsed at LOWEST two tokens on to
   * NAME's text, and moves one token past the value: onto the ';' when
   * one follows.
   */
  lemma AssignmentParses(ts: seq<Token>, st: PState)
    requires Inside(ts, st) && Cur(ts, st).kind == IDENTIFIER && Peek(ts, st).kind == EQ
    ensures var e := ParseExpression(ts, st.(pos := st.pos + 2), Level(P_LOWEST));
      var r := ParseAssignment(ts, st);
      && r == Parsed(Some(AssignStatement(TextAt(ts, st.pos), e.value)), Advance(ts, e.st))
      && (Peek(ts, e.st).kind == SEMICOLON ==> Cur(ts, r.st).kind == SEMICOLON)
  {
    PeekKind(ts, st);
    assert Advance(ts, Advance(ts, st)) == st.(pos := st.pos + 2);
  }

  // ---------------------------------------------------------------------
  // If branches

  /**
   * After the consequence block: no `else` keeps the statement without an
   * alternative; `else {` adds the alternative block; `else` without '{'
   * drops the statement with one error.
   */
  lemma IfBranchesCases(ts: seq<Token>, st: PState, condition: Option<Node>)
    requires Inside(ts, st) && Cur(ts, st).kind == LBRACE
    ensures var cons := ParseBlock(ts, st); var q := cons.st.pos; var r := IfBranches(ts, st, condition);
      && (KindAt(ts, q + 1) != ELSE ==> r == Parsed(Some(IfStatement(condition, cons.value, None)), cons.st))
      && (KindAt(ts, q + 1) == ELSE && KindAt(ts, q + 2) != LBRACE ==>
            r == Parsed(None, cons.st.(pos := q + 1, errors := cons.st.errors + [PeekError(LBRACE, KindAt(ts, q + 2))])))
      && (KindAt(ts, q + 1) == ELSE && KindAt(ts, q + 2) == LBRACE ==>
            var alt := ParseBlock(ts, cons.st.(pos := q + 2));
            r == Parsed(Some(IfStatement(condition, cons.value, Some(alt.value))), alt.st))
  {
    var cons := ParseBlock(ts, st);
    var q := cons.st.pos;
    PeekKind(ts, cons.st);
    if KindAt(ts, q + 1) == ELSE {
      var s := Advance(ts, cons.st);
      assert s == cons.st.(pos := q + 1);
      PeekKind(ts, s);
      var b := ExpectPeek(ts, s, LBRACE);
      if b.value {
        assert b.st == cons.st.(pos := q + 2);
      }
    }
  }
}

/**
 * Properties of the parser functions: statement dispatch, the let shape and
 * its error recovery, empty lists, the prefix table's keys, and the fact
 * that no list literal can come out of a stream without '['.
 */
module ParserFacts {
  import opened Wrappers
  import opened TokenTypes
  import opened Tokens
  import opened Precedences
  import opened Ast
  import opened ParserSpec
  import Scanning

  // ---------------------------------------------------------------------
  // The prefix table's keys

  /** The member names the prefix table's keys are written with, in order. */
  function PrefixNames(): seq<string> {
    ["IDENTIFIER", "INT", "FLOAT", "LPAREN", "IF", "TRUE", "FALSE", "STR", "LBRACKET", "LBRACE"]
  }

  /**
   * The table's keys as the parser's constructor evaluates them, on the
   * enumeration as declared: the first name that is not a member raises
   * (None), and with it the constructor.
   */
  function PrefixKeysAsWritten(names: seq<string>): (r: Option<seq<TokenType>>)
    ensures r.Some? ==> |r.value| == |names| && forall i :: 0 <= i < |names| ==> Declared(r.value[i])
    ensures r.None? ==> exists i :: 0 <= i < |names| && DeclaredAttribute(names[i]).None?
  {
    if names == [] then Some([])
    else
      match DeclaredAttribute(names[0])
      case None => None
      case Some(k) =>
        match PrefixKeysAsWritten(names[1..])
        case None => assert forall i :: 0 <= i < |names| - 1 ==> names[1..][i] == names[i + 1]; None
        case Some(ks) => Some([k] + ks)
  }

  /** The same keys on the enumeration with LBRACKET and RBRACKET added. */
  function PrefixKeys(names: seq<string>): (r: Option<seq<TokenType>>)
    ensures r.Some? ==> |r.value| == |names| && forall i :: 0 <= i < |names| ==> ByName(names[i]) == Some(r.value[i])
  {
    if names == [] then Some([])
    else
      match ByName(names[0])
      case None => None
      case Some(k) =>
        match PrefixKeys(names[1..])
        case None => None
        case Some(ks) => Some([k] + ks)
  }

  /** One name that is not a declared member makes the whole evaluation raise. */
  lemma {:induction false} AsWrittenRaisesAt(names: seq<string>, i: nat)
    requires i < |names| && DeclaredAttribute(names[i]).None?
    ensures PrefixKeysAsWritten(names) == None
    decreases i
  {
    if 0 < i {
      AsWrittenRaisesAt(names[1..], i - 1);
    }
  }

  /** Names looked up one by one give back the kinds they name. */
  lemma {:induction false} KeysOfNames(names: seq<string>, ks: seq<TokenType>)
    requires |names| == |ks| && forall i :: 0 <= i < |ks| ==> names[i] == Name(ks[i])
    ensures PrefixKeys(names) == Some(ks)
    decreases |ks|
  {
    if ks != [] {
      NameLookupRoundTrip(ks[0]);
      KeysOfNames(names[1..], ks[1..]);
      assert ks == [ks[0]] + ks[1..];
    }
  }

  /** As written, building the prefix table raises: LBRACKET is not a declared member. */
  lemma PrefixTableRaises()
    ensures DeclaredAttribute("LBRACKET").None?
    ensures PrefixKeysAsWritten(PrefixNames()) == None
  {
    NameLookupRoundTrip(LBRACKET);
    AsWrittenRaisesAt(PrefixNames(), 8);
  }

  /**
   * With LBRACKET declared, every key resolves and the table's kinds are
   * exactly those `HasPrefix` accepts.
   */
  lemma PrefixTableBuilds()
    ensures PrefixKeys(PrefixNames()) == Some([IDENTIFIER, INT, FLOAT, LPAREN, IF, TRUE, FALSE, STR, LBRACKET, LBRACE])
    ensures forall k :: HasPrefix(k) <==> k in PrefixKeys(PrefixNames()).value
  {
    var ks := [IDENTIFIER, INT, FLOAT, LPAREN, IF, TRUE, FALSE, STR, LBRACKET, LBRACE];
    KeysOfNames(PrefixNames(), ks);
  }

  /** The kind at index `i`, with the final EOF repeated past the end. */
  function KindAt(ts: seq<Token>, i: nat): TokenType {
    if i < |ts| then ts[i].kind else EOF
  }

  lemma PeekKind(ts: seq<Token>, st: PState)
    requires Inside(ts, st)
    ensures Peek(ts, st).kind == KindAt(ts, st.pos + 1)
  {
  }

  /** A binary operator: an infix kind other than the call parenthesis. */
  predicate Binary(k: TokenType) {
    HasInfix(k) && k != LPAREN
  }

  // ---------------------------------------------------------------------
  // Statement dispatch

  /**
   * IDENTIFIER followed by '=' is an assignment whatever else holds; the
   * keywords pick their own parsers; any other start is an expression
   * statement.
   */
  lemma StatementDispatch(ts: seq<Token>, st: PState)
    requires Inside(ts, st)
    ensures var r := ParseStatement(ts, st);
      && (Cur(ts, st).kind == IDENTIFIER && Peek(ts, st).kind == EQ ==>
            r.value.Some? && r.value.value.AssignStatement?)
      && (Cur(ts, st).kind == LET && r.value.Some? ==> r.value.value.LetStatement?)
      && (Cur(ts, st).kind == FN && r.value.Some? ==> r.value.value.FunctionStatement?)
      && (Cur(ts, st).kind == RETURN && r.value.Some? ==> r.value.value.ReturnStatement?)
      && (Cur(ts, st).kind == LBRACE ==> r.value.Some? && r.value.value.BlockStatement?)
      && (Cur(ts, st).kind != LET && Cur(ts, st).kind != FN && Cur(ts, st).kind != RETURN && Cur(ts, st).kind != LBRACE
          && !(Cur(ts, st).kind == IDENTIFIER && Peek(ts, st).kind == EQ) ==>
            r.value.Some? && r.value.value.ExpressionStatement?)
  {
  }

  // ---------------------------------------------------------------------
  // Let statements and error recovery

  /** The four tokens a let needs after the keyword: IDENTIFIER ':' TYPE '='. */
  predicate LetHeader(ts: seq<Token>, p: nat) {
    KindAt(ts, p + 1) == IDENTIFIER && KindAt(ts, p + 2) == COLON &&
    KindAt(ts, p + 3) == TYPE && KindAt(ts, p + 4) == EQ
  }

  /**
   * A let whose keyword is followed by IDENTIFIER ':' TYPE '=' parses to a
   * let statement carrying the identifier's text as name and the type's
   * text as declared type.
   */
  lemma LetParses(ts: seq<Token>, st: PState)
    requires Inside(ts, st) && Cur(ts, st).kind == LET && LetHeader(ts, st.pos)
    ensures var r := ParseLet(ts, st);
      && r.value.Some? && r.value.value.LetStatement?
      && r.value.value.name == TextAt(ts, st.pos + 1)
      && r.value.value.valueType == TextAt(ts, st.pos + 3)
  {
    var p := st.pos;
    PeekKind(ts, st);
    var a := ExpectPeek(ts, st, IDENTIFIER);
    assert a.value && a.st.pos == p + 1;
    PeekKind(ts, a.st);
    var b := ExpectPeek(ts, a.st, COLON);
    assert b.value && b.st.pos == p + 2;
    PeekKind(ts, b.st);
    var c := ExpectPeek(ts, b.st, TYPE);
    assert c.value && c.st.pos == p + 3;
    PeekKind(ts, c.st);
    var d := ExpectPeek(ts, c.st, EQ);
    assert d.value;
    assert ParseLet(ts, st) == LetValue(ts, d.st, Text(Cur(ts, a.st)), Text(Cur(ts, c.st)));
  }

  /**
   * Any other let records exactly one error, about the first token out of
   * place, and yields no statement.
   */
  lemma LetRejects(ts: seq<Token>, st: PState)
    requires Inside(ts, st) && Cur(ts, st).kind == LET && !LetHeader(ts, st.pos)
    ensures var r := ParseLet(ts, st);
      r.value.None? && |r.st.errors| == |st.errors| + 1 && st.errors <= r.st.errors
  {
    var p := st.pos;
    PeekKind(ts, st);
    var a := ExpectPeek(ts, st, IDENTIFIER);
    if !a.value {
      assert ParseLet(ts, st) == Parsed(None, a.st);
      return;
    }
    assert a.st.pos == p + 1;
    PeekKind(ts, a.st);
    var b := ExpectPeek(ts, a.st, COLON);
    if !b.value {
      assert ParseLet(ts, st) == Parsed(None, b.st);
      return;
    }
    assert b.st.pos == p + 2;
    PeekKind(ts, b.st);
    var c := ExpectPeek(ts, b.st, TYPE);
    if !c.value {
      assert ParseLet(ts, st) == Parsed(None, c.st);
      return;
    }
    assert c.st.pos == p + 3;
    PeekKind(ts, c.st);
    var d := ExpectPeek(ts, c.st, EQ);
    assert !d.value;
    assert ParseLet(ts, st) == Parsed(None, d.st);
  }

  /**
   * A return statement is kept exactly when a ';' follows its value, and
   * then it ends on that ';'; otherwise one error names the token found.
   */
  lemma ReturnNeedsSemicolon(ts: seq<Token>, st: PState)
    requires Inside(ts, st) && Cur(ts, st).kind == RETURN
    ensures var e := ParseExpression(ts, Advance(ts, st), Level(P_LOWEST));
      var r := ParseReturn(ts, st);
      && (r.value.Some? <==> Peek(ts, e.st).kind == SEMICOLON)
      && (r.value.Some? ==> r.value.value == ReturnStatement(e.value) && Cur(ts, r.st).kind == SEMICOLON)
      && (r.value.None? ==> r.st.errors == e.st.errors + [PeekError(SEMICOLON, Peek(ts, e.st).kind)])
  {
  }

  /**
   * An if statement needs '{' after its condition; when it is kept, it
   * holds that condition.
   */
  lemma IfNeedsBrace(ts: seq<Token>, st: PState)
    requires Inside(ts, st) && Cur(ts, st).kind == IF
    ensures var c := ParseExpression(ts, Advance(ts, st), Level(P_LOWEST));
      var r := ParseIf(ts, st);
      && (Peek(ts, c.st).kind != LBRACE ==>
            r == Parsed(None, c.st.(errors := c.st.errors + [PeekError(LBRACE, Peek(ts, c.st).kind)])))
      && (r.value.Some? ==> r.value.value.IfStatement? && r.value.value.condition == c.value)
  {
    var c := ParseExpression(ts, Advance(ts, st), Level(P_LOWEST));
    var a := ExpectPeek(ts, c.st, LBRACE);
    if a.value {
      assert ParseIf(ts, st) == IfBranches(ts, a.st, c.value);
    }
  }

  /** `fn` must be followed by a name: otherwise one error, and no statement. */
  lemma FunctionNeedsName(ts: seq<Token>, st: PState)
    requires Inside(ts, st) && Peek(ts, st).kind != IDENTIFIER
    ensures ParseFunction(ts, st) == Parsed(None, st.(errors := st.errors + [PeekError(IDENTIFIER, Peek(ts, st).kind)]))
  {
  }

  /** A token without a prefix parse function records one error and parses to nothing. */
  lemma NoPrefixRecordsError(ts: seq<Token>, st: PState, precedence: nat)
    requires Inside(ts, st) && !HasPrefix(Cur(ts, st).kind)
    ensures ParseExpression(ts, st, precedence)
      == Parsed(None, st.(errors := st.errors + [NoPrefixError(Cur(ts, st).kind)]))
  {
  }

  /** `()` gives no parameters and `f()` no arguments, each ending on ')'. */
  lemma EmptyLists(ts: seq<Token>, st: PState)
    requires Inside(ts, st) && Cur(ts, st).kind != EOF && Peek(ts, st).kind == RPAREN
    ensures ParseParameters(ts, st) == Parsed(Some([]), Advance(ts, st))
    ensures ParseExpressionList(ts, st, RPAREN) == Parsed(Arguments([]), Advance(ts, st))
  {
  }

  // ---------------------------------------------------------------------
  // No list literal without '['

  /** No '[' anywhere in the stream. */
  predicate NoBrackets(ts: seq<Token>) {
    forall i :: 0 <= i < |ts| ==> ts[i].kind != LBRACKET
  }

  predicate NoneHasList(ss: seq<Node>) {
    forall i :: 0 <= i < |ss| ==> !HasList(ss[i])
  }

  predicate NoSlotHasList(os: seq<Option<Node>>) {
    forall i :: 0 <= i < |os| ==> !SlotHasList(os[i])
  }

  lemma {:induction false} ProgramFromHasNoList(ts: seq<Token>, st: PState, acc: seq<Node>)
    requires Inside(ts, st) && NoBrackets(ts) && NoneHasList(acc)
    ensures NoneHasList(ProgramFrom(ts, st, acc).value)
    decreases |ts| - st.pos, 6
  {
    if Cur(ts, st).kind != EOF {
      var s := ParseStatement(ts, st);
      StatementHasNoList(ts, st);
      ProgramFromHasNoList(ts, Advance(ts, s.st), if s.value.Some? then acc + [s.value.value] else acc);
    }
  }

  lemma {:induction false} StatementHasNoList(ts: seq<Token>, st: PState)
    requires Inside(ts, st) && NoBrackets(ts)
    ensures !SlotHasList(ParseStatement(ts, st).value)
    decreases |ts| - st.pos, 4
  {
    var k := Cur(ts, st).kind;
    if k == IDENTIFIER && Peek(ts, st).kind == EQ {
      AssignmentHasNoList(ts, st);
    } else if k == LET {
      LetHasNoList(ts, st);
    } else if k == FN {
      FunctionHasNoList(ts, st);
    } else if k == RETURN {
      ReturnHasNoList(ts, st);
    } else if k == LBRACE {
      BlockHasNoList(ts, st);
    } else {
      ExpressionStatementHasNoList(ts, st);
    }
  }

  lemma {:induction false} ExpressionStatementHasNoList(ts: seq<Token>, st: PState)
    requires Inside(ts, st) && NoBrackets(ts)
    ensures !SlotHasList(ParseExpressionStatement(ts, st).value)
    decreases |ts| - st.pos, 3
  {
    ExpressionHasNoList(ts, st, Level(P_LOWEST));
  }

  lemma {:induction false} LetHasNoList(ts: seq<Token>, st: PState)
    requires Inside(ts, st) && NoBrackets(ts)
    ensures !SlotHasList(ParseLet(ts, st).value)
    decreases |ts| - st.pos, 0
  {
    var a := ExpectPeek(ts, st, IDENTIFIER);
    if a.value {
      var b := ExpectPeek(ts, a.st, COLON);
      if b.value {
        var c := ExpectPeek(ts, b.st, TYPE);
        if c.value {
          var d := ExpectPeek(ts, c.st, EQ);
          if d.value {
            ExpressionHasNoList(ts, Advance(ts, d.st), Level(P_LOWEST));
          }
        }
      }
    }
  }

  lemma {:induction false} FunctionHasNoList(ts: seq<Token>, st: PState)
    requires Inside(ts, st) && NoBrackets(ts)
    ensures !SlotHasList(ParseFunction(ts, st).value)
    decreases |ts| - st.pos, 0
  {
    var a := ExpectPeek(ts, st, IDENTIFIER);
    if a.value {
      var b := ExpectPeek(ts, a.st, LPAREN);
      if b.value {
        var ps := ParseParameters(ts, b.st);
        var c := ExpectPeek(ts, ps.st, ARROW);
        if c.value {
          var d := ExpectPeek(ts, c.st, TYPE);
          if d.value {
            var e := ExpectPeek(ts, d.st, LBRACE);
            if e.value {
              BlockHasNoList(ts, e.st);
            }
          }
        }
      }
    }
  }

  lemma {:induction false} ReturnHasNoList(ts: seq<Token>, st: PState)
    requires Inside(ts, st) && NoBrackets(ts) && Cur(ts, st).kind == RETURN
    ensures !SlotHasList(ParseReturn(ts, st).value)
    decreases |ts| - st.pos, 0
  {
    ExpressionHasNoList(ts, Advance(ts, st), Level(P_LOWEST));
  }

  lemma {:induction false} BlockHasNoList(ts: seq<Token>, st: PState)
    requires Inside(ts, st) && NoBrackets(ts) && Cur(ts, st).kind == LBRACE
    ensures !HasList(ParseBlock(ts, st).value)
    decreases |ts| - st.pos, 0
  {
    BlockFromHasNoList(ts, Advance(ts, st), []);
  }

  lemma {:induction false} BlockFromHasNoList(ts: seq<Token>, st: PState, acc: seq<Node>)
    requires Inside(ts, st) && NoBrackets(ts) && NoneHasList(acc)
    ensures NoneHasList(BlockFrom(ts, st, acc).value)
    decreases |ts| - st.pos, 5
  {
    if Cur(ts, st).kind != RBRACE && Cur(ts, st).kind != EOF {
      var s := ParseStatement(ts, st);
      StatementHasNoList(ts, st);
      BlockFromHasNoList(ts, Advance(ts, s.st), if s.value.Some? then acc + [s.value.value] else acc);
    }
  }

  lemma {:induction false} AssignmentHasNoList(ts: seq<Token>, st: PState)
    requires Inside(ts, st) && NoBrackets(ts) && Cur(ts, st).kind == IDENTIFIER && Peek(ts, st).kind == EQ
    ensures !SlotHasList(ParseAssignment(ts, st).value)
    decreases |ts| - st.pos, 0
  {
    ExpressionHasNoList(ts, Advance(ts, Advance(ts, st)), Level(P_LOWEST));
  }

  lemma {:induction false} IfHasNoList(ts: seq<Token>, st: PState)
    requires Inside(ts, st) && NoBrackets(ts) && Cur(ts, st).kind == IF
    ensures !SlotHasList(ParseIf(ts, st).value)
    decreases |ts| - st.pos, 0
  {
    var c := ParseExpression(ts, Advance(ts, st), Level(P_LOWEST));
    ExpressionHasNoList(ts, Advance(ts, st), Level(P_LOWEST));
    var a := ExpectPeek(ts, c.st, LBRACE);
    if a.value {
      IfBranchesHaveNoList(ts, a.st, c.value);
    }
  }

  lemma {:induction false} IfBranchesHaveNoList(ts: seq<Token>, st: PState, condition: Option<Node>)
    requires Inside(ts, st) && NoBrackets(ts) && Cur(ts, st).kind == LBRACE && !SlotHasList(condition)
    ensures !SlotHasList(IfBranches(ts, st, condition).value)
    decreases |ts| - st.pos, 1
  {
    var cons := ParseBlock(ts, st);
    BlockHasNoList(ts, st);
    if Peek(ts, cons.st).kind == ELSE {
      var b := ExpectPeek(ts, Advance(ts, cons.st), LBRACE);
      if b.value {
        var alt := ParseBlock(ts, b.st);
        BlockHasNoList(ts, b.st);
        assert !HasList(IfStatement(condition, cons.value, Some(alt.value)));
      }
    } else {
      assert !HasList(IfStatement(condition, cons.value, None));
    }
  }

  lemma {:induction false} ExpressionHasNoList(ts: seq<Token>, st: PState, precedence: nat)
    requires Inside(ts, st) && NoBrackets(ts)
    ensures !SlotHasList(ParseExpression(ts, st, precedence).value)
    decreases |ts| - st.pos, 2
  {
    if HasPrefix(Cur(ts, st).kind) {
      var left := ParsePrefix(ts, st);
      PrefixHasNoList(ts, st);
      InfixLoopHasNoList(ts, left.st, precedence, left.value);
    }
  }

  lemma {:induction false} PrefixHasNoList(ts: seq<Token>, st: PState)
    requires Inside(ts, st) && NoBrackets(ts) && HasPrefix(Cur(ts, st).kind)
    ensures !SlotHasList(ParsePrefix(ts, st).value)
    decreases |ts| - st.pos, 1
  {
    var k := Cur(ts, st).kind;
    if k == LPAREN {
      GroupedHasNoList(ts, st);
    } else if k == IF {
      IfHasNoList(ts, st);
    } else if k == LBRACE {
      BlockHasNoList(ts, st);
    }
  }

  lemma {:induction false} InfixLoopHasNoList(ts: seq<Token>, st: PState, precedence: nat, left: Option<Node>)
    requires Inside(ts, st) && NoBrackets(ts) && !SlotHasList(left)
    ensures !SlotHasList(InfixLoop(ts, st, precedence, left).value)
    decreases |ts| - st.pos, 1
  {
    if Peek(ts, st).kind != SEMICOLON && precedence < LevelOf(Peek(ts, st).kind) && HasInfix(Peek(ts, st).kind) {
      var next := ParseInfixOrCall(ts, Advance(ts, st), left);
      InfixOrCallHasNoList(ts, Advance(ts, st), left);
      InfixLoopHasNoList(ts, next.st, precedence, next.value);
    }
  }

  lemma {:induction false} InfixOrCallHasNoList(ts: seq<Token>, st: PState, left: Option<Node>)
    requires Inside(ts, st) && NoBrackets(ts) && HasInfix(Cur(ts, st).kind) && !SlotHasList(left)
    ensures !SlotHasList(ParseInfixOrCall(ts, st, left).value)
    decreases |ts| - st.pos, 3
  {
    if Cur(ts, st).kind == LPAREN {
      CallHasNoList(ts, st, left);
    } else {
      InfixHasNoList(ts, st, left);
    }
  }

  lemma {:induction false} InfixHasNoList(ts: seq<Token>, st: PState, left: Option<Node>)
    requires Inside(ts, st) && NoBrackets(ts) && HasInfix(Cur(ts, st).kind) && !SlotHasList(left)
    ensures !SlotHasList(ParseInfix(ts, st, left).value)
    decreases |ts| - st.pos, 0
  {
    ExpressionHasNoList(ts, Advance(ts, st), LevelOf(Cur(ts, st).kind));
  }

  lemma {:induction false} CallHasNoList(ts: seq<Token>, st: PState, callee: Option<Node>)
    requires Inside(ts, st) && NoBrackets(ts) && Cur(ts, st).kind == LPAREN && !SlotHasList(callee)
    ensures !SlotHasList(ParseCall(ts, st, callee).value)
    decreases |ts| - st.pos, 2
  {
    ExpressionListHasNoList(ts, st, RPAREN);
  }

  lemma {:induction false} ExpressionListHasNoList(ts: seq<Token>, st: PState, end: TokenType)
    requires Inside(ts, st) && NoBrackets(ts) && Cur(ts, st).kind != EOF
    ensures var r := ParseExpressionList(ts, st, end);
      r.value.Arguments? ==> NoSlotHasList(r.value.items)
    decreases |ts| - st.pos, 1
  {
    if Peek(ts, st).kind != end {
      var first := ParseExpression(ts, Advance(ts, st), Level(P_LOWEST));
      ExpressionHasNoList(ts, Advance(ts, st), Level(P_LOWEST));
      ExpressionsFromHasNoList(ts, first.st, end, [first.value]);
    }
  }

  lemma {:induction false} ExpressionsFromHasNoList(ts: seq<Token>, st: PState, end: TokenType, acc: seq<Option<Node>>)
    requires Inside(ts, st) && NoBrackets(ts) && NoSlotHasList(acc)
    ensures var r := ExpressionsFrom(ts, st, end, acc);
      r.value.Arguments? ==> NoSlotHasList(r.value.items)
    decreases |ts| - st.pos, 0
  {
    if Peek(ts, st).kind == COMMA {
      var e := ParseExpression(ts, Advance(ts, Advance(ts, st)), Level(P_LOWEST));
      ExpressionHasNoList(ts, Advance(ts, Advance(ts, st)), Level(P_LOWEST));
      ExpressionsFromHasNoList(ts, e.st, end, acc + [e.value]);
    }
  }

  lemma {:induction false} GroupedHasNoList(ts: seq<Token>, st: PState)
    requires Inside(ts, st) && NoBrackets(ts) && Cur(ts, st).kind == LPAREN
    ensures !SlotHasList(ParseGrouped(ts, st).value)
    decreases |ts| - st.pos, 0
  {
    ExpressionHasNoList(ts, Advance(ts, st), Level(P_LOWEST));
  }

  /** A program parsed from a stream without '[' holds no list literal anywhere. */
  lemma ProgramHasNoList(ts: seq<Token>)
    requires WellFormed(ts) && NoBrackets(ts)
    ensures NoneHasList(ParseProgram(ts).value.statements)
  {
    ProgramFromHasNoList(ts, PState(0, []), []);
  }

  /**
   * From source text to syntax tree: the lexer's output is a well-formed
   * stream without '[', so no program read from source has a list literal.
   */
  lemma SourceHasNoList(source: string)
    ensures WellFormed(Scanning.Tokenize(source)) && NoBrackets(Scanning.Tokenize(source))
    ensures NoneHasList(ParseProgram(Scanning.Tokenize(source)).value.statements)
  {
    var ts := Scanning.Tokenize(source);
    assert NoBrackets(ts) by {
      forall i | 0 <= i < |ts| ensures ts[i].kind != LBRACKET {
        assert Declared(ts[i].kind);
      }
    }
    ProgramHasNoList(ts);
  }
}

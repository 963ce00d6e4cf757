/**
 * The lexer's rules as functions of the source text and a cursor
 * (src/lexer/Lexer.py).  A cursor is the index of the current character
 * (`position`) and the line number (`line_no`); the current character is
 * `CharAt(source, position)`, which is None past the end.
 *
 * The class in module Lexing performs the same steps in place and is proved
 * to agree with these functions.
 */
module Scanning {
  import opened Wrappers
  import opened TokenTypes
  import opened Tokens
  import opened Numerals

  function CharAt(source: string, i: nat): Option<char> {
    if i < |source| then Some(source[i]) else None
  }

  predicate IsWhitespace(c: char) {
    c == ' ' || c == '\t' || c == '\n' || c == '\r'
  }

  /** `__is_letter`: an ASCII letter or '_'. */
  predicate IsLetter(c: char) {
    'a' <= c <= 'z' || 'A' <= c <= 'Z' || c == '_'
  }

  /** `str.isalnum`, restricted to ASCII letters and digits. */
  predicate IsAlnum(c: char) {
    'a' <= c <= 'z' || 'A' <= c <= 'Z' || IsDigit(c)
  }

  /** A character that continues an identifier. */
  predicate IsIdentifierPart(c: char) {
    IsLetter(c) || IsAlnum(c)
  }

  predicate IsNumberPart(c: char) {
    IsDigit(c) || c == '.'
  }

  /** The number of line feeds in `s`. */
  function Newlines(s: string): nat {
    multiset(s)['\n']
  }

  /**
   * `__skip_whitespace`: the cursor after the run of blanks at `position`,
   * with one more line for each line feed passed.
   */
  function SkipWhitespace(source: string, position: nat, lineNo: int): (r: (nat, int))
    ensures position <= r.0
    ensures position < r.0 ==> r.0 <= |source|
    ensures forall k :: position <= k < r.0 ==> k < |source| && IsWhitespace(source[k])
    ensures r.0 < |source| ==> !IsWhitespace(source[r.0])
    ensures r.0 == position ==> r.1 == lineNo
    decreases |source| - position
  {
    if position < |source| && IsWhitespace(source[position]) then
      SkipWhitespace(source, position + 1, if source[position] == '\n' then lineNo + 1 else lineNo)
    else
      (position, lineNo)
  }

  /** The skip adds one line for each line feed among the blanks it passes. */
  lemma {:induction false} SkipCountsNewlines(source: string, position: nat, lineNo: int)
    requires position <= |source|
    ensures var r := SkipWhitespace(source, position, lineNo);
      r.1 == lineNo + Newlines(source[position..r.0])
    decreases |source| - position
  {
    var r := SkipWhitespace(source, position, lineNo);
    if position < |source| && IsWhitespace(source[position]) {
      var line := if source[position] == '\n' then lineNo + 1 else lineNo;
      SkipCountsNewlines(source, position + 1, line);
      assert source[position..r.0] == [source[position]] + source[position + 1..r.0];
    } else {
      assert source[position..r.0] == [];
    }
  }

  /** One step of the whitespace skip: a blank under the cursor is passed, counting a newline. */
  lemma SkipOneBlank(source: string, position: nat, lineNo: int)
    requires position < |source| && IsWhitespace(source[position])
    ensures SkipWhitespace(source, position, lineNo)
         == SkipWhitespace(source, position + 1, if source[position] == '\n' then lineNo + 1 else lineNo)
  {
  }

  /** The one-character symbols that never look ahead. */
  function SymbolKind(c: char): Option<TokenType> {
    match c
    case '+' => Some(PLUS)
    case '*' => Some(MULTIPLY)
    case '/' => Some(DIVIDE)
    case '^' => Some(POW)
    case '%' => Some(MODULUS)
    case ';' => Some(SEMICOLON)
    case '(' => Some(LPAREN)
    case ')' => Some(RPAREN)
    case '{' => Some(LBRACE)
    case '}' => Some(RBRACE)
    case ':' => Some(COLON)
    case ',' => Some(COMMA)
    case _ => None
  }

  /**
   * The characters resolved by one character of lookahead: the character
   * that must follow, the kind of the pair, and the kind of the character
   * alone (a lone '!' is ILLEGAL).
   */
  datatype PairRule = PairRule(second: char, pair: TokenType, single: TokenType)

  function PairKind(c: char): Option<PairRule> {
    match c
    case '-' => Some(PairRule('>', ARROW, MINUS))
    case '<' => Some(PairRule('=', LT_EQ, LT))
    case '>' => Some(PairRule('=', GT_EQ, GT))
    case '=' => Some(PairRule('=', EQ_EQ, EQ))
    case '!' => Some(PairRule('=', NOT_EQ, ILLEGAL))
    case _ => None
  }

  /** `__read_identifier`: the end of the identifier characters from `i`. */
  function IdentifierEnd(source: string, i: nat): (e: nat)
    requires i <= |source|
    ensures i <= e <= |source|
    ensures forall k :: i <= k < e ==> IsIdentifierPart(source[k])
    ensures e == |source| || !IsIdentifierPart(source[e])
    decreases |source| - i
  {
    if i < |source| && IsIdentifierPart(source[i]) then IdentifierEnd(source, i + 1) else i
  }

  /**
   * The loop of `__read_number` from index `i` with `dots` points seen:
   * where it stops and how many points it has counted.  It stops either at
   * the first character that is neither a digit nor '.', or on a second '.'.
   */
  function NumberEnd(source: string, i: nat, dots: nat): (r: (nat, nat))
    requires i <= |source| && dots <= 1
    ensures i <= r.0 <= |source|
    decreases |source| - i
  {
    if i < |source| && IsNumberPart(source[i]) then
      var d := if source[i] == '.' then dots + 1 else dots;
      if d > 1 then (i, d) else NumberEnd(source, i + 1, d)
    else
      (i, dots)
  }

  /**
   * What the number loop has read: digits and points only; if it stopped on
   * its own, everything up to a non-number character, holding at most one
   * point; otherwise it stopped on a second point.
   */
  lemma {:induction false} NumberEndCounts(source: string, i: nat, dots: nat)
    requires i <= |source| && dots <= 1
    ensures var r := NumberEnd(source, i, dots);
      && (forall k :: i <= k < r.0 ==> IsNumberPart(source[k]))
      && (r.1 <= 1 ==> r.1 == dots + multiset(source[i..r.0])['.'])
      && (r.1 <= 1 ==> r.0 == |source| || !IsNumberPart(source[r.0]))
      && (r.1 > 1 ==> r.1 == 2 && r.0 < |source| && source[r.0] == '.'
                      && dots + multiset(source[i..r.0])['.'] == 1)
    decreases |source| - i
  {
    var r := NumberEnd(source, i, dots);
    if i < |source| && IsNumberPart(source[i]) {
      var d := if source[i] == '.' then dots + 1 else dots;
      if d <= 1 {
        NumberEndCounts(source, i + 1, d);
        assert source[i..r.0] == [source[i]] + source[i + 1..r.0];
      }
    }
  }

  /** The number loop stops at once on a character that is neither a digit nor a point. */
  lemma NumberEndAtStop(source: string, i: nat, dots: nat)
    requires i <= |source| && dots <= 1
    requires i == |source| || !IsNumberPart(source[i])
    ensures NumberEnd(source, i, dots) == (i, dots)
  {
  }

  /** One step of the number loop: a second '.' stops it, anything else moves on. */
  lemma NumberEndStep(source: string, i: nat, dots: nat)
    requires i < |source| && dots <= 1 && IsNumberPart(source[i])
    ensures var d := if source[i] == '.' then dots + 1 else dots;
      && (d > 1 ==> NumberEnd(source, i, dots) == (i, 2))
      && (d <= 1 ==> NumberEnd(source, i, dots) == NumberEnd(source, i + 1, d))
  {
  }

  /** A run of digits and points with no point in it is all digits. */
  lemma PointlessRunIsDigits(s: string)
    requires forall k :: 0 <= k < |s| ==> IsNumberPart(s[k])
    requires multiset(s)['.'] == 0
    ensures AllDigits(s)
  {
    forall k | 0 <= k < |s|
      ensures IsDigit(s[k])
    {
      assert s[k] in multiset(s);
    }
  }

  /**
   * `__read_number` from a digit at `start`: the kind and literal of the
   * token, and where the cursor stops.  An ILLEGAL token keeps the text
   * before the second '.', and the cursor stays on that '.'.
   */
  function ScanNumber(source: string, start: nat): (r: (TokenType, Literal, nat))
    requires start < |source| && IsDigit(source[start])
    ensures start < r.2 <= |source|
    ensures r.0 == INT || r.0 == FLOAT || r.0 == ILLEGAL
  {
    var run := NumberEnd(source, start, 0);
    var text := source[start..run.0];
    if run.1 > 1 then
      (ILLEGAL, StrLit(text), run.0)
    else if run.1 == 0 then
      NumberEndCounts(source, start, 0);
      PointlessRunIsDigits(text);
      (INT, IntLit(DigitsValue(text)), run.0)
    else
      (FLOAT, FloatLit(FloatText(text)), run.0)
  }

  /** The index of the first '"' at or after `i`, or the end of the source. */
  function StringEnd(source: string, i: nat): (e: nat)
    requires i <= |source|
    ensures i <= e <= |source|
    ensures forall k :: i <= k < e ==> source[k] != '"'
    ensures e == |source| || source[e] == '"'
    decreases |source| - i
  {
    if i < |source| && source[i] != '"' then StringEnd(source, i + 1) else i
  }

  /**
   * `__read_string` from the opening quote at `start`: the characters up to
   * the next quote or the end, and the cursor after the closing quote if there
   * is one.
   */
  function ScanString(source: string, start: nat): (r: (string, nat))
    requires start < |source| && source[start] == '"'
    ensures start < r.1 <= |source|
  {
    var e := StringEnd(source, start + 1);
    (source[start + 1..e], if e < |source| then e + 1 else e)
  }

  /** The result of one `next_token` call: the token and the cursor after it. */
  datatype Step = Step(token: Token, position: nat, lineNo: int)

  /** The kinds a token's literal agrees with: ints for INT, floats for FLOAT, else strings. */
  predicate LiteralFits(t: Token) {
    && (t.kind == INT <==> t.literal.IntLit?)
    && (t.kind == FLOAT <==> t.literal.FloatLit?)
  }

  /** Only the blanks are left from `position` on. */
  predicate AtEnd(source: string, position: nat) {
    forall k :: position <= k < |source| ==> IsWhitespace(source[k])
  }

  /**
   * `next_token`: skip blanks, then dispatch on the current character.  Each
   * token records the line and the position the cursor has when it is built.
   */
  function NextToken(source: string, position: nat, lineNo: int): (r: Step)
    ensures r.token.kind == EOF <==> AtEnd(source, position)
    ensures r.token.kind == EOF ==> r.token.literal == StrLit("")
    ensures r.token.kind != EOF ==> position < r.position <= |source|
    ensures Declared(r.token.kind) && LiteralFits(r.token)
  {
    var (p, line) := SkipWhitespace(source, position, lineNo);
    match CharAt(source, p)
    case None =>
      Step(Token(EOF, StrLit(""), line, p), p + 1, line)
    case Some(_) =>
      ScanToken(source, p, line)
  }

  /**
   * The dispatch of `next_token` on a character that is there: a string, a
   * one- or two-character operator, a word, a number, or ILLEGAL.
   */
  function ScanToken(source: string, p: nat, line: int): (r: Step)
    requires p < |source|
    ensures r.token.kind != EOF && p < r.position <= |source| && r.lineNo == line
    ensures Declared(r.token.kind) && LiteralFits(r.token)
  {
    var c := source[p];
    if c == '"' then
      var (s, q) := ScanString(source, p);
      Step(Token(STR, StrLit(s), line, q), q, line)
    else if SymbolKind(c).Some? then
      Step(Token(SymbolKind(c).value, StrLit([c]), line, p), p + 1, line)
    else if PairKind(c).Some? then
      var rule := PairKind(c).value;
      if CharAt(source, p + 1) == Some(rule.second) then
        Step(Token(rule.pair, StrLit([c, rule.second]), line, p + 1), p + 2, line)
      else
        Step(Token(rule.single, StrLit([c]), line, p), p + 1, line)
    else if IsLetter(c) then
      var e := IdentifierEnd(source, p);
      var word := source[p..e];
      Step(Token(LookupIdentifier(word), StrLit(word), line, e), e, line)
    else if IsDigit(c) then
      var (kind, literal, e) := ScanNumber(source, p);
      Step(Token(kind, literal, line, e), e, line)
    else
      Step(Token(ILLEGAL, StrLit([c]), line, p), p + 1, line)
  }

  /**
   * '-', '<', '>', '=' and '!' look one character ahead: the pair becomes one
   * two-character token and the cursor passes both; otherwise the character
   * stands alone (a lone '!' is ILLEGAL).
   */
  lemma LookaheadOperators(source: string, position: nat, lineNo: int)
    requires position < |source|
    ensures var c, next, r := source[position], CharAt(source, position + 1), NextToken(source, position, lineNo);
      && (c == '-' ==> if next == Some('>') then r.token.kind == ARROW && r.token.literal == StrLit("->") && r.position == position + 2
                       else r.token.kind == MINUS && r.token.literal == StrLit("-") && r.position == position + 1)
      && (c == '<' ==> if next == Some('=') then r.token.kind == LT_EQ && r.token.literal == StrLit("<=") && r.position == position + 2
                       else r.token.kind == LT && r.token.literal == StrLit("<") && r.position == position + 1)
      && (c == '>' ==> if next == Some('=') then r.token.kind == GT_EQ && r.token.literal == StrLit(">=") && r.position == position + 2
                       else r.token.kind == GT && r.token.literal == StrLit(">") && r.position == position + 1)
      && (c == '=' ==> if next == Some('=') then r.token.kind == EQ_EQ && r.token.literal == StrLit("==") && r.position == position + 2
                       else r.token.kind == EQ && r.token.literal == StrLit("=") && r.position == position + 1)
      && (c == '!' ==> if next == Some('=') then r.token.kind == NOT_EQ && r.token.literal == StrLit("!=") && r.position == position + 2
                       else r.token.kind == ILLEGAL && r.token.literal == StrLit("!") && r.position == position + 1)
  {
  }

  /**
   * A character that starts no string, operator, identifier or number is a
   * token on its own: its own kind when it is one of the fixed symbols, else
   * ILLEGAL.  Either way the literal is the character and the cursor moves by one.
   */
  lemma SingleCharacterTokens(source: string, position: nat, lineNo: int)
    requires position < |source|
    requires var c := source[position];
      !IsWhitespace(c) && c != '"' && PairKind(c).None? && !IsLetter(c) && !IsDigit(c)
    ensures var c, r := source[position], NextToken(source, position, lineNo);
      && r.token.literal == StrLit([c]) && r.token.position == position && r.token.lineNo == lineNo
      && r.position == position + 1 && r.lineNo == lineNo
      && (SymbolKind(c).Some? ==> r.token.kind == SymbolKind(c).value)
      && (SymbolKind(c).None? <==> r.token.kind == ILLEGAL)
  {
  }

  /** Square brackets have no kind of their own: the lexer reports them as ILLEGAL. */
  lemma BracketsAreIllegal(source: string, position: nat, lineNo: int)
    requires position < |source| && (source[position] == '[' || source[position] == ']')
    ensures NextToken(source, position, lineNo).token.kind == ILLEGAL
  {
    SingleCharacterTokens(source, position, lineNo);
  }

  /**
   * A number is the longest run of digits and points with at most one point:
   * no point gives INT with the run's decimal value, one point gives FLOAT,
   * and a second point ends the token as ILLEGAL with the text before it,
   * leaving the cursor on that point.
   */
  lemma NumberTokens(source: string, position: nat, lineNo: int)
    requires position < |source| && IsDigit(source[position])
    ensures var r := NextToken(source, position, lineNo);
      var text := source[position..r.position];
      var stopped := r.position == |source| || !IsNumberPart(source[r.position]);
      && position < r.position <= |source|
      && (forall k :: position <= k < r.position ==> IsNumberPart(source[k]))
      && r.token.position == r.position && r.token.lineNo == lineNo
      && (r.token.kind == INT <==> multiset(text)['.'] == 0)
      && (r.token.kind == INT ==> stopped && AllDigits(text) && r.token.literal == IntLit(DigitsValue(text)))
      && (r.token.kind == FLOAT <==> multiset(text)['.'] == 1 && stopped)
      && (r.token.kind == FLOAT ==> r.token.literal == FloatLit(FloatText(text)))
      && (r.token.kind == ILLEGAL <==> multiset(text)['.'] == 1 && !stopped)
      && (r.token.kind == ILLEGAL ==> source[r.position] == '.' && r.token.literal == StrLit(text))
  {
    assert SkipWhitespace(source, position, lineNo) == (position, lineNo);
    var n := ScanNumber(source, position);
    assert NextToken(source, position, lineNo) == Step(Token(n.0, n.1, lineNo, n.2), n.2, lineNo);
    var run := NumberEnd(source, position, 0);
    NumberEndCounts(source, position, 0);
    if run.1 == 0 {
      PointlessRunIsDigits(source[position..run.0]);
    }
  }

  /**
   * An identifier starts with a letter or '_' and runs over every following
   * letter, digit and '_'; its kind is the keyword lookup of its text.
   */
  lemma IdentifierTokens(source: string, position: nat, lineNo: int)
    requires position < |source| && IsLetter(source[position])
    ensures var r := NextToken(source, position, lineNo);
      var text := source[position..r.position];
      && position < r.position <= |source|
      && (forall k :: position <= k < r.position ==> IsIdentifierPart(source[k]))
      && (r.position == |source| || !IsIdentifierPart(source[r.position]))
      && r.token.kind == LookupIdentifier(text) && r.token.literal == StrLit(text)
  {
  }

  /**
   * A string literal is everything after the opening quote up to the next
   * quote, taken verbatim; the closing quote is consumed when there is one,
   * and an unterminated string simply ends at the end of the source.
   */
  lemma StringTokens(source: string, position: nat, lineNo: int)
    requires position < |source| && source[position] == '"'
    ensures var r := NextToken(source, position, lineNo);
      && r.token.kind == STR && r.token.literal.StrLit?
      && var text := r.token.literal.s;
      && position + 1 + |text| <= |source|
      && text == source[position + 1..position + 1 + |text|]
      && (forall k :: 0 <= k < |text| ==> text[k] != '"')
      && var close := position + 1 + |text|;
      && (close < |source| ==> source[close] == '"' && r.position == close + 1)
      && (close == |source| ==> r.position == |source|)
      && r.lineNo == lineNo
  {
  }

  /** Once the lexer has reported EOF it reports EOF, with an empty literal, on every later call. */
  lemma EofForever(source: string, position: nat, lineNo: int)
    requires NextToken(source, position, lineNo).token.kind == EOF
    ensures var r := NextToken(source, position, lineNo);
      var later := NextToken(source, r.position, r.lineNo);
      later.token.kind == EOF && later.token.literal == StrLit("")
  {
    var r := NextToken(source, position, lineNo);
    assert position < r.position;
  }

  /** The whole token stream from a cursor: every token up to and including the first EOF. */
  function TokensFrom(source: string, position: nat, lineNo: int): (ts: seq<Token>)
    requires position <= |source|
    ensures 0 < |ts| && ts[|ts| - 1].kind == EOF
    ensures forall i :: 0 <= i < |ts| - 1 ==> ts[i].kind != EOF
    ensures forall i :: 0 <= i < |ts| ==> Declared(ts[i].kind) && LiteralFits(ts[i])
    decreases |source| - position
  {
    var step := NextToken(source, position, lineNo);
    if step.token.kind == EOF then [step.token]
    else
      [step.token] + TokensFrom(source, step.position, step.lineNo)
  }

  /** The tokens the parser pulls from a fresh lexer over `source`. */
  function Tokenize(source: string): seq<Token> {
    TokensFrom(source, 0, 1)
  }
}

/**
 * Tokens and identifier classification (src/lexer/Token.py).
 */
module Tokens {
  import opened TokenTypes
  import Numerals

  /**
   * A float the lexer scanned, kept opaque: only the digits-and-dot text it
   * was read from.  No floating-point value or arithmetic is modelled.
   */
  datatype FloatText = FloatText(text: string)

  /** A token's literal payload: a string, an `int`, or a `float`. */
  datatype Literal = StrLit(s: string) | IntLit(i: int) | FloatLit(f: FloatText)

  /** A token as the lexer produces it; `kind` is the source's field `type`. */
  datatype Token = Token(kind: TokenType, literal: Literal, lineNo: int, position: int)

  /** The seven reserved words and their kinds (KEYWORDS). */
  const Keywords: map<string, TokenType> := map[
    "let" := LET,
    "fn" := FN,
    "return" := RETURN,
    "if" := IF,
    "else" := ELSE,
    "true" := TRUE,
    "false" := FALSE
  ]

  /** The type names, which all lex as TYPE (TYPE_KEYWORDS). */
  const TypeKeywords: seq<string> := ["str", "int", "float"]

  /** Keyword table first, then the type names, else a plain identifier. */
  function LookupIdentifier(identifier: string): (r: TokenType)
    ensures r == LET <==> identifier == "let"
    ensures r == FN <==> identifier == "fn"
    ensures r == RETURN <==> identifier == "return"
    ensures r == IF <==> identifier == "if"
    ensures r == ELSE <==> identifier == "else"
    ensures r == TRUE <==> identifier == "true"
    ensures r == FALSE <==> identifier == "false"
    ensures r == TYPE <==> identifier == "str" || identifier == "int" || identifier == "float"
    ensures r == IDENTIFIER <==>
      identifier !in {"let", "fn", "return", "if", "else", "true", "false", "str", "int", "float"}
  {
    if identifier in Keywords then Keywords[identifier]
    else if identifier in TypeKeywords then TYPE
    else IDENTIFIER
  }

  /** Words that name a type elsewhere, such as "bool", are plain identifiers. */
  lemma BoolIsAnIdentifier()
    ensures LookupIdentifier("bool") == IDENTIFIER
  {
  }

  /** `str()` of a literal payload; a float shows the text it was scanned from. */
  function LiteralText(l: Literal): string {
    match l
    case StrLit(s) => s
    case IntLit(i) => Numerals.IntText(i)
    case FloatLit(f) => f.text
  }

  /** `Token.__str__`: "Token[<type> : <literal> : Line <n> : Position : <p>]". */
  function TokenText(t: Token): (s: string)
    ensures "Token[" + Show(t.kind) + " : " <= s
    ensures s[|s| - 1] == ']'
  {
    var head := "Token[" + Show(t.kind) + " : ";
    var fields := LiteralText(t.literal) + " : Line " + Numerals.IntText(t.lineNo)
      + " : Position : " + Numerals.IntText(t.position);
    head + (fields + "]")
  }

  /** Member names contain no space, so the rendering fixes where the name ends. */
  lemma NamesHaveNoSpace(t: TokenType)
    ensures forall i :: 0 <= i < |Name(t)| ==> Name(t)[i] != ' '
  {
  }

  /** The run of non-space characters of `s` from index `i` on. */
  function Word(s: string, i: nat): string
    decreases |s| - i
  {
    if i < |s| && s[i] != ' ' then [s[i]] + Word(s, i + 1) else []
  }

  /** A space-free word followed by a space is read back whole. */
  lemma {:induction false} WordReadsBack(s: string, i: nat, w: string)
    requires i + |w| < |s| && s[i..i + |w|] == w && s[i + |w|] == ' '
    requires forall k :: 0 <= k < |w| ==> w[k] != ' '
    ensures Word(s, i) == w
    decreases |w|
  {
    if |w| > 0 {
      assert s[i + 1..i + 1 + |w[1..]|] == w[1..];
      WordReadsBack(s, i + 1, w[1..]);
    }
  }

  /** The member name sits right after "Token[TokenType." and is followed by a space. */
  lemma NameInText(t: Token)
    ensures var s, p, n := TokenText(t), |"Token[TokenType."|, Name(t.kind);
      p + |n| < |s| && s[p..p + |n|] == n && s[p + |n|] == ' '
  {
    var s, n := TokenText(t), Name(t.kind);
    var show := Show(t.kind);
    var open := "Token[" + show;
    var prefix := open + " : ";
    assert prefix <= s;
    assert show[10..] == n;
    assert open[6..] == show;
    assert prefix[..|open|] == open;
    assert s[16..16 + |n|] == prefix[16..16 + |n|] == open[16..] == show[10..];
    assert s[16 + |n|] == prefix[|open|] == ' ';
  }

  /** Two tokens that render alike are of the same kind. */
  lemma {:induction false} TokenTextDeterminesKind(a: Token, b: Token)
    requires TokenText(a) == TokenText(b)
    ensures a.kind == b.kind
  {
    var s, p := TokenText(a), |"Token[TokenType."|;
    NameInText(a);
    NameInText(b);
    NamesHaveNoSpace(a.kind);
    NamesHaveNoSpace(b.kind);
    WordReadsBack(s, p, Name(a.kind));
    WordReadsBack(s, p, Name(b.kind));
    NamesDistinct(a.kind, b.kind);
  }

  /** No two kinds share a name. */
  lemma NamesDistinct(a: TokenType, b: TokenType)
    requires Name(a) == Name(b)
    ensures a == b
  {
    NameLookupRoundTrip(a);
    NameLookupRoundTrip(b);
  }
}

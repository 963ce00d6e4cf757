/**
 * The closed enumeration of token kinds (src/lexer/TokenType.py).
 *
 * The parser's prefix and list-literal rules name two kinds, LBRACKET and
 * RBRACKET, that the enumeration does not declare; they are added here so
 * that the parser can be modelled at all, and `Declared` tells them apart.
 */
module TokenTypes {
  import opened Wrappers

  datatype TokenType =
    // special tokens
    | EOF | ILLEGAL
    // data types
    | INT | FLOAT | IDENTIFIER | STR
    // arithmetic symbols
    | PLUS | MINUS | MULTIPLY | DIVIDE | POW | MODULUS
    // assignment
    | EQ
    // comparison
    | LT | GT | EQ_EQ | NOT_EQ | LT_EQ | GT_EQ
    // symbols
    | COLON | COMMA | SEMICOLON | LPAREN | RPAREN
    // function declaration
    | ARROW | LBRACE | RBRACE
    // keywords
    | LET | FN | RETURN | IF | ELSE | TRUE | FALSE
    // typing
    | TYPE
    // named by the parser only
    | LBRACKET | RBRACKET

  /** True for the 35 kinds the enumeration declares. */
  predicate Declared(t: TokenType) {
    !t.LBRACKET? && !t.RBRACKET?
  }

  predicate IsComparison(t: TokenType) {
    t.LT? || t.GT? || t.EQ_EQ? || t.NOT_EQ? || t.LT_EQ? || t.GT_EQ?
  }

  /** The member's name, which is what `str()` of a member shows after "TokenType.". */
  function Name(t: TokenType): string {
    match t
    case EOF => "EOF"
    case ILLEGAL => "ILLEGAL"
    case INT => "INT"
    case FLOAT => "FLOAT"
    case IDENTIFIER => "IDENTIFIER"
    case STR => "STR"
    case PLUS => "PLUS"
    case MINUS => "MINUS"
    case MULTIPLY => "MULTIPLY"
    case DIVIDE => "DIVIDE"
    case POW => "POW"
    case MODULUS => "MODULUS"
    case EQ => "EQ"
    case LT => "LT"
    case GT => "GT"
    case EQ_EQ => "EQ_EQ"
    case NOT_EQ => "NOT_EQ"
    case LT_EQ => "LT_EQ"
    case GT_EQ => "GT_EQ"
    case COLON => "COLON"
    case COMMA => "COMMA"
    case SEMICOLON => "SEMICOLON"
    case LPAREN => "LPAREN"
    case RPAREN => "RPAREN"
    case ARROW => "ARROW"
    case LBRACE => "LBRACE"
    case RBRACE => "RBRACE"
    case LET => "LET"
    case FN => "FN"
    case RETURN => "RETURN"
    case IF => "IF"
    case ELSE => "ELSE"
    case TRUE => "TRUE"
    case FALSE => "FALSE"
    case TYPE => "TYPE"
    case LBRACKET => "LBRACKET"
    case RBRACKET => "RBRACKET"
  }

  /** `str(t)` of an Enum member: "TokenType.<name>"; used in parser error messages. */
  function Show(t: TokenType): (s: string)
    ensures s == "TokenType." + Name(t)
  {
    "TokenType." + Name(t)
  }

  /** The member's `.value`: the operator spelling for the six comparisons, else the name. */
  function Value(t: TokenType): string {
    match t
    case LT => "<"
    case GT => ">"
    case EQ_EQ => "=="
    case NOT_EQ => "!="
    case LT_EQ => "<="
    case GT_EQ => ">="
    case _ => Name(t)
  }

  /**
   * Lookup by value, `TokenType(s)`: the declared member whose value is `s`,
   * if any.
   */
  function ByValue(s: string): (r: Option<TokenType>)
    ensures r.Some? ==> Declared(r.value) && Value(r.value) == s
  {
    var a := OperatorByValue(s);
    if a.Some? then a
    else
      var b := SymbolByValue(s);
      if b.Some? then b else KeywordByValue(s)
  }

  /** The lookup among the special, data, arithmetic, assignment and comparison kinds. */
  function OperatorByValue(s: string): (r: Option<TokenType>)
    ensures r.Some? ==> Declared(r.value) && Value(r.value) == s
  {
    match s
    case "EOF" => Some(EOF)
    case "ILLEGAL" => Some(ILLEGAL)
    case "INT" => Some(INT)
    case "FLOAT" => Some(FLOAT)
    case "IDENTIFIER" => Some(IDENTIFIER)
    case "STR" => Some(STR)
    case "PLUS" => Some(PLUS)
    case "MINUS" => Some(MINUS)
    case "MULTIPLY" => Some(MULTIPLY)
    case "DIVIDE" => Some(DIVIDE)
    case "POW" => Some(POW)
    case "MODULUS" => Some(MODULUS)
    case "EQ" => Some(EQ)
    case "<" => Some(LT)
    case ">" => Some(GT)
    case "==" => Some(EQ_EQ)
    case "!=" => Some(NOT_EQ)
    case "<=" => Some(LT_EQ)
    case ">=" => Some(GT_EQ)
    case _ => None
  }

  /** The lookup among the punctuation kinds. */
  function SymbolByValue(s: string): (r: Option<TokenType>)
    ensures r.Some? ==> Declared(r.value) && Value(r.value) == s
  {
    match s
    case "COLON" => Some(COLON)
    case "COMMA" => Some(COMMA)
    case "SEMICOLON" => Some(SEMICOLON)
    case "LPAREN" => Some(LPAREN)
    case "RPAREN" => Some(RPAREN)
    case "ARROW" => Some(ARROW)
    case "LBRACE" => Some(LBRACE)
    case "RBRACE" => Some(RBRACE)
    case _ => None
  }

  /** The lookup among the keyword and typing kinds. */
  function KeywordByValue(s: string): (r: Option<TokenType>)
    ensures r.Some? ==> Declared(r.value) && Value(r.value) == s
  {
    match s
    case "LET" => Some(LET)
    case "FN" => Some(FN)
    case "RETURN" => Some(RETURN)
    case "IF" => Some(IF)
    case "ELSE" => Some(ELSE)
    case "TRUE" => Some(TRUE)
    case "FALSE" => Some(FALSE)
    case "TYPE" => Some(TYPE)
    case _ => None
  }

  /**
   * Attribute access `TokenType.NAME` on the enumeration as declared: a
   * name that is not a declared member raises AttributeError (None).
   */
  function DeclaredAttribute(s: string): (r: Option<TokenType>)
    ensures r.Some? ==> Declared(r.value) && ByName(s) == r
    ensures ByName(s).Some? && Declared(ByName(s).value) ==> r == ByName(s)
  {
    match ByName(s)
    case Some(t) => if Declared(t) then Some(t) else None
    case None => None
  }

  /** Lookup by name, `TokenType[s]`: the member called `s`, if any. */
  function ByName(s: string): Option<TokenType> {
    match s
    case "EOF" => Some(EOF)
    case "ILLEGAL" => Some(ILLEGAL)
    case "INT" => Some(INT)
    case "FLOAT" => Some(FLOAT)
    case "IDENTIFIER" => Some(IDENTIFIER)
    case "STR" => Some(STR)
    case "PLUS" => Some(PLUS)
    case "MINUS" => Some(MINUS)
    case "MULTIPLY" => Some(MULTIPLY)
    case "DIVIDE" => Some(DIVIDE)
    case "POW" => Some(POW)
    case "MODULUS" => Some(MODULUS)
    case "EQ" => Some(EQ)
    case "LT" => Some(LT)
    case "GT" => Some(GT)
    case "EQ_EQ" => Some(EQ_EQ)
    case "NOT_EQ" => Some(NOT_EQ)
    case "LT_EQ" => Some(LT_EQ)
    case "GT_EQ" => Some(GT_EQ)
    case "COLON" => Some(COLON)
    case "COMMA" => Some(COMMA)
    case "SEMICOLON" => Some(SEMICOLON)
    case "LPAREN" => Some(LPAREN)
    case "RPAREN" => Some(RPAREN)
    case "ARROW" => Some(ARROW)
    case "LBRACE" => Some(LBRACE)
    case "RBRACE" => Some(RBRACE)
    case "LET" => Some(LET)
    case "FN" => Some(FN)
    case "RETURN" => Some(RETURN)
    case "IF" => Some(IF)
    case "ELSE" => Some(ELSE)
    case "TRUE" => Some(TRUE)
    case "FALSE" => Some(FALSE)
    case "TYPE" => Some(TYPE)
    case "LBRACKET" => Some(LBRACKET)
    case "RBRACKET" => Some(RBRACKET)
    case _ => None
  }

  /** Looking a member's name up gives back that member. */
  lemma NameLookupRoundTrip(t: TokenType)
    ensures ByName(Name(t)) == Some(t)
  {
    if IsSymbol(t) || IsKeyword(t) {
      WordNameRoundTrip(t);
    } else {
      OperatorNameRoundTrip(t);
    }
  }

  /** The name lookup round trip for the punctuation and keyword kinds. */
  lemma WordNameRoundTrip(t: TokenType)
    requires IsSymbol(t) || IsKeyword(t)
    ensures ByName(Name(t)) == Some(t)
  {
  }

  /** The name lookup round trip for all the other kinds, LBRACKET and RBRACKET included. */
  lemma OperatorNameRoundTrip(t: TokenType)
    requires !IsSymbol(t) && !IsKeyword(t)
    ensures ByName(Name(t)) == Some(t)
  {
  }

  /** The six comparison kinds carry their operator spelling as value. */
  lemma ComparisonValues()
    ensures Value(LT) == "<" && Value(GT) == ">" && Value(EQ_EQ) == "=="
    ensures Value(NOT_EQ) == "!=" && Value(LT_EQ) == "<=" && Value(GT_EQ) == ">="
  {
  }

  /** Every other declared kind's value is its own name. */
  lemma OtherValuesAreNames(t: TokenType)
    requires !IsComparison(t)
    ensures Value(t) == Name(t)
  {
  }

  /**
   * Looking a value up gives back the member that carries it, so no member
   * aliases another (Python's Enum would otherwise merge two members with one value).
   */
  lemma ByValueRoundTrip(t: TokenType)
    requires Declared(t)
    ensures ByValue(Value(t)) == Some(t)
  {
    if IsSymbol(t) {
      SymbolValueRoundTrip(t);
    } else if IsKeyword(t) {
      KeywordValueRoundTrip(t);
    } else {
      OperatorValueRoundTrip(t);
    }
  }

  /** The kinds `SymbolByValue` looks among. */
  predicate IsSymbol(t: TokenType) {
    t.COLON? || t.COMMA? || t.SEMICOLON? || t.LPAREN? || t.RPAREN? || t.ARROW? || t.LBRACE? || t.RBRACE?
  }

  /** The kinds `KeywordByValue` looks among. */
  predicate IsKeyword(t: TokenType) {
    t.LET? || t.FN? || t.RETURN? || t.IF? || t.ELSE? || t.TRUE? || t.FALSE? || t.TYPE?
  }

  /** The operator-group lookup finds every declared kind outside the other two groups. */
  lemma OperatorValueRoundTrip(t: TokenType)
    requires Declared(t) && !IsSymbol(t) && !IsKeyword(t)
    ensures OperatorByValue(Value(t)) == Some(t)
  {
  }

  /** A punctuation kind's value is missed by the operator group and found by its own. */
  lemma SymbolValueRoundTrip(t: TokenType)
    requires IsSymbol(t)
    ensures OperatorByValue(Value(t)).None? && SymbolByValue(Value(t)) == Some(t)
  {
  }

  /** A keyword kind's value is missed by the other two groups and found by its own. */
  lemma KeywordValueRoundTrip(t: TokenType)
    requires IsKeyword(t)
    ensures OperatorByValue(Value(t)).None? && SymbolByValue(Value(t)).None?
    ensures KeywordByValue(Value(t)) == Some(t)
  {
    KeywordMissesOperators(t);
  }

  /** No keyword value is an operator-group value. */
  lemma KeywordMissesOperators(t: TokenType)
    requires IsKeyword(t)
    ensures OperatorByValue(Value(t)).None?
  {
  }

  /** All 35 values are distinct. */
  lemma ValuesDistinct(a: TokenType, b: TokenType)
    requires Declared(a) && Declared(b) && Value(a) == Value(b)
    ensures a == b
  {
    ByValueRoundTrip(a);
    ByValueRoundTrip(b);
  }
}

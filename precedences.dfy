/**
 * Binding strengths of the Pratt parser (legacy-python/src/parser/Precedences.py):
 * the ordered levels and the table from token kinds to levels.
 */
module Precedences {
  import opened Wrappers
  import opened TokenTypes

  datatype PrecedenceType =
    | P_LOWEST | P_EQUALS | P_LESSSGREATER | P_SUM | P_PRODUCT
    | P_EXPONENT | P_PREFIX | P_CALL | P_INDEX

  /** The level's numeric value: its place in declaration order, from 0. */
  function Level(p: PrecedenceType): (n: nat)
    ensures n <= 8
  {
    match p
    case P_LOWEST => 0
    case P_EQUALS => 1
    case P_LESSSGREATER => 2
    case P_SUM => 3
    case P_PRODUCT => 4
    case P_EXPONENT => 5
    case P_PREFIX => 6
    case P_CALL => 7
    case P_INDEX => 8
  }

  /** `PRECEDENCES`: the level of each binary-operator kind and of '('. */
  function Precedence(t: TokenType): (r: Option<PrecedenceType>)
    ensures r.Some? ==> r.value != P_LOWEST && r.value != P_PREFIX && r.value != P_INDEX
    ensures r == Some(P_CALL) <==> t == LPAREN
  {
    match t
    case PLUS => Some(P_SUM)
    case MINUS => Some(P_SUM)
    case DIVIDE => Some(P_PRODUCT)
    case MULTIPLY => Some(P_PRODUCT)
    case MODULUS => Some(P_PRODUCT)
    case POW => Some(P_EXPONENT)
    case EQ_EQ => Some(P_EQUALS)
    case NOT_EQ => Some(P_EQUALS)
    case LT => Some(P_LESSSGREATER)
    case GT => Some(P_LESSSGREATER)
    case LT_EQ => Some(P_LESSSGREATER)
    case GT_EQ => Some(P_LESSSGREATER)
    case LPAREN => Some(P_CALL)
    case _ => None
  }

  /** The level the parser uses for a kind: its table entry, or LOWEST when it has none. */
  function LevelOf(t: TokenType): (n: nat)
    ensures n <= Level(P_CALL)
    ensures Precedence(t).None? ==> n == Level(P_LOWEST)
  {
    match Precedence(t)
    case None => Level(P_LOWEST)
    case Some(p) => Level(p)
  }

  /** The levels are strictly ordered as declared, so a level is determined by its value. */
  lemma LevelsOrdered()
    ensures Level(P_LOWEST) < Level(P_EQUALS) < Level(P_LESSSGREATER) < Level(P_SUM) < Level(P_PRODUCT)
    ensures Level(P_PRODUCT) < Level(P_EXPONENT) < Level(P_PREFIX) < Level(P_CALL) < Level(P_INDEX)
    ensures forall p, q :: Level(p) == Level(q) ==> p == q
  {
  }

  /** The arithmetic operators: '+' and '-' are SUM, '*', '/' and '%' are PRODUCT, '^' is EXPONENT. */
  lemma ArithmeticLevels()
    ensures Precedence(PLUS) == Precedence(MINUS) == Some(P_SUM)
    ensures Precedence(MULTIPLY) == Precedence(DIVIDE) == Precedence(MODULUS) == Some(P_PRODUCT)
    ensures Precedence(POW) == Some(P_EXPONENT)
  {
  }

  /** The comparisons: equality is EQUALS, ordering is LESSSGREATER. */
  lemma ComparisonLevels(t: TokenType)
    requires IsComparison(t)
    ensures Precedence(t) == if t == EQ_EQ || t == NOT_EQ then Some(P_EQUALS) else Some(P_LESSSGREATER)
  {
  }

  /** A call binds tighter than every binary operator, and nothing sits at PREFIX or INDEX. */
  lemma CallBindsTightest(t: TokenType)
    ensures Precedence(t).Some? && t != LPAREN ==> LevelOf(t) < LevelOf(LPAREN)
    ensures Precedence(t) != Some(P_PREFIX) && Precedence(t) != Some(P_INDEX)
    ensures Precedence(t) == Some(P_CALL) <==> t == LPAREN
  {
  }

  /** Exactly the kinds the parser treats as infix operators have a level above LOWEST. */
  lemma LeveledKinds(t: TokenType)
    ensures Precedence(t).Some? <==> IsComparison(t) || t in {PLUS, MINUS, MULTIPLY, DIVIDE, MODULUS, POW, LPAREN}
    ensures Precedence(t).Some? <==> LevelOf(t) > Level(P_LOWEST)
  {
  }
}

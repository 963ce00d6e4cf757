/** The node tags of src/ast/NodeType.py. */
module NodeTypes {
  import opened Wrappers

  datatype NodeType =
    | Program
    | ExpressionStatement | LetStatement | FunctionStatement | BlockStatement
    | ReturnStatement | AssignStatement | IfStatement
    | InfixExpression | CallExpression
    | IntegerLiteral | FloatLiteral | StringLiteral | IdentifierLiteral | BooleanLiteral
    | FunctionParameter

  /** The tag's string value, which is its own name. */
  function Value(t: NodeType): (s: string)
    ensures |s| > 0
  {
    match t
    case Program => "Program"
    case ExpressionStatement => "ExpressionStatement"
    case LetStatement => "LetStatement"
    case FunctionStatement => "FunctionStatement"
    case BlockStatement => "BlockStatement"
    case ReturnStatement => "ReturnStatement"
    case AssignStatement => "AssignStatement"
    case IfStatement => "IfStatement"
    case InfixExpression => "InfixExpression"
    case CallExpression => "CallExpression"
    case IntegerLiteral => "IntegerLiteral"
    case FloatLiteral => "FloatLiteral"
    case StringLiteral => "StringLiteral"
    case IdentifierLiteral => "IdentifierLiteral"
    case BooleanLiteral => "BooleanLiteral"
    case FunctionParameter => "FunctionParameter"
  }

  /** `NodeType(s)`: the tag whose value is `s`, if any. */
  function ByValue(s: string): Option<NodeType> {
    match s
    case "Program" => Some(Program)
    case "ExpressionStatement" => Some(ExpressionStatement)
    case "LetStatement" => Some(LetStatement)
    case "FunctionStatement" => Some(FunctionStatement)
    case "BlockStatement" => Some(BlockStatement)
    case "ReturnStatement" => Some(ReturnStatement)
    case "AssignStatement" => Some(AssignStatement)
    case "IfStatement" => Some(IfStatement)
    case "InfixExpression" => Some(InfixExpression)
    case "CallExpression" => Some(CallExpression)
    case "IntegerLiteral" => Some(IntegerLiteral)
    case "FloatLiteral" => Some(FloatLiteral)
    case "StringLiteral" => Some(StringLiteral)
    case "IdentifierLiteral" => Some(IdentifierLiteral)
    case "BooleanLiteral" => Some(BooleanLiteral)
    case "FunctionParameter" => Some(FunctionParameter)
    case _ => None
  }

  /** The groups the enumeration is laid out in. */
  datatype Group = Root | Statement | CompoundExpression | Literal | Helper

  function GroupOf(t: NodeType): Group {
    match t
    case Program => Root
    case ExpressionStatement => Statement
    case LetStatement => Statement
    case FunctionStatement => Statement
    case BlockStatement => Statement
    case ReturnStatement => Statement
    case AssignStatement => Statement
    case IfStatement => Statement
    case InfixExpression => CompoundExpression
    case CallExpression => CompoundExpression
    case IntegerLiteral => Literal
    case FloatLiteral => Literal
    case StringLiteral => Literal
    case IdentifierLiteral => Literal
    case BooleanLiteral => Literal
    case FunctionParameter => Helper
  }

  /** Every tag is found again by its value. */
  lemma ByValueRoundTrip(t: NodeType)
    ensures ByValue(Value(t)) == Some(t)
  {
  }

  /** No two tags share a value. */
  lemma ValuesDistinct(a: NodeType, b: NodeType)
    requires Value(a) == Value(b)
    ensures a == b
  {
    ByValueRoundTrip(a);
    ByValueRoundTrip(b);
  }

  /** Seven statement tags, two compound-expression tags and five literal tags. */
  lemma GroupMembers(t: NodeType)
    ensures GroupOf(t) == Statement <==> t in {ExpressionStatement, LetStatement, FunctionStatement,
                                              BlockStatement, ReturnStatement, AssignStatement, IfStatement}
    ensures GroupOf(t) == CompoundExpression <==> t in {InfixExpression, CallExpression}
    ensures GroupOf(t) == Literal <==> t in {IntegerLiteral, FloatLiteral, StringLiteral, IdentifierLiteral, BooleanLiteral}
    ensures GroupOf(t) == Root <==> t == Program
    ensures GroupOf(t) == Helper <==> t == FunctionParameter
  {
  }

  /** There is no tag for list literals. */
  lemma NoListLiteralTag(t: NodeType)
    ensures Value(t) != "ListLiteral"
    ensures ByValue("ListLiteral") == None
  {
  }
}

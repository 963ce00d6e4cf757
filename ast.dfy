/**
 * The syntax tree of src/ast (and the legacy-python copies of the node
 * classes whose src/ version is not part of this model).  Every node class
 * is one constructor of Node, because the parser puts statements (if,
 * blocks) in expression slots and the interpreter dispatches over any node.
 * A field that Python leaves as `None` when a sub-parse fails is an Option.
 */
module Ast {
  import opened Wrappers
  import opened Tokens
  import NT = NodeTypes

  /** A parameter's name and type are copied raw from the tokens at those places. */
  datatype FunctionParameter = FunctionParameter(name: Literal, valueType: Literal)

  datatype Node =
    | ExpressionStatement(expression: Option<Node>)
    | LetStatement(name: string, value: Option<Node>, valueType: string)
    | FunctionStatement(fnName: string, parameters: Option<seq<FunctionParameter>>, body: Node, returnType: string)
    | BlockStatement(statements: seq<Node>)
    | ReturnStatement(returnValue: Option<Node>)
    | AssignStatement(identifier: string, rightValue: Option<Node>)
    | IfStatement(condition: Option<Node>, consequence: Node, alternative: Option<Node>)
    | InfixExpression(left: Option<Node>, operator: string, right: Option<Node>)
    | CallExpression(callee: Option<Node>, arguments: Arguments)
    | IdentifierLiteral(ident: string)
    | IntegerLiteral(intValue: int)
    | FloatLiteral(floatValue: FloatText)
    | StringLiteral(strValue: string)
    | BooleanLiteral(boolValue: bool)
    | ListLiteral(elements: seq<Option<Node>>)

  /** A call's argument list, which is `None` when its closing ')' is missing. */
  datatype Arguments = NoArguments | Arguments(items: seq<Option<Node>>)

  /** The root: a new program has no statements, and the parser appends to it in order. */
  datatype Program = Program(statements: seq<Node>)

  /** `type()`: the node's tag; a list literal names a tag the enumeration lacks, so it has none. */
  function TypeOf(n: Node): (r: Option<NT.NodeType>)
    ensures r.None? <==> n.ListLiteral?
    ensures r.Some? ==> NT.GroupOf(r.value) != NT.Root && NT.GroupOf(r.value) != NT.Helper
    ensures r.Some? && NT.GroupOf(r.value) == NT.Statement <==>
      n.ExpressionStatement? || n.LetStatement? || n.FunctionStatement? || n.BlockStatement? ||
      n.ReturnStatement? || n.AssignStatement? || n.IfStatement?
  {
    match n
    case ExpressionStatement(_) => Some(NT.ExpressionStatement)
    case LetStatement(_, _, _) => Some(NT.LetStatement)
    case FunctionStatement(_, _, _, _) => Some(NT.FunctionStatement)
    case BlockStatement(_) => Some(NT.BlockStatement)
    case ReturnStatement(_) => Some(NT.ReturnStatement)
    case AssignStatement(_, _) => Some(NT.AssignStatement)
    case IfStatement(_, _, _) => Some(NT.IfStatement)
    case InfixExpression(_, _, _) => Some(NT.InfixExpression)
    case CallExpression(_, _) => Some(NT.CallExpression)
    case IdentifierLiteral(_) => Some(NT.IdentifierLiteral)
    case IntegerLiteral(_) => Some(NT.IntegerLiteral)
    case FloatLiteral(_) => Some(NT.FloatLiteral)
    case StringLiteral(_) => Some(NT.StringLiteral)
    case BooleanLiteral(_) => Some(NT.BooleanLiteral)
    case ListLiteral(_) => None
  }

  /** Tags tell node kinds apart: two nodes with the same tag are built by the same constructor. */
  lemma {:induction false} TagDeterminesKind(a: Node, b: Node)
    requires TypeOf(a).Some? && TypeOf(a) == TypeOf(b)
    ensures a.ExpressionStatement? == b.ExpressionStatement? && a.LetStatement? == b.LetStatement?
    ensures a.FunctionStatement? == b.FunctionStatement? && a.BlockStatement? == b.BlockStatement?
    ensures a.ReturnStatement? == b.ReturnStatement? && a.AssignStatement? == b.AssignStatement?
    ensures a.IfStatement? == b.IfStatement? && a.InfixExpression? == b.InfixExpression?
    ensures a.CallExpression? == b.CallExpression? && a.IdentifierLiteral? == b.IdentifierLiteral?
    ensures a.IntegerLiteral? == b.IntegerLiteral? && a.FloatLiteral? == b.FloatLiteral?
    ensures a.StringLiteral? == b.StringLiteral? && a.BooleanLiteral? == b.BooleanLiteral?
  {
  }

  /**
   * A tree with no hole: every slot a sub-parse may leave empty is filled,
   * and there is no list literal anywhere.
   */
  predicate Complete(n: Node)
    decreases n, 1
  {
    match n
    case ExpressionStatement(e) => CompleteSlot(e)
    case LetStatement(_, v, _) => CompleteSlot(v)
    case FunctionStatement(_, ps, body, _) => ps.Some? && Complete(body)
    case BlockStatement(ss) => CompleteAll(ss)
    case ReturnStatement(v) => CompleteSlot(v)
    case AssignStatement(_, v) => CompleteSlot(v)
    case IfStatement(c, cons, alt) => CompleteSlot(c) && Complete(cons) && (alt.None? || Complete(alt.value))
    case InfixExpression(l, _, r) => CompleteSlot(l) && CompleteSlot(r)
    case CallExpression(f, args) =>
      CompleteSlot(f) && args.Arguments? && CompleteSlots(args.items)
    case ListLiteral(_) => false
    case _ => true
  }

  predicate CompleteSlot(o: Option<Node>)
    decreases o, 2
  {
    o.Some? && Complete(o.value)
  }

  predicate CompleteAll(ss: seq<Node>)
    decreases ss, 0
  {
    forall i :: 0 <= i < |ss| ==> Complete(ss[i])
  }

  predicate CompleteSlots(os: seq<Option<Node>>)
    decreases os, 0
  {
    forall i :: 0 <= i < |os| ==> CompleteSlot(os[i])
  }

  /** Whether a list literal occurs anywhere in the tree. */
  predicate HasList(n: Node)
    decreases n, 1
  {
    match n
    case ExpressionStatement(e) => SlotHasList(e)
    case LetStatement(_, v, _) => SlotHasList(v)
    case FunctionStatement(_, _, body, _) => HasList(body)
    case BlockStatement(ss) => exists i :: 0 <= i < |ss| && HasList(ss[i])
    case ReturnStatement(v) => SlotHasList(v)
    case AssignStatement(_, v) => SlotHasList(v)
    case IfStatement(c, cons, alt) => SlotHasList(c) || HasList(cons) || SlotHasList(alt)
    case InfixExpression(l, _, r) => SlotHasList(l) || SlotHasList(r)
    case CallExpression(f, args) =>
      SlotHasList(f) || (args.Arguments? && exists i :: 0 <= i < |args.items| && SlotHasList(args.items[i]))
    case ListLiteral(_) => true
    case _ => false
  }

  predicate SlotHasList(o: Option<Node>)
    decreases o, 2
  {
    o.Some? && HasList(o.value)
  }
}

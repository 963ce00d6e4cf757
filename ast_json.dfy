/**
 * The `json()` debug projection of the syntax tree: each node becomes an
 * object whose first key is "type".  Python dicts keep insertion order, so an
 * object is an ordered list of key/value pairs.  A projection that Python
 * cannot finish (a `.json()` call on a `None` slot, iteration over a `None`
 * list, or a list literal, whose `type()` names a missing tag) is None.
 */
module AstJson {
  import opened Wrappers
  import opened Tokens
  import opened Ast
  import NT = NodeTypes

  datatype Json =
    | JNull
    | JBool(b: bool)
    | JInt(i: int)
    | JFloat(f: FloatText)
    | JStr(s: string)
    | JArray(items: seq<Json>)
    | JObject(fields: seq<(string, Json)>)

  /** An object tagged with `tag`, then the given keys. */
  function Tagged(tag: NT.NodeType, fields: seq<(string, Json)>): (j: Json)
    ensures HasTag(j, tag)
  {
    JObject([("type", JStr(NT.Value(tag)))] + fields)
  }

  /** A token literal copied raw into the document. */
  function LiteralJson(l: Literal): (j: Json)
    ensures l.StrLit? <==> j.JStr?
  {
    match l
    case StrLit(s) => JStr(s)
    case IntLit(i) => JInt(i)
    case FloatLit(f) => JFloat(f)
  }

  /** The projection of the IdentifierLiteral a name is wrapped in. */
  function NameJson(name: string): Json {
    Tagged(NT.IdentifierLiteral, [("value", JStr(name))])
  }

  function ParameterJson(p: FunctionParameter): Json {
    Tagged(NT.FunctionParameter, [("name", LiteralJson(p.name)), ("value_type", LiteralJson(p.valueType))])
  }

  /** The tag a well-formed projection starts with. */
  predicate HasTag(j: Json, tag: NT.NodeType) {
    j.JObject? && |j.fields| > 0 && j.fields[0] == ("type", JStr(NT.Value(tag)))
  }

  /**
   * `json()` of a node: every projection that succeeds is an object whose
   * first key is "type", holding the node's tag.
   */
  function ToJson(n: Node): (r: Option<Json>)
    ensures r.Some? ==> TypeOf(n).Some? && HasTag(r.value, TypeOf(n).value)
    decreases n, 1
  {
    match n
    case ExpressionStatement(e) =>
      var ej :- SlotJson(e);
      Some(Tagged(NT.ExpressionStatement, [("expression", ej)]))
    case LetStatement(name, v, vt) =>
      var vj :- SlotJson(v);
      Some(Tagged(NT.LetStatement, [("name", NameJson(name)), ("value", vj), ("value_type", JStr(vt))]))
    case FunctionStatement(name, ps, body, rt) =>
      var params :- ps;
      var bj :- ToJson(body);
      Some(Tagged(NT.FunctionStatement,
        [("name", NameJson(name)), ("return_type", JStr(rt)),
         ("parameters", JArray(seq(|params|, i requires 0 <= i < |params| => ParameterJson(params[i])))),
         ("body", bj)]))
    case BlockStatement(ss) =>
      var sj :- AllJson(ss);
      Some(Tagged(NT.BlockStatement, [("statements", JArray(sj))]))
    case ReturnStatement(v) =>
      var vj :- SlotJson(v);
      Some(Tagged(NT.ReturnStatement, [("return_value", vj)]))
    case AssignStatement(id, v) =>
      var vj :- SlotJson(v);
      Some(Tagged(NT.AssignStatement, [("identifier", NameJson(id)), ("right_value", vj)]))
    case IfStatement(c, cons, alt) =>
      var cj :- SlotJson(c);
      var consj :- ToJson(cons);
      var altj :- if alt.None? then Some(JNull) else ToJson(alt.value);
      Some(Tagged(NT.IfStatement, [("condition", cj), ("consenquence", consj), ("alternative", altj)]))
    case InfixExpression(l, op, r) =>
      var lj :- SlotJson(l);
      var rj :- SlotJson(r);
      Some(Tagged(NT.InfixExpression, [("left_node", lj), ("operator", JStr(op)), ("right_node", rj)]))
    case CallExpression(f, args) =>
      var fj :- SlotJson(f);
      if args.NoArguments? then None
      else
        var aj :- SlotsJson(args.items);
        Some(Tagged(NT.CallExpression, [("function", fj), ("arguments", JArray(aj))]))
    case IdentifierLiteral(v) => Some(NameJson(v))
    case IntegerLiteral(i) => Some(Tagged(NT.IntegerLiteral, [("value", JInt(i))]))
    case FloatLiteral(f) => Some(Tagged(NT.FloatLiteral, [("value", JFloat(f))]))
    case StringLiteral(s) => Some(Tagged(NT.StringLiteral, [("value", JStr(s))]))
    case BooleanLiteral(b) => Some(Tagged(NT.BooleanLiteral, [("value", JBool(b))]))
    case ListLiteral(_) => None
  }

  /** `slot.json()`, which raises on a `None` slot. */
  function SlotJson(o: Option<Node>): (r: Option<Json>)
    decreases o, 2
  {
    match o
    case None => None
    case Some(n) => ToJson(n)
  }

  /** The projections of a list of nodes, in order. */
  function AllJson(ss: seq<Node>): (r: Option<seq<Json>>)
    ensures r.Some? ==> |r.value| == |ss| && forall i :: 0 <= i < |ss| ==> ToJson(ss[i]) == Some(r.value[i])
    ensures r.None? ==> exists i :: 0 <= i < |ss| && ToJson(ss[i]).None?
    decreases ss, 0
  {
    if ss == [] then Some([])
    else
      var head :- ToJson(ss[0]);
      var tail :- AllJson(ss[1..]);
      assert forall i :: 1 <= i < |ss| ==> ss[i] == ss[1..][i - 1];
      Some([head] + tail)
  }

  /** The projections of a list of slots, in order. */
  function SlotsJson(os: seq<Option<Node>>): (r: Option<seq<Json>>)
    ensures r.Some? ==> |r.value| == |os| && forall i :: 0 <= i < |os| ==> SlotJson(os[i]) == Some(r.value[i])
    ensures r.None? ==> exists i :: 0 <= i < |os| && SlotJson(os[i]).None?
    decreases os, 0
  {
    if os == [] then Some([])
    else
      var head :- SlotJson(os[0]);
      var tail :- SlotsJson(os[1..]);
      assert forall i :: 1 <= i < |os| ==> os[i] == os[1..][i - 1];
      Some([head] + tail)
  }

  /**
   * `Program.json()`: each statement wrapped in a one-key object from its tag
   * name to its own projection.
   */
  function ProgramJson(p: Program): (r: Option<Json>)
    ensures r.Some? ==> HasTag(r.value, NT.Program) && |r.value.fields| == 2
    ensures r.Some? ==> r.value.fields[1].0 == "statements" && r.value.fields[1].1.JArray?
    ensures r.Some? ==> var items := r.value.fields[1].1.items;
      |items| == |p.statements| &&
      forall i :: 0 <= i < |items| ==>
        TypeOf(p.statements[i]).Some? && ToJson(p.statements[i]).Some? &&
        items[i] == JObject([(NT.Value(TypeOf(p.statements[i]).value), ToJson(p.statements[i]).value)])
  {
    var items :- WrappedJson(p.statements);
    Some(Tagged(NT.Program, [("statements", JArray(items))]))
  }

  function WrappedJson(ss: seq<Node>): (r: Option<seq<Json>>)
    ensures r.Some? ==> |r.value| == |ss|
    ensures r.Some? ==> forall i :: 0 <= i < |ss| ==>
      TypeOf(ss[i]).Some? && ToJson(ss[i]).Some? &&
      r.value[i] == JObject([(NT.Value(TypeOf(ss[i]).value), ToJson(ss[i]).value)])
  {
    if ss == [] then Some([])
    else
      var tag :- TypeOf(ss[0]);
      var j :- ToJson(ss[0]);
      var tail :- WrappedJson(ss[1..]);
      assert forall i :: 1 <= i < |ss| ==> ss[i] == ss[1..][i - 1];
      Some([JObject([(NT.Value(tag), j)])] + tail)
  }
}

/** What the projection preserves: it is defined exactly on complete trees, and it loses nothing. */
module AstJsonFacts {
  import opened Wrappers
  import opened Tokens
  import opened Ast
  import opened AstJson
  import NT = NodeTypes

  /** `json()` finishes exactly when the tree has no empty slot and no list literal. */
  lemma {:induction false} ProjectsIffComplete(n: Node)
    ensures ToJson(n).Some? <==> Complete(n)
    decreases n, 1
  {
    match n
    case ExpressionStatement(e) => SlotProjectsIffComplete(e);
    case LetStatement(_, v, _) => SlotProjectsIffComplete(v);
    case FunctionStatement(_, _, body, _) => ProjectsIffComplete(body);
    case BlockStatement(ss) => AllProjectIffComplete(ss);
    case ReturnStatement(v) => SlotProjectsIffComplete(v);
    case AssignStatement(_, v) => SlotProjectsIffComplete(v);
    case IfStatement(c, cons, alt) =>
      SlotProjectsIffComplete(c);
      ProjectsIffComplete(cons);
      if alt.Some? {
        ProjectsIffComplete(alt.value);
      }
    case InfixExpression(l, _, r) =>
      SlotProjectsIffComplete(l);
      SlotProjectsIffComplete(r);
    case CallExpression(f, args) =>
      SlotProjectsIffComplete(f);
      if args.Arguments? {
        SlotsProjectIffComplete(args.items);
      }
    case _ =>
  }

  lemma {:induction false} SlotProjectsIffComplete(o: Option<Node>)
    ensures SlotJson(o).Some? <==> CompleteSlot(o)
    decreases o, 2
  {
    if o.Some? {
      ProjectsIffComplete(o.value);
    }
  }

  lemma {:induction false} AllProjectIffComplete(ss: seq<Node>)
    ensures AllJson(ss).Some? <==> CompleteAll(ss)
    decreases ss, 0
  {
    forall i | 0 <= i < |ss|
      ensures ToJson(ss[i]).Some? <==> Complete(ss[i])
    {
      ProjectsIffComplete(ss[i]);
    }
  }

  lemma {:induction false} SlotsProjectIffComplete(os: seq<Option<Node>>)
    ensures SlotsJson(os).Some? <==> CompleteSlots(os)
    decreases os, 0
  {
    forall i | 0 <= i < |os|
      ensures SlotJson(os[i]).Some? <==> CompleteSlot(os[i])
    {
      SlotProjectsIffComplete(os[i]);
    }
  }

  /** A raw literal is recovered from its projection. */
  lemma LiteralJsonInjective(a: Literal, b: Literal)
    requires LiteralJson(a) == LiteralJson(b)
    ensures a == b
  {
  }

  /** Two tagged objects that are equal have equal keys after the tag. */
  lemma TaggedInjective(t: NT.NodeType, u: NT.NodeType, fs: seq<(string, Json)>, gs: seq<(string, Json)>)
    requires Tagged(t, fs) == Tagged(u, gs)
    ensures fs == gs
  {
    assert fs == Tagged(t, fs).fields[1..];
    assert gs == Tagged(u, gs).fields[1..];
  }

  /** The projection is one-to-one: two trees with the same document are the same tree. */
  lemma {:induction false} ProjectionInjective(a: Node, b: Node)
    requires ToJson(a).Some? && ToJson(a) == ToJson(b)
    ensures a == b
    decreases a, 1
  {
    NT.ValuesDistinct(TypeOf(a).value, TypeOf(b).value);
    TagDeterminesKind(a, b);
    match a
    case ExpressionStatement(e) =>
      var e2 := b.expression;
      TaggedInjective(NT.ExpressionStatement, NT.ExpressionStatement,
        [("expression", SlotJson(e).value)], [("expression", SlotJson(e2).value)]);
      SlotProjectionInjective(e, e2);
    case LetStatement(name, v, vt) =>
      var v2 := b.value;
      TaggedInjective(NT.LetStatement, NT.LetStatement,
        [("name", NameJson(name)), ("value", SlotJson(v).value), ("value_type", JStr(vt))],
        [("name", NameJson(b.name)), ("value", SlotJson(v2).value), ("value_type", JStr(b.valueType))]);
      TaggedInjective(NT.IdentifierLiteral, NT.IdentifierLiteral, [("value", JStr(name))], [("value", JStr(b.name))]);
      SlotProjectionInjective(v, v2);
    case FunctionStatement(name, ps, body, rt) =>
      var qs := b.parameters.value;
      var pj := seq(|ps.value|, i requires 0 <= i < |ps.value| => ParameterJson(ps.value[i]));
      var qj := seq(|qs|, i requires 0 <= i < |qs| => ParameterJson(qs[i]));
      TaggedInjective(NT.FunctionStatement, NT.FunctionStatement,
        [("name", NameJson(name)), ("return_type", JStr(rt)), ("parameters", JArray(pj)), ("body", ToJson(body).value)],
        [("name", NameJson(b.fnName)), ("return_type", JStr(b.returnType)), ("parameters", JArray(qj)),
         ("body", ToJson(b.body).value)]);
      TaggedInjective(NT.IdentifierLiteral, NT.IdentifierLiteral, [("value", JStr(name))], [("value", JStr(b.fnName))]);
      ProjectionInjective(body, b.body);
      assert |ps.value| == |qs|;
      forall i | 0 <= i < |qs|
        ensures ps.value[i] == qs[i]
      {
        assert pj[i] == qj[i];
        TaggedInjective(NT.FunctionParameter, NT.FunctionParameter,
          [("name", LiteralJson(ps.value[i].name)), ("value_type", LiteralJson(ps.value[i].valueType))],
          [("name", LiteralJson(qs[i].name)), ("value_type", LiteralJson(qs[i].valueType))]);
        LiteralJsonInjective(ps.value[i].name, qs[i].name);
        LiteralJsonInjective(ps.value[i].valueType, qs[i].valueType);
      }
      assert ps.value == qs;
    case BlockStatement(ss) =>
      TaggedInjective(NT.BlockStatement, NT.BlockStatement,
        [("statements", JArray(AllJson(ss).value))], [("statements", JArray(AllJson(b.statements).value))]);
      AllProjectionInjective(ss, b.statements);
    case ReturnStatement(v) =>
      TaggedInjective(NT.ReturnStatement, NT.ReturnStatement,
        [("return_value", SlotJson(v).value)], [("return_value", SlotJson(b.returnValue).value)]);
      SlotProjectionInjective(v, b.returnValue);
    case AssignStatement(id, v) =>
      TaggedInjective(NT.AssignStatement, NT.AssignStatement,
        [("identifier", NameJson(id)), ("right_value", SlotJson(v).value)],
        [("identifier", NameJson(b.identifier)), ("right_value", SlotJson(b.rightValue).value)]);
      TaggedInjective(NT.IdentifierLiteral, NT.IdentifierLiteral, [("value", JStr(id))], [("value", JStr(b.identifier))]);
      SlotProjectionInjective(v, b.rightValue);
    case IfStatement(c, cons, alt) =>
      var alt2 := b.alternative;
      var aj := if alt.None? then JNull else ToJson(alt.value).value;
      var aj2 := if alt2.None? then JNull else ToJson(alt2.value).value;
      TaggedInjective(NT.IfStatement, NT.IfStatement,
        [("condition", SlotJson(c).value), ("consenquence", ToJson(cons).value), ("alternative", aj)],
        [("condition", SlotJson(b.condition).value), ("consenquence", ToJson(b.consequence).value), ("alternative", aj2)]);
      SlotProjectionInjective(c, b.condition);
      ProjectionInjective(cons, b.consequence);
      if alt.Some? {
        ProjectionInjective(alt.value, alt2.value);
      }
    case InfixExpression(l, op, r) =>
      TaggedInjective(NT.InfixExpression, NT.InfixExpression,
        [("left_node", SlotJson(l).value), ("operator", JStr(op)), ("right_node", SlotJson(r).value)],
        [("left_node", SlotJson(b.left).value), ("operator", JStr(b.operator)), ("right_node", SlotJson(b.right).value)]);
      SlotProjectionInjective(l, b.left);
      SlotProjectionInjective(r, b.right);
    case CallExpression(f, args) =>
      TaggedInjective(NT.CallExpression, NT.CallExpression,
        [("function", SlotJson(f).value), ("arguments", JArray(SlotsJson(args.items).value))],
        [("function", SlotJson(b.callee).value), ("arguments", JArray(SlotsJson(b.arguments.items).value))]);
      SlotProjectionInjective(f, b.callee);
      SlotsProjectionInjective(args.items, b.arguments.items);
    case IdentifierLiteral(v) =>
      TaggedInjective(NT.IdentifierLiteral, NT.IdentifierLiteral, [("value", JStr(v))], [("value", JStr(b.ident))]);
    case IntegerLiteral(v) =>
      TaggedInjective(NT.IntegerLiteral, NT.IntegerLiteral, [("value", JInt(v))], [("value", JInt(b.intValue))]);
    case FloatLiteral(v) =>
      TaggedInjective(NT.FloatLiteral, NT.FloatLiteral, [("value", JFloat(v))], [("value", JFloat(b.floatValue))]);
    case StringLiteral(v) =>
      TaggedInjective(NT.StringLiteral, NT.StringLiteral, [("value", JStr(v))], [("value", JStr(b.strValue))]);
    case BooleanLiteral(v) =>
      TaggedInjective(NT.BooleanLiteral, NT.BooleanLiteral, [("value", JBool(v))], [("value", JBool(b.boolValue))]);
  }

  lemma {:induction false} SlotProjectionInjective(a: Option<Node>, b: Option<Node>)
    requires SlotJson(a).Some? && SlotJson(a) == SlotJson(b)
    ensures a == b
    decreases a, 2
  {
    ProjectionInjective(a.value, b.value);
  }

  lemma {:induction false} AllProjectionInjective(a: seq<Node>, b: seq<Node>)
    requires AllJson(a).Some? && AllJson(a) == AllJson(b)
    ensures a == b
    decreases a, 0
  {
    forall i | 0 <= i < |a|
      ensures a[i] == b[i]
    {
      ProjectionInjective(a[i], b[i]);
    }
  }

  lemma {:induction false} SlotsProjectionInjective(a: seq<Option<Node>>, b: seq<Option<Node>>)
    requires SlotsJson(a).Some? && SlotsJson(a) == SlotsJson(b)
    ensures a == b
    decreases a, 0
  {
    forall i | 0 <= i < |a|
      ensures a[i] == b[i]
    {
      SlotProjectionInjective(a[i], b[i]);
    }
  }

  /** A block projects its statements in order, without the tag-keyed wrapping a program uses. */
  lemma BlockProjection(ss: seq<Node>)
    requires CompleteAll(ss)
    ensures var r := ToJson(BlockStatement(ss));
      r.Some? && r.value.fields == [("type", JStr("BlockStatement")), ("statements", JArray(AllJson(ss).value))]
      && |AllJson(ss).value| == |ss|
      && forall i :: 0 <= i < |ss| ==> Some(AllJson(ss).value[i]) == ToJson(ss[i])
  {
    AllProjectIffComplete(ss);
  }

  /** A call projects its callee and every argument, same length and order. */
  lemma CallProjection(f: Node, args: seq<Option<Node>>)
    requires Complete(f) && CompleteSlots(args)
    ensures ToJson(f).Some?
    ensures var r := ToJson(CallExpression(Some(f), Arguments(args)));
      r.Some? && |r.value.fields| == 3
      && r.value.fields[1] == ("function", ToJson(f).value)
      && r.value.fields[2].0 == "arguments" && r.value.fields[2].1.JArray?
      && |r.value.fields[2].1.items| == |args|
      && forall i :: 0 <= i < |args| ==> Some(r.value.fields[2].1.items[i]) == SlotJson(args[i])
  {
    ProjectsIffComplete(f);
    SlotsProjectIffComplete(args);
  }

  /** An if without an else projects its alternative as null; with one, as the else block's projection. */
  lemma IfProjection(c: Node, cons: Node, alt: Option<Node>)
    requires Complete(c) && Complete(cons) && (alt.Some? ==> Complete(alt.value))
    ensures ToJson(c).Some? && ToJson(cons).Some? && (alt.Some? ==> ToJson(alt.value).Some?)
    ensures var r := ToJson(IfStatement(Some(c), cons, alt));
      r.Some? && |r.value.fields| == 4
      && r.value.fields[1] == ("condition", ToJson(c).value)
      && r.value.fields[2] == ("consenquence", ToJson(cons).value)
      && r.value.fields[3] == ("alternative", if alt.None? then JNull else ToJson(alt.value).value)
  {
    ProjectsIffComplete(c);
    ProjectsIffComplete(cons);
    if alt.Some? {
      ProjectsIffComplete(alt.value);
    }
  }

  /** A list literal never projects, whatever its elements. */
  lemma ListLiteralNeverProjects(elements: seq<Option<Node>>)
    ensures TypeOf(ListLiteral(elements)).None? && ToJson(ListLiteral(elements)).None?
  {
  }

  /** A program projects exactly when all its statements do. */
  lemma {:induction false} ProgramProjectsIffComplete(p: Program)
    ensures ProgramJson(p).Some? <==> CompleteAll(p.statements)
  {
    WrappedIffComplete(p.statements);
  }

  lemma {:induction false} WrappedIffComplete(ss: seq<Node>)
    ensures WrappedJson(ss).Some? <==> CompleteAll(ss)
    decreases ss
  {
    if ss != [] {
      ProjectsIffComplete(ss[0]);
      WrappedIffComplete(ss[1..]);
      assert forall i :: 1 <= i < |ss| ==> ss[i] == ss[1..][i - 1];
    }
  }
}

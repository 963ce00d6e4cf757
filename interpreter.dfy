/**
 * The Interpreter class of src/interpreter/Interpreter.py.  Its environments
 * live in one arena field, `frames` (frame 0 is `global_env`), which the
 * visit methods update in place: `Environment.set` reassigns one frame's
 * store and `call_function` appends a frame.  Each method returns the
 * outcome, and leaves the arena, that the matching function of Evaluation
 * computes from the arena it started with.
 */
module Interpreting {
  import opened Wrappers
  import opened Tokens
  import opened Ast
  import opened Environments
  import opened Evaluation

  class Interpreter {
    var frames: seq<Frame>

    /** `__init__`: one empty global environment. */
    constructor ()
      ensures frames == Globals()
    {
      frames := Globals();
    }

    /** `Environment.set` on frame `env`. */
    method Set(env: nat, name: Literal, value: Value)
      requires Wf(frames) && env < |frames| && ValueIn(value, |frames|)
      modifies this
      ensures frames == Environments.Set(old(frames), env, name, value)
    {
      frames := frames[env := Frame(frames[env].store[name := value], frames[env].parent)];
    }

    /** `interpret`. */
    method Interpret(program: Program, fuel: nat) returns (r: Result)
      requires Wf(frames) && 0 < |frames|
      modifies this
      ensures r == InterpretFrom(program, old(frames), fuel)
    {
      var top := RunStatements(program.statements, 0, fuel);
      match top {
        case Raised(e) =>
          return Err(e);
        case Returned(v) =>
          return Err(UncaughtReturn(v));
        case Normal(_) =>
      }
      if StrLit("main") !in frames[0].store {
        return Err(NoMain);
      }
      var main := frames[0].store[StrLit("main")];
      if !main.FuncV? {
        return Err(MainNotCallable);
      }
      if fuel == 0 {
        return Err(OutOfFuel);
      }
      var m := CallFunction(main.fn, [], fuel - 1);
      if m.Normal? {
        return Ok(m.value);
      }
      return Err(m.error);
    }

    /** `visit`. */
    method Visit(node: Node, env: nat, fuel: nat) returns (o: Outcome)
      requires Wf(frames) && env < |frames|
      modifies this
      ensures Run(o, frames) == Evaluation.Visit(node, env, old(frames), fuel)
      decreases fuel, node, 1
    {
      match node {
        case ExpressionStatement(e) =>
          o := VisitSlot(e, env, fuel);
        case LetStatement(name, value, _) =>
          o := VisitBinding(StrLit(name), value, env, fuel);
        case AssignStatement(name, value) =>
          o := VisitBinding(StrLit(name), value, env, fuel);
        case ReturnStatement(_) =>
          o := VisitReturn(node, env, fuel);
        case BlockStatement(ss) =>
          o := RunStatements(ss, env, fuel);
        case IfStatement(_, _, _) =>
          o := VisitIf(node, env, fuel);
        case FunctionStatement(name, parameters, body, returnType) =>
          var f := FuncV(Closure(name, parameters, body, returnType, env));
          Set(env, StrLit(name), f);
          o := Normal(f);
        case InfixExpression(_, _, _) =>
          o := VisitInfix(node, env, fuel);
        case CallExpression(_, _) =>
          o := VisitCall(node, env, fuel);
        case IdentifierLiteral(name) =>
          if name == "print" {
            o := Normal(StrV("print"));
          } else {
            var v := Get(frames, env, StrLit(name));
            o := if v.Some? then Normal(v.value) else Raised(NameError(name));
          }
        case IntegerLiteral(i) =>
          o := Normal(IntV(i));
        case FloatLiteral(f) =>
          o := Normal(FloatV(f));
        case StringLiteral(s) =>
          o := Normal(StrV(s));
        case BooleanLiteral(_) =>
          o := Raised(NoVisitMethod("BooleanLiteral"));
        case ListLiteral(elements) =>
          o := VisitSlots(elements, env, fuel);
      }
    }

    /** `visit` of a field that may be None. */
    method VisitSlot(slot: Option<Node>, env: nat, fuel: nat) returns (o: Outcome)
      requires Wf(frames) && env < |frames|
      modifies this
      ensures Run(o, frames) == Evaluation.VisitSlot(slot, env, old(frames), fuel)
      decreases fuel, slot, 2
    {
      if slot.None? {
        return Raised(NoVisitMethod("NoneType"));
      }
      o := Visit(slot.value, env, fuel);
    }

    /** `visit_LetStatement` and `visit_AssignStatement`. */
    method VisitBinding(name: Literal, value: Option<Node>, env: nat, fuel: nat) returns (o: Outcome)
      requires Wf(frames) && env < |frames|
      modifies this
      ensures Run(o, frames) == Evaluation.VisitBinding(name, value, env, old(frames), fuel)
      decreases fuel, value, 3
    {
      o := VisitSlot(value, env, fuel);
      if o.Normal? {
        Set(env, name, o.value);
      }
    }

    /** `visit_ReturnStatement`. */
    method VisitReturn(node: Node, env: nat, fuel: nat) returns (o: Outcome)
      requires node.ReturnStatement? && Wf(frames) && env < |frames|
      modifies this
      ensures Run(o, frames) == Evaluation.VisitReturn(node, env, old(frames), fuel)
      decreases fuel, node, 0
    {
      o := VisitSlot(node.returnValue, env, fuel);
      if o.Normal? {
        o := Returned(o.value);
      }
    }

    /** The loop of `visit_BlockStatement` and `visit_Program`. */
    method RunStatements(ss: seq<Node>, env: nat, fuel: nat) returns (o: Outcome)
      requires Wf(frames) && env < |frames|
      modifies this
      ensures Run(o, frames) == Evaluation.RunStatements(ss, env, old(frames), fuel, NoneV)
      decreases fuel, ss, 0
    {
      var result := NoneV;
      var i := 0;
      while i < |ss|
        invariant 0 <= i <= |ss| && Wf(frames) && env < |frames| && ValueIn(result, |frames|)
        invariant Evaluation.RunStatements(ss[i..], env, frames, fuel, result)
          == Evaluation.RunStatements(ss, env, old(frames), fuel, NoneV)
      {
        assert ss[i..][0] == ss[i] && ss[i..][1..] == ss[i + 1..];
        var s := Visit(ss[i], env, fuel);
        if !s.Normal? {
          return s;
        }
        result := s.value;
        i := i + 1;
      }
      return Normal(result);
    }

    /** `visit_IfStatement`. */
    method VisitIf(node: Node, env: nat, fuel: nat) returns (o: Outcome)
      requires node.IfStatement? && Wf(frames) && env < |frames|
      modifies this
      ensures Run(o, frames) == Evaluation.VisitIf(node, env, old(frames), fuel)
      decreases fuel, node, 0
    {
      var condition := VisitSlot(node.condition, env, fuel);
      if !condition.Normal? {
        return condition;
      }
      var truth := Truthy(condition.value);
      if truth.None? {
        return Raised(Unmodelled("truth of a float"));
      }
      if truth.value {
        o := Visit(node.consequence, env, fuel);
      } else if node.alternative.Some? {
        o := Visit(node.alternative.value, env, fuel);
      } else {
        o := Normal(NoneV);
      }
    }

    /** `visit_InfixExpression`. */
    method VisitInfix(node: Node, env: nat, fuel: nat) returns (o: Outcome)
      requires node.InfixExpression? && Wf(frames) && env < |frames|
      modifies this
      ensures Run(o, frames) == Evaluation.VisitInfix(node, env, old(frames), fuel)
      decreases fuel, node, 0
    {
      var left := VisitSlot(node.left, env, fuel);
      if !left.Normal? {
        return left;
      }
      var right := VisitSlot(node.right, env, fuel);
      if !right.Normal? {
        return right;
      }
      o := BinaryOp(node.operator, left.value, right.value);
    }

    /** The list comprehension over arguments or list elements. */
    method VisitSlots(slots: seq<Option<Node>>, env: nat, fuel: nat) returns (o: Outcome)
      requires Wf(frames) && env < |frames|
      modifies this
      ensures Run(o, frames) == Evaluation.VisitSlots(slots, env, old(frames), fuel, [])
      decreases fuel, slots, 0
    {
      var values := [];
      var i := 0;
      while i < |slots|
        invariant 0 <= i <= |slots| && Wf(frames) && env < |frames| && ValuesIn(values, |frames|)
        invariant Evaluation.VisitSlots(slots[i..], env, frames, fuel, values)
          == Evaluation.VisitSlots(slots, env, old(frames), fuel, [])
      {
        assert slots[i..][0] == slots[i] && slots[i..][1..] == slots[i + 1..];
        ghost var before := frames;
        var v := VisitSlot(slots[i], env, fuel);
        if !v.Normal? {
          return v;
        }
        ValuesInGrow(values, |before|, |frames|);
        values := values + [v.value];
        i := i + 1;
      }
      return Normal(ListV(values));
    }

    /** `visit_CallExpression`. */
    method VisitCall(node: Node, env: nat, fuel: nat) returns (o: Outcome)
      requires node.CallExpression? && Wf(frames) && env < |frames|
      modifies this
      ensures Run(o, frames) == Evaluation.VisitCall(node, env, old(frames), fuel)
      decreases fuel, node, 0
    {
      var callee := VisitSlot(node.callee, env, fuel);
      if !callee.Normal? {
        return callee;
      }
      if node.arguments.NoArguments? {
        return Raised(HostTypeError("'NoneType' object is not iterable"));
      }
      var args := VisitSlots(node.arguments.items, env, fuel);
      if !args.Normal? {
        return args;
      }
      var f := callee.value;
      if f == StrV("print") {
        return Normal(NoneV);
      }
      if !f.FuncV? {
        return Raised(NotCallable(f));
      }
      if fuel == 0 {
        return Raised(OutOfFuel);
      }
      o := CallFunction(f.fn, args.value.items, fuel - 1);
    }

    /** `call_function`. */
    method CallFunction(c: Closure, args: seq<Value>, fuel: nat) returns (o: Outcome)
      requires Wf(frames) && c.definingEnv < |frames| && ValuesIn(args, |frames|)
      modifies this
      ensures Run(o, frames) == Evaluation.CallFunction(c, args, old(frames), fuel)
      decreases fuel
    {
      if c.parameters.None? {
        return Raised(HostTypeError("object of type 'NoneType' has no len()"));
      }
      var parameters := c.parameters.value;
      if |args| != |parameters| {
        return Raised(ArityMismatch(c.name, |parameters|, |args|));
      }
      var callEnv := |frames|;
      BindParameters(c.definingEnv, parameters, args);
      var body := Visit(c.body, callEnv, fuel);
      match body {
        case Normal(_) => o := Normal(NoneV);
        case Returned(v) => o := Normal(v);
        case Raised(_) => o := body;
      }
    }

    /**
     * The fresh environment of `call_function` and its `zip` loop: a new
     * frame under `parent`, with each parameter bound to its argument.
     */
    method BindParameters(parent: nat, parameters: seq<FunctionParameter>, args: seq<Value>)
      requires Wf(frames) && parent < |frames| && |parameters| == |args| && ValuesIn(args, |frames|)
      modifies this
      ensures frames == Push(old(frames), parent, Bindings(parameters, args))
    {
      var callEnv := |frames|;
      frames := Push(frames, parent, map[]);
      var i := 0;
      while i < |parameters|
        invariant 0 <= i <= |parameters|
        invariant frames == Push(old(frames), parent, Bindings(parameters[..i], args[..i]))
      {
        assert parameters[..i + 1][..i] == parameters[..i] && args[..i + 1][..i] == args[..i];
        ValueInGrows(args[i], |old(frames)|, |frames|);
        Set(callEnv, parameters[i].name, args[i]);
        BindingsIn(parameters[..i + 1], args[..i + 1], |old(frames)|);
        ghost var next := Push(old(frames), parent, Bindings(parameters[..i + 1], args[..i + 1]));
        assert |frames| == |next| && forall j :: 0 <= j < |frames| ==> frames[j] == next[j];
        i := i + 1;
      }
      assert parameters[..i] == parameters && args[..i] == args;
    }
  }
}

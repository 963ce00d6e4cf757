/**
 * The tree-walking evaluator of src/interpreter/Interpreter.py as functions.
 *
 * `visit` becomes `Visit`, which dispatches on the node kind to one function
 * per `visit_*` method.  Each function takes the environment index and the
 * whole arena, and returns the outcome together with the arena afterwards.
 * A raised `ReturnValue` is the outcome `Returned`, any other exception is
 * `Raised`, and both pass unchanged through every construct except a call.
 * User recursion need not terminate, so every call of a user function spends
 * one unit of `fuel`; running out is the `OutOfFuel` error.
 */
module Evaluation {
  import opened Wrappers
  import opened Tokens
  import opened Ast
  import opened Environments
  import Numerals

  /** The exceptions the interpreter raises, and the host errors it meets. */
  datatype Error =
    | NameError(name: string)
    | NoVisitMethod(kind: string)
    | UnsupportedOperator(op: string)
    | NotCallable(callee: Value)
    | ArityMismatch(fnName: string, expected: nat, got: nat)
    | NoMain
    | MainNotCallable
    | UncaughtReturn(value: Value)
    | HostTypeError(message: string)
    | Unmodelled(what: string)
    | OutOfFuel

  /** The message Python attaches to an error, where it does not depend on object addresses. */
  function Message(e: Error): (m: Option<string>)
    ensures e.NameError? || e.NoVisitMethod? || e.UnsupportedOperator? || e.ArityMismatch? || e.NoMain? || e.MainNotCallable? ==> m.Some?
  {
    match e
    case NameError(n) => Some("Variable '" + n + "' is not defined.")
    case NoVisitMethod(k) => Some("No visit_" + k + " method defined.")
    case UnsupportedOperator(op) => Some("Unsupported operator: " + op)
    case NotCallable(v) =>
      (match v
       case IntV(i) => Some("Not a callable object: " + Numerals.IntText(i))
       case StrV(s) => Some("Not a callable object: " + s)
       case NoneV => Some("Not a callable object: None")
       case BoolV(b) => Some("Not a callable object: " + if b then "True" else "False")
       case _ => None)
    case ArityMismatch(f, n, m) =>
      Some("Function '" + f + "' expected " + Numerals.NatText(n) + " arguments but got " + Numerals.NatText(m) + ".")
    case NoMain => Some("No 'main' function defined.")
    case MainNotCallable => Some("'main' is not callable.")
    case HostTypeError(m) => Some(m)
    case _ => None
  }

  /** How a visit ends: with a value, by a pending `return`, or by an exception. */
  datatype Outcome = Normal(value: Value) | Returned(value: Value) | Raised(error: Error)

  /** An outcome and the arena after it. */
  datatype Run = Run(outcome: Outcome, frames: seq<Frame>)

  /** What `interpret` gives its caller: main's result, or the exception that escaped. */
  datatype Result = Ok(value: Value) | Err(error: Error)

  predicate OutcomeIn(o: Outcome, n: nat) {
    o.Raised? || ValueIn(o.value, n)
  }

  /** A visit started on `frames` ended in a consistent later arena. */
  ghost predicate Good(frames: seq<Frame>, r: Run) {
    Wf(r.frames) && Extends(frames, r.frames) && OutcomeIn(r.outcome, |r.frames|)
  }

  /** `is_truthy`, i.e. Python's `bool()`; a float's truth is not modelled. */
  function Truthy(v: Value): (r: Option<bool>)
    ensures r.None? <==> v.FloatV?
    ensures v.IntV? ==> r == Some(v.i != 0)
    ensures v.StrV? ==> r == Some(v.s != [])
    ensures v.NoneV? ==> r == Some(false)
    ensures v.BoolV? ==> r == Some(v.b)
    ensures v.ListV? ==> r == Some(v.items != [])
    ensures v.FuncV? ==> r == Some(true)
  {
    match v
    case NoneV => Some(false)
    case IntV(i) => Some(i != 0)
    case FloatV(_) => None
    case StrV(s) => Some(|s| > 0)
    case BoolV(b) => Some(b)
    case ListV(items) => Some(|items| > 0)
    case FuncV(_) => Some(true)
  }

  /** Python's ordering of strings: by code point, a proper prefix first. */
  function StrLess(a: string, b: string): (r: bool)
    ensures r ==> a != b
    ensures a != b && |a| <= |b| && a == b[..|a|] ==> r
  {
    if a == [] then b != []
    else if b == [] then false
    else if a[0] != b[0] then a[0] < b[0]
    else StrLess(a[1..], b[1..])
  }

  /** The ten operators `visit_InfixExpression` knows. */
  predicate Supported(op: string) {
    op in {"+", "-", "*", "/", "==", "!=", "<", ">", "<=", ">="}
  }

  /**
   * The operator step of `visit_InfixExpression` on two evaluated operands.
   * int with int and str with str follow Python; '/' yields a float and is
   * not modelled, nor is any other pairing of operand types.
   */
  function BinaryOp(op: string, left: Value, right: Value): (r: Outcome)
    ensures !Supported(op) ==> r == Raised(UnsupportedOperator(op))
    ensures r.Normal? ==> r.value.IntV? || r.value.StrV? || r.value.BoolV?
  {
    if !Supported(op) then Raised(UnsupportedOperator(op))
    else if left.IntV? && right.IntV? then
      var a, b := left.i, right.i;
      if op == "+" then Normal(IntV(a + b))
      else if op == "-" then Normal(IntV(a - b))
      else if op == "*" then Normal(IntV(a * b))
      else if op == "/" then Raised(Unmodelled("true division"))
      else if op == "==" then Normal(BoolV(a == b))
      else if op == "!=" then Normal(BoolV(a != b))
      else if op == "<" then Normal(BoolV(a < b))
      else if op == ">" then Normal(BoolV(a > b))
      else if op == "<=" then Normal(BoolV(a <= b))
      else Normal(BoolV(a >= b))
    else if left.StrV? && right.StrV? then
      var a, b := left.s, right.s;
      if op == "+" then Normal(StrV(a + b))
      else if op == "*" then Raised(HostTypeError("can't multiply sequence by non-int of type 'str'"))
      else if op == "-" || op == "/" then
        Raised(HostTypeError("unsupported operand type(s) for " + op + ": 'str' and 'str'"))
      else if op == "==" then Normal(BoolV(a == b))
      else if op == "!=" then Normal(BoolV(a != b))
      else if op == "<" then Normal(BoolV(StrLess(a, b)))
      else if op == ">" then Normal(BoolV(StrLess(b, a)))
      else if op == "<=" then Normal(BoolV(!StrLess(b, a)))
      else Normal(BoolV(!StrLess(a, b)))
    else Raised(Unmodelled("operands of " + op))
  }

  /** The store of a fresh call frame: the `zip` loop binding parameters in order. */
  function Bindings(parameters: seq<FunctionParameter>, args: seq<Value>): (store: map<Literal, Value>)
    requires |parameters| == |args|
    ensures store.Keys == set i | 0 <= i < |parameters| :: parameters[i].name
    ensures forall n :: n in store ==> exists i :: 0 <= i < |args| && store[n] == args[i]
  {
    if parameters == [] then map[]
    else
      var k := |parameters| - 1;
      var earlier := Bindings(parameters[..k], args[..k]);
      assert forall i :: 0 <= i < k ==> parameters[..k][i] == parameters[i] && args[..k][i] == args[i];
      earlier[parameters[k].name := args[k]]
  }

  /**
   * Parameters bind by position: the i-th parameter's name holds the i-th
   * argument, unless a later parameter has the same name (the later one
   * wins, as in the loop).
   */
  lemma {:induction false} BindingsByPosition(parameters: seq<FunctionParameter>, args: seq<Value>, i: nat)
    requires |parameters| == |args| && i < |parameters|
    requires forall j :: i < j < |parameters| ==> parameters[j].name != parameters[i].name
    ensures parameters[i].name in Bindings(parameters, args)
    ensures Bindings(parameters, args)[parameters[i].name] == args[i]
    decreases |parameters|
  {
    var k := |parameters| - 1;
    if i < k {
      BindingsByPosition(parameters[..k], args[..k], i);
    }
  }

  lemma BindingsIn(parameters: seq<FunctionParameter>, args: seq<Value>, n: nat)
    requires |parameters| == |args| && ValuesIn(args, n)
    ensures StoreIn(Bindings(parameters, args), n)
  {
  }

  /** `visit`: dispatch on the node's class; classes without a visitor raise. */
  function Visit(node: Node, env: nat, frames: seq<Frame>, fuel: nat): (r: Run)
    requires Wf(frames) && env < |frames|
    ensures Good(frames, r)
    decreases fuel, node, 1
  {
    match node
    case ExpressionStatement(e) => VisitSlot(e, env, frames, fuel)
    case LetStatement(name, value, _) => VisitBinding(StrLit(name), value, env, frames, fuel)
    case AssignStatement(name, value) => VisitBinding(StrLit(name), value, env, frames, fuel)
    case ReturnStatement(_) => VisitReturn(node, env, frames, fuel)
    case BlockStatement(ss) => RunStatements(ss, env, frames, fuel, NoneV)
    case IfStatement(_, _, _) => VisitIf(node, env, frames, fuel)
    case FunctionStatement(name, parameters, body, returnType) =>
      var f := FuncV(Closure(name, parameters, body, returnType, env));
      Run(Normal(f), Set(frames, env, StrLit(name), f))
    case InfixExpression(_, _, _) => VisitInfix(node, env, frames, fuel)
    case CallExpression(_, _) => VisitCall(node, env, frames, fuel)
    case IdentifierLiteral(name) =>
      if name == "print" then Run(Normal(StrV("print")), frames)
      else
        (match Get(frames, env, StrLit(name))
         case None => Run(Raised(NameError(name)), frames)
         case Some(v) => Run(Normal(v), frames))
    case IntegerLiteral(i) => Run(Normal(IntV(i)), frames)
    case FloatLiteral(f) => Run(Normal(FloatV(f)), frames)
    case StringLiteral(s) => Run(Normal(StrV(s)), frames)
    case BooleanLiteral(_) => Run(Raised(NoVisitMethod("BooleanLiteral")), frames)
    case ListLiteral(elements) => VisitSlots(elements, env, frames, fuel, [])
  }

  /** `visit` of a field that may hold Python's `None`, which has no visitor. */
  function VisitSlot(o: Option<Node>, env: nat, frames: seq<Frame>, fuel: nat): (r: Run)
    requires Wf(frames) && env < |frames|
    ensures Good(frames, r)
    decreases fuel, o, 2
  {
    match o
    case None => Run(Raised(NoVisitMethod("NoneType")), frames)
    case Some(n) => Visit(n, env, frames, fuel)
  }

  /** `visit_LetStatement` and `visit_AssignStatement`: evaluate, then `env.set`. */
  function VisitBinding(name: Literal, value: Option<Node>, env: nat, frames: seq<Frame>, fuel: nat): (r: Run)
    requires Wf(frames) && env < |frames|
    ensures Good(frames, r)
    decreases fuel, value, 3
  {
    var v := VisitSlot(value, env, frames, fuel);
    if !v.outcome.Normal? then v
    else Run(v.outcome, Set(v.frames, env, name, v.outcome.value))
  }

  /** `visit_ReturnStatement`: evaluate, then raise `ReturnValue`. */
  function VisitReturn(node: Node, env: nat, frames: seq<Frame>, fuel: nat): (r: Run)
    requires node.ReturnStatement? && Wf(frames) && env < |frames|
    ensures Good(frames, r)
    decreases fuel, node, 0
  {
    var v := VisitSlot(node.returnValue, env, frames, fuel);
    if !v.outcome.Normal? then v else Run(Returned(v.outcome.value), v.frames)
  }

  /** The loop of `visit_BlockStatement` (and of `visit_Program`): the last value, or the first exit. */
  function RunStatements(ss: seq<Node>, env: nat, frames: seq<Frame>, fuel: nat, last: Value): (r: Run)
    requires Wf(frames) && env < |frames| && ValueIn(last, |frames|)
    ensures Good(frames, r)
    decreases fuel, ss, 0
  {
    if ss == [] then Run(Normal(last), frames)
    else
      var s := Visit(ss[0], env, frames, fuel);
      if !s.outcome.Normal? then s
      else RunStatements(ss[1..], env, s.frames, fuel, s.outcome.value)
  }

  /** `visit_IfStatement`. */
  function VisitIf(node: Node, env: nat, frames: seq<Frame>, fuel: nat): (r: Run)
    requires node.IfStatement? && Wf(frames) && env < |frames|
    ensures Good(frames, r)
    decreases fuel, node, 0
  {
    var c := VisitSlot(node.condition, env, frames, fuel);
    if !c.outcome.Normal? then c
    else match Truthy(c.outcome.value)
      case None => Run(Raised(Unmodelled("truth of a float")), c.frames)
      case Some(true) => Visit(node.consequence, env, c.frames, fuel)
      case Some(false) =>
        if node.alternative.Some? then Visit(node.alternative.value, env, c.frames, fuel)
        else Run(Normal(NoneV), c.frames)
  }

  /** `visit_InfixExpression`: left, then right, then the operator. */
  function VisitInfix(node: Node, env: nat, frames: seq<Frame>, fuel: nat): (r: Run)
    requires node.InfixExpression? && Wf(frames) && env < |frames|
    ensures Good(frames, r)
    decreases fuel, node, 0
  {
    var a := VisitSlot(node.left, env, frames, fuel);
    if !a.outcome.Normal? then a
    else
      var b := VisitSlot(node.right, env, a.frames, fuel);
      if !b.outcome.Normal? then b
      else Run(BinaryOp(node.operator, a.outcome.value, b.outcome.value), b.frames)
  }

  /** The list comprehensions over arguments and list elements, left to right. */
  function VisitSlots(os: seq<Option<Node>>, env: nat, frames: seq<Frame>, fuel: nat, acc: seq<Value>): (r: Run)
    requires Wf(frames) && env < |frames| && ValuesIn(acc, |frames|)
    ensures Good(frames, r)
    ensures r.outcome.Normal? ==>
      r.outcome.value.ListV? && |r.outcome.value.items| == |acc| + |os| && acc <= r.outcome.value.items
    decreases fuel, os, 0
  {
    if os == [] then Run(Normal(ListV(acc)), frames)
    else
      var v := VisitSlot(os[0], env, frames, fuel);
      if !v.outcome.Normal? then v
      else
        ValuesInGrow(acc, |frames|, |v.frames|);
        VisitSlots(os[1..], env, v.frames, fuel, acc + [v.outcome.value])
  }

  /**
   * `visit_CallExpression`: the callee, then the arguments; the builtin
   * `print` (named by the string "print") gives None, a user function is
   * called, anything else is not callable.
   */
  function VisitCall(node: Node, env: nat, frames: seq<Frame>, fuel: nat): (r: Run)
    requires node.CallExpression? && Wf(frames) && env < |frames|
    ensures Good(frames, r)
    decreases fuel, node, 0
  {
    var f := VisitSlot(node.callee, env, frames, fuel);
    if !f.outcome.Normal? then f
    else if node.arguments.NoArguments? then
      Run(Raised(HostTypeError("'NoneType' object is not iterable")), f.frames)
    else
      var xs := VisitSlots(node.arguments.items, env, f.frames, fuel, []);
      if !xs.outcome.Normal? then xs
      else
        var callee := f.outcome.value;
        if callee == StrV("print") then Run(Normal(NoneV), xs.frames)
        else if callee.FuncV? then
          if fuel == 0 then Run(Raised(OutOfFuel), xs.frames)
          else CallFunction(callee.fn, xs.outcome.value.items, xs.frames, fuel - 1)
        else Run(Raised(NotCallable(callee)), xs.frames)
  }

  /**
   * `call_function`: check the arity, bind the parameters in a fresh frame
   * whose parent is the defining frame, run the body, and catch `ReturnValue`.
   */
  function CallFunction(c: Closure, args: seq<Value>, frames: seq<Frame>, fuel: nat): (r: Run)
    requires Wf(frames) && c.definingEnv < |frames| && ValuesIn(args, |frames|)
    ensures Good(frames, r) && !r.outcome.Returned?
    decreases fuel
  {
    if c.parameters.None? then
      Run(Raised(HostTypeError("object of type 'NoneType' has no len()")), frames)
    else if |args| != |c.parameters.value| then
      Run(Raised(ArityMismatch(c.name, |c.parameters.value|, |args|)), frames)
    else
      BindingsIn(c.parameters.value, args, |frames|);
      var callFrames := Push(frames, c.definingEnv, Bindings(c.parameters.value, args));
      var b := Visit(c.body, |frames|, callFrames, fuel);
      match b.outcome
      case Normal(_) => Run(Normal(NoneV), b.frames)
      case Returned(v) => Run(Normal(v), b.frames)
      case Raised(_) => b
  }

  /**
   * `interpret` on an interpreter whose environments are `frames`, frame 0
   * being `global_env`: the top-level statements in the global frame, then
   * `main` looked up in the global store and called with no arguments.
   */
  function InterpretFrom(program: Program, frames: seq<Frame>, fuel: nat): (r: Result)
    requires Wf(frames) && 0 < |frames|
    ensures r.Ok? ==> 0 < fuel
    ensures program.statements == [] && StrLit("main") !in frames[0].store ==> r == Err(NoMain)
  {
    var top := RunStatements(program.statements, 0, frames, fuel, NoneV);
    match top.outcome
    case Raised(e) => Err(e)
    case Returned(v) => Err(UncaughtReturn(v))
    case Normal(_) =>
      if StrLit("main") !in top.frames[0].store then Err(NoMain)
      else
        match top.frames[0].store[StrLit("main")]
        case FuncV(c) =>
          if fuel == 0 then Err(OutOfFuel)
          else
            var m := CallFunction(c, [], top.frames, fuel - 1);
            if m.outcome.Normal? then Ok(m.outcome.value) else Err(m.outcome.error)
        case _ => Err(MainNotCallable)
  }

  /** `Interpreter().interpret(program)`: a fresh global environment. */
  function Interpret(program: Program, fuel: nat): (r: Result)
    ensures r.Ok? ==> 0 < fuel
    ensures program.statements == [] ==> r == Err(NoMain)
  {
    InterpretFrom(program, Globals(), fuel)
  }
}

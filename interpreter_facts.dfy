/**
 * Properties of the environment chain and of evaluation: lookups walk the
 * parent chain and see the innermost binding, `set` touches one frame, calls
 * are lexically scoped and isolate their writes, `return` unwinds blocks and
 * stops at the call, and the behaviours of the code as written (assignment
 * creating bindings, `print` before lookup, no visitor for booleans, `%` and
 * `^` unsupported).
 */
module InterpreterFacts {
  import opened Wrappers
  import opened Tokens
  import opened Ast
  import opened Environments
  import opened Evaluation

  // ---------------------------------------------------------------------
  // The environment chain

  /** Frame `j` is `env` or one of its ancestors. */
  ghost predicate OnChain(frames: seq<Frame>, env: nat, j: nat)
    requires Wf(frames) && env < |frames|
    decreases env
  {
    j == env || (frames[env].parent.Some? && OnChain(frames, frames[env].parent.value, j))
  }

  lemma {:induction false} ChainGoesDown(frames: seq<Frame>, env: nat, j: nat)
    requires Wf(frames) && env < |frames| && OnChain(frames, env, j)
    ensures j <= env
    decreases env
  {
    if j != env {
      ChainGoesDown(frames, frames[env].parent.value, j);
    }
  }

  /**
   * `get` finds a binding exactly when some frame on the chain has one; what
   * it returns is stored in a frame on the chain, and a binding in the
   * starting frame shadows all others.
   */
  lemma {:induction false} GetWalksChain(frames: seq<Frame>, env: nat, name: Literal)
    requires Wf(frames) && env < |frames|
    ensures Get(frames, env, name).Some? <==>
      exists j :: 0 <= j < |frames| && OnChain(frames, env, j) && name in frames[j].store
    ensures Get(frames, env, name).Some? ==>
      exists j :: 0 <= j < |frames| && OnChain(frames, env, j) && name in frames[j].store
        && frames[j].store[name] == Get(frames, env, name).value
    ensures name in frames[env].store ==> Get(frames, env, name) == Some(frames[env].store[name])
    decreases env
  {
    if name in frames[env].store {
      assert OnChain(frames, env, env);
    } else if frames[env].parent.Some? {
      var p := frames[env].parent.value;
      GetWalksChain(frames, p, name);
      if Get(frames, env, name).Some? {
        var j :| 0 <= j < |frames| && OnChain(frames, p, j) && name in frames[j].store
          && frames[j].store[name] == Get(frames, p, name).value;
        assert OnChain(frames, env, j);
      }
      forall j | 0 <= j < |frames| && OnChain(frames, env, j) && name in frames[j].store
        ensures Get(frames, env, name).Some?
      {
        assert OnChain(frames, p, j);
      }
    } else {
      forall j | 0 <= j < |frames| && OnChain(frames, env, j)
        ensures j == env
      {
      }
    }
  }

  /** `get` from `p` reads only frames `0..p`. */
  lemma {:induction false} GetReadsBelow(a: seq<Frame>, b: seq<Frame>, p: nat, name: Literal)
    requires Wf(a) && Wf(b) && p < |a| && p < |b|
    requires forall j :: 0 <= j <= p ==> a[j] == b[j]
    ensures Get(a, p, name) == Get(b, p, name)
    decreases p
  {
    if name !in a[p].store && a[p].parent.Some? {
      GetReadsBelow(a, b, a[p].parent.value, name);
    }
  }

  /** After `set`, the name reads back the value just bound. */
  lemma GetAfterSet(frames: seq<Frame>, env: nat, name: Literal, v: Value)
    requires Wf(frames) && env < |frames| && ValueIn(v, |frames|)
    ensures Get(Set(frames, env, name, v), env, name) == Some(v)
  {
  }

  /** `set` leaves every other name, seen from the same frame, as it was. */
  lemma GetOtherAfterSet(frames: seq<Frame>, env: nat, name: Literal, v: Value, other: Literal)
    requires Wf(frames) && env < |frames| && ValueIn(v, |frames|) && other != name
    ensures Get(Set(frames, env, name, v), env, other) == Get(frames, env, other)
  {
    var r := Set(frames, env, name, v);
    if other !in frames[env].store && frames[env].parent.Some? {
      GetReadsBelow(frames, r, frames[env].parent.value, other);
    }
  }

  /** A write into a frame is invisible from the frames made before it, parents included. */
  lemma SetInvisibleBelow(frames: seq<Frame>, env: nat, name: Literal, v: Value, p: nat, other: Literal)
    requires Wf(frames) && env < |frames| && ValueIn(v, |frames|) && p < env
    ensures Get(Set(frames, env, name, v), p, other) == Get(frames, p, other)
  {
    GetReadsBelow(frames, Set(frames, env, name, v), p, other);
  }

  /**
   * Lexical scoping: in a call frame, a name that is not a parameter is
   * looked up from the defining frame, whatever frame the caller was in.
   */
  lemma CallFrameFallsThrough(frames: seq<Frame>, defining: nat, store: map<Literal, Value>, name: Literal)
    requires Wf(frames) && defining < |frames| && StoreIn(store, |frames|) && name !in store
    ensures Get(Push(frames, defining, store), |frames|, name) == Get(frames, defining, name)
  {
    GetReadsBelow(frames, Push(frames, defining, store), defining, name);
  }

  // ---------------------------------------------------------------------
  // Statements

  /** Assignment needs no earlier declaration: it does exactly what a let does. */
  lemma AssignIsLet(name: string, value: Option<Node>, valueType: string, env: nat, frames: seq<Frame>, fuel: nat)
    requires Wf(frames) && env < |frames|
    ensures Visit(AssignStatement(name, value), env, frames, fuel)
      == Visit(LetStatement(name, value, valueType), env, frames, fuel)
  {
  }

  /** A let (or assignment) whose value evaluates binds it in the current frame and yields it. */
  lemma LetBinds(name: string, value: Option<Node>, valueType: string, env: nat, frames: seq<Frame>, fuel: nat)
    requires Wf(frames) && env < |frames|
    ensures var v := VisitSlot(value, env, frames, fuel);
      var r := Visit(LetStatement(name, value, valueType), env, frames, fuel);
      && (v.outcome.Normal? ==> r.outcome == v.outcome && Get(r.frames, env, StrLit(name)) == Some(v.outcome.value))
      && (!v.outcome.Normal? ==> r == v)
  {
  }

  /**
   * A function statement binds, in its own frame, a closure over that frame,
   * so the function's name resolves from inside its calls.
   */
  lemma FunctionBinds(name: string, parameters: Option<seq<FunctionParameter>>, body: Node, returnType: string,
                      env: nat, frames: seq<Frame>, fuel: nat)
    requires Wf(frames) && env < |frames|
    ensures var f := FuncV(Closure(name, parameters, body, returnType, env));
      var r := Visit(FunctionStatement(name, parameters, body, returnType), env, frames, fuel);
      r.outcome == Normal(f) && Get(r.frames, env, StrLit(name)) == Some(f)
  {
  }

  /** Blocks run statements in order: the first that does not finish normally ends the run. */
  lemma {:induction false} RunStatementsAppend(ss: seq<Node>, rest: seq<Node>, env: nat, frames: seq<Frame>, fuel: nat, last: Value)
    requires Wf(frames) && env < |frames| && ValueIn(last, |frames|)
    ensures var r := RunStatements(ss, env, frames, fuel, last);
      RunStatements(ss + rest, env, frames, fuel, last) ==
        if r.outcome.Normal? then RunStatements(rest, env, r.frames, fuel, r.outcome.value) else r
    decreases ss
  {
    if ss == [] {
      assert ss + rest == rest;
    } else {
      var s := Visit(ss[0], env, frames, fuel);
      assert (ss + rest)[0] == ss[0] && (ss + rest)[1..] == ss[1..] + rest;
      if s.outcome.Normal? {
        RunStatementsAppend(ss[1..], rest, env, s.frames, fuel, s.outcome.value);
      }
    }
  }

  /** A `return` inside a block skips the rest of the block and carries its value out. */
  lemma ReturnSkipsRest(first: Node, rest: seq<Node>, env: nat, frames: seq<Frame>, fuel: nat)
    requires Wf(frames) && env < |frames|
    requires Visit(first, env, frames, fuel).outcome.Returned?
    ensures Visit(BlockStatement([first] + rest), env, frames, fuel) == Visit(first, env, frames, fuel)
  {
    RunStatementsAppend([first], rest, env, frames, fuel, NoneV);
  }

  /** An empty block yields None and changes nothing. */
  lemma EmptyBlock(env: nat, frames: seq<Frame>, fuel: nat)
    requires Wf(frames) && env < |frames|
    ensures Visit(BlockStatement([]), env, frames, fuel) == Run(Normal(NoneV), frames)
  {
  }

  /** `if` picks the consequence on a truthy condition, the alternative or None otherwise. */
  lemma IfChooses(node: Node, env: nat, frames: seq<Frame>, fuel: nat)
    requires node.IfStatement? && Wf(frames) && env < |frames|
    ensures var c := VisitSlot(node.condition, env, frames, fuel);
      var r := Visit(node, env, frames, fuel);
      && (!c.outcome.Normal? ==> r == c)
      && (c.outcome.Normal? && Truthy(c.outcome.value) == Some(true) ==> r == Visit(node.consequence, env, c.frames, fuel))
      && (c.outcome.Normal? && Truthy(c.outcome.value) == Some(false) && node.alternative.Some? ==>
            r == Visit(node.alternative.value, env, c.frames, fuel))
      && (c.outcome.Normal? && Truthy(c.outcome.value) == Some(false) && node.alternative.None? ==> r == Run(Normal(NoneV), c.frames))
  {
  }

  /** `return e` evaluates e and carries its value out; an error in e is raised instead. */
  lemma ReturnCarries(value: Option<Node>, env: nat, frames: seq<Frame>, fuel: nat)
    requires Wf(frames) && env < |frames|
    ensures var v := VisitSlot(value, env, frames, fuel);
      var r := Visit(ReturnStatement(value), env, frames, fuel);
      && (v.outcome.Normal? ==> r == Run(Returned(v.outcome.value), v.frames))
      && (!v.outcome.Normal? ==> r == v)
  {
  }

  /**
   * An infix expression evaluates its left operand first, then its right one
   * in the arena the left left behind; the first that does not finish
   * normally is the result, otherwise the operator is applied to both values.
   */
  lemma InfixEvaluates(node: Node, env: nat, frames: seq<Frame>, fuel: nat)
    requires node.InfixExpression? && Wf(frames) && env < |frames|
    ensures var a := VisitSlot(node.left, env, frames, fuel);
      var r := Visit(node, env, frames, fuel);
      && (!a.outcome.Normal? ==> r == a)
      && (a.outcome.Normal? ==>
            var b := VisitSlot(node.right, env, a.frames, fuel);
            && (!b.outcome.Normal? ==> r == b)
            && (b.outcome.Normal? ==> r == Run(BinaryOp(node.operator, a.outcome.value, b.outcome.value), b.frames)))
  {
  }

  // ---------------------------------------------------------------------
  // Calls

  /** A wrong number of arguments raises before any frame is made or bound. */
  lemma ArityChecked(c: Closure, args: seq<Value>, frames: seq<Frame>, fuel: nat)
    requires Wf(frames) && c.definingEnv < |frames| && ValuesIn(args, |frames|)
    requires c.parameters.Some? && |args| != |c.parameters.value|
    ensures CallFunction(c, args, frames, fuel)
      == Run(Raised(ArityMismatch(c.name, |c.parameters.value|, |args|)), frames)
  {
  }

  /**
   * A call with the right number of arguments makes one new frame, whose
   * parent is the closure's defining frame (not the caller's); frames that
   * existed before keep their parents.
   */
  lemma CallFrameParent(c: Closure, args: seq<Value>, frames: seq<Frame>, fuel: nat)
    requires Wf(frames) && c.definingEnv < |frames| && ValuesIn(args, |frames|)
    requires c.parameters.Some? && |args| == |c.parameters.value|
    ensures var r := CallFunction(c, args, frames, fuel);
      |r.frames| > |frames| && r.frames[|frames|].parent == Some(c.definingEnv)
      && forall j :: 0 <= j < |frames| ==> r.frames[j].parent == frames[j].parent
  {
    BindingsIn(c.parameters.value, args, |frames|);
    var callFrames := Push(frames, c.definingEnv, Bindings(c.parameters.value, args));
    assert callFrames[|frames|].parent == Some(c.definingEnv);
  }

  /** The body's `return` value is the call's value; a body that finishes gives None. */
  lemma CallCatchesReturn(c: Closure, args: seq<Value>, frames: seq<Frame>, fuel: nat)
    requires Wf(frames) && c.definingEnv < |frames| && ValuesIn(args, |frames|)
    requires c.parameters.Some? && |args| == |c.parameters.value|
    ensures
      var b := Visit(c.body, |frames|, Push(frames, c.definingEnv, Bindings(c.parameters.value, args)), fuel);
      var r := CallFunction(c, args, frames, fuel);
      && (b.outcome.Returned? ==> r.outcome == Normal(b.outcome.value))
      && (b.outcome.Normal? ==> r.outcome == Normal(NoneV))
      && (b.outcome.Raised? ==> r.outcome == b.outcome)
  {
  }

  /**
   * A call evaluates the callee, then the arguments left to right.  Then
   * the builtin `print` gives None, a user function is called with the
   * argument values (spending one unit of fuel), and anything else raises
   * "Not a callable object".
   */
  lemma CallDispatches(node: Node, env: nat, frames: seq<Frame>, fuel: nat)
    requires node.CallExpression? && Wf(frames) && env < |frames|
    ensures var f := VisitSlot(node.callee, env, frames, fuel);
      var r := Visit(node, env, frames, fuel);
      && (!f.outcome.Normal? ==> r == f)
      && (f.outcome.Normal? && node.arguments.NoArguments? ==>
            r == Run(Raised(HostTypeError("'NoneType' object is not iterable")), f.frames))
      && (f.outcome.Normal? && node.arguments.Arguments? ==>
            var xs := VisitSlots(node.arguments.items, env, f.frames, fuel, []);
            var callee := f.outcome.value;
            && (!xs.outcome.Normal? ==> r == xs)
            && (xs.outcome.Normal? && callee == StrV("print") ==> r == Run(Normal(NoneV), xs.frames))
            && (xs.outcome.Normal? && callee.FuncV? && fuel == 0 ==> r == Run(Raised(OutOfFuel), xs.frames))
            && (xs.outcome.Normal? && callee.FuncV? && 0 < fuel ==>
                  r == CallFunction(callee.fn, xs.outcome.value.items, xs.frames, fuel - 1))
            && (xs.outcome.Normal? && callee != StrV("print") && !callee.FuncV? ==>
                  r == Run(Raised(NotCallable(callee)), xs.frames)))
  {
  }

  /** The identifier `print` is the string "print", even where a variable of that name is bound. */
  lemma PrintBeforeLookup(env: nat, frames: seq<Frame>, fuel: nat)
    requires Wf(frames) && env < |frames|
    ensures Visit(IdentifierLiteral("print"), env, frames, fuel) == Run(Normal(StrV("print")), frames)
  {
  }

  /** There is no visitor for boolean literals, so `true` and `false` raise. */
  lemma BooleansHaveNoVisitor(b: bool, env: nat, frames: seq<Frame>, fuel: nat)
    requires Wf(frames) && env < |frames|
    ensures Visit(BooleanLiteral(b), env, frames, fuel) == Run(Raised(NoVisitMethod("BooleanLiteral")), frames)
  {
  }

  /** '%' and '^' parse but raise "Unsupported operator" once both operands are evaluated. */
  lemma ModuloAndPowerUnsupported(op: string, left: Value, right: Value)
    requires op == "%" || op == "^"
    ensures BinaryOp(op, left, right) == Raised(UnsupportedOperator(op))
    ensures Message(BinaryOp(op, left, right).error) == Some("Unsupported operator: " + op)
  {
  }

  // ---------------------------------------------------------------------
  // Operators on integers

  /** int with int: Python's arithmetic and comparisons; '/' gives a float and is not modelled. */
  lemma IntegerOperators(op: string, a: int, b: int)
    ensures var r := BinaryOp(op, IntV(a), IntV(b));
      && (op == "+" ==> r == Normal(IntV(a + b)))
      && (op == "-" ==> r == Normal(IntV(a - b)))
      && (op == "*" ==> r == Normal(IntV(a * b)))
      && (op == "/" ==> r == Raised(Unmodelled("true division")))
      && (op == "==" ==> r == Normal(BoolV(a == b)))
      && (op == "!=" ==> r == Normal(BoolV(a != b)))
      && (op == "<" ==> r == Normal(BoolV(a < b)))
      && (op == ">" ==> r == Normal(BoolV(a > b)))
      && (op == "<=" ==> r == Normal(BoolV(a <= b)))
      && (op == ">=" ==> r == Normal(BoolV(a >= b)))
  {
  }

  // ---------------------------------------------------------------------
  // Operators on strings

  /** Python's string order is a strict total order. */
  lemma {:induction false} StrLessTrichotomy(a: string, b: string)
    ensures !(StrLess(a, b) && StrLess(b, a))
    ensures a != b ==> StrLess(a, b) || StrLess(b, a)
    ensures !StrLess(a, a)
  {
    if a != [] && b != [] && a[0] == b[0] {
      StrLessTrichotomy(a[1..], b[1..]);
    }
    if a != [] {
      StrLessTrichotomy(a[1..], a[1..]);
    }
  }

  /** '<=' on strings is '<' or equality, as in Python. */
  lemma StrLessOrEqual(a: string, b: string)
    ensures BinaryOp("<=", StrV(a), StrV(b)) == Normal(BoolV(StrLess(a, b) || a == b))
  {
    StrLessTrichotomy(a, b);
  }

  /**
   * str with str: '+' concatenates, equality is by contents, the four
   * orderings are Python's code-point order; '-', '*' and '/' raise
   * Python's TypeError.
   */
  lemma StringOperators(op: string, a: string, b: string)
    ensures var r := BinaryOp(op, StrV(a), StrV(b));
      && (op == "+" ==> r == Normal(StrV(a + b)))
      && (op == "==" ==> r == Normal(BoolV(a == b)))
      && (op == "!=" ==> r == Normal(BoolV(a != b)))
      && (op == "<" ==> r == Normal(BoolV(StrLess(a, b))))
      && (op == ">" ==> r == Normal(BoolV(StrLess(b, a))))
      && (op == "<=" ==> r == Normal(BoolV(StrLess(a, b) || a == b)))
      && (op == ">=" ==> r == Normal(BoolV(StrLess(b, a) || a == b)))
      && (op == "-" || op == "*" || op == "/" ==> r.Raised? && r.error.HostTypeError?)
  {
    StrLessOrEqual(a, b);
    StrLessOrEqual(b, a);
  }

  // ---------------------------------------------------------------------
  // The entry point

  /**
   * `interpret` ends in one of four ways after the top-level statements:
   * their error, no `main` in the global store, a `main` that is not a
   * function, or the outcome of calling `main`; only the last can succeed.
   */
  lemma InterpretCases(program: Program, frames: seq<Frame>, fuel: nat)
    requires Wf(frames) && 0 < |frames|
    ensures var top := RunStatements(program.statements, 0, frames, fuel, NoneV);
      var r := InterpretFrom(program, frames, fuel);
      && (top.outcome.Raised? ==> r == Err(top.outcome.error))
      && (top.outcome.Returned? ==> r == Err(UncaughtReturn(top.outcome.value)))
      && (top.outcome.Normal? && StrLit("main") !in top.frames[0].store ==> r == Err(NoMain))
      && (top.outcome.Normal? && StrLit("main") in top.frames[0].store && !top.frames[0].store[StrLit("main")].FuncV?
          ==> r == Err(MainNotCallable))
      && (top.outcome.Normal? && StrLit("main") in top.frames[0].store && top.frames[0].store[StrLit("main")].FuncV? ==>
            && (fuel == 0 ==> r == Err(OutOfFuel))
            && (0 < fuel ==>
                  var m := CallFunction(top.frames[0].store[StrLit("main")].fn, [], top.frames, fuel - 1);
                  && (m.outcome.Normal? ==> r == Ok(m.outcome.value))
                  && (m.outcome.Raised? ==> r == Err(m.outcome.error))))
      && (r.Ok? ==>
          top.outcome.Normal? && StrLit("main") in top.frames[0].store && top.frames[0].store[StrLit("main")].FuncV? && 0 < fuel)
  {
  }

  /** An empty program has no `main`. */
  lemma EmptyProgramHasNoMain(fuel: nat)
    ensures Interpret(Program([]), fuel) == Err(NoMain)
    ensures Message(Interpret(Program([]), fuel).error) == Some("No 'main' function defined.")
  {
  }

  /** `let main: int = 1;` binds `main` to a value that cannot be called. */
  lemma IntegerMainIsNotCallable(fuel: nat)
    ensures Interpret(Program([LetStatement("main", Some(IntegerLiteral(1)), "int")]), fuel) == Err(MainNotCallable)
  {
    var g := Globals();
    var s := LetStatement("main", Some(IntegerLiteral(1)), "int");
    LetBinds("main", Some(IntegerLiteral(1)), "int", 0, g, fuel);
    var r := Visit(s, 0, g, fuel);
    assert VisitSlot(Some(IntegerLiteral(1)), 0, g, fuel) == Run(Normal(IntV(1)), g);
    assert r.frames == Set(g, 0, StrLit("main"), IntV(1));
    assert RunStatements([s], 0, g, fuel, NoneV) == Run(Normal(IntV(1)), r.frames);
  }
}

module InterpreterExample {
  import opened Wrappers
  import opened Tokens
  import opened Ast
  import opened Environments
  import opened Evaluation
  import InterpreterFacts

  function Param(name: string): FunctionParameter {
    FunctionParameter(StrLit(name), StrLit("int"))
  }

  function Ident(name: string): Option<Node> {
    Some(IdentifierLiteral(name))
  }

  /** fn add(a: int, b: int) -> int { return a + b; } */
  function AddFunction(): Node {
    FunctionStatement("add", Some([Param("a"), Param("b")]),
      BlockStatement([ReturnStatement(Some(InfixExpression(Ident("a"), "+", Ident("b"))))]), "int")
  }

  /** fn main() -> int { let x: int = add(2, 3); return x; } */
  function MainFunction(): Node {
    FunctionStatement("main", Some([]),
      BlockStatement([
        LetStatement("x", Some(AddTwoThree()), "int"),
        ReturnStatement(Ident("x"))]),
      "int")
  }

  /** The value `fn add` evaluates to when defined in frame `d`. */
  function AddClosure(d: nat): Closure {
    Closure("add", Some([Param("a"), Param("b")]), AddFunction().body, "int", d)
  }

  /** The body of `add` returns the sum of the integers bound to `a` and `b`. */
  lemma AddBodyReturnsSum(frames: seq<Frame>, env: nat, fuel: nat, x: int, y: int)
    requires Wf(frames) && env < |frames|
    requires Get(frames, env, StrLit("a")) == Some(IntV(x)) && Get(frames, env, StrLit("b")) == Some(IntV(y))
    ensures Visit(AddFunction().body, env, frames, fuel) == Run(Returned(IntV(x + y)), frames)
  {
    var sum := InfixExpression(Ident("a"), "+", Ident("b"));
    assert |"a"| != |"print"| && |"b"| != |"print"|;
    assert Visit(IdentifierLiteral("a"), env, frames, fuel) == Run(Normal(IntV(x)), frames);
    assert Visit(IdentifierLiteral("b"), env, frames, fuel) == Run(Normal(IntV(y)), frames);
    assert VisitSlot(Ident("a"), env, frames, fuel) == Run(Normal(IntV(x)), frames);
    assert VisitSlot(Ident("b"), env, frames, fuel) == Run(Normal(IntV(y)), frames);
    assert VisitInfix(sum, env, frames, fuel) == Run(Normal(IntV(x + y)), frames);
    assert Visit(sum, env, frames, fuel) == Run(Normal(IntV(x + y)), frames);
    assert VisitSlot(Some(sum), env, frames, fuel) == Run(Normal(IntV(x + y)), frames);
    var ret := ReturnStatement(Some(sum));
    assert VisitReturn(ret, env, frames, fuel) == Run(Returned(IntV(x + y)), frames);
    assert Visit(ret, env, frames, fuel) == Run(Returned(IntV(x + y)), frames);
    assert RunStatements([ret], env, frames, fuel, NoneV) == Run(Returned(IntV(x + y)), frames);
  }

  /** Two integer literals joined by an arithmetic operator evaluate to the operation on them. */
  lemma IntegerPair(op: string, x: int, y: int, env: nat, frames: seq<Frame>, fuel: nat)
    requires Wf(frames) && env < |frames| && (op == "+" || op == "*")
    ensures Visit(InfixExpression(Some(IntegerLiteral(x)), op, Some(IntegerLiteral(y))), env, frames, fuel)
      == Run(Normal(IntV(if op == "+" then x + y else x * y)), frames)
  {
    var e := InfixExpression(Some(IntegerLiteral(x)), op, Some(IntegerLiteral(y)));
    assert VisitSlot(Some(IntegerLiteral(x)), env, frames, fuel) == Run(Normal(IntV(x)), frames);
    assert VisitSlot(Some(IntegerLiteral(y)), env, frames, fuel) == Run(Normal(IntV(y)), frames);
    assert Visit(e, env, frames, fuel) == VisitInfix(e, env, frames, fuel);
  }

  /**
   * `(x + y) * z`, the tree the parser builds for the parenthesised sum
   * (ParserShapes.ParenthesesGroupFirst), evaluates to (x + y) * z: so
   * `(1 + 2) * 3` gives 9.
   */
  lemma GroupedSumTimes(x: int, y: int, z: int, env: nat, frames: seq<Frame>, fuel: nat)
    requires Wf(frames) && env < |frames|
    ensures var sum := InfixExpression(Some(IntegerLiteral(x)), "+", Some(IntegerLiteral(y)));
      Visit(InfixExpression(Some(sum), "*", Some(IntegerLiteral(z))), env, frames, fuel)
        == Run(Normal(IntV((x + y) * z)), frames)
  {
    var sum := InfixExpression(Some(IntegerLiteral(x)), "+", Some(IntegerLiteral(y)));
    var e := InfixExpression(Some(sum), "*", Some(IntegerLiteral(z)));
    IntegerPair("+", x, y, env, frames, fuel);
    assert VisitSlot(Some(sum), env, frames, fuel) == Run(Normal(IntV(x + y)), frames);
    assert VisitSlot(Some(IntegerLiteral(z)), env, frames, fuel) == Run(Normal(IntV(z)), frames);
    assert Visit(e, env, frames, fuel) == VisitInfix(e, env, frames, fuel);
  }

  /** Calling `add` with two integers binds them in a fresh frame and yields their sum. */
  lemma AddCallGivesSum(frames: seq<Frame>, d: nat, fuel: nat, x: int, y: int)
    requires Wf(frames) && d < |frames|
    ensures CallFunction(AddClosure(d), [IntV(x), IntV(y)], frames, fuel).outcome == Normal(IntV(x + y))
  {
    var ps := [Param("a"), Param("b")];
    var args := [IntV(x), IntV(y)];
    assert ps[..1] == [Param("a")] && args[..1] == [IntV(x)];
    assert ps[..1][..0] == [] && args[..1][..0] == [];
    assert Bindings(ps[..1], args[..1]) == map[StrLit("a") := IntV(x)];
    var store := Bindings(ps, args);
    assert store == map[StrLit("a") := IntV(x), StrLit("b") := IntV(y)];
    BindingsIn(ps, args, |frames|);
    var g := Push(frames, d, store);
    assert g[|frames|].store == store;
    assert Get(g, |frames|, StrLit("a")) == Some(IntV(x));
    assert Get(g, |frames|, StrLit("b")) == Some(IntV(y));
    AddBodyReturnsSum(g, |frames|, fuel, x, y);
  }

  /** `add(2, 3)` */
  function AddTwoThree(): Node {
    CallExpression(Ident("add"), Arguments([Some(IntegerLiteral(2)), Some(IntegerLiteral(3))]))
  }

  /** The arguments `(2, 3)` evaluate to the list of their values, in order. */
  lemma TwoThreeArguments(frames: seq<Frame>, env: nat, fuel: nat)
    requires Wf(frames) && env < |frames|
    ensures VisitSlots(AddTwoThree().arguments.items, env, frames, fuel, [])
         == Run(Normal(ListV([IntV(2), IntV(3)])), frames)
  {
    var two, three := Some(IntegerLiteral(2)), Some(IntegerLiteral(3));
    assert VisitSlot(two, env, frames, fuel) == Run(Normal(IntV(2)), frames);
    assert VisitSlot(three, env, frames, fuel) == Run(Normal(IntV(3)), frames);
    assert [two, three][1..] == [three] && [three][1..] == [];
    assert [IntV(2)] + [IntV(3)] == [IntV(2), IntV(3)] && [] + [IntV(2)] == [IntV(2)];
    assert VisitSlots([], env, frames, fuel, [IntV(2), IntV(3)]) == Run(Normal(ListV([IntV(2), IntV(3)])), frames);
    assert VisitSlots([three], env, frames, fuel, [IntV(2)]) == Run(Normal(ListV([IntV(2), IntV(3)])), frames);
  }

  /** With `add` in scope, `add(2, 3)` evaluates to 5. */
  lemma AddTwoThreeGivesFive(frames: seq<Frame>, env: nat, d: nat, fuel: nat)
    requires Wf(frames) && env < |frames| && d < |frames| && 0 < fuel
    requires Get(frames, env, StrLit("add")) == Some(FuncV(AddClosure(d)))
    ensures Visit(AddTwoThree(), env, frames, fuel).outcome == Normal(IntV(5))
  {
    assert |"add"| != |"print"|;
    assert Visit(IdentifierLiteral("add"), env, frames, fuel) == Run(Normal(FuncV(AddClosure(d))), frames);
    assert VisitSlot(Ident("add"), env, frames, fuel) == Run(Normal(FuncV(AddClosure(d))), frames);
    TwoThreeArguments(frames, env, fuel);
    AddCallGivesSum(frames, d, fuel - 1, 2, 3);
    assert VisitCall(AddTwoThree(), env, frames, fuel).outcome == Normal(IntV(5));
  }

  /** With `add` in scope, the body of `main` returns `add(2, 3)`, that is 5. */
  lemma MainBodyGivesFive(frames: seq<Frame>, env: nat, d: nat, fuel: nat)
    requires Wf(frames) && env < |frames| && d < |frames| && 0 < fuel
    requires Get(frames, env, StrLit("add")) == Some(FuncV(AddClosure(d)))
    ensures Visit(MainFunction().body, env, frames, fuel).outcome == Returned(IntV(5))
  {
    var call := AddTwoThree();
    AddTwoThreeGivesFive(frames, env, d, fuel);
    var c := Visit(call, env, frames, fuel);
    var g := Set(c.frames, env, StrLit("x"), IntV(5));
    var let := LetStatement("x", Some(call), "int");
    assert VisitSlot(Some(call), env, frames, fuel) == c;
    assert VisitBinding(StrLit("x"), Some(call), env, frames, fuel) == Run(Normal(IntV(5)), g);
    assert Visit(let, env, frames, fuel) == Run(Normal(IntV(5)), g);
    InterpreterFacts.GetAfterSet(c.frames, env, StrLit("x"), IntV(5));
    var ret := ReturnStatement(Ident("x"));
    assert |"x"| != |"print"|;
    assert Visit(IdentifierLiteral("x"), env, g, fuel) == Run(Normal(IntV(5)), g);
    assert VisitReturn(ret, env, g, fuel) == Run(Returned(IntV(5)), g);
    assert RunStatements([ret], env, g, fuel, IntV(5)) == Run(Returned(IntV(5)), g);
    assert [let, ret][1..] == [ret];
    assert MainFunction().body == BlockStatement([let, ret]);
    assert RunStatements([let, ret], env, frames, fuel, NoneV) == Run(Returned(IntV(5)), g);
  }

  /**
   * The whole program: defining `add` and `main` at the top level and
   * calling `main` yields 5, with two calls' worth of recursion depth.
   */
  lemma AddProgramGivesFive()
    ensures Interpret(Program([AddFunction(), MainFunction()]), 2) == Ok(IntV(5))
  {
    var g0 := Globals();
    var fa := FuncV(AddClosure(0));
    var add := AddFunction();
    assert add == FunctionStatement("add", AddClosure(0).parameters, AddClosure(0).body, "int");
    InterpreterFacts.FunctionBinds("add", AddClosure(0).parameters, AddClosure(0).body, "int", 0, g0, 2);
    var r1 := Visit(add, 0, g0, 2);
    var g1 := r1.frames;
    assert r1.outcome == Normal(fa) && Get(g1, 0, StrLit("add")) == Some(fa);
    var main := MainFunction();
    var fm := FuncV(Closure("main", Some([]), main.body, "int", 0));
    InterpreterFacts.FunctionBinds("main", Some([]), main.body, "int", 0, g1, 2);
    var r2 := Visit(main, 0, g1, 2);
    var g2 := r2.frames;
    assert g2 == Set(g1, 0, StrLit("main"), fm);
    InterpreterFacts.GetOtherAfterSet(g1, 0, StrLit("main"), fm, StrLit("add"));
    assert Get(g2, 0, StrLit("add")) == Some(fa);
    assert RunStatements([main], 0, g1, 2, fa) == Run(Normal(fm), g2);
    assert [add, main][1..] == [main];
    assert RunStatements([add, main], 0, g0, 2, NoneV) == Run(Normal(fm), g2);
    assert StrLit("main") in g2[0].store && g2[0].store[StrLit("main")] == fm;
    var g3 := Push(g2, 0, Bindings([], []));
    InterpreterFacts.CallFrameFallsThrough(g2, 0, map[], StrLit("add"));
    MainBodyGivesFive(g3, |g2|, 0, 1);
    assert CallFunction(fm.fn, [], g2, 1).outcome == Normal(IntV(5));
  }
}

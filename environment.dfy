/**
 * Runtime values and the environment chain of src/interpreter/Interpreter.py.
 *
 * Python's environments are objects linked by a `parent` reference and shared
 * by closures.  Here they live in an arena: frame `i` of a `seq<Frame>` is an
 * environment, its parent is a smaller index, and a closure records the index
 * of the frame it was defined in.  Frames are only ever appended, and a
 * frame's parent never changes, so an index keeps naming the same
 * environment for the whole run, and a write to a frame is seen by every
 * closure that captured it.
 */
module Environments {
  import opened Wrappers
  import opened Tokens
  import opened Ast

  /** A user function: `FunctionObject` (Interpreter.py:37-46). */
  datatype Closure = Closure(
    name: string,
    parameters: Option<seq<FunctionParameter>>,
    body: Node,
    returnType: string,
    definingEnv: nat)

  /**
   * The Python values a program can produce.  Floats stay opaque (their
   * scanned text); `NoneV` is Python's `None`.
   */
  datatype Value =
    | NoneV
    | IntV(i: int)
    | FloatV(f: FloatText)
    | StrV(s: string)
    | BoolV(b: bool)
    | ListV(items: seq<Value>)
    | FuncV(fn: Closure)

  /** One `Environment`: its `store`, keyed like Python's dict, and its parent. */
  datatype Frame = Frame(store: map<Literal, Value>, parent: Option<nat>)

  /** Every closure inside `v` names one of the first `n` frames. */
  predicate ValueIn(v: Value, n: nat) {
    match v
    case FuncV(c) => c.definingEnv < n
    case ListV(items) => forall i :: 0 <= i < |items| ==> ValueIn(items[i], n)
    case _ => true
  }

  predicate StoreIn(store: map<Literal, Value>, n: nat) {
    forall k :: k in store ==> ValueIn(store[k], n)
  }

  predicate ValuesIn(vs: seq<Value>, n: nat) {
    forall i :: 0 <= i < |vs| ==> ValueIn(vs[i], n)
  }

  /** The arena invariant: parents point backwards and closures point inside. */
  ghost predicate Wf(frames: seq<Frame>) {
    && (forall i :: 0 <= i < |frames| && frames[i].parent.Some? ==> frames[i].parent.value < i)
    && (forall i :: 0 <= i < |frames| ==> StoreIn(frames[i].store, |frames|))
  }

  /** `b` is `a` later in the run: no frame lost, no parent link changed. */
  ghost predicate Extends(a: seq<Frame>, b: seq<Frame>) {
    |a| <= |b| && forall i :: 0 <= i < |a| ==> b[i].parent == a[i].parent
  }

  lemma {:induction false} ValueInGrows(v: Value, n: nat, m: nat)
    requires ValueIn(v, n) && n <= m
    ensures ValueIn(v, m)
  {
    match v
    case ListV(items) =>
      forall i | 0 <= i < |items| ensures ValueIn(items[i], m) {
        ValueInGrows(items[i], n, m);
      }
    case _ =>
  }

  lemma StoreInGrows(store: map<Literal, Value>, n: nat, m: nat)
    requires StoreIn(store, n) && n <= m
    ensures StoreIn(store, m)
  {
    forall k | k in store ensures ValueIn(store[k], m) {
      ValueInGrows(store[k], n, m);
    }
  }

  lemma ValuesInGrow(vs: seq<Value>, n: nat, m: nat)
    requires ValuesIn(vs, n) && n <= m
    ensures ValuesIn(vs, m)
  {
    forall i | 0 <= i < |vs| ensures ValueIn(vs[i], m) {
      ValueInGrows(vs[i], n, m);
    }
  }

  lemma ExtendsTransitive(a: seq<Frame>, b: seq<Frame>, c: seq<Frame>)
    requires Extends(a, b) && Extends(b, c)
    ensures Extends(a, c)
  {
  }

  /** `Environment.get`: the innermost binding of `name` on the chain from `env`. */
  function Get(frames: seq<Frame>, env: nat, name: Literal): (r: Option<Value>)
    requires Wf(frames) && env < |frames|
    ensures r.Some? ==> ValueIn(r.value, |frames|)
    decreases env
  {
    if name in frames[env].store then Some(frames[env].store[name])
    else if frames[env].parent.Some? then Get(frames, frames[env].parent.value, name)
    else None
  }

  /** `Environment.set`: bind `name` in frame `env` alone. */
  function Set(frames: seq<Frame>, env: nat, name: Literal, v: Value): (r: seq<Frame>)
    requires Wf(frames) && env < |frames| && ValueIn(v, |frames|)
    ensures Wf(r) && Extends(frames, r) && |r| == |frames|
    ensures r[env] == Frame(frames[env].store[name := v], frames[env].parent)
    ensures forall j :: 0 <= j < |frames| && j != env ==> r[j] == frames[j]
  {
    frames[env := Frame(frames[env].store[name := v], frames[env].parent)]
  }

  /** `Environment(parent=...)` with the bindings `store`: a new last frame. */
  function Push(frames: seq<Frame>, parent: nat, store: map<Literal, Value>): (r: seq<Frame>)
    requires Wf(frames) && parent < |frames| && StoreIn(store, |frames|)
    ensures Wf(r) && Extends(frames, r) && |r| == |frames| + 1
    ensures r[..|frames|] == frames && r[|frames|] == Frame(store, Some(parent))
  {
    var r := frames + [Frame(store, Some(parent))];
    forall i | 0 <= i < |r| ensures StoreIn(r[i].store, |r|) {
      StoreInGrows(r[i].store, |frames|, |r|);
    }
    r
  }

  /** The global environment a fresh interpreter starts with. */
  function Globals(): (r: seq<Frame>)
    ensures Wf(r) && |r| == 1 && r[0].parent.None?
  {
    [Frame(map[], None)]
  }
}

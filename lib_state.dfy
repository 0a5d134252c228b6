/** lib/state.js: the stack of open blocks a parser keeps, with a stack per
    node type beside it and a counter of the pushes not yet undone. The
    same class serves, under the name "scopes", as lib/scopes.js.

    The state of the object is described by the value `Snap`, and each
    method is proved against a function on that value; the properties of
    the class are lemmas about those functions. */
module LibState {
  import opened Base
  import opened Nodes

  /** The three fields of a State: the main stack, the stack of each type
      (the keys of `types` are the types that have one) and `length`. */
  datatype Snap = Snap(stack: seq<Node>, types: map<string, seq<Node>>, length: int)

  /** The nodes of `s` whose type is `t`, in stack order. */
  function OfType(s: seq<Node>, t: string): (r: seq<Node>)
    ensures |r| <= |s|
    ensures forall i :: 0 <= i < |r| ==> r[i].kind == t
  {
    if s == [] then []
    else OfType(s[..|s| - 1], t) + (if s[|s| - 1].kind == t then [s[|s| - 1]] else [])
  }

  /** The stack of type `t`, or the empty one where `types` has none. */
  function TypeStack(s: Snap, t: string): seq<Node> {
    if t in s.types then s.types[t] else []
  }

  /** `isInside(type)`. */
  function Inside(s: Snap, t: string): (r: bool)
    ensures s.length <= 0 ==> !r
    ensures r <==> s.length > 0 && t in s.types && s.types[t] != []
  {
    s.length > 0 && t in s.types && |s.types[t]| > 0
  }

  /** `push(node)` of a node: onto the main stack and onto the stack of its
      type (created when missing), and one more in `length`. */
  function Pushed(s: Snap, n: Node): (r: Snap)
    ensures r.stack == s.stack + [n] && r.length == s.length + 1
    ensures r.types.Keys == s.types.Keys + {n.kind}
    ensures r.types[n.kind] == TypeStack(s, n.kind) + [n]
    ensures forall t :: t in s.types && t != n.kind ==> r.types[t] == s.types[t]
  {
    Snap(s.stack + [n], s.types[n.kind := TypeStack(s, n.kind) + [n]], s.length + 1)
  }

  /** What `pop()` returns and leaves. */
  datatype PopStep = PopStep(result: Result<Option<Node>, JsError>, after: Snap)

  /** `pop()`: nothing on an empty stack; an "eos" node leaves the main stack
      only; any other node leaves its type's stack too and takes one off
      `length`, and a node whose type has no stack fails after it has left
      the main stack. `name` is the class name in lower case. */
  function Popped(s: Snap, name: string): (r: PopStep)
    ensures s.stack == [] ==> r == PopStep(Success(None), s)
    ensures s.stack != [] ==> r.after.stack == s.stack[..|s.stack| - 1]
    ensures s.stack != [] && r.result.Success? ==> r.result == Success(Some(s.stack[|s.stack| - 1]))
  {
    if s.stack == [] then PopStep(Success(None), s)
    else
      var node := s.stack[|s.stack| - 1];
      var rest := s.stack[..|s.stack| - 1];
      if node.kind == "eos" then PopStep(Success(Some(node)), s.(stack := rest))
      else if node.kind !in s.types then
        PopStep(Failure(Error("expected stack for " + name + ".type \"" + node.kind + "\" to be an array")),
                s.(stack := rest))
      else
        PopStep(Success(Some(node)),
                Snap(rest, s.types[node.kind := DropLast(s.types[node.kind])], s.length - 1))
  }

  /** The bookkeeping is exact when no "eos" node is on the stack: `length`
      counts the main stack, every node's type has a stack, and each type's
      stack is the main stack filtered by that type. */
  predicate Tracks(s: Snap) {
    && s.length == |s.stack|
    && (forall i :: 0 <= i < |s.stack| ==> s.stack[i].kind in s.types && s.stack[i].kind != "eos")
    && (forall t :: t in s.types ==> s.types[t] == OfType(s.stack, t))
  }

  /** A State whose fields are those of the snapshot. */
  class State {
    /** The class name in lower case, as error messages give it. */
    const name: string
    var stack: seq<Node>
    var types: map<string, seq<Node>>
    var length: int

    constructor (name: string)
      ensures this.name == name && Value() == Snap([], map[], 0)
    {
      this.name := name;
      stack := [];
      types := map[];
      length := 0;
    }

    function Value(): Snap
      reads this
    {
      Snap(stack, types, length)
    }

    /** `hasType(type)`. */
    function HasType(t: string): (r: bool)
      reads this
      ensures r <==> t in types
    {
      t in types
    }

    function IsInside(t: string): (r: bool)
      reads this
      ensures r == Inside(Value(), t)
    {
      length > 0 && HasType(t) && |types[t]| > 0
    }

    /** `current()`: the top of the main stack, None when it is empty. */
    function Current(): (r: Option<Node>)
      reads this
      ensures r.None? <==> stack == []
      ensures r.Some? ==> r.value == stack[|stack| - 1]
    {
      LastOf(stack)
    }

    /** The node on top of the main stack, as a set (empty when there is
        none): the one node a parser appends to. */
    function TopSet(): (r: set<Node>)
      reads this
      ensures stack == [] ==> r == {}
      ensures stack != [] ==> r == {stack[|stack| - 1]}
    {
      if stack == [] then {} else {stack[|stack| - 1]}
    }

    /** `prev()` reads the same node as `current()`. */
    function Prev(): (r: Option<Node>)
      reads this
      ensures r == Current()
    {
      LastOf(stack)
    }

    /** `push(node)`: anything that is not a node fails the assertion and
        changes nothing. */
    method Push(x: Any) returns (r: Result<Node, JsError>)
      modifies this`stack, this`types, this`length
      ensures x.Plain? ==> r == Failure(AssertionError("expected a node")) && Value() == old(Value())
      ensures x.Ref? ==> r == Success(x.node) && Value() == Pushed(old(Value()), x.node)
    {
      if x.Plain? {
        return Failure(AssertionError("expected a node"));
      }
      var node := x.node;
      if !HasType(node.kind) {
        types := types[node.kind := []];
      }
      types := types[node.kind := types[node.kind] + [node]];
      stack := stack + [node];
      length := length + 1;
      r := Success(node);
    }

    /** `pop()`. */
    method Pop() returns (r: Result<Option<Node>, JsError>)
      modifies this`stack, this`types, this`length
      ensures PopStep(r, Value()) == Popped(old(Value()), name)
    {
      if stack == [] {
        return Success(None);
      }
      var node := stack[|stack| - 1];
      stack := stack[..|stack| - 1];
      if node.kind == "eos" {
        return Success(Some(node));
      }
      if !HasType(node.kind) {
        return Failure(Error("expected stack for " + name + ".type \"" + node.kind + "\" to be an array"));
      }
      types := types[node.kind := DropLast(types[node.kind])];
      length := length - 1;
      r := Success(Some(node));
    }
  }

  /** A new State tracks exactly. */
  lemma EmptyTracks()
    ensures Tracks(Snap([], map[], 0))
  {
  }

  /** Filtering the main stack after a push. */
  lemma {:induction false} OfTypePush(s: seq<Node>, n: Node, t: string)
    ensures OfType(s + [n], t) == OfType(s, t) + (if n.kind == t then [n] else [])
  {
    assert (s + [n])[..|s + [n]| - 1] == s;
  }

  /** Pushing any node but an "eos" keeps the bookkeeping exact. */
  lemma {:induction false} PushTracks(s: Snap, n: Node)
    requires Tracks(s) && n.kind != "eos"
    ensures Tracks(Pushed(s, n))
  {
    var r := Pushed(s, n);
    forall t | t in r.types
      ensures r.types[t] == OfType(r.stack, t)
    {
      OfTypePush(s.stack, n, t);
      if t !in s.types && OfType(s.stack, t) != [] {
        OfTypeFrom(s.stack, t);
      }
    }
  }

  /** While the bookkeeping is exact, popping never fails and takes the top
      node off its type's stack, and the bookkeeping stays exact. */
  lemma {:induction false} PopTracks(s: Snap, name: string)
    requires Tracks(s) && s.stack != []
    ensures Popped(s, name).result == Success(Some(s.stack[|s.stack| - 1]))
    ensures Tracks(Popped(s, name).after)
  {
    var top := s.stack[|s.stack| - 1];
    var rest := s.stack[..|s.stack| - 1];
    assert top.kind in s.types && top.kind != "eos";
    assert s.stack == rest + [top];
    var r := Popped(s, name).after;
    forall t | t in r.types
      ensures r.types[t] == OfType(r.stack, t)
    {
      OfTypePush(rest, top, t);
    }
  }

  /** A push undone by a pop: the main stack and `length` are restored, and
      so is every type's stack, the only trace being an empty stack for the
      node's type where there was none. */
  lemma {:induction false} PushThenPop(s: Snap, n: Node, name: string)
    requires n.kind != "eos"
    ensures var p := Popped(Pushed(s, n), name);
      p.result == Success(Some(n)) &&
      p.after.stack == s.stack && p.after.length == s.length &&
      p.after.types.Keys == s.types.Keys + {n.kind} &&
      forall t :: TypeStack(p.after, t) == TypeStack(s, t)
  {
    var q := Pushed(s, n);
    assert q.stack[..|q.stack| - 1] == s.stack;
    assert DropLast(TypeStack(s, n.kind) + [n]) == TypeStack(s, n.kind);
  }

  /** Popping an "eos" node leaves the type stacks and `length` alone, so
      after an "eos" has been pushed and popped the bookkeeping no longer
      matches the main stack. */
  lemma {:induction false} EosPop(s: Snap, name: string)
    requires s.stack != [] && s.stack[|s.stack| - 1].kind == "eos"
    ensures Popped(s, name).after == s.(stack := s.stack[..|s.stack| - 1])
  {
  }

  /** While the bookkeeping is exact, `isInside(type)` holds exactly when a
      node of that type is on the main stack. */
  lemma {:induction false} InsideMeansOnStack(s: Snap, t: string)
    requires Tracks(s)
    ensures Inside(s, t) <==> exists i :: 0 <= i < |s.stack| && s.stack[i].kind == t
  {
    if exists i :: 0 <= i < |s.stack| && s.stack[i].kind == t {
      var i :| 0 <= i < |s.stack| && s.stack[i].kind == t;
      OfTypeHas(s.stack, t, i);
    }
    if Inside(s, t) {
      OfTypeFrom(s.stack, t);
    }
  }

  /** A node of type `t` at position `i` puts something in the filter. */
  lemma {:induction false} OfTypeHas(s: seq<Node>, t: string, i: nat)
    requires i < |s| && s[i].kind == t
    ensures OfType(s, t) != []
  {
    var init := s[..|s| - 1];
    if i < |s| - 1 {
      assert init[i] == s[i];
      OfTypeHas(init, t, i);
    }
  }

  /** Everything in the filter comes from the stack. */
  lemma {:induction false} OfTypeFrom(s: seq<Node>, t: string)
    requires OfType(s, t) != []
    ensures exists i :: 0 <= i < |s| && s[i].kind == t
  {
    var init := s[..|s| - 1];
    if s[|s| - 1].kind != t {
      OfTypeFrom(init, t);
      var i :| 0 <= i < |init| && init[i].kind == t;
      assert s[i] == init[i];
    }
  }
}

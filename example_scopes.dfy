/** example/scopes.js: a stack of Scope wrappers with a list per type, a
    chain of every node a scope was pushed for, and a table of scope
    handlers by type that falls back to a "default" handler.

    The first scope is listed under "root" and stands in the chain itself,
    where every later entry is a node. The Scope class of example/scope.js
    is kept to its type and its node. */
module ExampleScopes {
  import opened Base
  import opened Nodes
  import opened Listing

  /** example/scope.js `new Scope(node)`: the node and its type. */
  class Scope {
    const kind: string
    const node: Node

    constructor (node: Node)
      ensures this.node == node && kind == node.kind
    {
      this.node := node;
      kind := node.kind;
    }
  }

  /** A scope handler, called with the node being handled. */
  type Handler = Node -> Value

  /** `handler(type)`: the handler registered for the type, else the
      "default" one, else none. */
  function Lookup(handlers: map<string, Handler>, t: string): (r: Option<Handler>)
    ensures t in handlers ==> r == Some(handlers[t])
    ensures t !in handlers && "default" in handlers ==> r == Some(handlers["default"])
    ensures r.None? <==> t !in handlers && "default" !in handlers
  {
    if t in handlers then Some(handlers[t])
    else if "default" in handlers then Some(handlers["default"])
    else None
  }

  /** After `handler(t, fn)`, `t` finds `fn`; a type registered before
      keeps its handler, and registering "default" reaches every type that
      has none of its own. */
  lemma {:induction false} RegisterThenLookup(handlers: map<string, Handler>, t: string, fn: Handler, u: string)
    ensures Lookup(handlers[t := fn], t) == Some(fn)
    ensures u != t && u in handlers ==> Lookup(handlers[t := fn], u) == Some(handlers[u])
    ensures t == "default" && u !in handlers ==> Lookup(handlers[t := fn], u) == Some(fn)
  {
  }

  /** The type list, stack and chain of a Scopes object. */
  datatype Snap = Snap(types: map<string, seq<Scope>>, stack: seq<Scope>, chain: seq<object>)

  /** `new Scopes(node)`, whose first scope is `sc`. */
  function Initial(sc: Scope): (s: Snap)
    ensures s.stack == [sc] && s.chain == [sc] && s.types == map["root" := [sc]]
  {
    Snap(map["root" := [sc]], [sc], [sc])
  }

  /** The list for type `t`, empty where there is none yet. */
  function TypeList(s: Snap, t: string): seq<Scope> {
    if t in s.types then s.types[t] else []
  }

  /** `type(t)` creates the list for `t` when there is none. */
  function Touched(s: Snap, t: string): (r: Snap)
    ensures r.stack == s.stack && r.chain == s.chain
    ensures r.types.Keys == s.types.Keys + {t}
    ensures forall u :: TypeList(r, u) == TypeList(s, u)
  {
    if t in s.types then s else s.(types := s.types[t := []])
  }

  datatype Step = Step(result: Result<Scope, JsError>, after: Snap)

  /** `push(node)`, with `sc` the new Scope for the node: a node already in
      the chain is refused and nothing changes; otherwise the node joins
      the chain and its scope the stack and its type's list. */
  function PushStep(s: Snap, n: Node, sc: Scope): (r: Step)
    ensures n in s.chain <==> r.result.Failure?
    ensures n in s.chain ==> r == Step(Failure(Error("scope has already been pushed: " + n.kind)), s)
    ensures n !in s.chain ==> r.result == Success(sc) && r.after.stack == s.stack + [sc] && r.after.chain == s.chain + [n]
    ensures n !in s.chain ==> TypeList(r.after, n.kind) == TypeList(s, n.kind) + [sc]
    ensures n !in s.chain ==> forall t :: t != n.kind ==> TypeList(r.after, t) == TypeList(s, t)
  {
    if n in s.chain then Step(Failure(Error("scope has already been pushed: " + n.kind)), s)
    else Step(Success(sc), Snap(s.types[n.kind := TypeList(s, n.kind) + [sc]], s.stack + [sc], s.chain + [n]))
  }

  /** `pop()`: the top scope leaves the stack and the last scope of its
      type's list leaves that list. When the two differ, building the
      message calls `inspect`, which a Scope does not have. On an empty
      stack reading the type of `undefined` fails. */
  function PopStep(s: Snap): (r: Step)
    ensures s.stack == [] ==> r == Step(Failure(UndefinedRead("type")), s)
    ensures r.after.chain == s.chain
    ensures s.stack != [] ==> r.after.stack == s.stack[..|s.stack| - 1]
    ensures r.result.Success? ==> s.stack != [] && r.result.value == s.stack[|s.stack| - 1]
    ensures s.stack != [] && r.result.Failure? ==> r.result.error == TypeError("scope.inspect is not a function")
  {
    if s.stack == [] then Step(Failure(UndefinedRead("type")), s)
    else
      var scope := s.stack[|s.stack| - 1];
      var list := TypeList(s, scope.kind);
      var after := Snap(s.types[scope.kind := DropLast(list)], s.stack[..|s.stack| - 1], s.chain);
      if list != [] && list[|list| - 1] == scope then Step(Success(scope), after)
      else Step(Failure(TypeError("scope.inspect is not a function")), after)
  }

  /** The invariant of a Scopes object made with the scope `initial`: the
      stack holds each scope once; each scope is listed under its type,
      except the initial one, listed under "root"; and each type's list is
      exactly the stack entries listed under it, in order. */
  ghost predicate Filed(s: Snap, keys: seq<string>, initial: Scope) {
    && |keys| == |s.stack|
    && (forall i, j :: 0 <= i < j < |s.stack| ==> s.stack[i] != s.stack[j])
    && (forall i :: 0 <= i < |s.stack| ==> keys[i] == if s.stack[i] == initial then "root" else s.stack[i].kind)
    && (forall t :: TypeList(s, t) == Listed(s.stack, keys, t))
  }

  /** What `current(prop)` reads: the scope itself, or one of its two
      modelled properties, or a property this model does not keep. */
  datatype Property = Whole(scope: Scope) | TypeName(t: string) | NodeOf(n: Node) | Untracked

  /** An event, by name, with its scope. */
  datatype Event = Event(name: string, scope: Scope)

  class Scopes {
    ghost const initial: Scope
    var handlers: map<string, Handler>
    var types: map<string, seq<Scope>>
    var stack: seq<Scope>
    var chain: seq<object>
    var events: seq<Event>
    ghost var keys: seq<string>

    function Value(): Snap
      reads this
    {
      Snap(types, stack, chain)
    }

    ghost predicate Valid()
      reads this
    {
      Filed(Value(), keys, initial)
    }

    /** `new Scopes(node)`: one scope, for the node, listed under "root"; no
        handlers. */
    constructor (node: Node)
      ensures fresh(initial) && initial.node == node && initial.kind == node.kind
      ensures Value() == Initial(initial) && handlers == map[] && events == [] && Valid()
    {
      var scope := new Scope(node);
      initial := scope;
      handlers := map[];
      types := map["root" := [scope]];
      stack := [scope];
      chain := [scope];
      events := [];
      keys := ["root"];
      new;
      assert Listed(stack, keys, "root") == [scope] by {
        assert stack[..0] == [];
      }
      forall t ensures TypeList(Value(), t) == Listed(stack, keys, t) {
        assert stack[..0] == [];
      }
    }

    /** `handler(type, fn)` with a function: `fn` replaces any handler for
        the type. */
    method Register(t: string, fn: Handler)
      modifies this
      ensures handlers == old(handlers)[t := fn]
      ensures Value() == old(Value()) && events == old(events) && keys == old(keys)
    {
      handlers := handlers[t := fn];
    }

    /** `handler(type)` without a function. */
    function Handler(t: string): (r: Option<Handler>)
      reads this
      ensures r == Lookup(handlers, t)
    {
      if t in handlers then Some(handlers[t])
      else if "default" in handlers then Some(handlers["default"])
      else None
    }

    /** `handle(node)`: what the node's handler returns, or undefined
        when there is no handler. */
    function Handle(n: Node): (r: Value)
      reads this
      ensures Lookup(handlers, n.kind).None? ==> r == Undefined
      ensures Lookup(handlers, n.kind).Some? ==> r == Lookup(handlers, n.kind).value(n)
    {
      match Handler(n.kind)
      case None => Undefined
      case Some(h) => h(n)
    }

    /** The list for `t` as `type(t)` finds or creates it. */
    function List(t: string): (r: seq<Scope>)
      reads this
      ensures r == TypeList(Value(), t)
    {
      if t in types then types[t] else []
    }

    /** `type(t)`: the list for `t`, created when missing. */
    method Type(t: string) returns (list: seq<Scope>)
      modifies this
      ensures list == TypeList(old(Value()), t) && Value() == Touched(old(Value()), t)
      ensures handlers == old(handlers) && events == old(events) && keys == old(keys)
      ensures old(Valid()) ==> Valid()
    {
      if t !in types {
        types := types[t := []];
      }
      list := types[t];
    }

    /** `push(node)`, which emits "push" with the new scope. */
    method Push(n: Node) returns (r: Result<Scope, JsError>)
      modifies this
      ensures r.Success? <==> n !in old(chain)
      ensures r.Success? ==> fresh(r.value) && r.value.node == n && r.value.kind == n.kind
      ensures Step(r, Value()) == PushStep(old(Value()), n, if r.Success? then r.value else initial)
      ensures events == if r.Success? then old(events) + [Event("push", r.value)] else old(events)
      ensures handlers == old(handlers)
      ensures old(Valid()) ==> Valid()
    {
      if IndexOf(chain, n) != -1 {
        return Failure(Error("scope has already been pushed: " + n.kind));
      }
      var scope := new Scope(n);
      events := events + [Event("push", scope)];
      chain := chain + [n];
      stack := stack + [scope];
      types := types[scope.kind := List(scope.kind) + [scope]];
      ghost var before := keys;
      keys := keys + [n.kind];
      r := Success(scope);
      if old(Valid()) {
        PushFiled(old(Value()), before, initial, n, scope);
      }
    }

    /** `pop()`, which emits "pop" when it succeeds. */
    method Pop() returns (r: Result<Scope, JsError>)
      modifies this
      ensures Step(r, Value()) == PopStep(old(Value()))
      ensures events == if r.Success? then old(events) + [Event("pop", r.value)] else old(events)
      ensures handlers == old(handlers)
      ensures old(Valid()) && r.Success? ==> Valid()
    {
      if stack == [] {
        return Failure(UndefinedRead("type"));
      }
      var scope := stack[|stack| - 1];
      stack := stack[..|stack| - 1];
      var found := Unlist(scope);
      if !found {
        return Failure(TypeError("scope.inspect is not a function"));
      }
      events := events + [Event("pop", scope)];
      r := Success(scope);
      if old(Valid()) {
        ghost var before := keys;
        PopFiled(old(Value()), before, initial);
        keys := DropLast(before);
      }
    }

    /** The part of `pop()` that takes the scope off the end of its type's
        list; it tells whether the scope was last there. */
    method Unlist(scope: Scope) returns (found: bool)
      modifies this`types
      ensures var list := TypeList(old(Value()), scope.kind);
        && types == old(types)[scope.kind := DropLast(list)]
        && (found <==> list != [] && list[|list| - 1] == scope)
    {
      var list := List(scope.kind);
      var top := LastOf(list);
      types := types[scope.kind := DropLast(list)];
      found := top == Some(scope);
    }

    /** `isInside(type)`: the list for the type is not empty (and is
        created when missing). */
    method IsInside(t: string) returns (b: bool)
      modifies this
      ensures b <==> TypeList(old(Value()), t) != []
      ensures Value() == Touched(old(Value()), t) && handlers == old(handlers)
      ensures events == old(events) && keys == old(keys)
      ensures old(Valid()) ==> Valid()
    {
      var list := Type(t);
      b := |list| > 0;
    }

    /** `prev()`: the scope below the top, undefined when there is none. */
    function Prev(): (r: Option<Scope>)
      reads this
      ensures r.Some? <==> |stack| >= 2
      ensures r.Some? ==> r.value == stack[|stack| - 2]
    {
      if |stack| >= 2 then Some(stack[|stack| - 2]) else None
    }

    /** `current(prop)`: the top scope, or the property `prop` of it when
        `prop` is a non-empty name; undefined on an empty stack. */
    function Current(prop: string): (r: Option<Property>)
      reads this
      ensures r.None? <==> stack == []
      ensures stack != [] && prop == "" ==> r == Some(Whole(stack[|stack| - 1]))
      ensures stack != [] && prop == "type" ==> r == Some(TypeName(stack[|stack| - 1].kind))
      ensures stack != [] && prop == "node" ==> r == Some(NodeOf(stack[|stack| - 1].node))
    {
      if stack == [] then None
      else
        var top := stack[|stack| - 1];
        if prop == "" then Some(Whole(top))
        else if prop == "type" then Some(TypeName(top.kind))
        else if prop == "node" then Some(NodeOf(top.node))
        else Some(Untracked)
    }
  }

  lemma {:induction false} PushFiled(s: Snap, keys: seq<string>, initial: Scope, n: Node, sc: Scope)
    requires Filed(s, keys, initial) && n !in s.chain
    requires sc !in s.stack && sc != initial && sc.kind == n.kind
    ensures Filed(PushStep(s, n, sc).after, keys + [n.kind], initial)
  {
    var r := PushStep(s, n, sc).after;
    forall t ensures TypeList(r, t) == Listed(r.stack, keys + [n.kind], t) {
      ListedPush(s.stack, keys, sc, n.kind, t);
    }
  }

  /** While the invariant holds, a pop fails only when it reaches the
      initial scope and that scope's own type is not "root". */
  lemma {:induction false} PopFailsOnlyOnInitial(s: Snap, keys: seq<string>, initial: Scope)
    requires Filed(s, keys, initial) && s.stack != []
    ensures PopStep(s).result.Failure? <==>
      s.stack[|s.stack| - 1] == initial && initial.kind != "root"
  {
    var n := |s.stack| - 1;
    var top := s.stack[n];
    var rest, ks := s.stack[..n], keys[..n];
    assert s.stack == rest + [top] && keys == ks + [keys[n]];
    ListedPush(rest, ks, top, keys[n], top.kind);
    if top == initial && initial.kind != "root" {
      var list := TypeList(s, top.kind);
      assert list == Listed(rest, ks, top.kind);
      if list != [] && list[|list| - 1] == top {
        ListedFrom(rest, ks, top.kind, top);
      }
    }
  }

  /** Popping takes the top off its type's list, so the lists stay the
      listings of the rest of the stack, whether or not the pop succeeds. */
  lemma {:induction false} PoppedLists(s: Snap, keys: seq<string>)
    requires |keys| == |s.stack| && s.stack != []
    requires keys[|keys| - 1] == s.stack[|s.stack| - 1].kind
    requires forall t :: TypeList(s, t) == Listed(s.stack, keys, t)
    ensures forall t :: TypeList(PopStep(s).after, t) == Listed(s.stack[..|s.stack| - 1], keys[..|keys| - 1], t)
  {
    var n := |s.stack| - 1;
    var top := s.stack[n];
    var rest, ks := s.stack[..n], keys[..n];
    assert s.stack == rest + [top] && keys == ks + [keys[n]];
    forall t ensures TypeList(PopStep(s).after, t) == Listed(rest, ks, t) {
      ListedPush(rest, ks, top, keys[n], t);
    }
  }

  /** A successful pop keeps the invariant, with the last key gone. */
  lemma {:induction false} PopFiled(s: Snap, keys: seq<string>, initial: Scope)
    requires Filed(s, keys, initial) && s.stack != [] && PopStep(s).result.Success?
    ensures Filed(PopStep(s).after, DropLast(keys), initial)
  {
    var n := |s.stack| - 1;
    PopFailsOnlyOnInitial(s, keys, initial);
    assert keys[n] == s.stack[n].kind;
    PoppedLists(s, keys);
    assert DropLast(keys) == keys[..n];
  }

  /** A scope is pushed at most once per node: the chain keeps the node
      after its scope is popped, so pushing the node again fails. */
  lemma {:induction false} PushedOnlyOnce(s: Snap, n: Node, sc: Scope, sc2: Scope)
    requires PushStep(s, n, sc).result.Success?
    ensures PushStep(PopStep(PushStep(s, n, sc).after).after, n, sc2).result.Failure?
  {
  }

  /** A pop right after a push returns the new scope and restores the stack
      and every type's list; the node stays in the chain. */
  lemma {:induction false} PushThenPop(s: Snap, n: Node, sc: Scope)
    requires PushStep(s, n, sc).result.Success? && sc.kind == n.kind
    ensures var p := PopStep(PushStep(s, n, sc).after);
      p.result == Success(sc) && p.after.stack == s.stack && p.after.chain == s.chain + [n] &&
      forall t :: TypeList(p.after, t) == TypeList(s, t)
  {
    var q := PushStep(s, n, sc).after;
    assert q.stack[..|q.stack| - 1] == s.stack;
    assert DropLast(TypeList(s, n.kind) + [sc]) == TypeList(s, n.kind);
  }

  /** The chain starts with the first scope, not its node, so the node a
      Scopes object was made for can still be pushed once. */
  lemma {:induction false} FirstNodeNotInChain(first: Scope, sc: Scope)
    ensures PushStep(Initial(first), first.node, sc).result == Success(sc)
  {
    assert first.node as object != first as object;
  }

  /** While the invariant holds, `isInside(t)` holds exactly when some
      scope on the stack is listed under `t`. */
  lemma {:induction false} InsideMeansListed(s: Snap, keys: seq<string>, initial: Scope, t: string)
    requires Filed(s, keys, initial)
    ensures TypeList(s, t) != [] <==> exists i :: 0 <= i < |keys| && keys[i] == t
  {
    if exists i :: 0 <= i < |keys| && keys[i] == t {
      var i :| 0 <= i < |keys| && keys[i] == t;
      ListedHas(s.stack, keys, t, i);
    }
    if TypeList(s, t) != [] {
      ListedKey(s.stack, keys, t);
    }
  }
}

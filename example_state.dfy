/** example/state.js, and example/scope-backup.js, whose class inherits
    everything from it but `push`: a stack of nodes with a list per type and
    a list of every node ever pushed, which refuses a node a second time.
    The first node is listed under "root" whatever its own type.

    The fields are described by the value `Snap` and each method is proved
    against a function on it. Error messages that show a node through the
    node library's inspection show its type here. */
module ExampleState {
  import opened Base
  import opened Nodes
  import opened Listing

  datatype Snap = Snap(types: map<string, seq<Node>>, nodes: seq<Node>, stack: seq<Node>)

  /** An event the object emits, by name, with its node. */
  datatype Event = Event(name: string, node: Node)

  /** `new State(node)`. */
  function Initial(n: Node): (s: Snap)
    ensures s.stack == [n] && s.nodes == [n] && s.types == map["root" := [n]]
  {
    Snap(map["root" := [n]], [n], [n])
  }

  /** The list for type `t`, empty where there is none yet. */
  function TypeList(s: Snap, t: string): seq<Node> {
    if t in s.types then s.types[t] else []
  }

  /** `type(t)` creates the list for `t` when there is none. */
  function Touched(s: Snap, t: string): (r: Snap)
    ensures r.stack == s.stack && r.nodes == s.nodes
    ensures r.types.Keys == s.types.Keys + {t}
    ensures forall u :: TypeList(r, u) == TypeList(s, u)
  {
    if t in s.types then s else s.(types := s.types[t := []])
  }

  /** What `push` or `pop` returns and leaves. */
  datatype Step = Step(result: Result<Node, JsError>, after: Snap)

  /** `push(node)`: a node pushed before, even one popped since, is
      refused and nothing changes; any other is added to its type's list,
      to the list of pushed nodes and to the stack, and returned. */
  function PushStep(s: Snap, n: Node): (r: Step)
    ensures n in s.nodes <==> r.result.Failure?
    ensures n in s.nodes ==> r == Step(Failure(Error("node has already been pushed: " + n.kind)), s)
    ensures n !in s.nodes ==> r.result == Success(n) && r.after.stack == s.stack + [n] && r.after.nodes == s.nodes + [n]
    ensures n !in s.nodes ==> TypeList(r.after, n.kind) == TypeList(s, n.kind) + [n]
    ensures n !in s.nodes ==> forall t :: t != n.kind ==> TypeList(r.after, t) == TypeList(s, t)
  {
    if n in s.nodes then Step(Failure(Error("node has already been pushed: " + n.kind)), s)
    else Step(Success(n), Snap(s.types[n.kind := TypeList(s, n.kind) + [n]], s.nodes + [n], s.stack + [n]))
  }

  /** `pop()`: the top leaves the stack and the last node of its type's
      list leaves that list; the two must be the same node. On an empty
      stack reading the type of `undefined` fails. */
  function PopStep(s: Snap): (r: Step)
    ensures s.stack == [] ==> r == Step(Failure(UndefinedRead("type")), s)
    ensures r.after.nodes == s.nodes
    ensures s.stack != [] ==> r.after.stack == s.stack[..|s.stack| - 1]
    ensures r.result.Success? ==> s.stack != [] && r.result.value == s.stack[|s.stack| - 1]
  {
    if s.stack == [] then Step(Failure(UndefinedRead("type")), s)
    else
      var node := s.stack[|s.stack| - 1];
      var list := TypeList(s, node.kind);
      var after := Snap(s.types[node.kind := DropLast(list)], s.nodes, s.stack[..|s.stack| - 1]);
      if list != [] && list[|list| - 1] == node then Step(Success(node), after)
      else Step(Failure(Error("unexpected node: " + node.kind)), after)
  }

  /** The invariant of a State made for `initial`: every stack entry was
      pushed once and is on the stack once; it is listed under its type,
      except the initial node, listed under "root"; and each type's list
      holds exactly the stack entries listed under it, in order. */
  ghost predicate Filed(s: Snap, keys: seq<string>, initial: Node) {
    && |keys| == |s.stack|
    && initial in s.nodes
    && (forall i :: 0 <= i < |s.stack| ==> s.stack[i] in s.nodes)
    && (forall i, j :: 0 <= i < j < |s.stack| ==> s.stack[i] != s.stack[j])
    && (forall i :: 0 <= i < |s.stack| ==> keys[i] == if s.stack[i] == initial then "root" else s.stack[i].kind)
    && (forall t :: TypeList(s, t) == Listed(s.stack, keys, t))
  }

  class State {
    ghost const initial: Node
    var types: map<string, seq<Node>>
    var nodes: seq<Node>
    var stack: seq<Node>
    var events: seq<Event>
    ghost var keys: seq<string>

    function Value(): Snap
      reads this
    {
      Snap(types, nodes, stack)
    }

    ghost predicate Valid()
      reads this
    {
      Filed(Value(), keys, initial)
    }

    constructor (node: Node)
      ensures Value() == Initial(node) && events == [] && initial == node && Valid()
    {
      initial := node;
      types := map["root" := [node]];
      nodes := [node];
      stack := [node];
      events := [];
      keys := ["root"];
      new;
      InitialFiled(node);
    }

    /** The list for `t` as `type(t)` finds or creates it. */
    function List(t: string): (r: seq<Node>)
      reads this
      ensures r == TypeList(Value(), t)
    {
      if t in types then types[t] else []
    }

    /** `type(t)`: the list for `t`, created when missing. */
    method Type(t: string) returns (list: seq<Node>)
      modifies this
      ensures list == TypeList(old(Value()), t) && Value() == Touched(old(Value()), t)
      ensures events == old(events) && keys == old(keys)
      ensures old(Valid()) ==> Valid()
    {
      if t !in types {
        types := types[t := []];
      }
      list := types[t];
    }

    /** example/state.js `push(node)`, which emits "push". */
    method Push(n: Node) returns (r: Result<Node, JsError>)
      modifies this
      ensures Step(r, Value()) == PushStep(old(Value()), n)
      ensures events == if r.Success? then old(events) + [Event("push", n)] else old(events)
      ensures old(Valid()) ==> Valid()
    {
      if IndexOf(nodes, n) != -1 {
        return Failure(Error("node has already been pushed: " + n.kind));
      }
      events := events + [Event("push", n)];
      types := types[n.kind := List(n.kind) + [n]];
      nodes := nodes + [n];
      stack := stack + [n];
      ghost var before := keys;
      keys := keys + [n.kind];
      r := Success(n);
      if old(Valid()) {
        PushFiled(old(Value()), before, initial, n);
      }
    }

    /** example/scope-backup.js `push(node)`: the same change, with the
        event "node". */
    method ScopePush(n: Node) returns (r: Result<Node, JsError>)
      modifies this
      ensures Step(r, Value()) == PushStep(old(Value()), n)
      ensures events == if r.Success? then old(events) + [Event("node", n)] else old(events)
      ensures old(Valid()) ==> Valid()
    {
      if IndexOf(nodes, n) != -1 {
        return Failure(Error("node has already been pushed: " + n.kind));
      }
      events := events + [Event("node", n)];
      stack := stack + [n];
      nodes := nodes + [n];
      types := types[n.kind := List(n.kind) + [n]];
      ghost var before := keys;
      keys := keys + [n.kind];
      r := Success(n);
      if old(Valid()) {
        PushFiled(old(Value()), before, initial, n);
      }
    }

    /** `pop()`, which emits "pop" when it succeeds. */
    method Pop() returns (r: Result<Node, JsError>)
      modifies this
      ensures Step(r, Value()) == PopStep(old(Value()))
      ensures events == if r.Success? then old(events) + [Event("pop", r.value)] else old(events)
      ensures old(Valid()) && r.Success? ==> Valid()
    {
      if stack == [] {
        return Failure(UndefinedRead("type"));
      }
      var node := stack[|stack| - 1];
      stack := stack[..|stack| - 1];
      var list := Type(node.kind);
      var top := LastOf(list);
      types := types[node.kind := DropLast(list)];
      if top != Some(node) {
        return Failure(Error("unexpected node: " + node.kind));
      }
      events := events + [Event("pop", node)];
      r := Success(node);
      if old(Valid()) {
        ghost var before := keys;
        PopFiled(old(Value()), before, initial);
        keys := DropLast(before);
      }
    }

    /** `isInside(type)`: the list for the type is not empty; like every
        use of `type(t)`, it creates the list when missing. */
    method IsInside(t: string) returns (b: bool)
      modifies this
      ensures b <==> TypeList(old(Value()), t) != []
      ensures Value() == Touched(old(Value()), t) && events == old(events) && keys == old(keys)
      ensures old(Valid()) ==> Valid()
    {
      var list := Type(t);
      b := |list| > 0;
    }

    /** `current()`: the top of the stack (undefined when it is empty). */
    function Current(): (r: Option<Node>)
      reads this
      ensures r.None? <==> stack == []
      ensures r.Some? ==> r.value == stack[|stack| - 1]
    {
      LastOf(stack)
    }

    /** `inside()`: the type of the current node. */
    function Inside(): (r: Result<string, JsError>)
      reads this
      ensures stack == [] ==> r == Failure(UndefinedRead("type"))
      ensures stack != [] ==> r == Success(stack[|stack| - 1].kind)
    {
      if stack == [] then Failure(UndefinedRead("type")) else Success(stack[|stack| - 1].kind)
    }

    /** `last()`: from the current node, down through last children while
        the node has a `nodes` array. `k` bounds that descent. */
    method Last(ghost k: nat) returns (r: Result<Node, JsError>)
      requires stack != [] ==> DescentEnds(stack[|stack| - 1], k)
      ensures stack == [] ==> r == Failure(UndefinedRead("nodes"))
      ensures stack != [] ==> r == LastOfArrays(stack[|stack| - 1], k)
    {
      if stack == [] {
        return Failure(UndefinedRead("nodes"));
      }
      var node := stack[|stack| - 1];
      ghost var j := k;
      while node.nodes.Some?
        invariant DescentEnds(node, j)
        invariant LastOfArrays(node, j) == LastOfArrays(stack[|stack| - 1], k)
        decreases j
      {
        if |node.nodes.value| == 0 {
          return Failure(UndefinedRead("nodes"));
        }
        node := node.nodes.value[|node.nodes.value| - 1];
        j := j - 1;
      }
      r := Success(node);
    }
  }

  /** The node `last()` reaches from `n`: the first one on the way down
      with no `nodes` array; an empty array on the way reads `undefined`. */
  function LastOfArrays(n: Node, k: nat): (r: Result<Node, JsError>)
    requires DescentEnds(n, k)
    reads *
    decreases k
    ensures r.Success? ==> r.value.nodes.None?
    ensures n.nodes.None? ==> r == Success(n)
    ensures n.nodes == Some([]) ==> r == Failure(UndefinedRead("nodes"))
  {
    if n.nodes.None? then Success(n)
    else if n.nodes.value == [] then Failure(UndefinedRead("nodes"))
    else LastOfArrays(n.nodes.value[|n.nodes.value| - 1], k - 1)
  }

  lemma InitialFiled(n: Node)
    ensures Filed(Initial(n), ["root"], n)
  {
    var s := Initial(n);
    forall t ensures TypeList(s, t) == Listed(s.stack, ["root"], t) {
      assert s.stack[..0] == [];
    }
  }



  lemma {:induction false} PushFiled(s: Snap, keys: seq<string>, initial: Node, n: Node)
    requires Filed(s, keys, initial) && n !in s.nodes
    ensures Filed(PushStep(s, n).after, keys + [n.kind], initial)
  {
    var r := PushStep(s, n).after;
    forall t ensures TypeList(r, t) == Listed(r.stack, keys + [n.kind], t) {
      ListedPush(s.stack, keys, n, n.kind, t);
    }
  }

  /** While the invariant holds, a pop fails only when it reaches the
      initial node and that node's own type is not "root": its type's list
      does not end with it. */
  lemma {:induction false} PopFailsOnlyOnInitial(s: Snap, keys: seq<string>, initial: Node)
    requires Filed(s, keys, initial) && s.stack != []
    ensures PopStep(s).result.Failure? <==>
      s.stack[|s.stack| - 1] == initial && initial.kind != "root"
  {
    var n := |s.stack| - 1;
    var top := s.stack[n];
    var rest, ks := s.stack[..n], keys[..n];
    assert s.stack == rest + [top] && keys == ks + [keys[n]];
    ListedPush(rest, ks, top, keys[n], top.kind);
    if top == initial && initial.kind != "root" {
      var list := TypeList(s, top.kind);
      assert list == Listed(rest, ks, top.kind);
      if list != [] && list[|list| - 1] == top {
        ListedFrom(rest, ks, top.kind, top);
      }
    }
  }

  /** Popping takes the top off its type's list, so the lists stay the
      listings of the rest of the stack, whether or not the pop succeeds. */
  lemma {:induction false} PoppedLists(s: Snap, keys: seq<string>)
    requires |keys| == |s.stack| && s.stack != []
    requires keys[|keys| - 1] == s.stack[|s.stack| - 1].kind
    requires forall t :: TypeList(s, t) == Listed(s.stack, keys, t)
    ensures forall t :: TypeList(PopStep(s).after, t) == Listed(s.stack[..|s.stack| - 1], keys[..|keys| - 1], t)
  {
    var n := |s.stack| - 1;
    var top := s.stack[n];
    var rest, ks := s.stack[..n], keys[..n];
    assert s.stack == rest + [top] && keys == ks + [keys[n]];
    forall t ensures TypeList(PopStep(s).after, t) == Listed(rest, ks, t) {
      ListedPush(rest, ks, top, keys[n], t);
    }
  }

  /** A successful pop keeps the invariant, with the last key gone. */
  lemma {:induction false} PopFiled(s: Snap, keys: seq<string>, initial: Node)
    requires Filed(s, keys, initial) && s.stack != [] && PopStep(s).result.Success?
    ensures Filed(PopStep(s).after, DropLast(keys), initial)
  {
    var n := |s.stack| - 1;
    PopFailsOnlyOnInitial(s, keys, initial);
    assert keys[n] == s.stack[n].kind;
    PoppedLists(s, keys);
    assert DropLast(keys) == keys[..n];
  }

  /** A node is pushed at most once: after a push, even once popped again,
      pushing it fails. */
  lemma {:induction false} PushedOnlyOnce(s: Snap, n: Node)
    requires PushStep(s, n).result.Success?
    ensures PushStep(PushStep(s, n).after, n).result.Failure?
    ensures PushStep(PopStep(PushStep(s, n).after).after, n).result.Failure?
  {
  }

  /** A pop right after a push returns the node and restores the stack and
      every type's list; the node stays among the pushed nodes. */
  lemma {:induction false} PushThenPop(s: Snap, n: Node)
    requires PushStep(s, n).result.Success?
    ensures var p := PopStep(PushStep(s, n).after);
      p.result == Success(n) && p.after.stack == s.stack && p.after.nodes == s.nodes + [n] &&
      forall t :: TypeList(p.after, t) == TypeList(s, t)
  {
    var q := PushStep(s, n).after;
    assert q.stack[..|q.stack| - 1] == s.stack;
    assert DropLast(TypeList(s, n.kind) + [n]) == TypeList(s, n.kind);
  }

  /** The initial node of a type other than "root" cannot be popped: it is
      listed under "root", not under its own type. */
  lemma {:induction false} InitialPop(n: Node)
    requires n.kind != "root"
    ensures PopStep(Initial(n)) == Step(Failure(Error("unexpected node: " + n.kind)), Snap(map["root" := [n], n.kind := []], [n], []))
  {
  }

  /** While the invariant holds, the list for `t` is not empty exactly when
      some stack entry is listed under `t`. */
  lemma {:induction false} InsideMeansListed(s: Snap, keys: seq<string>, initial: Node, t: string)
    requires Filed(s, keys, initial)
    ensures TypeList(s, t) != [] <==> exists i :: 0 <= i < |keys| && keys[i] == t
  {
    if exists i :: 0 <= i < |keys| && keys[i] == t {
      var i :| 0 <= i < |keys| && keys[i] == t;
      ListedHas(s.stack, keys, t, i);
    }
    if TypeList(s, t) != [] {
      ListedKey(s.stack, keys, t);
    }
  }


}

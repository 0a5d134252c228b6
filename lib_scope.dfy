/** lib/scope.js: a scope made for a node, linked to an enclosing scope
    through `parent`, holding the nodes pushed into it. */
module LibScope {
  import opened Base
  import opened Nodes

  /** The children list of a scope after `push(node)`. */
  function AfterPush(nodes: Option<seq<Node>>, n: Node): (r: Option<seq<Node>>)
    ensures r.Some? && r.value == nodes.GetOr([]) + [n]
  {
    Some(nodes.GetOr([]) + [n])
  }

  /** What `pop()` returns and the children list it leaves. */
  datatype Popped = Popped(node: Option<Node>, nodes: Option<seq<Node>>)

  /** `pop()`: an absent or empty list gives nothing and stays as it was;
      otherwise its last node is taken off. */
  function PopOf(nodes: Option<seq<Node>>): (r: Popped)
    ensures nodes.None? || nodes.value == [] ==> r == Popped(None, nodes)
    ensures nodes.Some? && nodes.value != [] ==>
      r.node == Some(nodes.value[|nodes.value| - 1]) && r.nodes.Some? &&
      r.nodes.value + [r.node.value] == nodes.value
  {
    if nodes.Some? && |nodes.value| > 0 then
      Popped(Some(nodes.value[|nodes.value| - 1]), Some(nodes.value[..|nodes.value| - 1]))
    else Popped(None, nodes)
  }

  /** A pop undoes a push; a list that was absent comes back empty. */
  lemma {:induction false} PushThenPop(nodes: Option<seq<Node>>, n: Node)
    ensures PopOf(AfterPush(nodes, n)) == Popped(Some(n), Some(nodes.GetOr([])))
  {
    var xs := nodes.GetOr([]);
    assert (xs + [n])[..|xs + [n]| - 1] == xs;
  }

  class Scope {
    /** The node the scope was made for, and that node's type. */
    const node: Node
    const kind: string
    var parent: Scope?
    var nodes: Option<seq<Node>>

    /** `new Scope(node)`: the node points to its new scope, whose type it
        gives; the scope has no parent and no nodes. */
    constructor (node: Node)
      modifies node
      ensures this.node == node && kind == node.kind && parent == null && nodes.None?
      ensures node.scope == this
      ensures node.nodes == old(node.nodes) && node.parent == old(node.parent)
      ensures node.index == old(node.index) && node.errors == old(node.errors)
    {
      this.node := node;
      kind := node.kind;
      parent := null;
      nodes := None;
      new;
      node.scope := this;
    }

    /** `push(node)`: a missing node is ignored; otherwise it is appended
        (the list created when absent), pointed to this scope, and the new
        number of nodes is returned. */
    method Push(n: Node?) returns (r: Option<nat>)
      modifies this, if n == null then {} else {n}`scope
      ensures n == null ==> r.None? && nodes == old(nodes)
      ensures n != null ==> nodes == AfterPush(old(nodes), n) && n.scope == this && r == Some(|nodes.value|)
      ensures parent == old(parent)
    {
      if n == null {
        return None;
      }
      nodes := Some(nodes.GetOr([]) + [n]);
      n.scope := this;
      r := Some(|nodes.value|);
    }

    /** `pop()`. */
    method Pop() returns (r: Option<Node>)
      modifies this
      ensures Popped(r, nodes) == PopOf(old(nodes))
      ensures parent == old(parent)
    {
      if nodes.Some? && |nodes.value| > 0 {
        r := Some(nodes.value[|nodes.value| - 1]);
        nodes := Some(nodes.value[..|nodes.value| - 1]);
      } else {
        r := None;
      }
    }

    /** `isInside(type)`: some scope strictly above this one has the type.
        `k` bounds the length of the parent chain, which must end. */
    function IsInside(t: string, k: nat): (r: bool)
      requires ChainEnds(this, k)
      reads *
      decreases k
      ensures parent == null ==> !r
    {
      if parent == null then false
      else parent.kind == t || parent.IsInside(t, k - 1)
    }
  }

  /** The parent chain above `s` has at most `k` links. */
  predicate ChainEnds(s: Scope, k: nat)
    reads *
    decreases k
  {
    s.parent == null || (k > 0 && ChainEnds(s.parent, k - 1))
  }

  /** The scopes strictly above `s`, nearest first. */
  function Ancestors(s: Scope, k: nat): (r: seq<Scope>)
    requires ChainEnds(s, k)
    reads *
    decreases k
    ensures s.parent == null <==> r == []
    ensures r != [] ==> r[0] == s.parent
  {
    if s.parent == null then [] else [s.parent] + Ancestors(s.parent, k - 1)
  }

  /** `isInside(type)` holds exactly when one of the scopes above has that
      type; the scope's own type does not count. */
  lemma {:induction false} InsideMeansAncestor(s: Scope, t: string, k: nat)
    requires ChainEnds(s, k)
    decreases k
    ensures s.IsInside(t, k) <==> exists i :: 0 <= i < |Ancestors(s, k)| && Ancestors(s, k)[i].kind == t
  {
    if s.parent != null {
      InsideMeansAncestor(s.parent, t, k - 1);
      var up := Ancestors(s.parent, k - 1);
      assert Ancestors(s, k) == [s.parent] + up;
      if exists i :: 0 <= i < |Ancestors(s, k)| && Ancestors(s, k)[i].kind == t {
        var i :| 0 <= i < |Ancestors(s, k)| && Ancestors(s, k)[i].kind == t;
        if i > 0 {
          assert up[i - 1].kind == t;
        }
      }
      if s.parent.IsInside(t, k - 1) {
        var i :| 0 <= i < |up| && up[i].kind == t;
        assert Ancestors(s, k)[i + 1] == up[i];
      }
    }
  }
}

/** The node objects the parsers build and link into a tree, and the plain
    JavaScript values that handlers return and callers pass in.

    A node's `type`, `value`, `skip` flag and its own `isOpen`/`isClose`
    predicates are fixed when it is made; its children, its `parent` and
    `index` links, the `errors` list of a root and the `scope` it was pushed
    in are updated in place. The node library (snapdragon-node) itself is not
    part of this model: its constructor copies a record's fields, and its
    `push` appends a child and links the child's `parent` back. */
module Nodes {
  import opened Base

  /** A user predicate attached to a node as `isOpen` or `isClose`. It is
      given the type of the node it is asked about, or None when it is
      called without an argument. */
  type Test = Option<string> -> bool

  /** A plain object in the shape of a node: what tokens are, what handlers
      return and what `node()` is given. `kind` is the object's `type`
      property (`type` is a reserved word here); a missing one is None. */
  datatype Record = Record(
    kind: Option<string>,
    value: Option<string>,
    nodes: Children,
    skip: bool,
    isOpen: Option<Test>,
    isClose: Option<Test>)

  /** A record's `nodes` property: an array of records, or anything that
      is not an array (absent included). */
  datatype Children = NoArray | Array(items: seq<Record>)

  /** A record of the given type and value and nothing else: what
      `node(type, value)` and the lexer's tokens look like. */
  function Named(type_: string, value: Option<string>): (r: Record)
    ensures r.kind == Some(type_) && r.value == value && r.nodes.NoArray? && !r.skip
  {
    Record(Some(type_), value, NoArray, false, None, None)
  }

  /** A JavaScript value that is not a node. */
  datatype Value = Undefined | Null | Bool(b: bool) | Num(n: int) | Str(s: string) | Obj(rec: Record)
  {
    /** JavaScript truthiness. */
    predicate Truthy() {
      match this
      case Undefined => false
      case Null => false
      case Bool(b) => b
      case Num(n) => n != 0
      case Str(s) => s != ""
      case Obj(_) => true
    }
  }

  class Node {
    const kind: string
    const value: Option<string>
    const skip: bool
    const isOpen: Option<Test>
    const isClose: Option<Test>
    var nodes: Option<seq<Node>>
    var parent: Node?
    var index: Option<nat>
    var errors: Option<seq<JsError>>
    var scope: object?

    /** A node with the given fixed fields and children, not yet linked to a
        parent. */
    constructor (type_: string, value: Option<string>, skip: bool,
                 isOpen: Option<Test>, isClose: Option<Test>, nodes: Option<seq<Node>>)
      ensures this.kind == type_ && this.value == value && this.skip == skip
      ensures this.isOpen == isOpen && this.isClose == isClose && this.nodes == nodes
      ensures parent == null && index.None? && errors.None? && scope == null
    {
      this.kind := type_;
      this.value := value;
      this.skip := skip;
      this.isOpen := isOpen;
      this.isClose := isClose;
      this.nodes := nodes;
      parent := null;
      index := None;
      errors := None;
      scope := null;
    }

    /** The node library's `push`: the child goes at the end of `nodes`
        (created when absent) and points back to this node; the result is
        the new number of children. */
    method Push(child: Node) returns (count: nat)
      modifies this`nodes, child`parent
      ensures nodes == Some(old(nodes).GetOr([]) + [child])
      ensures child.parent == this
      ensures count == |nodes.value|
      ensures index == old(index) && errors == old(errors) && scope == old(scope)
      ensures child != this ==> child.nodes == old(child.nodes) && child.index == old(child.index)
      ensures child != this ==> child.errors == old(child.errors) && child.scope == old(child.scope)
      ensures child != this ==> parent == old(parent)
    {
      nodes := Some(nodes.GetOr([]) + [child]);
      child.parent := this;
      count := |nodes.value|;
    }

    /** The node library's `last`: the last child, when there is one. */
    function Last(): (r: Option<Node>)
      reads this
      ensures r.Some? <==> nodes.Some? && nodes.value != []
      ensures r.Some? ==> r.value == nodes.value[|nodes.value| - 1]
    {
      if nodes.Some? then LastOf(nodes.value) else None
    }
  }

  /** A value a caller hands to a parser: a node, or any other value. */
  datatype Any = Ref(node: Node) | Plain(v: Value)
  {
    predicate Truthy() {
      Ref? || v.Truthy()
    }
  }

  /** backup.js `node(obj)` for a plain object: a new node with the
      object's fields, whose children are made into nodes in turn, each one
      linked to the new node as its `parent` and numbered by its `index`.
      (A missing type becomes the empty string.) */
  method Build(r: Record) returns (n: Node)
    decreases r
    ensures fresh(n)
    ensures n.kind == r.kind.GetOr("") && n.value == r.value && n.skip == r.skip
    ensures n.isOpen == r.isOpen && n.isClose == r.isClose
    ensures n.parent == null && n.index.None? && n.errors.None? && n.scope == null
    ensures n.nodes.Some? <==> r.nodes.Array?
    ensures r.nodes.Array? ==> |n.nodes.value| == |r.nodes.items|
    ensures r.nodes.Array? ==> forall i :: 0 <= i < |n.nodes.value| ==>
      var kid := n.nodes.value[i];
      fresh(kid) && kid != n && kid.parent == n && kid.index == Some(i) &&
      Shows(kid, r.nodes.items[i]) &&
      (kid.nodes.Some? <==> r.nodes.items[i].nodes.Array?)
    ensures r.nodes.Array? ==> forall i, j :: 0 <= i < j < |n.nodes.value| ==> n.nodes.value[i] != n.nodes.value[j]
  {
    n := new Node(r.kind.GetOr(""), r.value, r.skip, r.isOpen, r.isClose, None);
    if r.nodes.Array? {
      var items := r.nodes.items;
      var kids: seq<Node> := [];
      var i := 0;
      while i < |items|
        invariant 0 <= i <= |items| && |kids| == i
        invariant n.nodes.None? && n.parent == null && n.index.None? && n.errors.None? && n.scope == null
        invariant forall j :: 0 <= j < i ==>
          var kid := kids[j];
          fresh(kid) && kid != n && kid.parent == n && kid.index == Some(j) &&
          Shows(kid, items[j]) &&
          (kid.nodes.Some? <==> items[j].nodes.Array?)
        invariant forall j, k :: 0 <= j < k < i ==> kids[j] != kids[k]
      {
        var kid := Build(items[i]);
        kid.parent := n;
        kid.index := Some(i);
        kids := kids + [kid];
        i := i + 1;
      }
      n.nodes := Some(kids);
    }
  }

  /** The node library's constructor on a plain object, with `k` for its
      type: the type, value, skip flag and predicates are copied; a `nodes`
      array on the object is not carried over in this model. */
  method FromRecord(rec: Record, k: string) returns (n: Node)
    ensures fresh(n) && n.kind == k && n.value == rec.value && n.skip == rec.skip
    ensures n.isOpen == rec.isOpen && n.isClose == rec.isClose
    ensures n.nodes.None? && n.parent == null && n.errors.None?
  {
    n := new Node(k, rec.value, rec.skip, rec.isOpen, rec.isClose, None);
  }

  /** Going down through last children from `n` stops within `k` steps. */
  predicate DescentEnds(n: Node, k: nat)
    reads *
    decreases k
  {
    n.nodes.None? || n.nodes.value == [] ||
    (k > 0 && DescentEnds(n.nodes.value[|n.nodes.value| - 1], k - 1))
  }

  /** A node seen as a plain object, as a handler given the node reads it:
      its fixed fields (its children are not shown to handlers here). */
  function RecordOf(n: Node): (r: Record)
    ensures r.kind == Some(n.kind) && r.value == n.value && r.skip == n.skip
    ensures r.isOpen == n.isOpen && r.isClose == n.isClose && r.nodes.NoArray?
  {
    Record(Some(n.kind), n.value, NoArray, n.skip, n.isOpen, n.isClose)
  }

  /** Whether `n` is the node made of `rec`: it has the record's type (a
      missing one being the empty string), value, skip flag and predicates. */
  ghost predicate Shows(n: Node, rec: Record) {
    && n.kind == rec.kind.GetOr("") && n.value == rec.value && n.skip == rec.skip
    && n.isOpen == rec.isOpen && n.isClose == rec.isClose
  }

  /** The children `concat` copies out of another tree: all of them but its
      "bos" and "eos" nodes, in their order. */
  function Spliced(children: seq<Node>): (r: seq<Node>)
    ensures |r| <= |children|
    ensures forall i :: 0 <= i < |r| ==> r[i].kind != "bos" && r[i].kind != "eos"
  {
    if children == [] then []
    else
      var c := children[|children| - 1];
      Spliced(children[..|children| - 1]) + (if c.kind != "bos" && c.kind != "eos" then [c] else [])
  }

  /** A child is copied exactly when it is neither "bos" nor "eos". */
  lemma {:induction false} SplicedKeeps(children: seq<Node>, c: Node)
    ensures c in Spliced(children) <==> c in children && c.kind != "bos" && c.kind != "eos"
  {
    if children != [] {
      var init := children[..|children| - 1];
      SplicedKeeps(init, c);
      assert children == init + [children[|children| - 1]];
    }
  }

  /** A tree with no "bos" or "eos" child is copied whole. */
  lemma {:induction false} SplicedAll(children: seq<Node>)
    requires forall i :: 0 <= i < |children| ==> children[i].kind != "bos" && children[i].kind != "eos"
    ensures Spliced(children) == children
  {
    if children != [] {
      var init := children[..|children| - 1];
      SplicedAll(init);
      assert children == init + [children[|children| - 1]];
    }
  }

  /** Copying the children of two trees one after the other is copying
      the children of both. */
  lemma {:induction false} SplicedAppend(a: seq<Node>, b: seq<Node>)
    ensures Spliced(a + b) == Spliced(a) + Spliced(b)
    decreases |b|
  {
    if b == [] {
      assert a + b == a;
    } else {
      var init := b[..|b| - 1];
      SplicedAppend(a, init);
      assert (a + b)[..|a + b| - 1] == a + init;
    }
  }

  /** The children of a node once each of `kept` has been pushed onto it
      in turn: unchanged when there is none, else the old children (none
      when absent) followed by `kept`. */
  function Appended(before: Option<seq<Node>>, kept: seq<Node>): Option<seq<Node>> {
    if kept == [] then before else Some(before.GetOr([]) + kept)
  }

  /** Pushing one more child extends the appended children by it. */
  lemma AppendedStep(before: Option<seq<Node>>, kept: seq<Node>, c: Node)
    ensures Appended(before, kept + [c]) == Some(Appended(before, kept).GetOr([]) + [c])
  {
    if kept != [] {
      assert before.GetOr([]) + (kept + [c]) == (before.GetOr([]) + kept) + [c];
    } else {
      assert kept + [c] == [c];
    }
  }

  /** The parsers' `concat(node, ast)`: the children of `other`, but for
      its "bos" and "eos" nodes, appended to `node` in order, each now
      pointing to `node`. Without children to iterate over it throws. */
  method Concat(node: Node, other: Node) returns (r: Result<Node, JsError>)
    requires node != other
    modifies node, if other.nodes.Some? then other.nodes.value else []
    ensures other.nodes.None? ==>
      r == Failure(TypeError("ast.nodes is not iterable")) && node.nodes == old(node.nodes)
    ensures other.nodes.Some? ==>
      && r == Success(node)
      && node.nodes == Appended(old(node.nodes), Spliced(old(other.nodes).value))
      && forall c :: c in old(other.nodes).value && c.kind != "bos" && c.kind != "eos" ==> c.parent == node
  {
    if other.nodes.None? {
      return Failure(TypeError("ast.nodes is not iterable"));
    }
    var kids := other.nodes.value;
    var i := 0;
    while i < |kids|
      invariant 0 <= i <= |kids| && other.nodes == old(other.nodes) && kids == other.nodes.value
      invariant node.nodes == Appended(old(node.nodes), Spliced(kids[..i]))
      invariant forall j :: 0 <= j < i && kids[j].kind != "bos" && kids[j].kind != "eos" ==> kids[j].parent == node
    {
      var child := kids[i];
      assert kids[..i + 1] == kids[..i] + [child];
      SplicedAppend(kids[..i], [child]);
      if child.kind != "bos" && child.kind != "eos" {
        AppendedStep(old(node.nodes), Spliced(kids[..i]), child);
        var _ := node.Push(child);
      } else {
        assert Spliced(kids[..i + 1]) == Spliced(kids[..i]);
      }
      i := i + 1;
    }
    assert kids[..i] == kids;
    r := Success(node);
  }
}

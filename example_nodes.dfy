/** example/node.js, example/block.js and example/ast.js: the example
    Node constructor, which hands back a node it is given, makes an AST for
    the type "root", a Block for a type ending in ".open", and a plain node
    otherwise.

    A plain node is what the node library makes from a token. */
module ExampleNodes {
  import opened Base
  import opened Nodes
  import BlockTypes

  /** What the constructor is given: a node, or a token (a plain object). */
  datatype Token = Existing(node: Node) | Fields(rec: Record)

  /** example/ast.js `new AST()`: a root with empty `errors` and `nodes`. */
  method NewAst() returns (a: Node)
    ensures fresh(a) && a.kind == "root" && a.value.None?
    ensures a.errors == Some([]) && a.nodes == Some([]) && a.parent == null
  {
    a := new Node("root", None, false, None, None, None);
    a.errors := Some([]);
    a.nodes := Some([]);
  }

  /** example/block.js `new Block(tok)` for a token of type `k`: a node
      whose type is `k` without its last five characters, holding one
      child, a plain node made from the token. */
  method NewBlock(rec: Record, k: string) returns (b: Node)
    ensures fresh(b) && b.kind == DropEnd(k, 5) && b.value.None?
    ensures b.nodes.Some? && |b.nodes.value| == 1
    ensures var c := b.nodes.value[0];
      fresh(c) && c != b && c.kind == k && c.value == rec.value && c.nodes.None? && c.parent == b
  {
    b := new Node(DropEnd(k, 5), None, false, None, None, None);
    var child := FromRecord(rec, k);
    var _ := b.Push(child);
  }

  /** example/node.js `new Node(tok)`. A token without a type fails when
      its type is sliced. */
  method MakeNode(tok: Token) returns (r: Result<Node, JsError>)
    ensures tok.Existing? ==> r == Success(tok.node)
    ensures tok.Fields? && tok.rec.kind.None? ==> r == Failure(UndefinedRead("slice"))
    ensures tok.Fields? && tok.rec.kind == Some("root") ==>
      r.Success? && fresh(r.value) && r.value.kind == "root" &&
      r.value.errors == Some([]) && r.value.nodes == Some([])
    ensures tok.Fields? && tok.rec.kind.Some? && tok.rec.kind.value != "root" &&
            SliceFromEnd(tok.rec.kind.value, 5) == ".open" ==>
      r.Success? && fresh(r.value) && r.value.kind == DropEnd(tok.rec.kind.value, 5) &&
      r.value.nodes.Some? && |r.value.nodes.value| == 1 &&
      r.value.nodes.value[0].kind == tok.rec.kind.value && r.value.nodes.value[0].nodes.None?
    ensures tok.Fields? && tok.rec.kind.Some? && tok.rec.kind.value != "root" &&
            SliceFromEnd(tok.rec.kind.value, 5) != ".open" ==>
      r.Success? && fresh(r.value) && r.value.kind == tok.rec.kind.value &&
      r.value.value == tok.rec.value && r.value.nodes.None?
  {
    match tok
    case Existing(n) =>
      return Success(n);
    case Fields(rec) =>
      if rec.kind == Some("root") {
        var a := NewAst();
        return Success(a);
      }
      if rec.kind.None? {
        return Failure(UndefinedRead("slice"));
      }
      var k := rec.kind.value;
      if SliceFromEnd(k, 5) == ".open" {
        var b := NewBlock(rec, k);
        return Success(b);
      }
      var n := FromRecord(rec, k);
      return Success(n);
  }

  /** The block's type is the token's type less ".open": the opener child
      keeps the full name, so the block type and ".open" give it back. */
  lemma {:induction false} BlockTypeRestores(k: string)
    requires SliceFromEnd(k, 5) == ".open"
    ensures DropEnd(k, 5) + ".open" == k
  {
  }

  /** There is no length check: the bare ".open" makes a Block of the empty
      type, though the example parser's `isBlockOpen` does not count
      ".open" as an opener. */
  lemma ShortOpen()
    ensures SliceFromEnd(".open", 5) == ".open" && DropEnd(".open", 5) == ""
    ensures !BlockTypes.IsDotOpen(".open")
  {
  }

  /** A type shorter than five characters never makes a Block. */
  lemma {:induction false} ShortTypesArePlain(k: string)
    requires |k| < 5
    ensures SliceFromEnd(k, 5) != ".open"
  {
  }
}

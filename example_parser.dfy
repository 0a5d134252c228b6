/** example/parser.js: a small parser over an AST, a Scopes object and a
    State tracker, both made for the AST. Pushing a node records it on the
    state and hands it to the scope handlers; popping removes the state's
    top whatever node it is given.

    Scope handlers are functions of the node; their results are dropped
    here, as the parser drops them. */
module ExampleParser {
  import opened Base
  import opened Nodes
  import BlockTypes
  import ExampleNodes
  import ExampleState
  import ExampleScopes

  /** An event the parser emits, by name, with its node. */
  datatype Event = Event(name: string, node: Node)

  class Parser {
    const ast: Node
    const scopes: ExampleScopes.Scopes
    const state: ExampleState.State
    var events: seq<Event>

    ghost predicate Valid()
      reads this, scopes, state
    {
      scopes.Valid() && state.Valid() && state.initial == ast && scopes.initial.node == ast
    }

    /** `new Parser()`: the AST made by the example Node constructor from
        `{type: 'root'}`, and a Scopes object and a State for it. */
    constructor ()
      ensures fresh(ast) && fresh(scopes) && fresh(state) && fresh(scopes.initial)
      ensures ast.kind == "root" && ast.nodes == Some([]) && ast.errors == Some([])
      ensures scopes.Value() == ExampleScopes.Initial(scopes.initial) && scopes.handlers == map[]
      ensures state.Value() == ExampleState.Initial(ast)
      ensures events == [] && Valid()
    {
      var made := ExampleNodes.MakeNode(ExampleNodes.Fields(Named("root", None)));
      var root := made.value;
      ast := root;
      scopes := new ExampleScopes.Scopes(root);
      state := new ExampleState.State(root);
      events := [];
    }

    /** `push(node)`: emits "block.open", then pushes the node on the state,
        failing as the state does (a node is pushed at most once). */
    method Push(n: Node) returns (err: Option<JsError>)
      modifies this, state
      ensures events == old(events) + [Event("block.open", n)]
      ensures ExampleState.Step(if err.Some? then Failure(err.value) else Success(n), state.Value()) ==
              ExampleState.PushStep(old(state.Value()), n)
      ensures old(Valid()) ==> Valid()
    {
      events := events + [Event("block.open", n)];
      var r := state.Push(n);
      if r.Failure? {
        return Some(r.error);
      }
      var _ := scopes.Handle(n);
      err := None;
    }

    /** `pop(node)`: emits "block.close" and pops the state; the node given
        is only handed to the scope handlers. */
    method Pop(n: Node) returns (err: Option<JsError>)
      modifies this, state
      ensures events == old(events) + [Event("block.close", n)]
      ensures var p := ExampleState.PopStep(old(state.Value()));
        state.Value() == p.after && (err.Some? <==> p.result.Failure?) &&
        (err.Some? ==> err.value == p.result.error)
      ensures old(Valid()) && err.None? ==> Valid()
    {
      events := events + [Event("block.close", n)];
      var r := state.Pop();
      if r.Failure? {
        return Some(r.error);
      }
      var _ := scopes.Handle(n);
      err := None;
    }

    /** The `current` getter: the state's current node. */
    function Current(): (r: Option<Node>)
      reads this, state
      ensures r == state.Current()
    {
      state.Current()
    }

    /** The `scope` getter: the current scope. */
    function Scope(): (r: Option<ExampleScopes.Scope>)
      reads this, scopes
      ensures r.None? <==> scopes.stack == []
      ensures r.Some? ==> r.value == scopes.stack[|scopes.stack| - 1]
    {
      if scopes.stack == [] then None else Some(scopes.stack[|scopes.stack| - 1])
    }

    /** `isBlockOpen(node)`: the type is a non-empty name followed by
        ".open"; no such type also names a closing node. */
    function IsBlockOpen(n: Node): (r: bool)
      ensures r <==> exists base: string :: |base| >= 1 && n.kind == base + ".open"
      ensures r ==> !BlockTypes.IsDotClose(n.kind)
    {
      BlockTypes.DotOpenShape(n.kind);
      BlockTypes.DotOpenNotClose(n.kind);
      BlockTypes.IsDotOpen(n.kind)
    }

    /** `isBlockClose(node)`: the type is a non-empty name followed by
        ".close"; no such type also names an opening node. */
    function IsBlockClose(n: Node): (r: bool)
      ensures r <==> exists base: string :: |base| >= 1 && n.kind == base + ".close"
      ensures r ==> !BlockTypes.IsDotOpen(n.kind)
    {
      BlockTypes.DotCloseShape(n.kind);
      BlockTypes.DotOpenNotClose(n.kind);
      BlockTypes.IsDotClose(n.kind)
    }

    /** `isBlock(node)`: the node has children and the first one opens a
        block; an empty children array reads the type of `undefined`. */
    function IsBlock(n: Node): (r: Result<bool, JsError>)
      reads n
      ensures n.nodes == Some([]) <==> r.Failure?
      ensures r.Failure? ==> r.error == UndefinedRead("type")
      ensures r == Success(true) <==> n.nodes.Some? && n.nodes.value != [] && BlockTypes.IsDotOpen(n.nodes.value[0].kind)
    {
      if n.nodes.None? then Success(false)
      else if n.nodes.value == [] then Failure(UndefinedRead("type"))
      else Success(IsBlockOpen(n.nodes.value[0]))
    }

    /** `isScopeOpen(node)`: a block, while no "bracket" scope is open. The
        scope check creates the "bracket" list when it is missing. */
    method IsScopeOpen(n: Node) returns (r: Result<bool, JsError>)
      modifies scopes
      ensures r.Failure? <==> IsBlock(n).Failure?
      ensures r == Success(true) <==> IsBlock(n) == Success(true) && ExampleScopes.TypeList(old(scopes.Value()), "bracket") == []
      ensures IsBlock(n) == Success(true) ==> scopes.Value() == ExampleScopes.Touched(old(scopes.Value()), "bracket")
      ensures IsBlock(n) != Success(true) ==> scopes.Value() == old(scopes.Value())
      ensures scopes.handlers == old(scopes.handlers) && scopes.keys == old(scopes.keys)
      ensures old(scopes.Valid()) ==> scopes.Valid()
    {
      var block := IsBlock(n);
      if block != Success(true) {
        return block;
      }
      var inside := scopes.IsInside("bracket");
      r := Success(!inside);
    }

    /** `isScopeClose(node)`: the node is the current scope's node. */
    function IsScopeClose(n: Node): (r: Result<bool, JsError>)
      reads this, scopes
      ensures scopes.stack == [] ==> r == Failure(UndefinedRead("node"))
      ensures scopes.stack != [] ==> r == Success(n == scopes.stack[|scopes.stack| - 1].node)
    {
      match Scope()
      case None => Failure(UndefinedRead("node"))
      case Some(s) => Success(n == s.node)
    }

    /** `isInside(type)`: inside a scope of the type, or else inside a
        block of it. Each check creates its list when missing, and the
        block check runs only when the scope check fails. */
    method IsInside(t: string) returns (r: bool)
      modifies scopes, state
      ensures r <==> ExampleScopes.TypeList(old(scopes.Value()), t) != [] ||
                     ExampleState.TypeList(old(state.Value()), t) != []
      ensures scopes.Value() == ExampleScopes.Touched(old(scopes.Value()), t)
      ensures ExampleScopes.TypeList(old(scopes.Value()), t) != [] ==> state.Value() == old(state.Value())
      ensures ExampleScopes.TypeList(old(scopes.Value()), t) == [] ==>
        state.Value() == ExampleState.Touched(old(state.Value()), t)
      ensures old(Valid()) ==> Valid()
    {
      r := scopes.IsInside(t);
      if !r {
        r := state.IsInside(t);
      }
    }
  }
}

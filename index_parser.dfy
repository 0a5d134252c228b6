/** index.js, the package's entry point: a parser that keeps one stack of
    blocks, records every error it reports in the root's `errors` before it
    hands the error to the listeners or throws it, and wraps each handler
    so that a plain object it returns becomes a node of the handler's type.

    As written, `push` and `pop` go through `state` and `scopes` fields that
    nothing sets; the members named `...AsWritten` below keep that
    behaviour, and the parser itself uses the evidently intended one, where
    `push` and `pop` work on the block stack. */
module IndexParser {
  import opened Base
  import opened Nodes
  import BlockTypes
  import Handlers
  import Lexing

  /** The block stack after `push(block)`: the block on top, or the stack
      as it was for a missing block. */
  function StackPushed(s: seq<Node>, b: Option<Node>): (r: seq<Node>)
    ensures b.None? ==> r == s
    ensures b.Some? ==> |r| == |s| + 1 && r[..|s|] == s && r[|s|] == b.value
  {
    if b.Some? then s + [b.value] else s
  }

  /** What `pop()` takes off the block stack and leaves on it. */
  datatype StackPop = StackPop(popped: Option<Node>, after: seq<Node>)

  /** The stack's `pop()`: the top comes off; an empty stack gives nothing. */
  function StackPopped(s: seq<Node>): (r: StackPop)
    ensures s == [] ==> r == StackPop(None, [])
    ensures s != [] ==> r.popped == Some(s[|s| - 1]) && r.after + [s[|s| - 1]] == s
  {
    if s == [] then StackPop(None, []) else StackPop(Some(s[|s| - 1]), s[..|s| - 1])
  }

  /** A pushed block is the next one popped, and the pop restores the
      stack. */
  lemma {:induction false} PushThenPop(s: seq<Node>, b: Node)
    ensures StackPopped(StackPushed(s, Some(b))) == StackPop(Some(b), s)
  {
    assert (s + [b])[..|s|] == s;
  }

  /** `push(block)` as written: a block is pushed onto `this.state`, which
      is never set, so every block fails there. */
  function PushAsWritten(block: Option<Node>): Result<Option<Node>, JsError> {
    if block.None? then Success(None) else Failure(UndefinedRead("push"))
  }

  /** `pop()` as written: `this.state` is never set. */
  function PopAsWritten(): Result<Option<Node>, JsError> {
    Failure(UndefinedRead("pop"))
  }

  /** What the discrepancy costs: `parse` pushes its "bos" node first, and
      as written that push fails, whatever the input, while the block stack
      takes the node and gives it back. */
  lemma {:induction false} BosPushFailsAsWritten(s: seq<Node>, bos: Node)
    ensures PushAsWritten(Some(bos)).Failure?
    ensures PopAsWritten().Failure?
    ensures StackPopped(StackPushed(s, Some(bos))) == StackPop(Some(bos), s)
  {
    PushThenPop(s, bos);
  }

  /** `get(type)`: the type's own handler; on a miss the fallback reads
      `this.handler.default`, and `handler` is never set, so the read
      fails. */
  function Get(handlers: map<string, Handlers.Wrapper>, t: string): (r: Result<Handlers.Wrapper, JsError>)
    ensures r.Success? <==> t in handlers
    ensures r.Success? ==> r.value == handlers[t]
    ensures r.Failure? ==> r.error == UndefinedRead("default")
  {
    if t in handlers then Success(handlers[t]) else Failure(UndefinedRead("default"))
  }

  /** Unlike the lookup of backup.js, a "default" handler is never reached:
      a type without its own handler fails even where a default is
      registered, and registering a type makes it found. */
  lemma {:induction false} DefaultNeverReached(handlers: map<string, Handlers.Wrapper>, t: string, w: Handlers.Wrapper)
    ensures t !in handlers && "default" in handlers ==>
      Get(handlers, t) == Failure(UndefinedRead("default")) && Handlers.Lookup(handlers, t) == Success(handlers["default"])
    ensures t in handlers ==> Get(handlers, t) == Handlers.Lookup(handlers, t)
    ensures Get(handlers[t := w], t) == Success(w)
  {
  }

  /** `isBlock(node)`: `nodes` is an array whose first child opens a block;
      an empty array has no first child to read the type of. */
  function IsBlock(n: Node): (r: Result<bool, JsError>)
    reads n
    ensures r.Failure? <==> n.nodes == Some([])
    ensures r.Failure? ==> r.error == UndefinedRead("type")
    ensures r == Success(true) <==>
      n.nodes.Some? && n.nodes.value != [] && BlockTypes.IsDotOpen(n.nodes.value[0].kind)
  {
    if n.nodes.None? then Success(false)
    else if n.nodes.value == [] then Failure(UndefinedRead("type"))
    else Success(BlockTypes.IsDotOpen(n.nodes.value[0].kind))
  }

  /** `isClosedBlock(node)`: a block whose last child closes a block. */
  function IsClosedBlock(n: Node): (r: Result<bool, JsError>)
    reads n
  {
    match IsBlock(n)
    case Failure(e) => Failure(e)
    case Success(b) => Success(b && BlockTypes.IsDotClose(n.nodes.value[|n.nodes.value| - 1].kind))
  }

  /** `isOpenBlock(node)`: a block whose last child does not close one. */
  function IsOpenBlock(n: Node): (r: Result<bool, JsError>)
    reads n
  {
    match IsBlock(n)
    case Failure(e) => Failure(e)
    case Success(b) => Success(b && !BlockTypes.IsDotClose(n.nodes.value[|n.nodes.value| - 1].kind))
  }

  /** A block is open or closed, never both; what is not a block is
      neither; an empty `nodes` array fails all three tests alike. */
  lemma {:induction false} OpenOrClosed(n: Node)
    ensures IsBlock(n).Failure? <==> IsOpenBlock(n).Failure?
    ensures IsBlock(n).Failure? <==> IsClosedBlock(n).Failure?
    ensures IsBlock(n).Success? ==>
      (IsBlock(n).value <==> IsOpenBlock(n).value || IsClosedBlock(n).value) &&
      !(IsOpenBlock(n).value && IsClosedBlock(n).value)
    ensures IsBlock(n) == Success(true) ==>
      (IsClosedBlock(n).value <==> BlockTypes.IsDotClose(n.nodes.value[|n.nodes.value| - 1].kind))
  {
  }

  /** How the engine names a primitive in the error for setting a property
      on it. */
  function Describe(v: Value): string {
    match v
    case Str(s) => "string '" + s + "'"
    case Num(k) => "number '" + IntToString(k) + "'"
    case Bool(b) => "boolean '" + (if b then "true" else "false") + "'"
    case _ => "object"
  }

  /** The fields of a returned node: given when its type (the handler's
      type, put in where it is missing) is not empty, and none otherwise. */
  function Kept(rec: Record): (r: Result<Option<Record>, JsError>)
    ensures r.Success? && (r.value.Some? <==> rec.kind.Some? && rec.kind.value != "")
    ensures r.Success? && r.value.Some? ==> r.value.value == rec
  {
    if rec.kind.Some? && rec.kind.value != "" then Success(Some(rec)) else Success(None)
  }

  /** What a handler wrapped for type `t` makes of its handler's outcome on
      a token, before any node is made: the fields of the node it returns,
      nothing, or the error it caught. A plain object (the token itself
      included) becomes a node, given the type `t` when it has none; a
      string, number or `true` gets the type set on it, which strict mode
      refuses; any other value gives nothing. */
  function Handled(t: string, o: Handlers.Outcome, tok: Record): (r: Result<Option<Record>, JsError>)
    ensures o.Threw? ==> r == Failure(o.e)
    ensures o.Same? ==> r == Kept(Handlers.Stamped(tok, t))
    ensures o.Returned? && o.v.Obj? ==> r == Kept(Handlers.Stamped(o.v.rec, t))
    ensures o.Returned? && !o.v.Obj? && !o.v.Truthy() ==> r == Success(None)
    ensures o.Returned? && !o.v.Obj? && o.v.Truthy() ==>
      r == Failure(TypeError("Cannot create property 'type' on " + Describe(o.v)))
    ensures r.Success? && r.value.Some? ==> r.value.value.kind.Some? && r.value.value.kind.value != ""
    ensures r.Success? && r.value.Some? && t != "" ==> r.value.value.kind.value != ""
  {
    match o
    case Threw(e) => Failure(e)
    case Same => Kept(Handlers.Stamped(tok, t))
    case Returned(v) =>
      if v.Obj? then Kept(Handlers.Stamped(v.rec, t))
      else if !v.Truthy() then Success(None)
      else Failure(TypeError("Cannot create property 'type' on " + Describe(v)))
  }

  /** A handler registered under a non-empty type turns every plain object
      it returns into a node: one of that type when the object has none. */
  lemma {:induction false} HandledKeepsObjects(t: string, rec: Record, tok: Record)
    requires t != ""
    ensures Handled(t, Handlers.Returned(Obj(rec)), tok).Success?
    ensures Handled(t, Handlers.Returned(Obj(rec)), tok).value.Some?
    ensures rec.kind.None? ==> Handled(t, Handlers.Returned(Obj(rec)), tok).value.value.kind == Some(t)
  {
  }

  /** A caught error with the token's display appended to its message. */
  function Annotated(e: JsError, shown: string): (r: JsError)
    ensures r.name == e.name && r.code == e.code && r.message == e.message + "\n" + shown
  {
    e.(message := e.message + "\n" + shown)
  }

  /** How `error(e)` ends: `e` is recorded in the root's `errors` (a root
      without them fails there), then handed to the listeners when there
      are any, and thrown otherwise. */
  predicate Reported(e: JsError, listening: bool,
                     errors: Option<seq<JsError>>, errors': Option<seq<JsError>>,
                     emitted: seq<JsError>, emitted': seq<JsError>, thrown: Option<JsError>)
  {
    if errors.None? then errors' == None && emitted' == emitted && thrown == Some(UndefinedRead("push"))
    else if listening then errors' == Some(errors.value + [e]) && emitted' == emitted + [e] && thrown.None?
    else errors' == Some(errors.value + [e]) && emitted' == emitted && thrown == Some(e)
  }

  /** How a call of a wrapped handler ends, given what the wrapper makes
      of the token (`h`) and how the token is displayed (`shown`): the
      node made of the fields it returns, or nothing, with nothing
      reported; or the caught error, annotated, reported as `error` does to
      the parser whose errors, listeners and handed errors are `errors`,
      `listening` and `emitted`, and then nothing, or the caught error
      thrown on when the report throws. */
  ghost predicate Caught(h: Result<Option<Record>, JsError>, shown: string, r: Result<Option<Node>, JsError>,
                         listening: bool, errors: Option<seq<JsError>>, errors': Option<seq<JsError>>,
                         emitted: seq<JsError>, emitted': seq<JsError>)
  {
    if h.Success? then
      && r.Success? && errors' == errors && emitted' == emitted
      && (r.value.Some? <==> h.value.Some?)
      && (h.value.Some? ==> Shows(r.value.value, h.value.value))
    else
      var e := Annotated(h.error, shown);
      && errors' == (if errors.Some? then Some(errors.value + [e]) else None)
      && (if listening && errors.Some? then r == Success(None) && emitted' == emitted + [e]
          else r == Failure(e) && emitted' == emitted)
  }

  /** How `next` ends once it has taken the token `t`: without a handler
      of the token's own type the read of `default` throws, and otherwise
      the call of that handler ends as `Caught` says. */
  ghost predicate Dispatched(handlers: map<string, Handlers.Wrapper>, show: Record -> string, t: Lexing.Tok,
                             r: Result<Option<Node>, JsError>,
                             listening: bool, errors: Option<seq<JsError>>, errors': Option<seq<JsError>>,
                             emitted: seq<JsError>, emitted': seq<JsError>)
  {
    if t.kind !in handlers then
      r == Failure(UndefinedRead("default")) && errors' == errors && emitted' == emitted
    else
      var w := handlers[t.kind];
      Caught(Handled(w.kind, w.fn(Lexing.TokRecord(t)), Lexing.TokRecord(t)), show(Lexing.TokRecord(t)), r,
             listening, errors, errors', emitted, emitted')
  }

  /** What reports leave of a parser's errors and of what its listeners
      were handed: both only grow, an absent error list stays absent, and
      without listeners nothing is handed to them. */
  ghost predicate Extended(listening: bool, errors: Option<seq<JsError>>, errors': Option<seq<JsError>>,
                           emitted: seq<JsError>, emitted': seq<JsError>)
  {
    && (errors.None? ==> errors'.None?)
    && (errors.Some? ==> errors'.Some? && errors.value <= errors'.value)
    && emitted <= emitted' && (!listening ==> emitted' == emitted)
  }

  /** A handler's call extends the errors of the parser it reports to. */
  lemma {:induction false} DispatchedExtends(handlers: map<string, Handlers.Wrapper>, show: Record -> string,
                                             t: Lexing.Tok, r: Result<Option<Node>, JsError>,
                                             listening: bool, errors: Option<seq<JsError>>, errors': Option<seq<JsError>>,
                                             emitted: seq<JsError>, emitted': seq<JsError>)
    requires Dispatched(handlers, show, t, r, listening, errors, errors', emitted, emitted')
    ensures Extended(listening, errors, errors', emitted, emitted')
  {
    if t.kind in handlers {
      var w := handlers[t.kind];
      var h := Handled(w.kind, w.fn(Lexing.TokRecord(t)), Lexing.TokRecord(t));
      if h.Failure? {
        var e := Annotated(h.error, show(Lexing.TokRecord(t)));
        if errors.Some? {
          assert errors.value <= errors.value + [e];
        }
        assert emitted <= emitted + [e];
      }
    }
  }

  /** Extending twice extends. */
  lemma {:induction false} ExtendedTwice(listening: bool, e0: Option<seq<JsError>>, e1: Option<seq<JsError>>,
                                         e2: Option<seq<JsError>>, m0: seq<JsError>, m1: seq<JsError>, m2: seq<JsError>)
    requires Extended(listening, e0, e1, m0, m1) && Extended(listening, e1, e2, m1, m2)
    ensures Extended(listening, e0, e2, m0, m2)
  {
    if e0.Some? {
      assert e0.value == e1.value[..|e0.value|] && e1.value == e2.value[..|e1.value|];
      assert e2.value[..|e1.value|][..|e0.value|] == e2.value[..|e0.value|];
    }
    assert m0 == m1[..|m0|] && m1 == m2[..|m1|];
    assert m2[..|m1|][..|m0|] == m2[..|m0|];
  }

  /** What a parser's reports have left: the root's errors and what the
      "error" listeners were handed. */
  datatype Tally = Tally(errors: Option<seq<JsError>>, emitted: seq<JsError>)

  /** The calls of `next` in the loop of `parse`, on the tokens `ts` in
      order: each ended as `Dispatched` says on its token, from the reports
      left before it (`tallies[i]`) to those after it (`tallies[i + 1]`),
      and only the last may have thrown. */
  ghost predicate Dispatches(handlers: map<string, Handlers.Wrapper>, show: Record -> string, ts: seq<Lexing.Tok>,
                             outs: seq<Result<Option<Node>, JsError>>, listening: bool, tallies: seq<Tally>)
  {
    && |outs| <= |ts| && |tallies| == |outs| + 1
    && (forall i :: 0 <= i < |outs| - 1 ==> outs[i].Success?)
    && (forall i :: 0 <= i < |outs| ==>
          Dispatched(handlers, show, ts[i], outs[i], listening,
                     tallies[i].errors, tallies[i + 1].errors, tallies[i].emitted, tallies[i + 1].emitted))
  }

  /** One more call of `next`, on the next token, after calls that did
      not throw. */
  lemma {:induction false} DispatchesSnoc(handlers: map<string, Handlers.Wrapper>, show: Record -> string,
                                          ts: seq<Lexing.Tok>, outs: seq<Result<Option<Node>, JsError>>, listening: bool,
                                          tallies: seq<Tally>, o: Result<Option<Node>, JsError>, t: Tally)
    requires Dispatches(handlers, show, ts, outs, listening, tallies) && !Stopped(outs) && |outs| < |ts|
    requires Dispatched(handlers, show, ts[|outs|], o, listening,
                        tallies[|outs|].errors, t.errors, tallies[|outs|].emitted, t.emitted)
    ensures Dispatches(handlers, show, ts, outs + [o], listening, tallies + [t])
    ensures MadeNodes(outs + [o]) == MadeNodes(outs) + (if o.Success? && o.value.Some? then [o.value.value] else [])
  {
    var outs', tallies' := outs + [o], tallies + [t];
    assert outs'[..|outs|] == outs;
    forall i | 0 <= i < |outs'|
      ensures Dispatched(handlers, show, ts[i], outs'[i], listening,
                         tallies'[i].errors, tallies'[i + 1].errors, tallies'[i].emitted, tallies'[i + 1].emitted)
    {
      if i < |outs| {
        assert outs'[i] == outs[i] && tallies'[i] == tallies[i] && tallies'[i + 1] == tallies[i + 1];
      }
    }
  }

  /** The calls extend the reports, from the first tally to the last. */
  lemma {:induction false} DispatchesExtend(handlers: map<string, Handlers.Wrapper>, show: Record -> string,
                                            ts: seq<Lexing.Tok>, outs: seq<Result<Option<Node>, JsError>>, listening: bool,
                                            tallies: seq<Tally>)
    requires Dispatches(handlers, show, ts, outs, listening, tallies)
    ensures Extended(listening, tallies[0].errors, tallies[|outs|].errors, tallies[0].emitted, tallies[|outs|].emitted)
  {
    var k := 0;
    while k < |outs|
      invariant k <= |outs|
      invariant Extended(listening, tallies[0].errors, tallies[k].errors, tallies[0].emitted, tallies[k].emitted)
    {
      DispatchedExtends(handlers, show, ts[k], outs[k], listening,
                        tallies[k].errors, tallies[k + 1].errors, tallies[k].emitted, tallies[k + 1].emitted);
      ExtendedTwice(listening, tallies[0].errors, tallies[k].errors, tallies[k + 1].errors,
                    tallies[0].emitted, tallies[k].emitted, tallies[k + 1].emitted);
      k := k + 1;
    }
  }

  /** The loop stopped on a call of `next` that threw. */
  predicate Stopped(outs: seq<Result<Option<Node>, JsError>>) {
    |outs| > 0 && outs[|outs| - 1].Failure?
  }

  /** The nodes the calls `outs` pushed onto the block stack, in order:
      what each returned, when it returned a node. */
  function MadeNodes(outs: seq<Result<Option<Node>, JsError>>): (r: seq<Node>)
    ensures |r| <= |outs|
    ensures forall n :: n in r ==> exists i :: 0 <= i < |outs| && outs[i] == Success(Some(n))
  {
    if outs == [] then []
    else
      var last := outs[|outs| - 1];
      MadeNodes(outs[..|outs| - 1]) + (if last.Success? && last.value.Some? then [last.value.value] else [])
  }

  /** With listeners, a root that records errors and a handler for every
      token's type, no call of `next` throws: a handler's error is recorded
      and handed on, and the root keeps recording. */
  lemma {:induction false} DispatchesSucceed(handlers: map<string, Handlers.Wrapper>, show: Record -> string,
                                             ts: seq<Lexing.Tok>, outs: seq<Result<Option<Node>, JsError>>,
                                             tallies: seq<Tally>)
    requires Dispatches(handlers, show, ts, outs, true, tallies) && tallies[0].errors.Some?
    requires forall i :: 0 <= i < |ts| ==> ts[i].kind in handlers
    ensures !Stopped(outs) && tallies[|outs|].errors.Some?
  {
    var k := 0;
    while k < |outs|
      invariant k <= |outs| && tallies[k].errors.Some?
      invariant forall i :: 0 <= i < k ==> outs[i].Success?
    {
      assert Dispatched(handlers, show, ts[k], outs[k], true,
                        tallies[k].errors, tallies[k + 1].errors, tallies[k].emitted, tallies[k + 1].emitted);
      k := k + 1;
    }
  }

  class Parser {
    /** The `handlers` object and `types` list, shared with the parser a
        re-parse makes. */
    const registry: Handlers.Registry
    const lexer: Lexing.Lexer
    /** `options.type`: the type of the root node. */
    const rootType: string
    /** How a token is displayed under the message of an error a handler
        throws. */
    const show: Record -> string
    /** The parser whose `set` made the wrappers in `registry`, when it is
        not this one: the parser a re-parse makes shares the wrappers of
        the parser it parses for, and what they catch is reported there. */
    const owner: Parser?
    /** The block stack. */
    var stack: seq<Node>
    var bos: Node
    var eos: Node
    var ast: Node
    /** Whether an "error" listener is registered. */
    var listening: bool
    /** The errors handed to the "error" listeners, in order. */
    var emitted: seq<JsError>

    /** The parser a wrapper's `catch` reports to: the one whose `set`
        made it. */
    function Sink(): Parser {
      if owner == null then this else owner
    }

    /** The parser reported to for the handlers is another one, with
        another root, when it is not this one. */
    ghost predicate Routed()
      reads this, owner
    {
      owner == null || (owner != this && owner.ast != ast)
    }

    /** What `init` leaves: the "bos" and "eos" nodes and a root with no
        errors yet, alone on the block stack. */
    ghost predicate Initialised()
      reads this, bos, eos, ast
    {
      && bos.kind == "bos" && bos.value == Some("") && bos.nodes.None?
      && eos.kind == "eos" && eos.value == Some("") && eos.nodes.None?
      && ast.kind == rootType && ast.errors == Some([]) && ast.nodes.None?
      && bos != eos && bos != ast && eos != ast
      && stack == [ast]
    }

    /** `new Parser(options)`: empty handler tables, the lexer reset and
        the parser initialised. */
    constructor (rootType: string, scan: string -> Lexing.Scan, show: Record -> string)
      ensures fresh(registry) && registry.handlers == map[] && registry.types == [] && registry.Valid()
      ensures fresh(lexer) && lexer.scan == scan && lexer.input == "" && lexer.pos == 0
      ensures this.rootType == rootType && this.show == show && owner == null
      ensures fresh(ast) && Initialised() && !listening && emitted == []
    {
      this.rootType := rootType;
      this.show := show;
      owner := null;
      registry := new Handlers.Registry();
      var lex := new Lexing.Lexer(scan);
      lex.Init("");
      lexer := lex;
      var b, e, root := Parts(rootType);
      bos, eos, ast, stack := b, e, root, [root];
      listening := false;
      emitted := [];
    }

    /** The parser a re-parse makes for the parser `p`: a new parser with
        `p`'s options, on `p`'s handler tables, whose wrappers report where
        they report for `p`. */
    constructor Sharing(p: Parser)
      ensures registry == p.registry && rootType == p.rootType && show == p.show && owner == p.Sink()
      ensures fresh(lexer) && lexer.scan == p.lexer.scan && lexer.input == "" && lexer.pos == 0
      ensures fresh(ast) && Initialised() && Routed() && !listening && emitted == []
    {
      registry := p.registry;
      rootType := p.rootType;
      show := p.show;
      owner := p.Sink();
      var lex := new Lexing.Lexer(p.lexer.scan);
      lex.Init("");
      lexer := lex;
      var b, e, root := Parts(p.rootType);
      bos, eos, ast, stack := b, e, root, [root];
      listening := false;
      emitted := [];
    }

    /** The nodes `init` makes. */
    static method Parts(rootType: string) returns (bos: Node, eos: Node, ast: Node)
      ensures fresh(bos) && fresh(eos) && fresh(ast)
      ensures bos.kind == "bos" && bos.value == Some("") && bos.nodes.None?
      ensures eos.kind == "eos" && eos.value == Some("") && eos.nodes.None?
      ensures ast.kind == rootType && ast.errors == Some([]) && ast.nodes.None?
      ensures bos != eos && bos != ast && eos != ast
    {
      bos := FromRecord(Named("bos", Some("")), "bos");
      eos := FromRecord(Named("eos", Some("")), "eos");
      ast := FromRecord(Named(rootType, None), rootType);
      ast.errors := Some([]);
    }

    /** `init()` followed by setting the input, as `parse` does. */
    method Init(input: string)
      modifies this`stack, this`bos, this`eos, this`ast, lexer
      ensures fresh(ast) && fresh(bos) && fresh(eos) && Initialised()
      ensures lexer.input == input && lexer.tokens == lexer.scan(input).tokens
      ensures lexer.failure == lexer.scan(input).failure && lexer.pos == 0 && lexer.stash == []
    {
      lexer.Init(input);
      var b, e, root := Parts(rootType);
      bos, eos, ast, stack := b, e, root, [root];
    }

    /** Registers an "error" listener. */
    method Listen()
      modifies this`listening
      ensures listening
    {
      listening := true;
    }

    /** `error(err)`; the result is what is thrown. */
    method Raise(e: JsError) returns (thrown: Option<JsError>)
      modifies this`emitted, ast`errors
      ensures Reported(e, old(listening), old(ast.errors), ast.errors, old(emitted), emitted, thrown)
    {
      if ast.errors.None? {
        return Some(UndefinedRead("push"));
      }
      ast.errors := Some(ast.errors.value + [e]);
      if listening {
        emitted := emitted + [e];
        thrown := None;
      } else {
        thrown := Some(e);
      }
    }

    /** `set(type, fn)`: the handler wrapped for the type replaces any
        earlier one, and the type is listed once. */
    method Set(t: string, arg: Handlers.HandlerArg)
      modifies registry
      ensures registry.handlers == old(registry.handlers)[t := Handlers.Wrap(t, arg)]
      ensures registry.types == Handlers.Added(old(registry.types), t)
      ensures old(registry.Valid()) ==> registry.Valid()
    {
      registry.Put(t, Handlers.Wrap(t, arg));
    }

    /** A wrapped handler called on a token. An error it catches gets the
        token's display appended and is reported to the parser that
        registered the handler; when that report throws, the caught error
        is thrown instead. */
    method Call(w: Handlers.Wrapper, tok: Record) returns (r: Result<Option<Node>, JsError>)
      modifies Sink()`emitted, Sink().ast`errors
      ensures var s := Sink();
        Caught(Handled(w.kind, w.fn(tok), tok), s.show(tok), r,
               old(s.listening), old(s.ast.errors), s.ast.errors, old(s.emitted), s.emitted)
      ensures r.Success? && r.value.Some? ==>
        fresh(r.value.value) && r.value.value.nodes.None? && r.value.value.parent == null
    {
      var h := Handled(w.kind, w.fn(tok), tok);
      if h.Success? {
        if h.value.None? {
          return Success(None);
        }
        var n := FromRecord(h.value.value, h.value.value.kind.value);
        return Success(Some(n));
      }
      var sink := Sink();
      var e := Annotated(h.error, sink.show(tok));
      var thrown := sink.Raise(e);
      r := if thrown.Some? then Failure(e) else Success(None);
    }

    /** `push(block)` on the block stack: a missing block is not pushed. */
    method Push(block: Option<Node>) returns (r: Option<Node>)
      modifies this`stack
      ensures r == block && stack == StackPushed(old(stack), block)
    {
      if block.None? {
        return None;
      }
      stack := stack + [block.value];
      r := block;
    }

    /** `pop()` on the block stack. */
    method Pop() returns (r: Option<Node>)
      modifies this`stack
      ensures StackPop(r, stack) == StackPopped(old(stack))
    {
      if stack == [] {
        return None;
      }
      r := Some(stack[|stack| - 1]);
      stack := stack[..|stack| - 1];
    }

    /** `allocate(node)`: the node is appended to the current block; a block
        it opens that its last child does not close is pushed, else a
        closing node pops; either way the node comes back. Anything else
        gives nothing. The open test runs first. */
    method Allocate(x: Option<Node>) returns (r: Result<Option<Node>, JsError>)
      modifies this`stack, (if stack != [] then {stack[|stack| - 1]} else {}), if x.Some? then {x.value} else {}
      ensures x.None? ==> r == Success(None) && stack == old(stack)
      ensures x.Some? && old(stack) == [] ==> r == Failure(UndefinedRead("push")) && stack == old(stack)
      ensures x.Some? && old(stack) != [] ==>
        var n := x.value;
        var block := old(stack)[|old(stack)| - 1];
        && n.parent == block
        && block.nodes == Some(old(block.nodes).GetOr([]) + [n])
        && (IsOpenBlock(n).Failure? ==> r == Failure(IsOpenBlock(n).error) && stack == old(stack))
        && (IsOpenBlock(n) == Success(true) ==> r == Success(Some(n)) && stack == old(stack) + [n])
        && (IsOpenBlock(n) == Success(false) && BlockTypes.IsDotClose(n.kind) ==>
              r == Success(Some(n)) && stack == old(stack)[..|old(stack)| - 1])
        && (IsOpenBlock(n) == Success(false) && !BlockTypes.IsDotClose(n.kind) ==>
              r == Success(None) && stack == old(stack))
    {
      if x.None? {
        return Success(None);
      }
      if stack == [] {
        return Failure(UndefinedRead("push"));
      }
      var n := x.value;
      var block := stack[|stack| - 1];
      var _ := block.Push(n);
      var open := IsOpenBlock(n);
      if open.Failure? {
        return Failure(open.error);
      }
      if open.value {
        var _ := Push(Some(n));
        return Success(Some(n));
      }
      if BlockTypes.IsDotClose(n.kind) {
        var _ := Pop();
        return Success(Some(n));
      }
      r := Success(None);
    }

    /** `next()`: takes the next token, hands it back to the lexer, and
        pushes whatever its handler returns. At the end there is no token
        to read the type of; an error the lexer throws leaves every parser
        as it was. */
    method Next() returns (r: Result<Option<Node>, JsError>)
      requires Routed()
      modifies this`stack, Sink()`emitted, Sink().ast`errors, lexer
      ensures lexer.input == old(lexer.input) && lexer.tokens == old(lexer.tokens) && lexer.failure == old(lexer.failure)
      ensures lexer.pos == if old(lexer.pos) < |lexer.tokens| then old(lexer.pos) + 1 else old(lexer.pos)
      ensures !old(lexer.Eos()) ==> r.Failure? || lexer.Remaining() < old(lexer.Remaining())
      ensures old(lexer.Peek()).Failure? ==> r == Failure(old(lexer.Peek()).error)
      ensures old(lexer.Peek()) == Success(None) ==> r == Failure(UndefinedRead("type"))
      ensures old(lexer.Peek()).Success? && old(lexer.Peek()).value.Some? ==>
        var s := Sink();
        && lexer.stash == old(lexer.stash) + [old(lexer.Peek()).value.value]
        && Dispatched(registry.handlers, s.show, old(lexer.Peek()).value.value, r,
                      old(s.listening), old(s.ast.errors), s.ast.errors, old(s.emitted), s.emitted)
      ensures !(old(lexer.Peek()).Success? && old(lexer.Peek()).value.Some?) ==>
        Sink().emitted == old(Sink().emitted) && Sink().ast.errors == old(Sink().ast.errors)
      ensures owner != null ==> emitted == old(emitted) && ast.errors == old(ast.errors)
      ensures r.Success? ==> stack == StackPushed(old(stack), r.value)
      ensures r.Failure? ==> stack == old(stack)
      ensures r.Success? && r.value.Some? ==> fresh(r.value.value) && r.value.value.kind != ""
    {
      var next := lexer.Next();
      if next.Failure? {
        return Failure(next.error);
      }
      if next.value.None? {
        return Failure(UndefinedRead("type"));
      }
      var t := next.value.value;
      lexer.Push(t);
      r := Dispatch(t);
    }

    /** The rest of `next()` once the token is taken: its handler is found
        and called, and what it returns is pushed. */
    method Dispatch(t: Lexing.Tok) returns (r: Result<Option<Node>, JsError>)
      requires Routed()
      modifies this`stack, Sink()`emitted, Sink().ast`errors
      ensures var s := Sink();
        Dispatched(registry.handlers, s.show, t, r, old(s.listening), old(s.ast.errors), s.ast.errors, old(s.emitted), s.emitted)
      ensures owner != null ==> emitted == old(emitted) && ast.errors == old(ast.errors)
      ensures r.Success? ==> stack == StackPushed(old(stack), r.value)
      ensures r.Failure? ==> stack == old(stack)
      ensures r.Success? && r.value.Some? ==> fresh(r.value.value) && r.value.value.kind != ""
    {
      var handler := Get(registry.handlers, t.kind);
      if handler.Failure? {
        return Failure(handler.error);
      }
      var made := Call(handler.value, Lexing.TokRecord(t));
      if made.Failure? {
        return Failure(made.error);
      }
      var pushed := Push(made.value);
      r := Success(pushed);
    }

    /** `fail()`: pops the block stack; a block left open other than a
        "root" is reported as unclosed. An empty stack pops nothing, whose
        type is read. */
    method Fail() returns (thrown: Option<JsError>)
      modifies this`stack, this`emitted, ast`errors
      ensures old(stack) == [] ==>
        thrown == Some(UndefinedRead("type")) && stack == [] &&
        emitted == old(emitted) && ast.errors == old(ast.errors)
      ensures old(stack) != [] ==> stack == old(stack)[..|old(stack)| - 1]
      ensures old(stack) != [] && old(stack)[|old(stack)| - 1].kind == "root" ==>
        thrown.None? && emitted == old(emitted) && ast.errors == old(ast.errors)
      ensures old(stack) != [] && old(stack)[|old(stack)| - 1].kind != "root" ==>
        Reported(SyntaxError("unclosed: \"" + old(stack)[|old(stack)| - 1].kind + "\""), old(listening),
                 old(ast.errors), ast.errors, old(emitted), emitted, thrown)
    {
      var node := Pop();
      if node.None? {
        return Some(UndefinedRead("type"));
      }
      if node.value.kind != "root" {
        thrown := Raise(SyntaxError("unclosed: \"" + node.value.kind + "\""));
      } else {
        thrown := None;
      }
    }

    /** `parse(input)` on a parser whose lexer has no input: a string input
        and at least one registered type are required, and each refusal is
        reported. The parser is initialised on the input; its "bos" node,
        whatever each token's handler returns and its "eos" node are pushed
        in turn. So `fail` always pops the "eos" node and reports it as
        unclosed: the root comes back only to a parser with listeners, with
        that report last among its errors. */
    method ParseHere(input: Value) returns (r: Result<Option<Node>, JsError>, ghost outs: seq<Result<Option<Node>, JsError>>,
                                            ghost tallies: seq<Tally>)
      requires Routed()
      modifies this, lexer, ast`errors, Sink()`emitted, Sink().ast`errors
      ensures listening == old(listening)
      ensures owner != null ==>
        Extended(old(owner.listening), old(owner.ast.errors), owner.ast.errors, old(owner.emitted), owner.emitted)
      ensures !input.Str? ==>
        && ast == old(ast) && (r.Success? ==> r.value.None?)
        && Reported(TypeError("expected input to be a string"), old(listening),
                    old(ast.errors), ast.errors, old(emitted), emitted, Thrown(r))
      ensures input.Str? && registry.types == [] ==>
        && ast == old(ast) && (r.Success? ==> r.value.None?)
        && Reported(Error("no parser handlers are registered"), old(listening),
                    old(ast.errors), ast.errors, old(emitted), emitted, Thrown(r))
      ensures input.Str? && registry.types != [] ==>
        && fresh(ast) && lexer.input == input.s
        && lexer.tokens == lexer.scan(input.s).tokens && lexer.failure == lexer.scan(input.s).failure
        && Ended(r, outs, tallies,
                 if owner == null then Tally(Some([]), old(emitted)) else old(Tally(owner.ast.errors, owner.emitted)),
                 old(emitted))
      ensures input.Str? && registry.types != [] && listening && lexer.failure.None? &&
              (owner == null || old(owner.listening && owner.ast.errors.Some?)) &&
              (forall i :: 0 <= i < |lexer.tokens| ==> lexer.tokens[i].kind in registry.handlers) ==>
        r == Success(Some(ast))
      ensures input.Str? && registry.types != [] && r.Success? ==>
        && r == Success(Some(ast)) && lexer.Eos() && listening
        && ast.errors.Some? && ast.errors.value != []
        && ast.errors.value[|ast.errors.value| - 1] == SyntaxError("unclosed: \"eos\"")
      ensures !old(listening) ==> r.Failure? && emitted == old(emitted)
    {
      if !input.Str? {
        var thrown := Raise(TypeError("expected input to be a string"));
        return if thrown.Some? then Failure(thrown.value) else Success(None), [], [];
      }
      if registry.types == [] {
        var thrown := Raise(Error("no parser handlers are registered"));
        return if thrown.Some? then Failure(thrown.value) else Success(None), [], [];
      }
      r, outs, tallies := Run(input.s);
    }

    /** How the run of `parse` ends after the calls `outs` of `next`, the
        reports standing at `start` before them (and this parser's
        listeners handed `emitted0` when it reports elsewhere): the run
        throws what the call that stopped the loop threw, else the lexer's
        error; otherwise every token was taken, and `fail` reports the
        "eos" node on top as unclosed. Either way the block stack holds
        the root, "bos" and the nodes made, in order. */
    ghost predicate Ended(r: Result<Option<Node>, JsError>, outs: seq<Result<Option<Node>, JsError>>,
                          tallies: seq<Tally>, start: Tally, emitted0: seq<JsError>)
      reads this, lexer, ast, Sink(), Sink().ast, registry
    {
      var s := Sink();
      && Dispatches(registry.handlers, s.show, lexer.tokens, outs, s.listening, tallies) && tallies[0] == start
      && stack == [ast, bos] + MadeNodes(outs)
      && if Stopped(outs) || lexer.failure.Some? then
           && Tally(s.ast.errors, s.emitted) == tallies[|outs|]
           && r == Failure(if Stopped(outs) then outs[|outs| - 1].error else lexer.failure.value)
         else
           var mid := if owner == null then tallies[|outs|] else Tally(Some([]), emitted0);
           && |outs| == |lexer.tokens|
           && (owner != null ==> Tally(owner.ast.errors, owner.emitted) == tallies[|outs|])
           && Reported(SyntaxError("unclosed: \"eos\""), listening, mid.errors, ast.errors, mid.emitted, emitted, Thrown(r))
           && (r.Success? ==> r == Success(Some(ast)))
    }

    /** The run of `parse` on a string: initialised on it, the parser
        pushes its "bos" node, then each call of `next` its node, then its
        "eos" node, and `fail` pops the "eos" node again. With listeners,
        a root recording the errors handlers throw and a handler for every
        token's type, it returns the root. */
    method Run(input: string) returns (r: Result<Option<Node>, JsError>, ghost outs: seq<Result<Option<Node>, JsError>>,
                                       ghost tallies: seq<Tally>)
      requires Routed()
      modifies this, lexer, Sink()`emitted, Sink().ast`errors
      ensures fresh(ast) && lexer.input == input && listening == old(listening)
      ensures lexer.tokens == lexer.scan(input).tokens && lexer.failure == lexer.scan(input).failure
      ensures owner != null ==>
        Extended(old(owner.listening), old(owner.ast.errors), owner.ast.errors, old(owner.emitted), owner.emitted)
      ensures Ended(r, outs, tallies,
                    if owner == null then Tally(Some([]), old(emitted)) else old(Tally(owner.ast.errors, owner.emitted)),
                    old(emitted))
      ensures listening && lexer.failure.None? && (owner == null || old(owner.listening && owner.ast.errors.Some?)) &&
              (forall i :: 0 <= i < |lexer.tokens| ==> lexer.tokens[i].kind in registry.handlers) ==>
        r == Success(Some(ast))
      ensures r.Success? ==>
        && r == Success(Some(ast)) && lexer.Eos() && listening
        && ast.errors.Some? && ast.errors.value != []
        && ast.errors.value[|ast.errors.value| - 1] == SyntaxError("unclosed: \"eos\"")
      ensures !old(listening) ==> r.Failure? && emitted == old(emitted)
    {
      Init(input);
      var _ := Push(Some(bos));
      var thrown;
      thrown, outs, tallies := Drain();
      assert lexer.tokens[0..] == lexer.tokens;
      if thrown.Some? {
        return Failure(thrown.value), outs, tallies;
      }
      ghost var mid := Tally(ast.errors, emitted);
      assert mid == if owner == null then tallies[|outs|] else Tally(Some([]), old(emitted));
      r := Close();
      if listening && lexer.failure.None? && (owner == null || old(owner.listening && owner.ast.errors.Some?)) &&
         (forall i :: 0 <= i < |lexer.tokens| ==> lexer.tokens[i].kind in registry.handlers) {
        DispatchesSucceed(registry.handlers, Sink().show, lexer.tokens, outs, tallies);
      }
    }

    /** The end of `parse`: the "eos" node is pushed, `fail` pops it again
        and reports it as unclosed, and the root comes back unless that
        report throws. */
    method Close() returns (r: Result<Option<Node>, JsError>)
      requires eos.kind == "eos"
      modifies this`stack, this`emitted, ast`errors
      ensures stack == old(stack)
      ensures Reported(SyntaxError("unclosed: \"eos\""), listening, old(ast.errors), ast.errors, old(emitted), emitted, Thrown(r))
      ensures r.Success? ==> r == Success(Some(ast))
    {
      var _ := Push(Some(eos));
      assert stack[..|stack| - 1] == old(stack);
      assert "unclosed: \"" + eos.kind + "\"" == "unclosed: \"eos\"";
      var thrown := Fail();
      r := if thrown.Some? then Failure(thrown.value) else Success(Some(ast));
    }

    /** The loop of `parse`: `next` until the lexer is at its end, or until
        it throws. The calls `outs` went as `Dispatches` says, on the
        tokens from where the lexer stood; the loop ends on the first that
        throws, else once every token is taken, with the lexer's own error
        when some input matched no rule. Their nodes are pushed on the
        block stack, in order. */
    method Drain() returns (thrown: Option<JsError>, ghost outs: seq<Result<Option<Node>, JsError>>,
                            ghost tallies: seq<Tally>)
      requires Routed() && lexer.pos <= |lexer.tokens|
      modifies this`stack, Sink()`emitted, Sink().ast`errors, lexer
      ensures lexer.input == old(lexer.input) && lexer.tokens == old(lexer.tokens) && lexer.failure == old(lexer.failure)
      ensures var s := Sink();
        && Dispatches(registry.handlers, s.show, lexer.tokens[old(lexer.pos)..], outs, s.listening, tallies)
        && tallies[0] == old(Tally(s.ast.errors, s.emitted)) && tallies[|outs|] == Tally(s.ast.errors, s.emitted)
      ensures stack == old(stack) + MadeNodes(outs)
      ensures if Stopped(outs) then thrown == Some(outs[|outs| - 1].error)
              else |outs| == |lexer.tokens| - old(lexer.pos) && thrown == lexer.failure
      ensures thrown.None? ==> lexer.Eos()
      ensures var s := Sink();
        Extended(old(s.listening), old(s.ast.errors), s.ast.errors, old(s.emitted), s.emitted)
      ensures owner != null ==> emitted == old(emitted) && ast.errors == old(ast.errors)
    {
      var s := Sink();
      ghost var ts := lexer.tokens[lexer.pos..];
      ghost var p0 := lexer.pos;
      outs, tallies := [], [Tally(s.ast.errors, s.emitted)];
      while !lexer.Eos()
        invariant lexer.input == old(lexer.input) && lexer.tokens == old(lexer.tokens) && lexer.failure == old(lexer.failure)
        invariant lexer.pos == p0 + |outs| <= |lexer.tokens| && ts == lexer.tokens[p0..]
        invariant Dispatches(registry.handlers, s.show, ts, outs, s.listening, tallies) && !Stopped(outs)
        invariant tallies[0] == old(Tally(s.ast.errors, s.emitted)) && tallies[|outs|] == Tally(s.ast.errors, s.emitted)
        invariant stack == old(stack) + MadeNodes(outs)
        invariant owner != null ==> emitted == old(emitted) && ast.errors == old(ast.errors)
        decreases lexer.Remaining()
      {
        ghost var before := Tally(s.ast.errors, s.emitted);
        ghost var stack0 := stack;
        ghost var peek := lexer.Peek();
        var next := Next();
        if peek.Success? {
          ghost var t := peek.value.value;
          assert t == ts[|outs|];
          ghost var after := Tally(s.ast.errors, s.emitted);
          DispatchesSnoc(registry.handlers, s.show, ts, outs, s.listening, tallies, next, after);
          outs, tallies := outs + [next], tallies + [after];
        }
        if next.Failure? {
          DispatchesExtend(registry.handlers, s.show, ts, outs, s.listening, tallies);
          return Some(next.error), outs, tallies;
        }
      }
      DispatchesExtend(registry.handlers, s.show, ts, outs, s.listening, tallies);
      thrown := None;
    }

    /** `parse(input)`. A parser whose lexer still holds an input hands the
        parse to a new parser on the same handler tables; that parser has no
        listeners, so the parse fails. This parser keeps its state; only the
        errors the shared handlers catch are reported, where they report. */
    method Parse(input: Value) returns (r: Result<Option<Node>, JsError>, ghost outs: seq<Result<Option<Node>, JsError>>,
                                        ghost tallies: seq<Tally>)
      requires Routed()
      modifies this, lexer, ast`errors, Sink()`emitted, Sink().ast`errors
      ensures old(lexer.input) != "" ==>
        && r.Failure? && unchanged(lexer) && unchanged(this`stack, this`bos, this`eos, this`ast, this`listening)
        && var s := Sink();
           Extended(old(s.listening), old(s.ast.errors), s.ast.errors, old(s.emitted), s.emitted)
      ensures old(lexer.input) != "" && owner != null ==> emitted == old(emitted) && ast.errors == old(ast.errors)
      ensures !old(listening) && owner == null ==> r.Failure? && emitted == old(emitted)
      ensures r.Success? && r.value.Some? ==>
        && r.value.value == ast && lexer.Eos() && ast.errors.Some? && ast.errors.value != []
        && ast.errors.value[|ast.errors.value| - 1] == SyntaxError("unclosed: \"eos\"")
      ensures old(lexer.input) == "" && input.Str? && registry.types != [] ==>
        && fresh(ast) && lexer.input == input.s
        && Ended(r, outs, tallies,
                 if owner == null then Tally(Some([]), old(emitted)) else old(Tally(owner.ast.errors, owner.emitted)),
                 old(emitted))
    {
      if lexer.input != "" {
        var parser := new Parser.Sharing(this);
        ghost var theirs, reports;
        r, theirs, reports := parser.ParseHere(input);
        outs, tallies := [], [];
        return;
      }
      r, outs, tallies := ParseHere(input);
    }
  }
}

/** backup.js: the parser that keeps a `State` of open blocks and a
    `Scopes` object (both lib/state.js), a Map of handlers with a Set of
    their types, and a lexer. Parsing pushes the "bos" node, the result of
    each token's handler, then the "eos" node, and finally checks that the
    block left open is the root.

    `push` appends every node to the current block; before that, a node
    whose first child opens a block is pushed onto the state as a block of
    its own, and a node that closes the current block pops it. */
module BackupParser {
  import opened Base
  import opened Nodes
  import BlockTypes
  import Handlers
  import Lexing
  import LibState

  /** `isBlock(node)`: the node's children are an array with a node in it. */
  predicate IsBlock(n: Node)
    reads n`nodes
    ensures IsBlock(n) <==> n.nodes.Some? && exists c :: c in n.nodes.value
  {
    assert n.nodes.Some? && n.nodes.value != [] ==> n.nodes.value[0] in n.nodes.value;
    n.nodes.Some? && n.nodes.value != []
  }

  /** `isBlockOpen(node, prev)`: the current block's own `isOpen` predicate
      decides first, then the node's own `isOpen` (asked only of a node
      without children), then the name: at least five characters ending in
      "open". A missing current block is read from. */
  function IsBlockOpen(child: Node, prev: Option<Node>): (r: Result<bool, JsError>)
    reads child`nodes
    ensures prev.None? <==> r.Failure?
    ensures r.Failure? ==> r.error == UndefinedRead("isOpen")
    ensures prev.Some? && prev.value.isOpen.None? && child.isOpen.None? ==>
      r == Success(BlockTypes.IsSuffixOpen(child.kind))
    ensures prev.Some? && prev.value.isOpen.Some? && prev.value.isOpen.value(Some(child.kind)) ==> r == Success(true)
    ensures r == Success(false) ==> !BlockTypes.IsSuffixOpen(child.kind)
  {
    BlockOpens(child, child.nodes.None?, prev)
  }

  /** `isBlockOpen` on what it reads of the child's children: only whether
      it has none (`leaf`). */
  function BlockOpens(child: Node, leaf: bool, prev: Option<Node>): Result<bool, JsError> {
    if prev.None? then Failure(UndefinedRead("isOpen"))
    else if prev.value.isOpen.Some? && prev.value.isOpen.value(Some(child.kind)) then Success(true)
    else if child.isOpen.Some? && leaf && child.isOpen.value(None) then Success(true)
    else Success(BlockTypes.IsSuffixOpen(child.kind))
  }

  /** `isBlockClose(node, prev)`: as `isBlockOpen`, with the `isClose`
      predicates and names of at least six characters ending in "close". */
  function IsBlockClose(child: Node, prev: Option<Node>): (r: Result<bool, JsError>)
    reads child`nodes
    ensures prev.None? <==> r.Failure?
    ensures r.Failure? ==> r.error == UndefinedRead("isClose")
    ensures prev.Some? && prev.value.isClose.None? && child.isClose.None? ==>
      r == Success(BlockTypes.IsSuffixClose(child.kind))
    ensures prev.Some? && prev.value.isClose.Some? && prev.value.isClose.value(Some(child.kind)) ==> r == Success(true)
    ensures r == Success(false) ==> !BlockTypes.IsSuffixClose(child.kind)
  {
    if prev.None? then Failure(UndefinedRead("isClose"))
    else if prev.value.isClose.Some? && prev.value.isClose.value(Some(child.kind)) then Success(true)
    else if child.isClose.Some? && child.nodes.None? && child.isClose.value(None) then Success(true)
    else Success(BlockTypes.IsSuffixClose(child.kind))
  }

  /** `isClose(node, parent)`: the parent's own `isClose` predicate decides
      when it has one; otherwise the node closes the parent when its type is
      the parent's dot-free type followed by ".close", alone or followed by
      a further dot-piece. */
  function IsClose(n: Node, parent: Node): (r: bool)
    ensures parent.isClose.Some? ==> r == parent.isClose.value(Some(n.kind))
    ensures parent.isClose.None? ==> (r <==>
      '.' !in parent.kind &&
      (n.kind == parent.kind + ".close" ||
       (|n.kind| >= |parent.kind| + 7 && n.kind[..|parent.kind| + 7] == parent.kind + ".close.")))
  {
    BlockTypes.DefaultCloseShape(n.kind, parent.kind);
    if parent.isClose.Some? then parent.isClose.value(Some(n.kind))
    else BlockTypes.IsDefaultClose(n.kind, parent.kind)
  }

  /** `isClosedBlock(node)`: a block whose last child closes it, the block
      itself being the `prev` its `isBlockClose` consults. */
  predicate IsClosedBlock(n: Node)
    reads n`nodes, (if n.nodes.Some? && n.nodes.value != [] then {n.nodes.value[|n.nodes.value| - 1]} else {})`nodes
  {
    IsBlock(n) && IsBlockClose(n.nodes.value[|n.nodes.value| - 1], Some(n)) == Success(true)
  }

  /** `isOpenBlock(node)`: a block whose last child does not close it. */
  predicate IsOpenBlock(n: Node)
    reads n`nodes, (if n.nodes.Some? && n.nodes.value != [] then {n.nodes.value[|n.nodes.value| - 1]} else {})`nodes
  {
    IsBlock(n) && IsBlockClose(n.nodes.value[|n.nodes.value| - 1], Some(n)) != Success(true)
  }

  /** Every block is exactly one of open and closed; without predicates of
      its own, or on its last child, a block is closed exactly when its last
      child's name ends in "close". */
  lemma {:induction false} OpenOrClosed(n: Node)
    ensures IsBlock(n) <==> IsOpenBlock(n) || IsClosedBlock(n)
    ensures !(IsOpenBlock(n) && IsClosedBlock(n))
    ensures IsBlock(n) && n.isClose.None? && n.nodes.value[|n.nodes.value| - 1].isClose.None? ==>
      (IsClosedBlock(n) <==> BlockTypes.IsSuffixClose(n.nodes.value[|n.nodes.value| - 1].kind))
  {
  }

  /** Whether `push` opens a block with `n` while `prev` is current: `n` is
      a block whose first child opens. */
  predicate Opens(n: Node, prev: Node)
    reads n`nodes, (if n.nodes.Some? && n.nodes.value != [] then {n.nodes.value[0]} else {})`nodes
  {
    OpensOn(ShapeOf(n), prev)
  }

  /** What `push` reads of a node besides its constant parts: its
      children, and whether the first of them has none of its own. */
  datatype Shape = Shape(nodes: Option<seq<Node>>, firstLeaf: bool)

  function ShapeOf(n: Node): (r: Shape)
    reads n`nodes, (if n.nodes.Some? && n.nodes.value != [] then {n.nodes.value[0]} else {})`nodes
  {
    Shape(n.nodes, n.nodes.Some? && n.nodes.value != [] && n.nodes.value[0].nodes.None?)
  }

  /** `Opens` on a node of shape `sh`. */
  predicate OpensOn(sh: Shape, prev: Node) {
    sh.nodes.Some? && sh.nodes.value != [] && BlockOpens(sh.nodes.value[0], sh.firstLeaf, Some(prev)) == Success(true)
  }

  /** Whether `sh` is what `push` reads of a node made of `rec`: children
      exactly when the record has an array of them, as many, the first made
      of the record's first child, and that one a leaf exactly when the
      record's first child has no array. */
  ghost predicate Fits(sh: Shape, rec: Record) {
    && (sh.nodes.Some? <==> rec.nodes.Array?)
    && (rec.nodes.Array? ==>
          |sh.nodes.value| == |rec.nodes.items| &&
          (rec.nodes.items != [] ==> Shows(sh.nodes.value[0], rec.nodes.items[0])))
    && (sh.firstLeaf <==> rec.nodes.Array? && rec.nodes.items != [] && rec.nodes.items[0].nodes.NoArray?)
  }

  /** What `push` does to the state once it knows whether the node opens a
      block and whether it closes the block that was current: the node goes
      onto the state when it opens one, then the state's top comes off when
      it closes. The result is that of the pop, or nothing. */
  function Moved(s: LibState.Snap, n: Node, opens: bool, closes: bool): (r: LibState.PopStep)
    ensures !closes ==> r.result == Success(None)
    ensures !opens && !closes ==> r.after == s
    ensures opens && !closes ==> r.after == LibState.Pushed(s, n)
    ensures forall m :: m in r.after.stack ==> m in s.stack || m == n
    ensures r.after.stack == if opens == closes then s.stack
                             else if opens then s.stack + [n]
                             else if s.stack == [] then [] else s.stack[..|s.stack| - 1]
  {
    var pushed := if opens then LibState.Pushed(s, n) else s;
    if closes then LibState.Popped(pushed, "state") else LibState.PopStep(Success(None), pushed)
  }

  /** How the state part of `push` ends: the state it leaves, what it
      throws, and the errors handed to the listeners. */
  datatype Moving = Moving(after: LibState.Snap, thrown: Option<JsError>, emitted: seq<JsError>)

  /** The state part of `push` with its error handling: a failed pop is
      thrown on; a node that opens a block and then closes the block on
      top, which is itself, without closing its own type is reported as a
      mismatch, to the listeners when there are any. */
  function Moves(s: LibState.Snap, n: Node, opens: bool, closes: bool, listening: bool, emitted: seq<JsError>): (r: Moving)
    ensures r.after == Moved(s, n, opens, closes).after
    ensures Moved(s, n, opens, closes).result.Failure? ==>
      r.thrown == Some(Moved(s, n, opens, closes).result.error) && r.emitted == emitted
    ensures !(opens && closes && !IsClose(n, n)) && Moved(s, n, opens, closes).result.Success? ==>
      r.thrown.None? && r.emitted == emitted
    ensures opens && closes && !IsClose(n, n) && Moved(s, n, opens, closes).result.Success? ==>
      var e := Error("expected \"" + n.kind + ".close\" node, received: \"" + n.kind + "\"");
      if listening then r.thrown.None? && r.emitted == emitted + [e]
      else r.thrown == Some(e) && r.emitted == emitted
  {
    var m := Moved(s, n, opens, closes);
    var e := Error("expected \"" + n.kind + ".close\" node, received: \"" + n.kind + "\"");
    if m.result.Failure? then Moving(m.after, Some(m.result.error), emitted)
    else if !(opens && closes && !IsClose(n, n)) then Moving(m.after, None, emitted)
    else if listening then Moving(m.after, None, emitted + [e])
    else Moving(m.after, Some(e), emitted)
  }

  /** While the state's bookkeeping is exact, the move never fails: a node
      that opens a block stays on the state, one that closes the current
      block takes it off, and one that does both is pushed and popped again
      at once, so the block it meant to close stays open. The bookkeeping
      stays exact. */
  lemma {:induction false} MovedTracks(s: LibState.Snap, n: Node, opens: bool, closes: bool)
    requires LibState.Tracks(s) && s.stack != []
    requires opens ==> n.kind != "eos"
    ensures var m := Moved(s, n, opens, closes);
      LibState.Tracks(m.after) &&
      (closes ==> m.result == Success(Some(if opens then n else s.stack[|s.stack| - 1]))) &&
      m.after.stack == (if opens && !closes then s.stack + [n]
                        else if !opens && closes then s.stack[..|s.stack| - 1]
                        else s.stack)
  {
    if opens {
      LibState.PushTracks(s, n);
      if closes {
        LibState.PopTracks(LibState.Pushed(s, n), "state");
        assert (s.stack + [n])[..|s.stack|] == s.stack;
      }
    } else if closes {
      LibState.PopTracks(s, "state");
    }
  }

  /** What `push` reads before it changes anything: the state, the scope
      stack, the children of the current scope and of the current block,
      whether there are listeners, and the errors handed to them so far. */
  datatype Before = Before(s: LibState.Snap, scopes: seq<Node>, scopeNodes: Option<seq<Node>>,
                           prevNodes: Option<seq<Node>>, listening: bool, emitted: seq<JsError>)

  /** What `push(n)` does to the state and the errors, given what it read
      first: without a scope, or without a current block, it throws (the
      property it reads depending on the node); otherwise the state moves as
      `Moves` says, and a node marked `skip` leaves it as it is. */
  function Landing(n: Node, sh: Shape, b: Before): (r: Moving)
    ensures r.thrown.None? ==> b.scopes != [] && b.s.stack != []
    ensures b.scopes == [] || b.s.stack == [] ==> r.after == b.s && r.emitted == b.emitted && r.thrown.Some?
    ensures b.scopes == [] ==> r.thrown == Some(UndefinedRead("push"))
    ensures n.skip && b.scopes != [] && b.s.stack != [] ==> r == Moving(b.s, None, b.emitted)
  {
    if b.scopes == [] then Moving(b.s, Some(UndefinedRead("push")), b.emitted)
    else if b.s.stack == [] then
      Moving(b.s, Some(if n.skip then UndefinedRead("push")
                       else if sh.nodes.Some? && sh.nodes.value != [] then UndefinedRead("isOpen")
                       else UndefinedRead("nodes")), b.emitted)
    else
      var prev := b.s.stack[|b.s.stack| - 1];
      var closes := b.prevNodes.Some? && b.prevNodes.value != [] && IsClose(n, prev);
      Moves(b.s, n, !n.skip && OpensOn(sh, prev), !n.skip && closes, b.listening, b.emitted)
  }

  /** The value a token's handler is given: a token from the lexer, or one
      of the parser's own "bos" and "eos" nodes. */
  datatype Token = Lexed(tok: Lexing.Tok) | Own(node: Node)

  /** The token as the handler sees it. */
  function Shown(t: Token): Record {
    match t
    case Lexed(tok) => Lexing.TokRecord(tok)
    case Own(n) => RecordOf(n)
  }

  /** How `error(e)` ends for its caller: with listeners, nothing is thrown
      and `e` goes to them; without, `e` is thrown. */
  predicate Routed<T>(r: Result<Option<T>, JsError>, e: JsError, listening: bool, before: seq<JsError>, after: seq<JsError>) {
    if listening then r == Success(None) && after == before + [e]
    else r == Failure(e) && after == before
  }

  /** Going down through last children from `n`, at most `k` times, to a
      node without children. */
  function Deepest(n: Node, k: nat): (r: Node)
    reads *
    requires DescentEnds(n, k)
    ensures r.nodes.None? || r.nodes.value == []
    ensures n.nodes.None? || n.nodes.value == [] ==> r == n
    decreases k
  {
    if n.nodes.None? || n.nodes.value == [] then n
    else Deepest(n.nodes.value[|n.nodes.value| - 1], k - 1)
  }

  /** An error caught by `next`, renamed as the parser's. */
  function Renamed(e: JsError): (r: JsError)
    ensures r.name == "ParserError" && r.message == e.message && r.code == e.code
  {
    e.(name := "ParserError")
  }

  /** A plain object that `push` turns into a node: one with a non-empty
      `type`. */
  predicate Typed(v: Value) {
    v.Obj? && v.rec.kind.Some? && v.rec.kind.value != ""
  }

  /** What a wrapper makes of a token when its handler does not throw: the
      token itself, or the plain object the handler returns, given the
      wrapper's type where it has none; any other value makes nothing. */
  function Made(w: Handlers.Wrapper, tok: Record): (r: Option<Record>)
    ensures r.Some? <==> w.fn(tok).Same? || (w.fn(tok).Returned? && w.fn(tok).v.Obj?)
    ensures r.Some? ==> r.value.kind.Some? && (r.value.kind.value == "" ==> w.kind == "")
    ensures w.fn(tok).Same? ==> r.value.value == tok.value && r.value.skip == tok.skip
    ensures w.fn(tok).Returned? && w.fn(tok).v.Obj? ==>
      r.value.value == w.fn(tok).v.rec.value && r.value.skip == w.fn(tok).v.rec.skip
  {
    match w.fn(tok)
    case Same => Some(Handlers.Stamped(tok, w.kind))
    case Returned(v) => if v.Obj? then Some(Handlers.Stamped(v.rec, w.kind)) else None
    case Threw(_) => None
  }

  /** Whether `o` is the node made of `p`, and nothing when `p` is. */
  ghost predicate Yields(o: Option<Node>, p: Option<Record>) {
    o.Some? == p.Some? && (o.Some? ==> Shows(o.value, p.value))
  }

  /** What `next` makes of a lexed token: what the handler `get` finds for
      its type makes of it, and nothing when none is found or it throws. A
      handler registered under the token's own type that returns the token
      gives back a node of the token's type and value. */
  function Output(handlers: map<string, Handlers.Wrapper>, t: Lexing.Tok): (r: Option<Record>)
    ensures r.Some? ==>
      Handlers.Lookup(handlers, t.kind).Success? &&
      !Handlers.Lookup(handlers, t.kind).value.fn(Lexing.TokRecord(t)).Threw?
    ensures t.kind in handlers && t.kind != "" && handlers[t.kind].fn(Lexing.TokRecord(t)).Same? ==>
      r == Some(Lexing.TokRecord(t))
  {
    var h := Handlers.Lookup(handlers, t.kind);
    if h.Failure? then None else Made(h.value, Lexing.TokRecord(t))
  }

  /** What a handler does with what it is given: the error raised, and
      whether it is `routed` (handed to the listeners when there are any,
      as `next` does, rather than thrown on), or else the record of what is
      made, if anything. */
  datatype Cue = Cue(err: Option<JsError>, routed: bool, rec: Option<Record>)

  /** What `next` does with a lexed token `t`: a missing handler, or the
      error the handler throws, is raised renamed; otherwise what the
      handler returns is made into a node. */
  function TokenCue(handlers: map<string, Handlers.Wrapper>, t: Lexing.Tok): (r: Cue)
    ensures r.routed && (r.err.Some? ==> r.rec.None?) && (r.err.None? ==> r.rec == Output(handlers, t))
    ensures r.err.None? <==>
      Handlers.Lookup(handlers, t.kind).Success? && !Handlers.Lookup(handlers, t.kind).value.fn(Lexing.TokRecord(t)).Threw?
    ensures r.err.Some? ==> r.err.value.name == "ParserError"
  {
    var h := Handlers.Lookup(handlers, t.kind);
    if h.Failure? then Cue(Some(Renamed(h.error)), true, None)
    else if h.value.fn(Lexing.TokRecord(t)).Threw? then Cue(Some(Renamed(h.value.fn(Lexing.TokRecord(t)).e)), true, None)
    else Cue(None, true, Output(handlers, t))
  }

  /** How `next` ends on a lexed token `t`, the listeners being there or
      not and the errors handed to them going from `before` to `after`: as
      `TokenCue` says, an error raised goes to the listeners or is thrown;
      otherwise the result is the node made of what the handler returns. */
  ghost predicate Handed(handlers: map<string, Handlers.Wrapper>, t: Lexing.Tok, r: Result<Option<Node>, JsError>,
                   listening: bool, before: seq<JsError>, after: seq<JsError>)
  {
    var c := TokenCue(handlers, t);
    if c.err.Some? then Routed(r, c.err.value, listening, before, after)
    else r.Success? && Yields(r.value, c.rec) && after == before
  }

  /** What `parse` pushes for its own "bos" or "eos" node, seen as `rec`:
      what the handler registered under the node's own type makes of it,
      or the node itself when there is no such handler. */
  function OwnOutput(handlers: map<string, Handlers.Wrapper>, rec: Record): (r: Option<Record>)
    ensures rec.kind.None? || rec.kind.value !in handlers ==> r == Some(rec)
    ensures r.None? <==>
      rec.kind.Some? && rec.kind.value in handlers &&
      (handlers[rec.kind.value].fn(rec).Threw? ||
       (handlers[rec.kind.value].fn(rec).Returned? && !handlers[rec.kind.value].fn(rec).v.Obj?))
  {
    if rec.kind.Some? && rec.kind.value in handlers then Made(handlers[rec.kind.value], rec) else Some(rec)
  }

  /** What `parse` does with its own "bos" or "eos" node, seen as `rec`:
      the error the node's handler throws is thrown on as it is; otherwise
      what `OwnOutput` says is pushed. */
  function OwnCue(handlers: map<string, Handlers.Wrapper>, rec: Record): (r: Cue)
    ensures !r.routed && (r.err.Some? ==> r.rec.None?) && (r.err.None? ==> r.rec == OwnOutput(handlers, rec))
    ensures r.err.Some? <==> rec.kind.Some? && rec.kind.value in handlers && handlers[rec.kind.value].fn(rec).Threw?
  {
    if rec.kind.Some? && rec.kind.value in handlers && handlers[rec.kind.value].fn(rec).Threw? then
      Cue(Some(handlers[rec.kind.value].fn(rec).e), false, None)
    else Cue(None, false, OwnOutput(handlers, rec))
  }

  /** What the `parse` loop asks of the handlers on the tokens `ts`, in
      order. */
  function TokenCues(handlers: map<string, Handlers.Wrapper>, ts: seq<Lexing.Tok>): (r: seq<Cue>)
    ensures |r| == |ts| && forall i {:trigger r[i]} :: 0 <= i < |ts| ==> r[i] == TokenCue(handlers, ts[i])
  {
    seq(|ts|, i requires 0 <= i < |ts| => TokenCue(handlers, ts[i]))
  }

  /** What `parse` asks of the handlers on the tokens `ts`, in order: the
      "bos" node, each token, the "eos" node. */
  function Cues(handlers: map<string, Handlers.Wrapper>, ts: seq<Lexing.Tok>): (r: seq<Cue>)
    ensures |r| == |ts| + 2
    ensures r[0] == OwnCue(handlers, Named("bos", Some(""))) && r[|ts| + 1] == OwnCue(handlers, Named("eos", Some("")))
    ensures r[1..|ts| + 1] == TokenCues(handlers, ts)
  {
    [OwnCue(handlers, Named("bos", Some("")))] + TokenCues(handlers, ts) + [OwnCue(handlers, Named("eos", Some("")))]
  }

  /** What `next` makes of each of the tokens `ts[i..j]`, in order, the
      tokens that make nothing left out. */
  function Outputs(handlers: map<string, Handlers.Wrapper>, ts: seq<Lexing.Tok>, i: nat, j: nat): (r: seq<Record>)
    requires i <= j <= |ts|
    ensures |r| <= j - i
    decreases j - i
  {
    if i == j then [] else Outputs(handlers, ts, i, j - 1) + Output(handlers, ts[j - 1]).ToSeq()
  }

  /** When every token makes something, what is made of the tokens is
      what is made of each, one for one. */
  lemma {:induction false} OutputsEach(handlers: map<string, Handlers.Wrapper>, ts: seq<Lexing.Tok>, i: nat, j: nat)
    requires i <= j <= |ts|
    requires forall k :: i <= k < j ==> Output(handlers, ts[k]).Some?
    ensures |Outputs(handlers, ts, i, j)| == j - i
    ensures forall k :: i <= k < j ==> Outputs(handlers, ts, i, j)[k - i] == Output(handlers, ts[k]).value
    decreases j - i
  {
    if i < j {
      OutputsEach(handlers, ts, i, j - 1);
    }
  }

  /** With a handler under each token's own type that returns the token,
      the nodes made are the tokens themselves, one for one. */
  lemma {:induction false} IdentityOutputs(handlers: map<string, Handlers.Wrapper>, ts: seq<Lexing.Tok>, i: nat, j: nat)
    requires i <= j <= |ts|
    requires forall k :: i <= k < j ==>
      ts[k].kind != "" && ts[k].kind in handlers && handlers[ts[k].kind].fn(Lexing.TokRecord(ts[k])).Same?
    ensures |Outputs(handlers, ts, i, j)| == j - i
    ensures forall k :: i <= k < j ==> Outputs(handlers, ts, i, j)[k - i] == Lexing.TokRecord(ts[k])
    decreases j - i
  {
    if i < j {
      IdentityOutputs(handlers, ts, i, j - 1);
      assert Output(handlers, ts[j - 1]) == Some(Lexing.TokRecord(ts[j - 1]));
    }
  }

  /** Appending is associative. */
  lemma Regroup<T>(a: seq<T>, b: seq<T>, c: seq<T>)
    ensures a + (b + c) == (a + b) + c
  {
  }

  /** Whether the nodes `ns` are, one for one, the nodes made of `rs`:
      the last of each match and so do the rest. */
  ghost predicate Matches(ns: seq<Node>, rs: seq<Record>) {
    && |ns| == |rs|
    && forall k: nat :: k == |ns| ==> Paired(ns, rs, k)
  }

  /** The first `k` nodes of `ns` are the ones made of the first `k`
      records of `rs`. (`Matches` states it of every `k` that is `|ns|`,
      so the verifier unfolds it only where a proof asks about `Paired`.) */
  ghost predicate Paired(ns: seq<Node>, rs: seq<Record>, k: nat)
    decreases k
  {
    && k <= |ns| && k <= |rs|
    && (0 < k ==> Paired(ns, rs, k - 1) && Shows(ns[k - 1], rs[k - 1]))
  }

  lemma {:induction false} PairedEach(ns: seq<Node>, rs: seq<Record>, k: nat)
    ensures Paired(ns, rs, k) <==> k <= |ns| && k <= |rs| && forall i :: 0 <= i < k ==> Shows(ns[i], rs[i])
    decreases k
  {
    if 0 < k {
      PairedEach(ns, rs, k - 1);
    }
  }

  /** Matching is node for node: each node is the one made of the record
      at the same place. */
  lemma {:induction false} MatchesEach(ns: seq<Node>, rs: seq<Record>)
    ensures Matches(ns, rs) <==> |ns| == |rs| && forall i :: 0 <= i < |ns| ==> Shows(ns[i], rs[i])
  {
    PairedEach(ns, rs, |ns|);
  }

  /** A node made of what is expected extends a match. */
  lemma {:induction false} MatchesSnoc(ns: seq<Node>, rs: seq<Record>, o: Option<Node>, p: Option<Record>)
    requires Matches(ns, rs) && Yields(o, p)
    ensures Matches(ns + o.ToSeq(), rs + p.ToSeq())
  {
    MatchesEach(ns, rs);
    MatchesEach(ns + o.ToSeq(), rs + p.ToSeq());
  }

  /** A match of the nodes recorded for the tokens `ts` from `i` to `j`
      extends to the next token with what `next` makes of it. */
  /** `Matches(ns, Outputs(handlers, ts, i, j))`, stated of every `k`
      that is `j`: a loop carries it without the verifier unfolding it. */
  ghost predicate MatchesUpTo(ns: seq<Node>, handlers: map<string, Handlers.Wrapper>, ts: seq<Lexing.Tok>, i: nat, j: nat) {
    forall k: nat :: k == j && i <= k <= |ts| ==> Matches(ns, Outputs(handlers, ts, i, k))
  }

  /** One more token: what its handler makes of it follows what was made
      of the tokens before it. */
  lemma {:induction false} MatchesStep(handlers: map<string, Handlers.Wrapper>, ts: seq<Lexing.Tok>, i: nat, j: nat,
                                       ns: seq<Node>, o: Option<Node>)
    requires i <= j < |ts|
    requires MatchesUpTo(ns, handlers, ts, i, j) && Yields(o, Output(handlers, ts[j]))
    ensures MatchesUpTo(ns + o.ToSeq(), handlers, ts, i, j + 1)
  {
    MatchesSnoc(ns, Outputs(handlers, ts, i, j), o, Output(handlers, ts[j]));
  }

  /** The nodes recorded after a first node made of `p` match what is
      made after it: the whole record matches, the first node first. */
  lemma {:induction false} MatchesJoin(first: seq<Node>, made: seq<Node>, o: Option<Node>, p: Option<Record>, rs: seq<Record>)
    requires first == o.ToSeq() && Yields(o, p) && Matches(made, rs)
    ensures Matches(first + made, p.ToSeq() + rs)
    ensures o.Some? ==> 0 < |first + made| && (first + made)[0] == o.value
  {
    MatchesAppend(first, p.ToSeq(), made, rs);
  }

  /** Matches put side by side match. */
  lemma {:induction false} MatchesAppend(ns: seq<Node>, rs: seq<Record>, ns': seq<Node>, rs': seq<Record>)
    requires Matches(ns, rs) && Matches(ns', rs')
    ensures Matches(ns + ns', rs + rs')
  {
    MatchesEach(ns, rs);
    MatchesEach(ns', rs');
    MatchesEach(ns + ns', rs + rs');
  }

  /** What `parse` pushes on the tokens `ts`, in order: what is made of
      the "bos" node, of each token and of the "eos" node. */
  function Expected(handlers: map<string, Handlers.Wrapper>, ts: seq<Lexing.Tok>): (r: seq<Record>)
    ensures |r| <= |ts| + 2
    ensures "bos" !in handlers ==> 0 < |r| && r[0] == Named("bos", Some(""))
    ensures "eos" !in handlers ==> 0 < |r| && r[|r| - 1] == Named("eos", Some(""))
  {
    OwnOutput(handlers, Named("bos", Some(""))).ToSeq() + Outputs(handlers, ts, 0, |ts|) +
    OwnOutput(handlers, Named("eos", Some(""))).ToSeq()
  }

  /** How `fail()` ends: the state it leaves, what it throws and the error
      it hands to the listeners. */
  datatype Ending = Ending(after: LibState.Snap, thrown: Option<JsError>, reported: Option<JsError>)

  /** `fail()` on the state `s`: the top comes off; a block other than a
      "root" is unclosed, which goes to the listeners when there are any
      and is thrown otherwise; an empty state pops nothing, whose type is
      read. */
  function Failed(s: LibState.Snap, listening: bool): (r: Ending)
    ensures r.after == LibState.Popped(s, "state").after
    ensures s.stack == [] ==> r == Ending(s, Some(NullRead("type")), None)
    ensures r.thrown.None? <==>
      var p := LibState.Popped(s, "state");
      p.result.Success? && p.result.value.Some? && (p.result.value.value.kind == "root" || listening)
    ensures r.reported.Some? ==>
      listening && r.thrown.None? && s.stack != [] &&
      r.reported.value == SyntaxError("unclosed: \"" + s.stack[|s.stack| - 1].kind + "\"")
  {
    var p := LibState.Popped(s, "state");
    if p.result.Failure? then Ending(p.after, Some(p.result.error), None)
    else if p.result.value.None? then Ending(p.after, Some(NullRead("type")), None)
    else if p.result.value.value.kind == "root" then Ending(p.after, None, None)
    else
      var e := SyntaxError("unclosed: \"" + p.result.value.value.kind + "\"");
      if listening then Ending(p.after, None, Some(e)) else Ending(p.after, Some(e), None)
  }

  /** Case by case, what `fail` does with the node it pops: a failed pop
      is thrown on, a missing node has its type read, a "root" ends
      quietly, and any other type is raised as unclosed, to the listeners
      when there are any. */
  lemma {:induction false} FailedCases(s: LibState.Snap, listening: bool)
    ensures var p := LibState.Popped(s, "state"); var f := Failed(s, listening);
      && f.after == p.after
      && (p.result.Failure? ==> f.thrown == Some(p.result.error) && f.reported.None?)
      && (p.result == Success(None) ==> f.thrown == Some(NullRead("type")) && f.reported.None?)
      && (p.result.Success? && p.result.value.Some? && p.result.value.value.kind == "root" ==>
            f.thrown.None? && f.reported.None?)
      && (p.result.Success? && p.result.value.Some? && p.result.value.value.kind != "root" ==>
            var e := SyntaxError("unclosed: \"" + p.result.value.value.kind + "\"");
            if listening then f.thrown.None? && f.reported == Some(e)
            else f.thrown == Some(e) && f.reported.None?)
  {
  }

  /** When every block but the root has been closed, `fail` leaves the
      state empty, and raises "unclosed" exactly when the root's type is
      not "root". */
  lemma {:induction false} FailedOnRoot(ast: Node, listening: bool)
    ensures var f := Failed(LibState.Pushed(LibState.Snap([], map[], 0), ast), listening);
      && f.after.stack == []
      && (f.thrown.None? <==> ast.kind == "root" || listening)
      && (f.reported.Some? <==> ast.kind != "root" && listening)
      && (ast.kind != "root" && !listening ==> f.thrown == Some(SyntaxError("unclosed: \"" + ast.kind + "\"")))
  {
  }

  /** A node that closes an outer block `a` but not the block `b` on top
      of it (and opens none) leaves the state as it was, `b` still on top:
      `push` only asks the current block. `fail` there takes `b` off and,
      unless it is the root, reports it unclosed, `a` staying below. */
  lemma OuterCloseLeavesTop(n: Node, sh: Shape, bf: Before, a: Node, listening: bool)
    requires LibState.Tracks(bf.s) && bf.scopes != [] && |bf.s.stack| >= 2
    requires a == bf.s.stack[|bf.s.stack| - 2] && IsClose(n, a)
    requires !IsClose(n, bf.s.stack[|bf.s.stack| - 1]) && !OpensOn(sh, bf.s.stack[|bf.s.stack| - 1])
    ensures Landing(n, sh, bf) == Moving(bf.s, None, bf.emitted)
    ensures var b := bf.s.stack[|bf.s.stack| - 1]; var f := Failed(Landing(n, sh, bf).after, listening);
      && f.after.stack == bf.s.stack[..|bf.s.stack| - 1]
      && f.after.stack[|f.after.stack| - 1] == a
      && (b.kind != "root" ==>
            var e := SyntaxError("unclosed: \"" + b.kind + "\"");
            if listening then f.thrown.None? && f.reported == Some(e) else f.thrown == Some(e) && f.reported.None?)
  {
  }

  /** How `parse` ends once the "eos" node is pushed with the outcome
      `m`: an error the push throws ends it there; otherwise `fail` runs on
      the state the push left, leaving `after` and the errors `emitted`,
      and the root `ast` comes back unless `fail` throws. */
  predicate Finished(m: Moving, listening: bool, after: LibState.Snap, emitted: seq<JsError>,
                     r: Result<Node, JsError>, ast: Node)
  {
    if m.thrown.Some? then r == Failure(m.thrown.value) && after == m.after && emitted == m.emitted
    else
      var f := Failed(m.after, listening);
      && after == f.after && emitted == m.emitted + f.reported.ToSeq()
      && r == (if f.thrown.Some? then Failure(f.thrown.value) else Success(ast))
  }

  /** What one push of `parse` hands on to the next: the state, whether
      the current block holds a child (an empty state counting as one that
      does, `push` reading no further there), and the errors handed to the
      listeners. */
  datatype Point = Point(s: LibState.Snap, filled: bool, emitted: seq<JsError>)

  /** What a push of `n` reads at `p`, the scope stack being `scopes`:
      of the current block's children, `Landing` asks only whether there
      are any. */
  function At(p: Point, n: Node, scopes: seq<Node>, listening: bool): (b: Before)
    ensures b.s == p.s && b.emitted == p.emitted && b.scopes == scopes && b.listening == listening
    ensures p.filled <==> b.prevNodes.Some? && b.prevNodes.value != []
  {
    Before(p.s, scopes, None, if p.filled then Some([n]) else Some([]), listening, p.emitted)
  }

  /** `Landing` reads no more of what `push` reads than `At` keeps. */
  lemma {:induction false} LandingReads(n: Node, sh: Shape, b: Before, p: Point)
    requires b.s == p.s && b.emitted == p.emitted
    requires b.s.stack != [] ==> (p.filled <==> b.prevNodes.Some? && b.prevNodes.value != [])
    ensures Landing(n, sh, b) == Landing(n, sh, At(p, n, b.scopes, b.listening))
  {
  }

  /** One turn of `parse`: the error the handler raised and whether it is
      routed, else the node made and pushed, if any, with the shape it has
      once pushed. */
  datatype Turn = Turn(err: Option<JsError>, routed: bool, made: Option<Node>, shape: Shape)

  /** Where turns lead: the point reached and the error thrown, if any. */
  datatype Ran = Ran(at: Point, thrown: Option<JsError>)

  /** One turn from `p`: an error is handed to the listeners when the turn
      routes it and there are any, and thrown otherwise; nothing made
      leaves `p` as it is; a node made is pushed as `Landing` says, after
      which the current block holds a child. */
  function Turned(u: Turn, p: Point, scopes: seq<Node>, listening: bool): (r: Ran)
    ensures u.err.Some? || u.made.None? ==> r.at.s == p.s
    ensures u.err.Some? ==>
      if u.routed && listening then r == Ran(p.(emitted := p.emitted + [u.err.value]), None)
      else r == Ran(p, u.err)
    ensures u.err.None? && u.made.None? ==> r == Ran(p, None)
    ensures u.err.None? && u.made.Some? ==>
      var m := Landing(u.made.value, u.shape, At(p, u.made.value, scopes, listening));
      r.at.s == m.after && r.at.emitted == m.emitted && r.thrown == m.thrown && r.at.filled
  {
    if u.err.Some? then
      if u.routed && listening then Ran(p.(emitted := p.emitted + [u.err.value]), None)
      else Ran(p, u.err)
    else if u.made.None? then Ran(p, None)
    else
      var m := Landing(u.made.value, u.shape, At(p, u.made.value, scopes, listening));
      Ran(Point(m.after, true, m.emitted), m.thrown)
  }

  /** The turns `us` in order from `p`, up to the first that throws. */
  function Chain(us: seq<Turn>, p: Point, scopes: seq<Node>, listening: bool): (r: Ran)
    decreases |us|
  {
    if us == [] then Ran(p, None)
    else
      var c := Chain(us[..|us| - 1], p, scopes, listening);
      if c.thrown.Some? then c else Turned(us[|us| - 1], c.at, scopes, listening)
  }

  /** Turns taken one run after another: the second run starts where the
      first one got to, unless it threw. */
  lemma {:induction false} ChainAppend(us: seq<Turn>, vs: seq<Turn>, p: Point, scopes: seq<Node>, listening: bool)
    ensures var c := Chain(us, p, scopes, listening);
      Chain(us + vs, p, scopes, listening) == if c.thrown.Some? then c else Chain(vs, c.at, scopes, listening)
    decreases |vs|
  {
    if vs == [] {
      assert us + vs == us;
    } else {
      ChainAppend(us, vs[..|vs| - 1], p, scopes, listening);
      assert (us + vs)[..|us + vs| - 1] == us + vs[..|vs| - 1];
      var c := Chain(us, p, scopes, listening);
      if c.thrown.None? && Chain(vs[..|vs| - 1], c.at, scopes, listening).thrown.None? {
        assert Chain(us + vs, p, scopes, listening) == Turned(vs[|vs| - 1], Chain(vs[..|vs| - 1], c.at, scopes, listening).at, scopes, listening);
      }
    }
  }

  /** The nodes the turns push, in order. */
  function Pushes(us: seq<Turn>): (r: seq<Node>)
    ensures |r| <= |us|
    ensures (forall i :: 0 <= i < |us| ==> us[i].made.None?) ==> r == []
  {
    if us == [] then [] else Pushes(us[..|us| - 1]) + us[|us| - 1].made.ToSeq()
  }

  lemma {:induction false} PushesAppend(us: seq<Turn>, vs: seq<Turn>)
    ensures Pushes(us + vs) == Pushes(us) + Pushes(vs)
    decreases |vs|
  {
    if vs == [] {
      assert us + vs == us;
    } else {
      PushesAppend(us, vs[..|vs| - 1]);
      assert (us + vs)[..|us + vs| - 1] == us + vs[..|vs| - 1];
    }
  }

  /** `Turned(u, p, ...)` is `q`, stated of every turn that is `u`: the
      verifier then unfolds `Turned` only where a proof asks for it. */
  ghost predicate TurnsTo(u: Turn, p: Point, scopes: seq<Node>, listening: bool, q: Ran) {
    forall x :: x == u ==> Turned(x, p, scopes, listening) == q
  }

  /** `Chain(us, p, ...)` is `c`, stated the same way. */
  ghost predicate Leads(us: seq<Turn>, p: Point, scopes: seq<Node>, listening: bool, c: Ran) {
    forall vs :: vs == us ==> Chain(vs, p, scopes, listening) == c
  }

  /** One more turn: it is not taken once one has thrown. */
  lemma {:induction false} LeadsSnoc(us: seq<Turn>, u: Turn, p: Point, scopes: seq<Node>, listening: bool, c: Ran, q: Ran)
    requires Leads(us, p, scopes, listening, c)
    requires c.thrown.None? ==> TurnsTo(u, c.at, scopes, listening, q)
    ensures Leads(us + [u], p, scopes, listening, if c.thrown.Some? then c else q)
  {
    assert (us + [u])[..|us|] == us;
    assert Chain(us, p, scopes, listening) == c;
    if c.thrown.None? {
      assert Turned(u, c.at, scopes, listening) == q;
    }
    assert Chain(us + [u], p, scopes, listening) == if c.thrown.Some? then c else q;
  }

  /** Turns taken after turns that threw nothing go on from where those
      got to. */
  lemma {:induction false} LeadsAppend(us: seq<Turn>, vs: seq<Turn>, p: Point, scopes: seq<Node>, listening: bool, c: Ran, d: Ran)
    requires Leads(us, p, scopes, listening, c) && c.thrown.None?
    requires Leads(vs, c.at, scopes, listening, d)
    ensures Leads(us + vs, p, scopes, listening, d)
  {
    ChainAppend(us, vs, p, scopes, listening);
    assert Chain(us, p, scopes, listening) == c;
    assert Chain(vs, c.at, scopes, listening) == d;
  }

  /** Whether the turn `u` is what the handler does as `c` says: the same
      error, routed the same way, or the node made of the record, with the
      shape that record gives it. */
  ghost predicate Follows(u: Turn, c: Cue) {
    && u.err == c.err && u.routed == c.routed
    && Yields(u.made, c.rec)
    && (u.made.Some? ==> Fits(u.shape, c.rec.value))
  }

  /** Each turn of `us` is what the cue at the same place says. */
  ghost predicate FollowsAll(us: seq<Turn>, cs: seq<Cue>) {
    |us| <= |cs| && forall i {:trigger Follows(us[i], cs[i])} :: 0 <= i < |us| ==> Follows(us[i], cs[i])
  }

  /** A turn that follows the next cue extends turns that follow theirs. */
  lemma {:induction false} FollowsSnoc(us: seq<Turn>, u: Turn, cs: seq<Cue>)
    requires FollowsAll(us, cs) && |us| < |cs| && Follows(u, cs[|us|])
    ensures FollowsAll(us + [u], cs)
  {
    forall i | 0 <= i < |us| + 1
      ensures Follows((us + [u])[i], cs[i])
    {
      if i < |us| {
        assert (us + [u])[i] == us[i];
      }
    }
  }

  /** The "bos" turn, then turns that follow the tokens' cues, follow the
      cues of `parse`. */
  lemma {:induction false} FollowsOpen(u: Turn, vs: seq<Turn>, handlers: map<string, Handlers.Wrapper>, ts: seq<Lexing.Tok>)
    requires Follows(u, OwnCue(handlers, Named("bos", Some(""))))
    requires FollowsAll(vs, TokenCues(handlers, ts))
    ensures FollowsAll([u] + vs, Cues(handlers, ts))
  {
    var cs := Cues(handlers, ts);
    forall i | 0 <= i < |vs| + 1
      ensures Follows(([u] + vs)[i], cs[i])
    {
      if 0 < i {
        assert ([u] + vs)[i] == vs[i - 1];
      }
    }
  }

  class Parser {
    /** The handler Map and type Set, shared with the parsers `create`
        makes. */
    const registry: Handlers.Registry
    const lexer: Lexing.Lexer
    /** `options.type`: the type of the root node. */
    const rootType: string
    var scopes: LibState.State
    var state: LibState.State
    var bos: Node
    var eos: Node
    var ast: Node
    /** Whether an "error" listener is registered. */
    var listening: bool
    /** The errors handed to the "error" listeners, in order. */
    var emitted: seq<JsError>

    /** The state and scopes are two distinct objects, named as their
        classes are, and no node is both an open block and a scope. */
    ghost predicate Valid()
      reads this, state, scopes
    {
      && state != scopes
      && state.name == "state" && scopes.name == "scopes"
      && (forall m :: m in state.stack ==> m !in scopes.stack)
    }

    /** A node `push` may be given: not an open block or scope itself, and
        not the parent of one. */
    ghost predicate Detached(n: Node)
      reads this, state, scopes, n
    {
      && n !in state.stack && n !in scopes.stack
      && (n.nodes.Some? ==> forall c :: c in n.nodes.value ==> c !in state.stack && c !in scopes.stack)
    }

    /** What `push` reads before it changes anything. */
    ghost function Now(): Before
      reads this, state, scopes, state.TopSet()`nodes, scopes.TopSet()`nodes
    {
      Before(state.Value(), scopes.stack,
             if scopes.stack == [] then None else scopes.stack[|scopes.stack| - 1].nodes,
             if state.stack == [] then None else state.stack[|state.stack| - 1].nodes,
             listening, emitted)
    }

    /** What `push(n)` leaves, against what it read first (`b`): the state,
        the errors handed to the listeners and what is thrown are those of
        `Landing`; `n` is given the scope that was current and recorded in
        it; and when nothing is thrown it is appended to the block that was
        current. */
    ghost predicate Lands(n: Node, thrown: Option<JsError>, b: Before)
      reads *
    {
      && Moving(state.Value(), thrown, emitted) == Landing(n, ShapeOf(n), b)
      && (b.scopes == [] ==> n.scope == null)
      && (b.scopes != [] ==>
            var scope := b.scopes[|b.scopes| - 1];
            n.scope == scope && scope.nodes == Some(b.scopeNodes.GetOr([]) + [n]))
      && (thrown.None? ==>
            && b.s.stack != []
            && var prev := b.s.stack[|b.s.stack| - 1];
            n.parent == prev && prev.nodes == Some(b.prevNodes.GetOr([]) + [n]))
    }

    /** `Lands`, stated of every `x` that is `n`: the verifier then unfolds
        it only where a proof asks about `Lands` itself. */
    ghost predicate Landed(n: Node, thrown: Option<JsError>, b: Before)
      reads *
    {
      forall x :: x == n ==> Lands(x, thrown, b)
    }

    /** Where `parse` stands between two pushes: the state, whether the
        current block holds a child (or there is none), and the errors
        handed to the listeners. */
    ghost function Here(): Point
      reads this, state, state.TopSet()`nodes
    {
      Point(state.Value(), state.stack == [] || IsBlock(state.stack[|state.stack| - 1]), emitted)
    }

    /** Every block on the state below the current one holds a child: it
        was current when the block above it opened, and that block was
        appended to it. */
    ghost predicate Stacked()
      reads this, state, state.stack
    {
      forall i :: 0 <= i < |state.stack| - 1 ==> IsBlock(state.stack[i])
    }

    /** After a push of `n` from `b`, the state and the errors are what
        `Landing` says; when it throws nothing, with every block that was
        below the current one holding a child, so does every block on the
        state now, the current one included. */
    lemma PushHolds(n: Node, thrown: Option<JsError>, b: Before)
      requires Landed(n, thrown, b)
      requires forall i :: 0 <= i < |b.s.stack| - 1 ==>
        IsBlock(b.s.stack[i]) || b.s.stack[i] == b.s.stack[|b.s.stack| - 1]
      ensures Moving(state.Value(), thrown, emitted) == Landing(n, ShapeOf(n), b)
      ensures thrown.None? ==> Stacked() && Here().filled
    {
      assert Lands(n, thrown, b);
      if thrown.None? {
        var prev := b.s.stack[|b.s.stack| - 1];
        var opens := !n.skip && OpensOn(ShapeOf(n), prev);
        var closes := !n.skip && b.prevNodes.Some? && b.prevNodes.value != [] && IsClose(n, prev);
        assert state.stack == Moved(b.s, n, opens, closes).after.stack;
        assert forall i :: 0 <= i < |b.s.stack| ==> IsBlock(b.s.stack[i]);
      }
    }

    /** The nodes recorded in the current scope: each node `push` is given
        while that scope is current, in order. */
    function Log(): seq<Node>
      reads this`scopes, scopes, scopes.TopSet()`nodes
    {
      if scopes.stack == [] then [] else scopes.stack[|scopes.stack| - 1].nodes.GetOr([])
    }

    /** `new Parser(input, options)` with a string input (any other input
        counts as ""): empty handler tables and the parser initialised. */
    constructor (input: string, rootType: string, scan: string -> Lexing.Scan)
      ensures this.rootType == rootType && fresh(registry) && fresh(lexer) && lexer.scan == scan
      ensures registry.handlers == map[] && registry.types == [] && registry.Valid()
      ensures lexer.input == input && lexer.pos == 0
      ensures Initialised() && !listening && emitted == []
    {
      this.rootType := rootType;
      registry := new Handlers.Registry();
      var lex := new Lexing.Lexer(scan);
      lex.Init(input);
      lexer := lex;
      var sc, st, b, e, root := Parts(rootType);
      scopes, state, bos, eos, ast := sc, st, b, e, root;
      listening := false;
      emitted := [];
    }

    /** The parser a `create` call makes: a new parser on the same handler
        tables, with an empty input. */
    constructor Sharing(registry: Handlers.Registry, rootType: string, scan: string -> Lexing.Scan)
      ensures this.registry == registry && this.rootType == rootType
      ensures fresh(lexer) && lexer.scan == scan && lexer.input == "" && lexer.pos == 0
      ensures Initialised() && !listening && emitted == []
    {
      this.registry := registry;
      this.rootType := rootType;
      lexer := new Lexing.Lexer(scan);
      var sc, st, b, e, root := Parts(rootType);
      scopes, state, bos, eos, ast := sc, st, b, e, root;
      listening := false;
      emitted := [];
    }

    /** What `init` leaves: the "bos" and "eos" nodes, an empty root block,
        a scope "root" node on `scopes` and the root alone on `state`. */
    ghost predicate Initialised()
      reads this, lexer, state, scopes, scopes.TopSet(), bos, eos, ast
    {
      && Valid() && lexer.pos == 0
      && bos.kind == "bos" && bos.value == Some("") && bos.nodes.None?
      && eos.kind == "eos" && eos.value == Some("") && eos.nodes.None?
      && ast.kind == rootType && ast.nodes == Some([])
      && state.Value() == LibState.Pushed(LibState.Snap([], map[], 0), ast)
      && |scopes.stack| == 1 && scopes.stack[0].kind == "root"
      && RecordOf(bos) == Named("bos", Some("")) && RecordOf(eos) == Named("eos", Some(""))
      && bos != eos && bos != ast && eos != ast
      && bos !in scopes.stack && eos !in scopes.stack
      && Log() == []
    }

    /** What `init` makes: the two trackers, the "bos", "eos" and root
        nodes, and a "root" node on `scopes`. */
    static method Parts(rootType: string)
      returns (scopes: LibState.State, state: LibState.State, bos: Node, eos: Node, ast: Node)
      ensures fresh(scopes) && fresh(state) && fresh(bos) && fresh(eos) && fresh(ast)
      ensures |scopes.stack| == 1 && fresh(scopes.stack[0]) && scopes.stack[0].kind == "root"
      ensures scopes.stack[0].nodes.None?
      ensures RecordOf(bos) == Named("bos", Some("")) && RecordOf(eos) == Named("eos", Some(""))
      ensures state != scopes && state.name == "state" && scopes.name == "scopes"
      ensures bos.kind == "bos" && bos.value == Some("") && bos.nodes.None?
      ensures eos.kind == "eos" && eos.value == Some("") && eos.nodes.None?
      ensures ast.kind == rootType && ast.nodes == Some([])
      ensures state.Value() == LibState.Pushed(LibState.Snap([], map[], 0), ast)
      ensures scopes.stack[0] != ast && scopes.stack[0] != bos && scopes.stack[0] != eos
      ensures bos != eos && bos != ast && eos != ast
    {
      scopes := new LibState.State("scopes");
      state := new LibState.State("state");
      bos := Build(Named("bos", Some("")));
      eos := Build(Named("eos", Some("")));
      ast := Build(Record(Some(rootType), None, Array([]), false, None, None));
      var root := Build(Named("root", None));
      var _ := scopes.Push(Ref(root));
      var _ := state.Push(Ref(ast));
    }

    /** `init(input)`. */
    method Init(input: string)
      modifies this, lexer
      ensures fresh(state) && fresh(scopes) && fresh(bos) && fresh(eos) && fresh(ast)
      ensures |scopes.stack| == 1 && fresh(scopes.stack[0])
      ensures lexer.input == input && lexer.tokens == lexer.scan(input).tokens
      ensures lexer.failure == lexer.scan(input).failure && lexer.pos == 0 && lexer.stash == []
      ensures Initialised()
      ensures listening == old(listening) && emitted == old(emitted)
    {
      lexer.Init(input);
      scopes, state, bos, eos, ast := Parts(rootType);
    }

    /** Registers an "error" listener. */
    method Listen()
      modifies this
      ensures listening && emitted == old(emitted)
    {
      listening := true;
    }

    /** `error(err)`: handed to the listeners when there are any, thrown
        otherwise; the result is the error thrown. */
    method Raise(e: JsError) returns (thrown: Option<JsError>)
      modifies this`emitted
      ensures old(listening) ==> thrown.None? && emitted == old(emitted) + [e]
      ensures !old(listening) ==> thrown == Some(e) && emitted == old(emitted)
    {
      if listening {
        emitted := emitted + [e];
        thrown := None;
      } else {
        thrown := Some(e);
      }
    }

    /** `node(value)` for a plain value, with `value` for the node's value
        when a type name is given: a string names the type, an object is
        made into a node with its children made into nodes under it, and a
        missing value fails the assertion. */
    method MakeNode(v: Value, value: Option<string>) returns (r: Result<Node, JsError>)
      requires !(v.Bool? || v.Num?) || !v.Truthy()
      ensures !v.Truthy() ==> r == Failure(AssertionError("expected a string or object"))
      ensures v.Truthy() ==> r.Success? && fresh(r.value) && r.value.parent == null
      ensures v.Str? && v.Truthy() ==>
        r.value.kind == v.s && r.value.value == value && r.value.nodes.None?
      ensures v.Obj? ==>
        r.value.kind == v.rec.kind.GetOr("") && r.value.value == v.rec.value &&
        (r.value.nodes.Some? <==> v.rec.nodes.Array?) &&
        (v.rec.nodes.Array? ==>
           |r.value.nodes.value| == |v.rec.nodes.items| &&
           forall i :: 0 <= i < |r.value.nodes.value| ==>
             r.value.nodes.value[i].parent == r.value && r.value.nodes.value[i].index == Some(i))
    {
      if !v.Truthy() {
        return Failure(AssertionError("expected a string or object"));
      }
      if v.Str? {
        var n := Build(Named(v.s, value));
        return Success(n);
      }
      var n := Build(v.rec);
      r := Success(n);
    }

    /** `set(type, handler)`: a handler already wrapped by a parser comes
        back as it is and nothing is registered; any other is wrapped for
        the type (a non-function as the identity), replaces the type's
        handler and lists the type once. None stands for the parser itself,
        returned for chaining. */
    method Set(t: string, arg: Handlers.HandlerArg) returns (r: Option<Handlers.Wrapper>)
      modifies registry
      ensures arg.Wrapped? ==>
        r == Some(arg.w) && registry.handlers == old(registry.handlers) && registry.types == old(registry.types)
      ensures !arg.Wrapped? ==>
        r.None? &&
        registry.handlers == old(registry.handlers)[t := Handlers.Wrapper(t, Handlers.UserFn(arg))] &&
        registry.types == Handlers.Added(old(registry.types), t)
      ensures old(registry.Valid()) ==> registry.Valid()
    {
      if arg.Wrapped? {
        return Some(arg.w);
      }
      registry.Put(t, Handlers.Wrapper(t, Handlers.UserFn(arg)));
      r := None;
    }

    /** `get(type)`. */
    function Get(t: string): (r: Result<Handlers.Wrapper, JsError>)
      reads this, registry
      ensures r == Handlers.Lookup(registry.handlers, t)
    {
      Handlers.Lookup(registry.handlers, t)
    }

    /** `has(type)`: a handler is registered under the type itself. */
    function Has(t: string): (r: bool)
      reads this, registry
      ensures r <==> t in registry.handlers
      ensures r ==> Get(t) == Success(registry.handlers[t])
    {
      t in registry.handlers
    }

    /** Calling a registered handler on a token. The handler's own result
        is used when it is a node; a plain object becomes a node, given the
        handler's type when it has none; the token itself, returned, is
        made into a node the same way (the parser's own nodes are returned
        as they are); anything else gives nothing. What the handler throws
        is thrown on. */
    method Call(w: Handlers.Wrapper, tok: Token) returns (r: Result<Option<Node>, JsError>)
      ensures w.fn(Shown(tok)).Threw? ==> r == Failure(w.fn(Shown(tok)).e)
      ensures tok.Own? ==> (w.fn(Shown(tok)).Same? <==> r == Success(Some(tok.node)))
      ensures w.fn(Shown(tok)).Returned? && !w.fn(Shown(tok)).v.Obj? ==> r == Success(None)
      ensures r.Success? && r.value.Some? && !(tok.Own? && r.value == Some(tok.node)) ==>
        fresh(r.value.value) && r.value.value.parent == null &&
        (r.value.value.nodes.Some? ==> forall c :: c in r.value.value.nodes.value ==> fresh(c))
      ensures r.Success? && r.value.Some? && tok.Lexed? ==> fresh(r.value.value)
      ensures r.Success? && r.value.Some? && !(tok.Own? && r.value == Some(tok.node)) ==>
        Made(w, Shown(tok)).Some? && Fits(ShapeOf(r.value.value), Made(w, Shown(tok)).value)
      ensures !w.fn(Shown(tok)).Threw? && !(w.fn(Shown(tok)).Same? && tok.Own?) ==>
        r.Success? && Yields(r.value, Made(w, Shown(tok)))
    {
      var o := w.fn(Shown(tok));
      match o
      case Threw(e) =>
        return Failure(e);
      case Same =>
        if tok.Own? {
          return Success(Some(tok.node));
        }
        var n := BuildNode(Handlers.Stamped(Shown(tok), w.kind));
        return Success(Some(n));
      case Returned(v) =>
        if !v.Obj? {
          return Success(None);
        }
        var n := BuildNode(Handlers.Stamped(v.rec, w.kind));
        return Success(Some(n));
    }

    /** `node(obj)` on a record, with the freshness of the children spelt
        out for the callers. */
    static method BuildNode(rec: Record) returns (n: Node)
      ensures fresh(n) && n.kind == rec.kind.GetOr("") && n.value == rec.value && n.skip == rec.skip
      ensures n.isOpen == rec.isOpen && n.isClose == rec.isClose && n.parent == null
      ensures n.nodes.Some? ==> forall c :: c in n.nodes.value ==> fresh(c)
      ensures Fits(ShapeOf(n), rec)
    {
      n := Build(rec);
      if n.nodes.Some? {
        forall c | c in n.nodes.value
          ensures fresh(c)
        {
          var i :| 0 <= i < |n.nodes.value| && n.nodes.value[i] == c;
        }
      }
    }

    /** `pop(node)`: takes the state's top, which must be a block; a node
        given that does not close it is an error. */
    method Pop(node: Option<Node>) returns (r: Result<Node, JsError>)
      requires Valid()
      modifies this`emitted, state`stack, state`types, state`length
      ensures listening == old(listening)
      ensures var p := LibState.Popped(old(state.Value()), "state");
        && state.Value() == p.after
        && (p.result.Failure? ==> r == Failure(p.result.error) && emitted == old(emitted))
        && (p.result.Success? && (p.result.value.None? || p.result.value.value.nodes.None?) ==>
              r == Failure(AssertionError("expected a block node")) && emitted == old(emitted))
        && (p.result.Success? && p.result.value.Some? && p.result.value.value.nodes.Some? ==>
              var b := p.result.value.value;
              if node.Some? && !IsClose(node.value, b) then
                var e := Error("expected \"" + b.kind + ".close\" node, received: \"" + node.value.kind + "\"");
                (old(listening) ==> r == Success(b) && emitted == old(emitted) + [e]) &&
                (!old(listening) ==> r == Failure(e) && emitted == old(emitted))
              else r == Success(b) && emitted == old(emitted))
    {
      var p := state.Pop();
      if p.Failure? {
        return Failure(p.error);
      }
      if p.value.None? || p.value.value.nodes.None? {
        return Failure(AssertionError("expected a block node"));
      }
      var b := p.value.value;
      if node.Some? && !IsClose(node.value, b) {
        var thrown := Raise(Error("expected \"" + b.kind + ".close\" node, received: \"" + node.value.kind + "\""));
        if thrown.Some? {
          return Failure(thrown.value);
        }
      }
      r := Success(b);
    }

    /** The state tracks its blocks exactly, a block is open and a scope
        is current. */
    ghost predicate Ready()
      reads this, state, scopes
    {
      Valid() && LibState.Tracks(state.Value()) && state.stack != [] && scopes.stack != []
    }

    /** The state's part in `push`, the current block being `prev`: the
        node goes onto the state when its first child opens a block, and
        then, when it closes `prev`, the state is popped with it. The error
        the pop raises is the result. */
    method Move(n: Node, prev: Node) returns (thrown: Option<JsError>)
      requires Valid() && state.stack != [] && prev == state.stack[|state.stack| - 1] && n !in scopes.stack
      modifies this`emitted, state`stack, state`types, state`length
      ensures Valid() && scopes.stack == old(scopes.stack)
      ensures forall m :: m in state.stack ==> m in old(state.stack) || m == n
      ensures Moving(state.Value(), thrown, emitted) ==
        Moves(old(state.Value()), n, Opens(n, prev), IsBlock(prev) && IsClose(n, prev), old(listening), old(emitted))
    {
      ghost var opens := Opens(n, prev);
      ghost var closes := IsBlock(prev) && IsClose(n, prev);
      if IsBlock(n) && IsBlockOpen(n.nodes.value[0], Some(prev)) == Success(true) {
        var _ := state.Push(Ref(n));
      }
      assert state.Value() == Moved(old(state.Value()), n, opens, false).after;
      if IsBlock(prev) && IsClose(n, prev) {
        ghost var top := if opens then n else prev;
        assert state.stack[|state.stack| - 1] == top && top.nodes.Some?;
        assert IsClose(n, top) <==> (opens ==> IsClose(n, n));
        var popped := Pop(Some(n));
        if popped.Failure? {
          return Some(popped.error);
        }
      }
      thrown := None;
    }

    /** The start of `push(node)`: the node is given the current scope
        and appended to it; without a scope the scope's `push` is read
        from. */
    method Attach(n: Node) returns (r: Result<(), JsError>)
      requires n !in scopes.stack
      modifies scopes.TopSet()`nodes, n`parent, n`scope
      ensures old(scopes.stack) == [] ==> r == Failure(UndefinedRead("push")) && n.scope == null
      ensures old(scopes.stack) != [] ==>
        var scope := old(scopes.stack)[|old(scopes.stack)| - 1];
        r.Success? && n.scope == scope && scope.nodes == Some(old(scope.nodes).GetOr([]) + [n])
      ensures n.nodes == old(n.nodes)
    {
      if scopes.stack == [] {
        n.scope := null;
        return Failure(UndefinedRead("push"));
      }
      var scope := scopes.stack[|scopes.stack| - 1];
      n.scope := scope;
      var _ := scope.Push(n);
      r := Success(());
    }

    /** `push(node)` of a node: the node is recorded in the current scope,
        pushed onto the state when it is a block whose first child opens,
        and, when it closes the current block, followed by a `pop`; then it
        is appended to the block that was current. A node marked `skip`
        only goes to the scope and the block. A missing scope or block is
        read from. */
    method PushNode(n: Node) returns (r: Result<Node, JsError>)
      requires Valid() && Detached(n)
      modifies this`emitted, state`stack, state`types, state`length, state.TopSet()`nodes, scopes.TopSet()`nodes, n`parent, n`scope
      ensures Valid() && scopes.stack == old(scopes.stack)
      ensures forall m :: m in state.stack ==> m in old(state.stack) || m == n
      ensures r.Success? ==> r.value == n
      ensures listening == old(listening)
      ensures !old(listening) ==> emitted == old(emitted)
      ensures Landed(n, Thrown(r), old(Now()))
      ensures old(scopes.stack) != [] ==> Log() == old(Log()) + [n]
    {
      ghost var b := Now();
      var attached := Attach(n);
      if attached.Failure? {
        r := Failure(attached.error);
        assert Landed(n, Thrown(r), b);
        return;
      }
      var current := state.Current();
      if current.None? {
        r := Failure(if n.skip then UndefinedRead("push")
                     else if IsBlock(n) then UndefinedRead("isOpen")
                     else UndefinedRead("nodes"));
        assert Landed(n, Thrown(r), b);
        return;
      }
      var prev := current.value;
      assert prev in state.stack;
      if !n.skip {
        var thrown := Move(n, prev);
        if thrown.Some? {
          r := Failure(thrown.value);
          assert Landed(n, Thrown(r), b);
          return;
        }
      }
      var _ := prev.Push(n);
      r := Success(n);
      assert Landed(n, Thrown(r), b);
    }

    /** `push(node)`: nothing is pushed for a missing value; a plain object
        with a type is made into a node first. Any other value fails:
        setting `scope` on a string, number or boolean throws, and a plain
        object without a type is refused by the node library's `push`
        (after a missing scope is read from). */
    method Push(x: Any) returns (r: Result<Option<Node>, JsError>, ghost pushed: Option<Node>)
      requires Valid()
      requires x.Ref? ==> Detached(x.node)
      modifies this`emitted, state`stack, state`types, state`length, state.TopSet()`nodes, scopes.TopSet()`nodes,
               (if x.Ref? then {x.node} else {})`parent, (if x.Ref? then {x.node} else {})`scope
      ensures Valid() && scopes.stack == old(scopes.stack) && listening == old(listening)
      ensures forall m :: m in state.stack ==> m in old(state.stack) || fresh(m) || (x.Ref? && m == x.node)
      ensures x.Ref? ==> pushed == Some(x.node)
      ensures x.Plain? && Typed(x.v) ==> pushed.Some? && fresh(pushed.value) && Shows(pushed.value, x.v.rec)
      ensures pushed.Some? ==> Landed(pushed.value, Thrown(r), old(Now())) && (r.Success? ==> r == Success(pushed))
      ensures pushed.None? ==> state.Value() == old(state.Value()) && emitted == old(emitted) && Log() == old(Log())
      ensures old(scopes.stack) != [] ==> Log() == old(Log()) + pushed.ToSeq()
      ensures !x.Truthy() ==> r == Success(None) && pushed.None?
      ensures x.Plain? && x.v.Truthy() && !x.v.Obj? ==>
        r == Failure(TypeError("Reflect.defineProperty called on non-object")) && pushed.None?
      ensures x.Plain? && x.v.Obj? && !Typed(x.v) ==>
        r == Failure(if old(scopes.stack) == [] then UndefinedRead("push")
                     else AssertionError("expected node to be an instance of Node")) && pushed.None?
      ensures !old(listening) ==> emitted == old(emitted)
    {
      if !x.Truthy() {
        return Success(None), None;
      }
      if x.Ref? {
        var done := PushNode(x.node);
        return if done.Failure? then Failure(done.error) else Success(Some(x.node)), Some(x.node);
      }
      if Typed(x.v) {
        ghost var n;
        r, n := PushRecord(x.v.rec);
        return r, Some(n);
      }
      pushed := None;
      if x.v.Obj? {
        if scopes.stack == [] {
          return Failure(UndefinedRead("push")), None;
        }
        return Failure(AssertionError("expected node to be an instance of Node")), None;
      }
      r := Failure(TypeError("Reflect.defineProperty called on non-object"));
    }

    /** `push(obj)` of a plain object with a type: it is made into a node,
        which is pushed. */
    method PushRecord(rec: Record) returns (r: Result<Option<Node>, JsError>, ghost pushed: Node)
      requires Valid() && rec.kind.Some? && rec.kind.value != ""
      modifies this`emitted, state`stack, state`types, state`length, state.TopSet()`nodes, scopes.TopSet()`nodes
      ensures Valid() && scopes.stack == old(scopes.stack) && listening == old(listening)
      ensures forall m :: m in state.stack ==> m in old(state.stack) || fresh(m)
      ensures fresh(pushed) && Shows(pushed, rec)
      ensures Landed(pushed, Thrown(r), old(Now())) && (r.Success? ==> r == Success(Some(pushed)))
      ensures old(scopes.stack) != [] ==> Log() == old(Log()) + [pushed]
      ensures !old(listening) ==> emitted == old(emitted)
    {
      var n := BuildNode(rec);
      assert forall m :: m in state.stack ==> m != n;
      var done := PushNode(n);
      r := if done.Failure? then Failure(done.error) else Success(Some(n));
      pushed := n;
    }

    /** `next()`: takes the next token from the lexer and hands it back to
        it, then calls the handler for its type. The lexer's error is thrown
        on; a missing handler and an error the handler throws are renamed
        "ParserError" and raised. */
    method Next() returns (r: Result<Option<Node>, JsError>)
      modifies this`emitted, lexer`pos, lexer`stash
      ensures lexer.input == old(lexer.input) && lexer.tokens == old(lexer.tokens) && lexer.failure == old(lexer.failure)
      ensures lexer.pos == if old(lexer.pos) < |lexer.tokens| then old(lexer.pos) + 1 else old(lexer.pos)
      ensures !old(lexer.Eos()) ==> r.Failure? || lexer.Remaining() < old(lexer.Remaining())
      ensures old(lexer.Peek()).Failure? ==> r == Failure(old(lexer.Peek()).error) && emitted == old(emitted)
      ensures old(lexer.Peek()) == Success(None) ==> r == Success(None) && emitted == old(emitted)
      ensures old(lexer.Peek()).Success? && old(lexer.Peek()).value.Some? ==>
        var t := old(lexer.Peek()).value.value;
        && lexer.stash == old(lexer.stash) + [t]
        && Handed(registry.handlers, t, r, old(listening), old(emitted), emitted)
        && (r.Success? && r.value.Some? ==>
              Output(registry.handlers, t).Some? && Fits(ShapeOf(r.value.value), Output(registry.handlers, t).value))
      ensures r.Success? && r.value.Some? ==>
        fresh(r.value.value) && r.value.value.parent == null &&
        (r.value.value.nodes.Some? ==> forall c :: c in r.value.value.nodes.value ==> fresh(c))
    {
      var next := lexer.Next();
      if next.Failure? {
        return Failure(next.error);
      }
      if next.value.None? {
        return Success(None);
      }
      var t := next.value.value;
      lexer.Push(t);
      var handler := Get(t.kind);
      if handler.Failure? {
        var thrown := Raise(Renamed(handler.error));
        return if thrown.Some? then Failure(thrown.value) else Success(None);
      }
      var called := Call(handler.value, Lexed(t));
      if called.Failure? {
        var thrown := Raise(Renamed(called.error));
        return if thrown.Some? then Failure(thrown.value) else Success(None);
      }
      r := called;
    }

    /** `expect(type)`: takes the next token when it has the type, and
        throws otherwise; at the end there is no token to read the type of. */
    method Expect(t: string) returns (r: Result<Option<Node>, JsError>)
      modifies this`emitted, lexer`pos, lexer`stash
      ensures old(lexer.Peek()).Failure? ==>
        r == Failure(old(lexer.Peek()).error) && unchanged(lexer) && emitted == old(emitted)
      ensures old(lexer.Peek()) == Success(None) ==>
        r == Failure(UndefinedRead("type")) && unchanged(lexer) && emitted == old(emitted)
      ensures old(lexer.Peek()).Success? && old(lexer.Peek()).value.Some? ==>
        var u := old(lexer.Peek()).value.value.kind;
        u != t ==>
          r == Failure(Error("expected \"" + t + "\", but got \"" + u + "\"")) &&
          unchanged(lexer) && emitted == old(emitted)
      ensures r.Success? ==> old(lexer.Peek()).Success? && old(lexer.Peek()).value.Some?
      ensures old(lexer.Peek()).Success? && old(lexer.Peek()).value.Some? &&
              old(lexer.Peek()).value.value.kind == t ==>
        lexer.pos == old(lexer.pos) + 1 && lexer.stash == old(lexer.stash) + [old(lexer.Peek()).value.value] &&
        Handed(registry.handlers, old(lexer.Peek()).value.value, r, old(listening), old(emitted), emitted)
      ensures !old(listening) ==> emitted == old(emitted)
    {
      var next := lexer.Peek();
      if next.Failure? {
        return Failure(next.error);
      }
      if next.value.None? {
        return Failure(UndefinedRead("type"));
      }
      var u := next.value.value.kind;
      if u != t {
        return Failure(Error("expected \"" + t + "\", but got \"" + u + "\""));
      }
      r := Next();
    }

    /** `accept(type)`: takes the next token only when it has the type;
        otherwise nothing happens and nothing is returned. */
    method Accept(t: string) returns (r: Result<Option<Node>, JsError>)
      modifies this`emitted, lexer`pos, lexer`stash
      ensures old(lexer.Peek()).Failure? ==>
        r == Failure(old(lexer.Peek()).error) && unchanged(lexer) && emitted == old(emitted)
      ensures old(lexer.Peek()) == Success(None) ==>
        r == Failure(UndefinedRead("type")) && unchanged(lexer) && emitted == old(emitted)
      ensures old(lexer.Peek()).Success? && old(lexer.Peek()).value.Some? &&
              old(lexer.Peek()).value.value.kind != t ==>
        r == Success(None) && unchanged(lexer) && emitted == old(emitted)
      ensures old(lexer.Peek()).Success? && old(lexer.Peek()).value.Some? &&
              old(lexer.Peek()).value.value.kind == t ==>
        lexer.pos == old(lexer.pos) + 1 && lexer.stash == old(lexer.stash) + [old(lexer.Peek()).value.value] &&
        Handed(registry.handlers, old(lexer.Peek()).value.value, r, old(listening), old(emitted), emitted)
    {
      var next := lexer.Peek();
      if next.Failure? {
        return Failure(next.error);
      }
      if next.value.None? {
        return Failure(UndefinedRead("type"));
      }
      if next.value.value.kind != t {
        return Success(None);
      }
      r := Next();
    }

    /** `fail()`: pops the state; a block left open other than a "root" is
        raised as unclosed. An empty state pops nothing, whose type is read. */
    method Fail() returns (thrown: Option<JsError>)
      requires Valid()
      modifies this`emitted, state`stack, state`types, state`length
      ensures Valid()
      ensures var f := Failed(old(state.Value()), old(listening));
        state.Value() == f.after && thrown == f.thrown && emitted == old(emitted) + f.reported.ToSeq()
    {
      var p := state.Pop();
      if p.Failure? {
        return Some(p.error);
      }
      if p.value.None? {
        return Some(NullRead("type"));
      }
      var node := p.value.value;
      if node.kind != "root" {
        thrown := Raise(SyntaxError("unclosed: \"" + node.kind + "\""));
      } else {
        thrown := None;
      }
    }

    /** What the handler registered under the type of the parser's own
        node `n` makes of it, or the node itself without such a handler. */
    method Handle(n: Node) returns (made: Result<Option<Node>, JsError>)
      requires n.kind != ""
      ensures var h := registry.handlers;
        && (n.kind in h && h[n.kind].fn(RecordOf(n)).Threw? ==> made == Failure(h[n.kind].fn(RecordOf(n)).e))
        && (!(n.kind in h && h[n.kind].fn(RecordOf(n)).Threw?) ==>
              made.Success? && Yields(made.value, OwnOutput(h, RecordOf(n))))
        && (n.kind !in h || h[n.kind].fn(RecordOf(n)).Same? ==> made == Success(Some(n)))
        && (made.Success? && made.value.Some? && (made.value.value != n || n.nodes.None?) ==>
              OwnOutput(h, RecordOf(n)).Some? && Fits(ShapeOf(made.value.value), OwnOutput(h, RecordOf(n)).value))
      ensures made.Success? && made.value.Some? && made.value.value != n ==>
        fresh(made.value.value) && made.value.value.parent == null &&
        (made.value.value.nodes.Some? ==> forall c :: c in made.value.value.nodes.value ==> fresh(c))
    {
      made := Success(Some(n));
      if n.kind in registry.handlers {
        assert Shown(Own(n)) == RecordOf(n);
        made := Call(registry.handlers[n.kind], Own(n));
      }
    }

    /** How `parse` pushes its own "bos" or "eos" node: through the
        handler registered for the node's type when there is one, else the
        node itself. What the handler throws is thrown on, before anything
        is pushed. */
    method PushOwn(n: Node) returns (r: Result<Option<Node>, JsError>, ghost pushed: Option<Node>, ghost u: Turn, ghost q: Ran)
      requires Valid() && Stacked() && Detached(n) && n.kind != "" && n.nodes.None?
      modifies this`emitted, state`stack, state`types, state`length, state.TopSet()`nodes, scopes.TopSet()`nodes, n`parent, n`scope
      ensures Valid() && scopes.stack == old(scopes.stack) && listening == old(listening)
      ensures forall m :: m in state.stack ==> m in old(state.stack) || fresh(m) || m == n
      ensures var h := registry.handlers;
        && (n.kind in h && h[n.kind].fn(RecordOf(n)).Threw? ==>
              r == Failure(h[n.kind].fn(RecordOf(n)).e) && pushed.None?)
        && (!(n.kind in h && h[n.kind].fn(RecordOf(n)).Threw?) ==>
              Yields(pushed, OwnOutput(h, RecordOf(n))) && (pushed.None? ==> r == Success(None)))
        && (n.kind !in h || h[n.kind].fn(RecordOf(n)).Same? ==> pushed == Some(n))
      ensures pushed.Some? ==>
        (pushed.value == n || fresh(pushed.value)) &&
        Landed(pushed.value, Thrown(r), old(Now())) && (r.Success? ==> r == Success(pushed))
      ensures pushed.None? ==> state.Value() == old(state.Value()) && emitted == old(emitted) && Log() == old(Log())
      ensures old(scopes.stack) != [] ==> Log() == old(Log()) + pushed.ToSeq()
      ensures !old(listening) ==> emitted == old(emitted)
      ensures Follows(u, OwnCue(registry.handlers, RecordOf(n))) && u.made == pushed
      ensures TurnsTo(u, old(Here()), scopes.stack, listening, q)
      ensures state.Value() == q.at.s && emitted == q.at.emitted && Thrown(r) == q.thrown
      ensures q.thrown.None? ==> Here() == q.at && Stacked()
    {
      ghost var p := Here();
      ghost var c := OwnCue(registry.handlers, RecordOf(n));
      u := Turn(c.err, false, None, Shape(None, false));
      q := Turned(u, p, scopes.stack, listening);
      var made := Handle(n);
      if made.Failure? {
        return Failure(made.error), None, u, q;
      }
      pushed := made.value;
      if made.value.None? {
        return Success(None), None, u, q;
      }
      var done;
      done, u, q := PushTurn(made.value.value, false);
      r := if done.Failure? then Failure(done.error) else Success(made.value);
    }

    /** The loop of `parse`: whatever each token's handler returns is
        pushed, until the lexer is done. The current scope records, after
        what it held, the nodes made of the tokens from where the lexer
        stood to the end. */
    method PushTokens(ghost owned: set<Node>) returns (r: Result<(), JsError>, ghost made: seq<Node>, ghost us: seq<Turn>,
                                                       ghost c: Ran)
      requires Valid() && Stacked() && scopes.stack != [] && lexer.pos <= |lexer.tokens|
      requires forall m :: m in state.stack ==> m in owned
      requires scopes.TopSet() <= owned
      modifies this`emitted, lexer`pos, lexer`stash, state`stack, state`types, state`length, owned`nodes
      ensures Valid() && scopes.stack == old(scopes.stack) && listening == old(listening)
      ensures lexer.input == old(lexer.input) && lexer.tokens == old(lexer.tokens)
      ensures forall m :: m in state.stack ==> m in old(state.stack) || fresh(m)
      ensures Log() == old(Log()) + made
      ensures r.Success? ==> lexer.Eos()
      ensures r.Success? ==> Matches(made, Outputs(registry.handlers, lexer.tokens, old(lexer.pos), |lexer.tokens|))
      ensures !old(listening) ==> emitted == old(emitted)
      ensures made == Pushes(us) && old(lexer.pos) + |us| <= |lexer.tokens|
      ensures FollowsAll(us, TokenCues(registry.handlers, lexer.tokens[old(lexer.pos)..]))
      ensures Leads(us, old(Here()), scopes.stack, listening, c)
      ensures state.Value() == c.at.s && emitted == c.at.emitted
      ensures r.Success? ==> c.thrown.None? && Here() == c.at && Stacked() && old(lexer.pos) + |us| == |lexer.tokens|
      ensures r.Failure? ==>
        if c.thrown.Some? then r.error == c.thrown.value
        else old(lexer.pos) + |us| == |lexer.tokens| && lexer.failure == Some(r.error)
    {
      ghost var p0 := lexer.pos;
      ghost var h := registry.handlers;
      ghost var ts := lexer.tokens;
      ghost var start := Log();
      ghost var here := Here();
      ghost var cs := TokenCues(h, ts[p0..]);
      made, us, c := [], [], Ran(here, None);
      assert Leads(us, here, scopes.stack, listening, c);
      assert Outputs(h, ts, p0, p0) == [];
      while !lexer.Eos()
        invariant Valid() && Stacked() && scopes.stack == old(scopes.stack) && listening == old(listening)
        invariant lexer.input == old(lexer.input) && lexer.tokens == ts
        invariant forall m :: m in state.stack ==> m in old(state.stack) || fresh(m)
        invariant !old(listening) ==> emitted == old(emitted)
        invariant registry.handlers == h
        invariant Log() == start + made
        invariant p0 <= lexer.pos <= |ts| && MatchesUpTo(made, h, ts, p0, lexer.pos)
        invariant made == Pushes(us) && p0 + |us| == lexer.pos
        invariant FollowsAll(us, cs)
        invariant c == Ran(Here(), None) && Leads(us, here, scopes.stack, listening, c)
        decreases lexer.Remaining()
      {
        assert state.TopSet() <= set m | m in state.stack;
        ghost var pos := lexer.pos;
        ghost var pushed, u, q;
        r, pushed, u, q := Step();
        Regroup(start, made, pushed.ToSeq());
        assert (us + [u])[..|us|] == us;
        if pos < |ts| {
          assert cs[|us|] == TokenCue(h, ts[pos]);
          FollowsSnoc(us, u, cs);
          LeadsSnoc(us, u, here, scopes.stack, listening, c, q);
          us, c := us + [u], q;
        }
        if r.Failure? {
          made := made + pushed.ToSeq();
          return;
        }
        assert lexer.pos == pos + 1;
        MatchesStep(h, ts, p0, pos, made, pushed);
        made := made + pushed.ToSeq();
      }
      assert lexer.pos == |ts|;
      r := Success(());
    }

    /** `push` of a node a handler gave back, as one turn of `parse`: the
        turn makes `n`, with the shape it had, and leads where `Turned`
        says. */
    method PushTurn(n: Node, ghost routed: bool) returns (r: Result<Node, JsError>, ghost u: Turn, ghost q: Ran)
      requires Valid() && Stacked() && Detached(n)
      modifies this`emitted, state`stack, state`types, state`length, state.TopSet()`nodes, scopes.TopSet()`nodes, n`parent, n`scope
      ensures Valid() && scopes.stack == old(scopes.stack) && listening == old(listening)
      ensures forall m :: m in state.stack ==> m in old(state.stack) || m == n
      ensures r.Success? ==> r.value == n
      ensures !old(listening) ==> emitted == old(emitted)
      ensures Landed(n, Thrown(r), old(Now()))
      ensures old(scopes.stack) != [] ==> Log() == old(Log()) + [n]
      ensures u == Turn(None, routed, Some(n), old(ShapeOf(n)))
      ensures TurnsTo(u, old(Here()), scopes.stack, listening, q)
      ensures state.Value() == q.at.s && emitted == q.at.emitted && Thrown(r) == q.thrown
      ensures q.thrown.None? ==> Here() == q.at && Stacked()
    {
      ghost var p := Here();
      ghost var b := Now();
      ghost var sh := ShapeOf(n);
      assert n.nodes.Some? && n.nodes.value != [] ==> n.nodes.value[0] in n.nodes.value;
      r := PushNode(n);
      assert ShapeOf(n) == sh;
      u := Turn(None, routed, Some(n), sh);
      forall i | 0 <= i < |b.s.stack| - 1 && b.s.stack[i] != b.s.stack[|b.s.stack| - 1]
        ensures IsBlock(b.s.stack[i])
      {
        assert b.s.stack[i] !in scopes.stack;
      }
      PushHolds(n, Thrown(r), b);
      LandingReads(n, sh, b, p);
      q := Turned(u, p, scopes.stack, listening);
    }

    /** One turn of the `parse` loop: whatever the next token's handler
        makes of it is pushed, and recorded in the current scope. */
    method Step() returns (r: Result<(), JsError>, ghost pushed: Option<Node>, ghost u: Turn, ghost q: Ran)
      requires Valid() && !lexer.Eos() && Stacked()
      modifies this`emitted, lexer`pos, lexer`stash, state`stack, state`types, state`length, state.TopSet()`nodes, scopes.TopSet()`nodes
      ensures Valid() && scopes.stack == old(scopes.stack) && listening == old(listening)
      ensures lexer.input == old(lexer.input) && lexer.tokens == old(lexer.tokens)
      ensures forall m :: m in state.stack ==> m in old(state.stack) || fresh(m)
      ensures r.Success? ==>
        old(lexer.pos) < |lexer.tokens| && lexer.pos == old(lexer.pos) + 1 &&
        Yields(pushed, Output(registry.handlers, lexer.tokens[old(lexer.pos)]))
      ensures scopes.stack != [] ==> Log() == old(Log()) + pushed.ToSeq()
      ensures pushed.Some? ==> fresh(pushed.value) && Landed(pushed.value, Thrown(r), old(Now()))
      ensures pushed.None? ==> state.Value() == old(state.Value()) && Log() == old(Log())
      ensures r.Success? ==> lexer.Remaining() < old(lexer.Remaining())
      ensures !old(listening) ==> emitted == old(emitted)
      ensures old(lexer.pos) >= |lexer.tokens| ==>
        lexer.failure.Some? && r == Failure(lexer.failure.value) && pushed.None? &&
        state.Value() == old(state.Value()) && emitted == old(emitted)
      ensures old(lexer.pos) < |lexer.tokens| ==>
        && Follows(u, TokenCue(registry.handlers, lexer.tokens[old(lexer.pos)])) && u.made == pushed
        && TurnsTo(u, old(Here()), scopes.stack, listening, q)
        && state.Value() == q.at.s && emitted == q.at.emitted && Thrown(r) == q.thrown
        && (q.thrown.None? ==> Here() == q.at && Stacked())
    {
      ghost var p := Here();
      ghost var t := if lexer.pos < |lexer.tokens| then lexer.tokens[lexer.pos] else Lexing.Tok("", "");
      ghost var c := TokenCue(registry.handlers, t);
      u := Turn(c.err, true, None, Shape(None, false));
      q := Turned(u, p, scopes.stack, listening);
      var next := Next();
      if next.Failure? {
        return Failure(next.error), None, u, q;
      }
      pushed := next.value;
      if next.value.None? {
        return Success(()), pushed, u, q;
      }
      var done;
      done, u, q := PushTurn(next.value.value, true);
      r := if done.Failure? then Failure(done.error) else Success(());
    }

    /** The end of `parse`: the "eos" node (or what its handler makes of
        it) is pushed, with the outcome `m`, and `fail` pops the block that
        push left open. The root block comes back only when that block is a
        "root" or its error went to the listeners. */
    method Close() returns (r: Result<Node, JsError>, ghost pushed: Option<Node>, ghost m: Moving, ghost u: Turn,
                            ghost q: Ran)
      requires Valid() && Stacked() && Detached(eos) && RecordOf(eos) == Named("eos", Some("")) && eos.nodes.None?
      modifies this`emitted, state`stack, state`types, state`length, state.TopSet()`nodes, scopes.TopSet()`nodes, eos`parent, eos`scope
      ensures listening == old(listening) && scopes.stack == old(scopes.stack)
      ensures var h := registry.handlers;
        && ("eos" in h && h["eos"].fn(RecordOf(eos)).Threw? ==>
              r == Failure(h["eos"].fn(RecordOf(eos)).e) && pushed.None? &&
              state.Value() == old(state.Value()) && emitted == old(emitted))
        && (!("eos" in h && h["eos"].fn(RecordOf(eos)).Threw?) ==>
              Yields(pushed, OwnOutput(h, Named("eos", Some("")))) &&
              Finished(m, old(listening), state.Value(), emitted, r, ast))
        && ("eos" !in h ==> pushed == Some(eos))
      ensures pushed.Some? ==> m == Landing(pushed.value, ShapeOf(pushed.value), old(Now()))
      ensures pushed.None? ==> m == Moving(old(state.Value()), None, old(emitted))
      ensures pushed.Some? && old(scopes.stack) != [] ==> Log() == old(Log()) + [pushed.value]
      ensures pushed.None? ==> Log() == old(Log())
      ensures r.Success? ==> r == Success(ast)
      ensures !old(listening) ==> emitted == old(emitted)
      ensures Follows(u, OwnCue(registry.handlers, Named("eos", Some("")))) && u.made == pushed
      ensures TurnsTo(u, old(Here()), scopes.stack, listening, q)
      ensures Finished(Moving(q.at.s, q.thrown, q.at.emitted), listening, state.Value(), emitted, r, ast)
    {
      ghost var b := Now();
      var done;
      done, pushed, u, q := PushOwn(eos);
      m := if pushed.Some? then Landing(pushed.value, ShapeOf(pushed.value), b) else Moving(b.s, None, b.emitted);
      assert pushed.Some? ==> Lands(pushed.value, Thrown(done), b);
      if done.Failure? {
        return Failure(done.error), pushed, m, u, q;
      }
      ghost var sh := if pushed.Some? then ShapeOf(pushed.value) else Shape(None, false);
      var thrown := Fail();
      assert pushed.Some? ==> ShapeOf(pushed.value) == sh;
      r := if thrown.Some? then Failure(thrown.value) else Success(ast);
    }

    /** The start of `parse`: the "bos" node (or what its handler makes
        of it) is pushed, then whatever each token's handler makes of each
        token until the lexer is done. The scope records them in that
        order. The turns `us` are those of the "bos" node and of the
        tokens, up to the one that throws. */
    method Open() returns (r: Result<(), JsError>, ghost started: Option<Node>, ghost us: seq<Turn>, ghost c: Ran)
      requires Valid() && Detached(bos) && RecordOf(bos) == Named("bos", Some("")) && bos.nodes.None?
      requires lexer.pos == 0 && state.stack == [ast] && scopes.stack != [] && Log() == []
      modifies this`emitted, lexer`pos, lexer`stash, state`stack, state`types, state`length, state.TopSet()`nodes, scopes.TopSet()`nodes, bos`nodes, bos`parent, bos`scope
      ensures Valid() && listening == old(listening) && lexer.input == old(lexer.input)
      ensures lexer.tokens == old(lexer.tokens) && scopes.stack == old(scopes.stack)
      ensures forall m :: m in state.stack ==> m in old(state.stack) || fresh(m) || m == bos
      ensures r.Success? ==> lexer.Eos() && Yields(started, OwnOutput(registry.handlers, Named("bos", Some(""))))
      ensures r.Success? && "bos" !in registry.handlers ==> started == Some(bos)
      ensures r.Success? && started.Some? ==> 0 < |Log()| && Log()[0] == started.value
      ensures r.Success? ==>
        Matches(Log(), OwnOutput(registry.handlers, Named("bos", Some(""))).ToSeq() +
                       Outputs(registry.handlers, lexer.tokens, 0, |lexer.tokens|))
      ensures !old(listening) ==> emitted == old(emitted)
      ensures Log() == Pushes(us) && 0 < |us| <= |lexer.tokens| + 1 && us[0].made == started
      ensures FollowsAll(us, Cues(registry.handlers, lexer.tokens))
      ensures Leads(us, old(Here()), scopes.stack, listening, c)
      ensures state.Value() == c.at.s && emitted == c.at.emitted
      ensures r.Success? ==> c.thrown.None? && Here() == c.at && Stacked() && |us| == |lexer.tokens| + 1
      ensures r.Failure? ==>
        if c.thrown.Some? then r.error == c.thrown.value
        else |us| == |lexer.tokens| + 1 && lexer.failure == Some(r.error)
    {
      ghost var p := Here();
      var done;
      ghost var u;
      done, started, u, c := PushBos();
      us := [u];
      if done.Failure? {
        assert Pushes(us) == u.made.ToSeq();
        assert Follows(us[0], Cues(registry.handlers, lexer.tokens)[0]);
        return Failure(done.error), started, us, c;
      }
      r, us, c := PushTokensAfter((set m | m in state.stack) + scopes.TopSet(), u, p);
    }

    /** The "bos" turn of `parse`: "bos", or what its handler makes of it,
        is pushed first and recorded alone in the current scope. */
    method PushBos() returns (r: Result<Option<Node>, JsError>, ghost started: Option<Node>, ghost u: Turn, ghost c: Ran)
      requires Valid() && Detached(bos) && RecordOf(bos) == Named("bos", Some("")) && bos.nodes.None?
      requires state.stack == [ast] && scopes.stack != [] && Log() == []
      modifies this`emitted, state`stack, state`types, state`length, state.TopSet()`nodes, scopes.TopSet()`nodes, bos`parent, bos`scope
      ensures Valid() && listening == old(listening) && scopes.stack == old(scopes.stack)
      ensures forall m :: m in state.stack ==> m in old(state.stack) || fresh(m) || m == bos
      ensures Log() == started.ToSeq() && u.made == started
      ensures "bos" !in registry.handlers ==> started == Some(bos)
      ensures r.Success? ==> Yields(started, OwnOutput(registry.handlers, Named("bos", Some(""))))
      ensures !old(listening) ==> emitted == old(emitted)
      ensures Follows(u, OwnCue(registry.handlers, Named("bos", Some(""))))
      ensures Leads([u], old(Here()), scopes.stack, listening, c)
      ensures state.Value() == c.at.s && emitted == c.at.emitted
      ensures r.Success? ==> c.thrown.None? && Here() == c.at && Stacked()
      ensures r.Failure? ==> c.thrown == Some(r.error)
    {
      ghost var p := Here();
      r, started, u, c := PushOwn(bos);
      assert Log() == started.ToSeq();
      assert [u][..0] == [] && [] + [u] == [u];
      assert Leads([], p, scopes.stack, listening, Ran(p, None));
      LeadsSnoc([], u, p, scopes.stack, listening, Ran(p, None), c);
    }

    /** The `parse` loop after the "bos" turn `u`, taken from `p`: the
        turns are `u` and then those of the tokens, and the scope records
        the nodes of the tokens after the one `u` made. */
    method PushTokensAfter(ghost owned: set<Node>, ghost u: Turn, ghost p: Point)
      returns (r: Result<(), JsError>, ghost us: seq<Turn>, ghost c: Ran)
      requires Valid() && Stacked() && scopes.stack != [] && lexer.pos == 0
      requires forall m :: m in state.stack ==> m in owned
      requires scopes.TopSet() <= owned
      requires Follows(u, OwnCue(registry.handlers, Named("bos", Some(""))))
      requires Yields(u.made, OwnOutput(registry.handlers, Named("bos", Some(""))))
      requires Leads([u], p, scopes.stack, listening, Ran(Here(), None))
      requires Log() == u.made.ToSeq()
      modifies this`emitted, lexer`pos, lexer`stash, state`stack, state`types, state`length, owned`nodes
      ensures Valid() && scopes.stack == old(scopes.stack) && listening == old(listening)
      ensures lexer.input == old(lexer.input) && lexer.tokens == old(lexer.tokens)
      ensures forall m :: m in state.stack ==> m in old(state.stack) || fresh(m)
      ensures r.Success? ==> lexer.Eos()
      ensures u.made.Some? ==> 0 < |Log()| && Log()[0] == u.made.value
      ensures r.Success? ==>
        Matches(Log(), OwnOutput(registry.handlers, Named("bos", Some(""))).ToSeq() +
                       Outputs(registry.handlers, lexer.tokens, 0, |lexer.tokens|))
      ensures !old(listening) ==> emitted == old(emitted)
      ensures Log() == Pushes(us) && 0 < |us| <= |lexer.tokens| + 1 && us[0] == u
      ensures FollowsAll(us, Cues(registry.handlers, lexer.tokens))
      ensures Leads(us, p, scopes.stack, listening, c)
      ensures state.Value() == c.at.s && emitted == c.at.emitted
      ensures r.Success? ==> c.thrown.None? && Here() == c.at && Stacked() && |us| == |lexer.tokens| + 1
      ensures r.Failure? ==>
        if c.thrown.Some? then r.error == c.thrown.value
        else |us| == |lexer.tokens| + 1 && lexer.failure == Some(r.error)
    {
      ghost var h := registry.handlers;
      ghost var ts := lexer.tokens;
      ghost var here := Here();
      ghost var first := Log();
      ghost var made, vs;
      r, made, vs, c := PushTokens(owned);
      LeadsAppend([u], vs, p, scopes.stack, listening, Ran(here, None), c);
      PushesAppend([u], vs);
      assert Pushes([u]) == u.made.ToSeq() by {
        assert [u][..0] == [];
      }
      us := [u] + vs;
      FollowsOpen(u, vs, h, ts);
      if r.Success? {
        MatchesJoin(first, made, u.made, OwnOutput(h, Named("bos", Some(""))), Outputs(h, ts, 0, |ts|));
      }
    }

    /** `parse` after `init`: opened, then closed. The turns `us` are
        those of the "bos" node, of the tokens and of the "eos" node, each
        what its cue says, taken in order from the root alone on the state
        up to the one that throws; when all of them are taken, `fail`
        closes the parse on the state they leave. The scope records the
        nodes they push. */
    method Run() returns (r: Result<Node, JsError>, ghost started: Option<Node>, ghost closed: Option<Node>,
                          ghost us: seq<Turn>, ghost c: Ran)
      requires Initialised()
      modifies this`emitted, lexer`pos, lexer`stash, state`stack, state`types, state`length, state.TopSet()`nodes, scopes.TopSet()`nodes, bos`nodes, bos`parent, bos`scope, eos`parent, eos`scope
      ensures listening == old(listening) && lexer.input == old(lexer.input) && lexer.tokens == old(lexer.tokens)
      ensures r.Success? ==> r == Success(ast) && lexer.Eos()
      ensures r.Success? ==> Matches(Log(), Expected(registry.handlers, lexer.tokens))
      ensures r.Success? && "bos" !in registry.handlers ==> started == Some(bos)
      ensures r.Success? && "eos" !in registry.handlers ==> closed == Some(eos)
      ensures !old(listening) ==> emitted == old(emitted)
      ensures Log() == Pushes(us) && FollowsAll(us, Cues(registry.handlers, lexer.tokens))
      ensures 0 < |us| && us[0].made == started
      ensures |us| == |lexer.tokens| + 2 ==> us[|us| - 1].made == closed
      ensures Leads(us, Point(LibState.Pushed(LibState.Snap([], map[], 0), ast), false, old(emitted)),
                    scopes.stack, listening, c)
      ensures if |us| == |lexer.tokens| + 2 then
          Finished(Moving(c.at.s, c.thrown, c.at.emitted), listening, state.Value(), emitted, r, ast)
        else
          && r.Failure? && state.Value() == c.at.s && emitted == c.at.emitted
          && if c.thrown.Some? then r.error == c.thrown.value
             else |us| == |lexer.tokens| + 1 && lexer.failure == Some(r.error)
    {
      ghost var p := Here();
      assert p == Point(LibState.Pushed(LibState.Snap([], map[], 0), ast), false, emitted);
      var begun;
      begun, started, us, c := Open();
      assert state.TopSet() <= set m | m in state.stack;
      assert scopes.TopSet() <= set m | m in scopes.stack;
      r, closed, us, c := Finish(begun, us, p, c);
    }

    /** The end of `parse` after `Open` ended with `begun`, its turns
        `vs` taken from `p` and leading to `c0`: nothing more when it
        failed; otherwise the "eos" turn follows them, and the scope records
        that turn's node after theirs. */
    method Finish(begun: Result<(), JsError>, ghost vs: seq<Turn>, ghost p: Point, ghost c0: Ran)
      returns (r: Result<Node, JsError>, ghost closed: Option<Node>, ghost us: seq<Turn>, ghost c: Ran)
      requires Valid() && Detached(eos) && RecordOf(eos) == Named("eos", Some("")) && eos.nodes.None?
      requires scopes.stack != [] && 0 < |vs| <= |lexer.tokens| + 1
      requires Log() == Pushes(vs) && FollowsAll(vs, Cues(registry.handlers, lexer.tokens))
      requires Leads(vs, p, scopes.stack, listening, c0) && state.Value() == c0.at.s && emitted == c0.at.emitted
      requires begun.Success? ==>
        && Stacked() && c0.thrown.None? && Here() == c0.at && |vs| == |lexer.tokens| + 1
        && Matches(Log(), OwnOutput(registry.handlers, Named("bos", Some(""))).ToSeq() +
                          Outputs(registry.handlers, lexer.tokens, 0, |lexer.tokens|))
      requires begun.Failure? ==>
        if c0.thrown.Some? then begun.error == c0.thrown.value
        else |vs| == |lexer.tokens| + 1 && lexer.failure == Some(begun.error)
      modifies this`emitted, state`stack, state`types, state`length, state.TopSet()`nodes, scopes.TopSet()`nodes, eos`parent, eos`scope
      ensures listening == old(listening) && scopes.stack == old(scopes.stack)
      ensures r.Success? ==> begun.Success? && r == Success(ast)
      ensures r.Success? ==> Matches(Log(), Expected(registry.handlers, lexer.tokens))
      ensures r.Success? && "eos" !in registry.handlers ==> closed == Some(eos)
      ensures !old(listening) ==> emitted == old(emitted)
      ensures Log() == Pushes(us) && FollowsAll(us, Cues(registry.handlers, lexer.tokens))
      ensures 0 < |us| && us[0] == vs[0]
      ensures |us| == |lexer.tokens| + 2 ==> us[|us| - 1].made == closed
      ensures Leads(us, p, scopes.stack, listening, c)
      ensures if |us| == |lexer.tokens| + 2 then
          Finished(Moving(c.at.s, c.thrown, c.at.emitted), listening, state.Value(), emitted, r, ast)
        else
          && r.Failure? && state.Value() == c.at.s && emitted == c.at.emitted
          && if c.thrown.Some? then r.error == c.thrown.value
             else |us| == |lexer.tokens| + 1 && lexer.failure == Some(r.error)
    {
      if begun.Failure? {
        return Failure(begun.error), None, vs, c0;
      }
      ghost var before := Log();
      ghost var m, u;
      r, closed, m, u, c := Close();
      FollowsSnoc(vs, u, Cues(registry.handlers, lexer.tokens));
      LeadsSnoc(vs, u, p, scopes.stack, listening, c0, c);
      us := vs + [u];
      assert us[..|vs|] == vs;
      PushesAppend(vs, [u]);
      assert Pushes([u]) == closed.ToSeq() by {
        assert [u][..0] == [];
      }
      if r.Success? {
        assert Log() == before + closed.ToSeq();
        MatchesSnoc(before, OwnOutput(registry.handlers, Named("bos", Some(""))).ToSeq() +
                            Outputs(registry.handlers, lexer.tokens, 0, |lexer.tokens|),
                    closed, OwnOutput(registry.handlers, Named("eos", Some(""))));
      }
    }

    /** `parse(input)`: a string input only; the parser is initialised on
        it and run, with the outcome `Run` states: the turns on the "bos"
        node, the tokens and the "eos" node from the new root alone on the
        state, then `fail`. */
    method Parse(input: Value) returns (r: Result<Node, JsError>, ghost started: Option<Node>, ghost closed: Option<Node>,
                                        ghost us: seq<Turn>, ghost c: Ran)
      modifies this, lexer
      ensures listening == old(listening)
      ensures !input.Str? ==>
        r == Failure(AssertionError("expected input to be a string")) && unchanged(this, lexer)
      ensures input.Str? ==> lexer.input == input.s && lexer.tokens == lexer.scan(input.s).tokens
      ensures r.Success? ==> input.Str? && r.value == ast && ast.kind == rootType && lexer.Eos()
      ensures r.Success? ==> Matches(Log(), Expected(registry.handlers, lexer.tokens))
      ensures r.Success? && "bos" !in registry.handlers ==> started == Some(bos)
      ensures r.Success? && "eos" !in registry.handlers ==> closed == Some(eos)
      ensures !old(listening) ==> emitted == old(emitted)
      ensures input.Str? ==>
        && lexer.failure == lexer.scan(input.s).failure
        && Log() == Pushes(us) && FollowsAll(us, Cues(registry.handlers, lexer.tokens))
        && 0 < |us| && us[0].made == started
        && (|us| == |lexer.tokens| + 2 ==> us[|us| - 1].made == closed)
        && Leads(us, Point(LibState.Pushed(LibState.Snap([], map[], 0), ast), false, old(emitted)),
                 scopes.stack, listening, c)
        && if |us| == |lexer.tokens| + 2 then
             Finished(Moving(c.at.s, c.thrown, c.at.emitted), listening, state.Value(), emitted, r, ast)
           else
             && r.Failure? && state.Value() == c.at.s && emitted == c.at.emitted
             && if c.thrown.Some? then r.error == c.thrown.value
                else |us| == |lexer.tokens| + 1 && lexer.failure == Some(r.error)
    {
      started, closed, us, c := None, None, [], Ran(Here(), None);
      if !input.Str? {
        return Failure(AssertionError("expected input to be a string")), started, closed, us, c;
      }
      Init(input.s);
      assert state.stack == [ast];
      r, started, closed, us, c := Run();
    }

    /** Where `last()` starts: the state's top, or the root block. */
    function LastStart(): (r: Node)
      reads this, state
      ensures state.stack != [] ==> r == state.stack[|state.stack| - 1]
      ensures state.stack == [] ==> r == ast
    {
      if state.stack == [] then ast else state.stack[|state.stack| - 1]
    }

    /** `last()`: from the state's top (or the root), down through last
        children to a node without any. */
    method Last(ghost k: nat) returns (r: Node)
      requires DescentEnds(LastStart(), k)
      ensures r == Deepest(LastStart(), k)
      ensures r.nodes.None? || r.nodes.value == []
    {
      r := if state.stack == [] then ast else state.stack[|state.stack| - 1];
      ghost var j := k;
      while r.nodes.Some? && |r.nodes.value| > 0
        invariant DescentEnds(r, j) && Deepest(r, j) == Deepest(LastStart(), k)
        decreases j
      {
        r := r.nodes.value[|r.nodes.value| - 1];
        j := j - 1;
      }
    }

    /** `create(options)`: a new parser with the given root type on the
        same handler tables, its input emptied. */
    method Create(rootType: string) returns (p: Parser)
      ensures fresh(p) && fresh(p.lexer) && p.registry == registry && p.rootType == rootType
      ensures p.lexer.scan == lexer.scan && p.lexer.input == "" && p.Initialised()
      ensures !p.listening && p.emitted == []
    {
      p := new Parser.Sharing(registry, rootType, lexer.scan);
    }
  }
}

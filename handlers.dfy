/** The parser handler table shared by backup.js and index.js: user
    handlers, the wrappers the parsers register in their place, and the
    table itself, which `create` and a re-parse hand on to a new parser so
    that both parsers then see the same table. */
module Handlers {
  import opened Base
  import opened Nodes

  /** What a user handler does with the token it is given: returns the
      token itself, returns some other value, or throws. */
  datatype Outcome = Same | Returned(v: Value) | Threw(e: JsError)

  /** A user handler, given the token's fields. Whatever else a handler
      does through `this` is not part of this model. */
  type UserHandler = Record -> Outcome

  /** `tok => tok`, put in place of a handler that is not a function. */
  function Identity(): UserHandler {
    (tok: Record) => Same
  }

  /** A registered handler: the user handler wrapped for the type it was
      registered under. */
  datatype Wrapper = Wrapper(kind: string, fn: UserHandler)

  /** The handler argument given to `set`: not a function, a plain
      function, or a handler already wrapped by a parser. */
  datatype HandlerArg = NotAFunction | Fn(f: UserHandler) | Wrapped(w: Wrapper)

  /** The user handler to wrap for a handler argument that is not already
      wrapped. */
  function UserFn(arg: HandlerArg): (f: UserHandler)
    requires !arg.Wrapped?
    ensures arg.Fn? ==> f == arg.f
    ensures arg.NotAFunction? ==> f == Identity()
  {
    if arg.Fn? then arg.f else Identity()
  }

  /** index.js `wrap(type, handler)`: an already wrapped handler comes back
      unchanged, with the type it was first wrapped for; anything else is
      wrapped for `t`, the identity standing in for a non-function. */
  function Wrap(t: string, arg: HandlerArg): (w: Wrapper)
    ensures arg.Wrapped? ==> w == arg.w
    ensures !arg.Wrapped? ==> w.kind == t && w.fn == UserFn(arg)
  {
    if arg.Wrapped? then arg.w else Wrapper(t, UserFn(arg))
  }

  /** Wrapping is idempotent: re-wrapping a wrapped handler, for any type,
      gives it back as it was. */
  lemma {:induction false} WrapIdempotent(t: string, u: string, arg: HandlerArg)
    ensures Wrap(u, Wrapped(Wrap(t, arg))) == Wrap(t, arg)
    ensures Wrap(u, Wrapped(Wrap(t, arg))).kind == if arg.Wrapped? then arg.w.kind else t
  {
  }

  /** A token's fields with the registered type put in where the type is
      missing or empty, as the wrappers do to the node they return. */
  function Stamped(rec: Record, t: string): (r: Record)
    ensures r.value == rec.value && r.nodes == rec.nodes && r.skip == rec.skip
    ensures r.isOpen == rec.isOpen && r.isClose == rec.isClose
    ensures rec.kind.Some? && rec.kind.value != "" ==> r.kind == rec.kind
    ensures rec.kind.None? || rec.kind == Some("") ==> r.kind == Some(t)
  {
    if rec.kind.None? || rec.kind == Some("") then rec.(kind := Some(t)) else rec
  }

  /** The type list after `t` is added to it once: the `types` Set of
      backup.js and the `union` of index.js. */
  function Added(types: seq<string>, t: string): (r: seq<string>)
    ensures t in r && forall u :: u in r <==> u in types || u == t
    ensures t in types ==> r == types
    ensures t !in types ==> r == types + [t]
  {
    if t in types then types else types + [t]
  }

  /** Adding keeps a list free of repeats. */
  lemma {:induction false} AddedKeepsDistinct(types: seq<string>, t: string)
    requires forall i, j :: 0 <= i < j < |types| ==> types[i] != types[j]
    ensures var r := Added(types, t); forall i, j :: 0 <= i < j < |r| ==> r[i] != r[j]
  {
    var r := Added(types, t);
    if t !in types {
      forall i, j | 0 <= i < j < |r| ensures r[i] != r[j] {
        if j == |types| {
          assert r[i] == types[i];
        }
      }
    }
  }

  /** The handler table: the wrapper of each registered type and the list
      of registered types, each listed once. */
  class Registry {
    var handlers: map<string, Wrapper>
    var types: seq<string>

    ghost predicate Valid()
      reads this
    {
      forall i, j :: 0 <= i < j < |types| ==> types[i] != types[j]
    }

    constructor ()
      ensures handlers == map[] && types == [] && Valid()
    {
      handlers := map[];
      types := [];
    }

    /** Registers `w` under `t`, replacing any earlier handler, and lists
        `t` once. */
    method Put(t: string, w: Wrapper)
      modifies this
      ensures handlers == old(handlers)[t := w] && types == Added(old(types), t)
      ensures old(Valid()) ==> Valid()
    {
      handlers := handlers[t := w];
      if t !in types {
        types := types + [t];
      }
      if old(Valid()) {
        AddedKeepsDistinct(old(types), t);
      }
    }
  }

  /** backup.js `get(type)` on a table: the handler of the type, else the
      "default" one, else the assertion fails. */
  function Lookup(handlers: map<string, Wrapper>, t: string): (r: Result<Wrapper, JsError>)
    ensures t in handlers ==> r == Success(handlers[t])
    ensures t !in handlers && "default" in handlers ==> r == Success(handlers["default"])
    ensures r.Failure? <==> t !in handlers && "default" !in handlers
    ensures r.Failure? ==> r.error == AssertionError("expected handler \"" + t + "\" to be a function")
  {
    if t in handlers then Success(handlers[t])
    else if "default" in handlers then Success(handlers["default"])
    else Failure(AssertionError("expected handler \"" + t + "\" to be a function"))
  }

  /** After a type is registered it is found; registering "default" makes
      every lookup succeed. */
  lemma {:induction false} PutThenLookup(handlers: map<string, Wrapper>, t: string, w: Wrapper, u: string)
    ensures Lookup(handlers[t := w], t) == Success(w)
    ensures u != t && u in handlers ==> Lookup(handlers[t := w], u) == Success(handlers[u])
    ensures u != t && u !in handlers && t != "default" ==> Lookup(handlers[t := w], u) == Lookup(handlers, u)
    ensures u != t && u !in handlers && t == "default" ==> Lookup(handlers[t := w], u) == Success(w)
    ensures t == "default" ==> Lookup(handlers[t := w], u).Success?
  {
  }
}

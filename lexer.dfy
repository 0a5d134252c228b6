/** The lexer as the parsers use it. How the lexer splits its input is not
    part of this model: it is a function `scan` from the input to the
    tokens it yields, in order, and the error it throws once those run out
    when some input matches no rule. The parsers only reset it, ask whether
    input remains, look at the next token and take it. */
module Lexing {
  import opened Base
  import opened Nodes

  /** A token: its type and the text it matched. */
  datatype Tok = Tok(kind: string, value: string)

  /** The token as the plain object a handler is given. */
  function TokRecord(t: Tok): (r: Record)
    ensures r.kind == Some(t.kind) && r.value == Some(t.value) && r.nodes.NoArray?
  {
    Named(t.kind, Some(t.value))
  }

  /** What the lexer makes of an input: its tokens, then an error when some
      of the input matches no rule. */
  datatype Scan = Scan(tokens: seq<Tok>, failure: Option<JsError>)

  class Lexer {
    const scan: string -> Scan
    var input: string
    var tokens: seq<Tok>
    var failure: Option<JsError>
    /** How many tokens have been taken. */
    var pos: nat
    /** The tokens handed back with `push` after they were taken. */
    var stash: seq<Tok>

    constructor (scan: string -> Scan)
      ensures this.scan == scan && input == "" && tokens == scan("").tokens
      ensures failure == scan("").failure && pos == 0 && stash == []
    {
      this.scan := scan;
      input := "";
      tokens := scan("").tokens;
      failure := scan("").failure;
      pos := 0;
      stash := [];
    }

    /** `init(input)`: starts over on a new input. */
    method Init(input: string)
      modifies this
      ensures this.input == input && tokens == scan(input).tokens
      ensures failure == scan(input).failure && pos == 0 && stash == []
    {
      this.input := input;
      tokens := scan(input).tokens;
      failure := scan(input).failure;
      pos := 0;
      stash := [];
    }

    /** `eos()`: every token has been taken and no input is left unmatched. */
    predicate Eos()
      reads this
    {
      pos >= |tokens| && failure.None?
    }

    /** How much is left to take; each `next` that does not throw lowers it. */
    function Remaining(): nat
      reads this
    {
      if pos >= |tokens| then 0 else |tokens| - pos
    }

    /** `peek()`: the next token without taking it; nothing at the end, and
        the lexer's error when the remaining input matches no rule. */
    function Peek(): (r: Result<Option<Tok>, JsError>)
      reads this
      ensures pos < |tokens| ==> r == Success(Some(tokens[pos]))
      ensures pos >= |tokens| && failure.Some? ==> r == Failure(failure.value)
      ensures Eos() ==> r == Success(None)
    {
      if pos < |tokens| then Success(Some(tokens[pos]))
      else if failure.Some? then Failure(failure.value)
      else Success(None)
    }

    /** `next()`: takes the token `peek()` shows. */
    method Next() returns (r: Result<Option<Tok>, JsError>)
      modifies this`pos
      ensures r == old(Peek())
      ensures input == old(input) && tokens == old(tokens) && failure == old(failure) && stash == old(stash)
      ensures pos == if old(pos) < |tokens| then old(pos) + 1 else old(pos)
      ensures old(pos) < |tokens| ==> Remaining() < old(Remaining())
      ensures !old(Eos()) ==> r.Failure? || (r.value.Some? && Remaining() < old(Remaining()))
    {
      r := Peek();
      if pos < |tokens| {
        pos := pos + 1;
      }
    }

    /** `push(tok)`: hands a taken token back to the lexer's record. */
    method Push(t: Tok)
      modifies this`stash
      ensures stash == old(stash) + [t]
      ensures input == old(input) && tokens == old(tokens) && failure == old(failure) && pos == old(pos)
    {
      stash := stash + [t];
    }
  }
}

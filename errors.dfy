/** lib/ParserError.js and lib/LexerError.js: the two coded error classes.
    Each keeps its name, the code it was given and the message that `format`
    builds for that code in its own category; a code the category lacks
    makes the construction itself throw the error of `format`. */
module CodedErrors {
  import opened Base
  import Codes
  import Templates
  import Format

  /** `new ParserError(code, ...rest)`. */
  function ParserError(code: string, args: seq<string>): (r: Result<JsError, JsError>)
    ensures r.Success? <==> code in Codes.Table["PARSER"]
    ensures r.Success? ==>
      r.value.name == "ParserError" && r.value.code == Some(code) &&
      Format.Format("PARSER", code, args) == Success(r.value.message)
    ensures r.Failure? ==> r.error == Error("error code " + code + " does not exist")
  {
    Coded("ParserError", "PARSER", code, args)
  }

  /** `new LexerError(code, ...rest)`. */
  function LexerError(code: string, args: seq<string>): (r: Result<JsError, JsError>)
    ensures r.Success? <==> code in Codes.Table["LEXER"]
    ensures r.Success? ==>
      r.value.name == "LexerError" && r.value.code == Some(code) &&
      Format.Format("LEXER", code, args) == Success(r.value.message)
    ensures r.Failure? ==> r.error == Error("error code " + code + " does not exist")
  {
    Coded("LexerError", "LEXER", code, args)
  }

  /** The shared shape of both constructors: the message is computed first,
      and its failure is the constructor's. */
  function Coded(name: string, category: string, code: string, args: seq<string>): Result<JsError, JsError>
    requires category in Codes.Table
  {
    var message :- Format.Format(category, code, args);
    Success(JsError(name, message, Some(code)))
  }

  /** A code of the other category is refused: the lexer's UNSAFE_REGEX is
      not a parser code. */
  lemma {:induction false} LexerCodeInParser(args: seq<string>)
    ensures ParserError("UNSAFE_REGEX", args) == Failure(Error("error code " + "UNSAFE_REGEX" + " does not exist"))
  {
    Codes.CodeSets();
    assert "UNSAFE_REGEX"[0] == 'U';
  }

  /** The parser's INVALID_INPUT is not a lexer code. */
  lemma {:induction false} ParserCodeInLexer(args: seq<string>)
    ensures LexerError("INVALID_INPUT", args) == Failure(Error("error code " + "INVALID_INPUT" + " does not exist"))
  {
    Codes.CodeSets();
    assert "INVALID_INPUT"[0] == 'I';
  }

  /** A handler missing in the parser and in the lexer is reported with the
      same message; only the name tells the two errors apart. */
  lemma {:induction false} NoHandlerInBoth(type_: string)
    ensures ParserError("NO_HANDLER", [type_]).Success? && LexerError("NO_HANDLER", [type_]).Success?
    ensures ParserError("NO_HANDLER", [type_]).value.message == LexerError("NO_HANDLER", [type_]).value.message
      == Templates.NoHandlerHead + type_ + Templates.NoHandlerTail
    ensures ParserError("NO_HANDLER", [type_]).value.name != LexerError("NO_HANDLER", [type_]).value.name
  {
    Codes.CodeSets();
    Codes.SharedTemplates();
    Format.ParserNoHandlerMessage(type_);
    assert Format.Format("LEXER", "NO_HANDLER", [type_]) == Format.Format("PARSER", "NO_HANDLER", [type_]);
  }

  /** The parser's NO_HANDLERS message has no placeholder: it is the
      template itself when no argument is given. */
  lemma {:induction false} NoHandlersMessage()
    ensures ParserError("NO_HANDLERS", []) ==
      Success(JsError("ParserError",
        "No parser handlers are registered. Handlers must be registered before calling parse.",
        Some("NO_HANDLERS")))
  {
    Codes.CodeSets();
  }
}

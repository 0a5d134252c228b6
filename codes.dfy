/** The fixed text of the templates that carry a placeholder, kept apart
    from the table so that facts about the text are cheap to establish. */
module Templates {
  /** The no-handler message is plain text around one `%s`. (The longer
      texts are written in pieces, so that facts about their characters are
      established piece by piece.) */
  const NoHandlerHead: string := "Expected " + "handler to " + "be a function, \""
  const NoHandlerTail: string := "\" is not registered."

  /** The invalid-input message is plain text around one `%o`. */
  const InvalidInputHead: string := "Expected input " + "to be a string, " + "but received: \""

  /** The text around the placeholders holds no `%`. */
  lemma PlainParts()
    ensures '%' !in NoHandlerHead && '%' !in NoHandlerTail
    ensures '%' !in InvalidInputHead
  {
    PlainPieces();
    PlainJoin("Expected ", "handler to ", "be a function, \"");
    PlainJoin("Expected input ", "to be a string, ", "but received: \"");
  }

  lemma PlainPieces()
    ensures '%' !in "Expected " && '%' !in "handler to " && '%' !in "be a function, \""
    ensures '%' !in "\" is not registered."
    ensures '%' !in "Expected input " && '%' !in "to be a string, " && '%' !in "but received: \""
  {
  }

  lemma PlainJoin(a: string, b: string, c: string)
    requires '%' !in a && '%' !in b && '%' !in c
    ensures '%' !in a + b + c
  {
  }
}

/** lib/codes.js: the table of error codes, by category, with the message
    template of each code. The `options` entry of the table holds settings
    (the error constructor and a stack flag) rather than codes. */
module Codes {

  /** One entry of a category: a message template, or a setting that has
      no `message`. */
  datatype Entry = Message(template: string) | Setting

  import opened Templates

  const NoHandlerTemplate: string := NoHandlerHead + "%s" + NoHandlerTail
  const UnmatchedTemplate: string := "Could not find a lexer handler to match: \"%s\""

  const Lexer: map<string, Entry> := map[
    "UNSAFE_REGEX" := Message("Regex should not return an empty match: \"%s\""),
    "NO_HANDLER" := Message(NoHandlerTemplate),
    "NO_HANDLERS" := Message(NoHandlerTemplate),
    "UNMATCHED_INPUT" := Message(UnmatchedTemplate),
    "NO_MATCH" := Message(UnmatchedTemplate)
  ]

  const Parser: map<string, Entry> := map[
    "NO_HANDLER" := Message(NoHandlerTemplate),
    "NO_HANDLERS" := Message("No parser handlers are registered. Handlers must be registered before calling parse."),
    "INVALID_INPUT" := Message(InvalidInputTemplate),
    "INVALID_NODE" := Message("Expected node to be an instance of Node, but received: \"%o\""),
    "INVALID_NODE_LENGTH" := Message("Nodes should be pushed onto \"node.nodes\" using \"node.push()\""),
    "MISSING_OPEN" := Message("Missing opening expression for: \"%o\""),
    "MISSING_CLOSE" := Message("Missing closing expression for: \"%o\"")
  ]

  /** The whole table: three categories of codes and the settings entry. */
  const Table: map<string, map<string, Entry>> := map[
    "options" := map["Error" := Setting, "stack" := Setting],
    "LEXER" := Lexer,
    "PARSER" := Parser,
    "COMPILER" := map[]
  ]

  /** The categories and the codes each defines; the compiler category is
      empty. */
  lemma CodeSets()
    ensures Table.Keys == {"options", "LEXER", "PARSER", "COMPILER"}
    ensures Table["LEXER"].Keys == {"UNSAFE_REGEX", "NO_HANDLER", "NO_HANDLERS", "UNMATCHED_INPUT", "NO_MATCH"}
    ensures Table["PARSER"].Keys == {"NO_HANDLER", "NO_HANDLERS", "INVALID_INPUT", "INVALID_NODE",
                                     "INVALID_NODE_LENGTH", "MISSING_OPEN", "MISSING_CLOSE"}
    ensures Table["COMPILER"] == map[]
    ensures forall code :: code in Table["options"] ==> Table["options"][code].Setting?
  {
  }

  /** Codes that share a message: the two lexer pairs, and NO_HANDLER in
      both the lexer and the parser. */
  lemma SharedTemplates()
    ensures Table["LEXER"]["NO_HANDLER"] == Table["LEXER"]["NO_HANDLERS"] == Table["PARSER"]["NO_HANDLER"]
    ensures Table["LEXER"]["UNMATCHED_INPUT"] == Table["LEXER"]["NO_MATCH"]
    ensures Table["PARSER"]["NO_HANDLERS"] != Table["PARSER"]["NO_HANDLER"]
  {
    assert |Table["PARSER"]["NO_HANDLERS"].template| != |NoHandlerTemplate|;
  }

  /** The parser entries that messages are built from. */
  lemma ParserEntries()
    ensures Table["PARSER"]["NO_HANDLER"] == Message(NoHandlerTemplate)
    ensures Table["PARSER"]["INVALID_INPUT"] == Message(InvalidInputTemplate)
  {
  }

  const InvalidInputTemplate: string := InvalidInputHead + "%o" + "\""
}

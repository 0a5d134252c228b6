# snapdragon-parser, modelled in Dafny

snapdragon-parser is a grammar-agnostic engine that turns the tokens of a
lexer into a tree of nodes. Handlers registered per token type turn each
token into a node; the parser appends every node to the block that is
current, opens a new block when a node's first child is an opener, closes
the current block when a node closes it, and at the end of the input
reports the block left open. The repository carries several drafts of this
machinery, and this project models each of them:

- `lib/state.js` (module `LibState`): the stack of open blocks with a stack
  per node type and a `length` counter. Its bookkeeping invariant
  (`Tracks`: each type's stack is the main stack filtered by that type, and
  `length` counts the main stack) is proved to be kept by `push` and `pop`.
- `lib/scope.js` (`LibScope`): a scope linked to its enclosing scope, with
  an ancestor `isInside` query and a child push/pop.
- `example/state.js` and `example/scope-backup.js` (`ExampleState`), and
  `example/scopes.js` (`ExampleScopes`): stacks that refuse a node pushed
  twice and check on `pop` that the top of the type's list is the node
  leaving the stack. Their invariant (`Filed`: every type list is the
  stack filtered by the keys the entries were filed under) is proved to be
  kept by every push and every successful pop.
- `example/parser.js` (`ExampleParser`), `example/node.js`,
  `example/block.js` and `example/ast.js` (`ExampleNodes`).
- `backup.js` (`BackupParser`): the parser with a `State` of blocks, a
  `Scopes` object, a Map of handlers and a Set of their types.
- `index.js` (`IndexParser`): the package's entry point, with a single
  block stack and an `errors` list on the root node.
- The helpers shared by these: the three naming conventions for openers and
  closers (`BlockTypes`), `lib/utils.js` (`TypeUtils`),
  `example/utils/is.js` (`AssignmentOps`), the node objects and `concat`
  (`Nodes`), the handler table and its wrappers (`Handlers`), the error
  code table `lib/codes.js` (`Codes`), message formatting and the caret
  display of `lib/format.js` (`Format`), and the coded errors
  `lib/ParserError.js` and `lib/LexerError.js` (`CodedErrors`).

Classes whose fields the JavaScript code updates in place are Dafny
classes; their methods are proved against pure step functions on a
snapshot value (`Value()`), and the properties of each class are lemmas
about those functions. JavaScript exceptions are the `Failure` side of a
`Result`, with the engine's own `TypeError` for reading a property of
`undefined` (`UndefinedRead`). An "error" listener is a flag; the errors
handed to listeners are kept in order in `emitted`.

Two quirks of `index.js` are kept as written. `get` falls back through
`this.handler.default`, a property that is never set, so a type without a
handler of its own fails even where a "default" handler is registered
(`IndexParser.DefaultNeverReached`). And `parse` never calls `allocate`:
it pushes every node the handlers return onto the block stack, so `fail`
always pops the "eos" node and reports it as unclosed. The wrappers `set`
makes close over the parser that made them, so when `parse` hands the work
to a new parser on the same handler table, the errors they catch are still
reported to the parser that registered them (`IndexParser.Parser.Sink`).
The model departs from `index.js` in `push`/`pop`, which work on the block
stack (see "## Findings"), and in not carrying a `nodes` array of a
returned object into the node (see "## Left out").

The lexer is abstract: a function `scan` from the input to the tokens it
yields and the error it throws once they run out (`Lexing`). User handlers
are functions from the token's fields to an outcome: the token itself,
another value, or a thrown error.

## Model

| member | source | states |
|---|---|---|
| TypeUtils.TypeEndsWith | lib/utils.js:3-9 | true exactly when a node is given, its type is longer than the suffix plus one, and it ends with the suffix |
| TypeUtils.TypeEndsWithShortNames | lib/utils.js:5 | for a non-empty suffix, a type that ends with it is accepted only when it is at least two characters longer than the suffix; `a.open` is rejected against `.open` |
| TypeUtils.StripType | lib/utils.js:11-13 | removes one trailing `.open` or `.close`; a type with neither is returned unchanged |
| TypeUtils.StripRemovesOneSuffix | lib/utils.js:12 | only the last suffix goes: `a.open.close` becomes `a.open`, and `a.close.open` becomes `a.close` |
| TypeUtils.StripPairs | lib/utils.js:12 | stripping `T.open` or `T.close` gives `T` |
| AssignmentOps.IsAssignmentOperator | example/utils/is.js:4-6 | true exactly for a string in the list; membership is strict, so non-strings give false |
| AssignmentOps.OperatorShape | example/utils/is.js:2 | the list has 13 distinct entries, each one to four characters long and ending in `=` |
| AssignmentOps.OperatorHeads | example/utils/is.js:2 | apart from `=`, no entry starts with `=` or `!`, and an entry starting with `<` or `>` has at least three characters |
| AssignmentOps.ComparisonsAreNotAssignments | example/utils/is.js:4-6 | `==`, `===`, `!=`, `!==`, `<=` and `>=` are not assignment operators |
| AssignmentOps.ShiftAndPlainAssignments | example/utils/is.js:2-6 | `>>>=` and `=` are assignment operators |
| Codes.CodeSets | lib/codes.js:1-49 | the table has the categories options, LEXER, PARSER and COMPILER; LEXER has exactly five codes, PARSER exactly seven, COMPILER none, and the options entries have no message |
| Codes.SharedTemplates | lib/codes.js:10-26 | LEXER NO_HANDLER and NO_HANDLERS share the PARSER NO_HANDLER template, UNMATCHED_INPUT and NO_MATCH share one template, and the PARSER NO_HANDLERS template differs from its NO_HANDLER one |
| Codes.ParserEntries | lib/codes.js:24-32 | the PARSER NO_HANDLER and INVALID_INPUT entries are the `%s` and `%o` templates |
| Format.Format | lib/format.js:18-28 | fails with `error codes T does not exist` for an unknown category and `error code C does not exist` for a code missing from it, and succeeds otherwise |
| Format.UtilFormat | lib/format.js:27 | `util.format` on the table's templates: the template alone without arguments, otherwise the placeholders filled and the rest appended; the lemmas below state it case by case |
| Format.FormatWithoutPlaceholder | lib/format.js:27 | a template without `%` comes back as it is, followed by the arguments, each after a space |
| Format.FormatOneString | lib/format.js:27 | a `%s` is replaced by the first argument and the rest are appended; with no argument the template is returned as it is |
| Format.FormatOneInspected | lib/format.js:27 | a `%o` is replaced by the quoted first argument |
| Format.FormatTwoStrings | lib/format.js:27 | two `%s` take the first two arguments in order |
| Format.PercentPercent | lib/format.js:27 | `%%` stays as it is without arguments and becomes one `%` with one |
| Format.ParserNoHandlerMessage | lib/format.js:18-28 | PARSER NO_HANDLER for a type gives `Expected handler to be a function, "T" is not registered.` |
| Format.InvalidInputMessage | lib/format.js:18-28 | PARSER INVALID_INPUT gives its message with the quoted argument |
| Format.SettingMessage | lib/format.js:18-28 | a settings entry has no message, so the format of an undefined template is `undefined` followed by the arguments |
| Format.EscapeNewlines | lib/format.js:40 | the result holds no line feed and is no shorter than the input |
| Format.EscapeLength | lib/format.js:40 | each line feed adds exactly one character |
| Format.Dashes | lib/format.js:49 | `new Array(n).join('-')`: n - 1 dashes for n ≥ 1, none for 0, a RangeError for a negative n |
| Format.Excerpt | lib/format.js:40-50 | the last twenty characters of the escaped consumed input, a line feed, and the dash line ending in `^`; `CaretUnderToken` states where the caret stands |
| Format.ShowPosition | lib/format.js:39-60 | `showPosition`: the excerpt, preceded by `<line:L column:C>` when both are numbers; `CaretUnderToken` and `PositionHeader` state it |
| Format.CaretUnderToken | lib/format.js:40-50 | the excerpt is the last (at most 20) characters of the escaped input; for a token no longer than it, the caret line is exactly (excerpt length - token length) dashes and `^`; it fails exactly when the token is longer than the excerpt plus one |
| Format.PositionHeader | lib/format.js:52-59 | without a line and column the output is the excerpt alone; with them it is `<line:L column:C>`, a space, and the excerpt between line feeds |
| CodedErrors.ParserError | lib/ParserError.js:13-18 | succeeds exactly for a PARSER code, with name `ParserError`, the code, and the message `format` builds; otherwise it throws `error code C does not exist` |
| CodedErrors.LexerError | lib/LexerError.js:13-18 | the same for LEXER codes and the name `LexerError` |
| CodedErrors.LexerCodeInParser | lib/ParserError.js:16 | `UNSAFE_REGEX` is refused by ParserError |
| CodedErrors.ParserCodeInLexer | lib/LexerError.js:16 | `INVALID_INPUT` is refused by LexerError |
| CodedErrors.NoHandlerInBoth | lib/codes.js:10-26 | NO_HANDLER gives the same message in both classes; only the name differs |
| CodedErrors.NoHandlersMessage | lib/codes.js:27-29 | PARSER NO_HANDLERS with no argument gives its template unchanged |
| BlockTypes.DotOpenShape | index.js:305-307 | `isBlockOpen` holds exactly for a type `B.open` with a non-empty `B`; example/parser.js:52-54 makes the same test |
| BlockTypes.IsDotOpen | index.js:305-307 | `isBlockOpen` on a type: at least six characters ending in `.open`; `DotOpenShape` states its shape |
| BlockTypes.IsDotClose | index.js:309-311 | `isBlockClose` on a type: at least seven characters ending in `.close`; `DotCloseShape` states its shape |
| BlockTypes.DotOpenNotClose | index.js:305-311 | no type is both an opener and a closer name in the dotted convention |
| BlockTypes.IsSuffixOpen | backup.js:317 | the last test of backup.js `isBlockOpen`: at least five characters ending in `open` |
| BlockTypes.IsSuffixClose | backup.js:324 | the last test of backup.js `isBlockClose`: at least six characters ending in `close` |
| BlockTypes.IsDefaultClose | backup.js:302-306 | the default of backup.js `isClose`: the first dot-piece of the type is the parent's type and the second is `close`; `DefaultCloseShape` states its shape |
| BlockTypes.DotCloseShape | index.js:309-311 | `isBlockClose` holds exactly for a type `B.close` with a non-empty `B`; example/parser.js:56-58 makes the same test |
| BlockTypes.DotConventionIsStricter | backup.js:313-325 | every `.open`/`.close` name passes backup.js's suffix test for `open`/`close` |
| BlockTypes.SuffixConventionIsLooser | backup.js:317-324 | `reopen` and `enclose` pass backup.js's suffix tests but are not `.open`/`.close` names |
| BlockTypes.TypeEndsWithAgainstDotOpen | lib/utils.js:3-9 | `typeEndsWith` against `.open` or `.close` accepts the dotted names only from seven (eight) characters on; `a.open` is an opener but is rejected |
| BlockTypes.StripDotNames | lib/utils.js:11-13 | stripping an opener or closer name leaves its non-empty base |
| BlockTypes.DefaultCloseShape | backup.js:302-306 | the default `isClose(node, parent)` holds exactly when the parent's type has no dot and the node's type is that type followed by `.close`, alone or followed by a further dot-piece |
| BlockTypes.DefaultCloseIsDotClose | backup.js:302-306 | `P.close` closes a dot-free `P` under the default rule and is also a closer name |
| Listing.ListedPush | example/state.js:20-22 | filing one more entry extends exactly the listing of its key |
| LibState.OfType | lib/state.js:58 | the type-filtered view of the main stack: every entry has the type and it is no longer than the stack |
| LibState.Inside | lib/state.js:22-27 | false whenever `length` is 0; otherwise true exactly when a stack exists for the type and is not empty |
| LibState.Pushed | lib/state.js:53-62 | `push` appends the node to the main stack and to its type's stack (created when missing), leaves the other type stacks alone and adds one to `length` |
| LibState.Popped | lib/state.js:64-78 | an empty stack gives null and changes nothing; otherwise the top leaves the main stack and, when the call succeeds, is the result |
| LibState.State.constructor | lib/state.js:10-16 | an empty main stack, no type stacks, `length` 0 |
| LibState.State.HasType | lib/state.js:18-20 | true exactly when a stack exists for the type |
| LibState.State.IsInside | lib/state.js:22-27 | the result is `Inside` of the current state |
| LibState.State.Current | lib/state.js:29-31 | the last node pushed, none on an empty stack |
| LibState.State.Prev | lib/state.js:37-39 | the same node as `current()` |
| LibState.State.Push | lib/state.js:53-62 | anything but a node fails `expected a node` and changes nothing; a node gives the state `Pushed` and is returned |
| LibState.State.Pop | lib/state.js:64-78 | result and new state are those of `Popped`: an "eos" top leaves the main stack only; any other top leaves its type's stack and `length` drops by one; a type without a stack fails with `expected stack for state.type "T" to be an array` |
| LibState.EmptyTracks | lib/state.js:10-16 | a new State keeps the bookkeeping invariant |
| LibState.PushTracks | lib/state.js:53-62 | pushing any node but an "eos" keeps the invariant |
| LibState.PopTracks | lib/state.js:64-78 | while the invariant holds, `pop` of a non-empty stack never fails, returns the top and keeps the invariant |
| LibState.PushThenPop | lib/state.js:53-78 | `push` then `pop` of a non-"eos" node returns it and restores the main stack, every type stack and `length` |
| LibState.EosPop | lib/state.js:67 | popping an "eos" node leaves the type stacks and `length` untouched |
| LibState.InsideMeansOnStack | lib/state.js:22-27 | while the invariant holds, `isInside(t)` is true exactly when a node of type t is on the main stack |
| LibScope.AfterPush | lib/scope.js:84-89 | the list of nodes, created when absent, gains the node at its end |
| LibScope.PopOf | lib/scope.js:108-112 | an absent or empty list gives nothing and stays as it was; otherwise the last node is taken off and returned |
| LibScope.PushThenPop | lib/scope.js:84-112 | a pop right after a push returns the node and restores the list (an absent list comes back empty) |
| LibScope.Scope.constructor | lib/scope.js:17-28 | the node's `scope` is the new scope, which takes the node's type and has no parent and no nodes |
| LibScope.Scope.Push | lib/scope.js:84-89 | a missing node changes nothing and returns nothing; otherwise the node is appended, its `scope` set to this scope, and the new length returned |
| LibScope.Scope.Pop | lib/scope.js:108-112 | result and list are those of `PopOf` |
| LibScope.Scope.IsInside | lib/scope.js:64-69 | false when there is no parent |
| LibScope.InsideMeansAncestor | lib/scope.js:64-69 | `isInside(t)` holds exactly when some strict ancestor along the parent chain has type t; the scope itself does not count |
| ExampleState.Initial | example/state.js:4-9 | the initial node alone on the stack and in `nodes`, and listed under "root" whatever its own type |
| ExampleState.Touched | example/state.js:11-13 | `type(t)` creates the list for t and changes no list's contents |
| ExampleState.PushStep | example/state.js:15-24 | a node in `nodes`, even one popped since, fails with `node has already been pushed`; any other is appended to the stack, to `nodes` and to exactly its own type's list, and returned |
| ExampleState.PopStep | example/state.js:26-34 | the top leaves the stack and is returned when the top of its type's list was that same node; `nodes` never shrinks; an empty stack fails reading `type` |
| ExampleState.State.constructor | example/state.js:4-9 | the state is `Initial(node)`, and the invariant holds |
| ExampleState.State.List | example/state.js:11-13 | the list for a type, empty where there is none |
| ExampleState.State.Type | example/state.js:11-13 | returns the type's list and leaves the state `Touched` |
| ExampleState.State.Push | example/state.js:15-24 | result and new state are those of `PushStep`; "push" is emitted on success only; the invariant is kept |
| ExampleState.State.ScopePush | example/scope-backup.js:4-12 | the override makes the same change and returns the node, emitting "node" instead; a node seen before fails |
| ExampleState.State.Pop | example/state.js:26-34 | result and new state are those of `PopStep`; "pop" is emitted on success; a successful pop keeps the invariant |
| ExampleState.State.IsInside | example/state.js:36-38 | true exactly when the type's list is not empty |
| ExampleState.State.Current | example/state.js:40-42 | the last element of the stack |
| ExampleState.State.Inside | example/state.js:52-54 | the type of the current node; an empty stack fails |
| ExampleState.LastOfArrays | example/state.js:44-50 | the descent stops at a node without `nodes`, returns the current node when it has none, and fails on an empty `nodes` array |
| ExampleState.State.Last | example/state.js:44-50 | the loop reaches `LastOfArrays` of the current node; an empty stack fails |
| ExampleState.InitialFiled | example/state.js:4-9 | the initial state keeps the invariant, its node filed under "root" |
| ExampleState.PushFiled | example/state.js:15-24 | a successful push keeps the invariant, the node filed under its type |
| ExampleState.PopFailsOnlyOnInitial | example/state.js:26-34 | while the invariant holds, a pop fails only when it reaches the initial node of a type other than "root" |
| ExampleState.PopFiled | example/state.js:26-34 | a successful pop keeps the invariant with the last key gone |
| ExampleState.PushedOnlyOnce | example/state.js:15-18 | after a push, a second push of the node fails, even once it has been popped |
| ExampleState.PushThenPop | example/state.js:15-34 | a pop right after a push returns the node and restores the stack and every list |
| ExampleState.InitialPop | example/state.js:6-31 | an initial node of a type other than "root" cannot be popped: `unexpected node` |
| ExampleState.InsideMeansListed | example/state.js:36-38 | while the invariant holds, `isInside(t)` is true exactly when an entry on the stack is filed under t |
| ExampleScopes.Scope.constructor | example/scope.js:8-10 | the scope keeps the node and its type |
| ExampleScopes.Lookup | example/scopes.js:16-19 | the handler of the type, else the "default" one, else none |
| ExampleScopes.RegisterThenLookup | example/scopes.js:16-22 | a registered handler is found under its type, other registered types are unaffected, and registering "default" answers every unregistered type |
| ExampleScopes.Initial | example/scopes.js:7-14 | a scope for the node alone on the stack and the chain, listed under "root" |
| ExampleScopes.Touched | example/scopes.js:31-33 | `type(t)` creates the list for t and changes no list's contents |
| ExampleScopes.PushStep | example/scopes.js:35-46 | a node in the chain fails with `scope has already been pushed`; otherwise a new scope goes onto the stack and exactly its type's list, the node onto the chain, and the scope is returned |
| ExampleScopes.PopStep | example/scopes.js:48-56 | the top scope leaves the stack and is returned when it was the top of its type's list; on a mismatch the message's `scope.inspect()` is not a function, so a TypeError is thrown; the chain never shrinks |
| ExampleScopes.Scopes.constructor | example/scopes.js:7-14 | the state is `Initial` of a new scope for the node, with no handlers; the invariant holds |
| ExampleScopes.Scopes.Register | example/scopes.js:20-21 | `handler(type, fn)` with a function stores it under the type and changes nothing else |
| ExampleScopes.Scopes.Handler | example/scopes.js:16-19 | without a function, the result is `Lookup` |
| ExampleScopes.Scopes.Handle | example/scopes.js:24-29 | the result of the handler found for the node's type, undefined when there is none |
| ExampleScopes.Scopes.List | example/scopes.js:31-33 | the list for a type, empty where there is none |
| ExampleScopes.Scopes.Type | example/scopes.js:31-33 | returns the type's list and leaves the state `Touched` |
| ExampleScopes.Scopes.Push | example/scopes.js:35-46 | succeeds exactly for a node not in the chain, with a fresh scope for it; result and state are those of `PushStep`; "push" is emitted on success; the invariant is kept |
| ExampleScopes.Scopes.Pop | example/scopes.js:48-56 | result and state are those of `PopStep`; "pop" is emitted on success; a successful pop keeps the invariant |
| ExampleScopes.Scopes.IsInside | example/scopes.js:58-60 | true exactly when the type's list is not empty |
| ExampleScopes.Scopes.Prev | example/scopes.js:62-64 | the scope below the top, none with fewer than two |
| ExampleScopes.Scopes.Current | example/scopes.js:66-71 | the top scope, or the property asked for; none on an empty stack |
| ExampleScopes.PushFiled | example/scopes.js:35-46 | a successful push keeps the invariant |
| ExampleScopes.PopFailsOnlyOnInitial | example/scopes.js:48-53 | while the invariant holds, a pop fails only on the initial scope of a type other than "root" |
| ExampleScopes.PopFiled | example/scopes.js:48-56 | a successful pop keeps the invariant with the last key gone |
| ExampleScopes.PushedOnlyOnce | example/scopes.js:35-38 | a node pushed once is refused again, even after its scope was popped |
| ExampleScopes.PushThenPop | example/scopes.js:35-56 | a pop right after a push returns the new scope and restores the stack and every list |
| ExampleScopes.FirstNodeNotInChain | example/scopes.js:9-13 | the chain starts with the initial scope, not its node, so that node can still be pushed once |
| ExampleScopes.InsideMeansListed | example/scopes.js:58-60 | while the invariant holds, `isInside(t)` is true exactly when a scope on the stack is filed under t |
| ExampleParser.Parser.constructor | example/parser.js:9-14 | a root AST with empty `nodes` and `errors`, and the scopes and state made for it |
| ExampleParser.Parser.Push | example/parser.js:16-27 | emits "block.open", then the state's `push` with its duplicate check decides the error and the new state; the invariants are kept |
| ExampleParser.Parser.Pop | example/parser.js:29-39 | emits "block.close" and pops the state's top whatever the argument |
| ExampleParser.Parser.Current | example/parser.js:41-43 | the state's current node |
| ExampleParser.Parser.Scope | example/parser.js:44-46 | the top scope, none on an empty stack |
| ExampleParser.Parser.IsBlock | example/parser.js:48-50 | true exactly when the node has children and the first one opens; an empty children array fails reading `type` |
| ExampleParser.Parser.IsBlockOpen | example/parser.js:52-54 | true exactly when the type is a non-empty name followed by `.open`; such a type never names a closing node |
| ExampleParser.Parser.IsBlockClose | example/parser.js:56-58 | true exactly when the type is a non-empty name followed by `.close`; such a type never names an opening node |
| ExampleParser.Parser.IsScopeOpen | example/parser.js:60-62 | true exactly when the node is a block and no "bracket" scope is open; the scopes are asked only for a block |
| ExampleParser.Parser.IsScopeClose | example/parser.js:64-66 | true exactly when the node is the current scope's node |
| ExampleParser.Parser.IsInside | example/parser.js:68-78 | true exactly when a scope or else a block of the type is open; the state is asked only when no scope matched |
| ExampleNodes.NewAst | example/ast.js:6-10 | a fresh node of type "root" with empty `errors` and `nodes` |
| ExampleNodes.NewBlock | example/block.js:6-23 | a fresh block whose type is the token's type less its last five characters, with exactly one child: a plain node of the token's type |
| ExampleNodes.MakeNode | example/node.js:8-19 | a node is returned as the same object; type "root" gives an AST; a type whose last five characters are `.open` gives a Block; anything else a plain node; the checks run in that order |
| ExampleNodes.BlockTypeRestores | example/block.js:7 | the block's type followed by `.open` gives the token's type back |
| ExampleNodes.ShortOpen | example/node.js:16-18 | there is no length check: `.open` itself makes a Block of the empty type, though it is no opener name |
| ExampleNodes.ShortTypesArePlain | example/node.js:16 | a type shorter than five characters never makes a Block |
| Nodes.Build | backup.js:112-136 | `node(obj)`: a fresh node with the object's fields; a children array is made into distinct fresh nodes, child i with `parent` the node and `index` i |
| Nodes.FromRecord | example/node.js:9 | the node library's constructor on a plain object: a fresh node with the given type and the object's value, skip flag and predicates, without children, parent or errors |
| Nodes.Spliced | backup.js:501-503 | the children `concat` copies: no more than there were, and none of type "bos" or "eos" |
| Nodes.SplicedKeeps | backup.js:500-507 | a child is copied exactly when it is neither "bos" nor "eos" |
| Nodes.SplicedAll | index.js:491-499 | a tree without "bos" and "eos" children is copied whole |
| Nodes.SplicedAppend | backup.js:500-507 | copying two child lists in turn is copying their concatenation |
| Nodes.Concat | backup.js:500-507 | the other tree's children but "bos" and "eos" are appended to the node in order and point to it; without children it throws; index.js:491-499 is the same function |
| Handlers.UserFn | backup.js:170-172 | a handler that is not a function becomes the identity |
| Handlers.Wrap | index.js:232-240 | an already wrapped handler comes back unchanged; anything else is wrapped for the type |
| Handlers.WrapIdempotent | index.js:238-240 | wrapping a wrapped handler again, for any type, gives it back as it was |
| Handlers.Stamped | backup.js:183-185 | the handler's type is put in where the node's type is missing or empty, and nothing else changes |
| Handlers.Added | backup.js:199-201 | the type is listed, only once: the list is unchanged when it is there, and gains it at the end otherwise |
| Handlers.AddedKeepsDistinct | backup.js:199-201 | a list of distinct types stays distinct |
| Handlers.Registry.constructor | backup.js:61-62 | no handlers and no types |
| Handlers.Registry.Put | backup.js:198-201 | the wrapper replaces any earlier one for the type, the type is listed once, and the types stay distinct |
| Handlers.Lookup | backup.js:220-224 | the handler of the type, else the "default" one; fails with `expected handler "T" to be a function` exactly when there is neither |
| Handlers.PutThenLookup | backup.js:198-224 | a registered type is found, other types are unaffected, and registering "default" makes every lookup succeed |
| BackupParser.IsBlockOpen | backup.js:313-318 | the current block's `isOpen` decides first, then the node's own (without children), then the name: at least five characters ending in `open`; a false answer means the name fails the test; a missing current block is read from |
| BackupParser.IsBlockClose | backup.js:320-325 | the same with `isClose` and names of at least six characters ending in `close` |
| BackupParser.IsBlock | backup.js:309-311 | `isBlock(node)`: true exactly when the node has a children array with some node in it |
| BackupParser.IsClosedBlock | backup.js:327-329 | `isClosedBlock`: a block whose last child closes it, the block itself being the `prev` its `isBlockClose` consults; `OpenOrClosed` states its properties |
| BackupParser.IsOpenBlock | backup.js:331-333 | `isOpenBlock`: a block whose last child does not close it; `OpenOrClosed` states its properties |
| BackupParser.IsClose | backup.js:298-307 | the parent's own `isClose` decides when it has one; otherwise the node closes a dot-free parent type `P` exactly when its type is `P.close` or starts with `P.close.` |
| BackupParser.OpenOrClosed | backup.js:327-333 | every block is exactly one of open and closed; without predicates, it is closed exactly when its last child's name ends in `close` |
| BackupParser.Moved | backup.js:365-373 | the state gains the node when it opens a block, and loses its top when the node closes the block that was current |
| BackupParser.Moves | backup.js:365-388 | a failed pop is thrown; a node that opens a block and closes the previous one pops itself and is reported as `expected "T.close" node, received: "T"` unless it closes its own type |
| BackupParser.MovedTracks | backup.js:365-373 | while the state's bookkeeping is exact, the move never fails and keeps it exact; the stack gains the opener, loses the closed block, or stays as it was |
| BackupParser.Landing | backup.js:351-380 | what `push(n)` does to the state and the errors given what it read first: it throws without a scope or without a current block, leaves the state alone for a `skip` node, and otherwise moves the state as `Moves` says |
| BackupParser.Made | backup.js:176-190 | a wrapper makes a record exactly of the token (when the handler returns it) or of a returned plain object, with its value and skip flag, and stamped with the wrapper's type where it has none |
| BackupParser.Output | backup.js:401-413 | what `next` makes of a token comes only from a handler `get` finds that does not throw; a handler under the token's own type that returns the token gives the token back |
| BackupParser.OwnOutput | backup.js:459-464 | without a handler under its type the "bos" or "eos" record is pushed as it is; nothing is made exactly when the handler throws or returns no object |
| BackupParser.Outputs | backup.js:463 | what is made of the tokens from i to j, in order, has at most one record per token |
| BackupParser.OutputsEach | backup.js:463 | when every token makes something, the records made are one per token, each the one its own token makes |
| BackupParser.IdentityOutputs | backup.js:463 | with handlers that return the token, the records made are the tokens themselves, one for one |
| BackupParser.Expected | backup.js:461-464 | what `parse` pushes, in order: "bos", each token and "eos" as their handlers make them; without their handlers "bos" comes first and "eos" last |
| BackupParser.Matches | backup.js:463 | nodes match records one for one (`MatchesEach`) |
| BackupParser.MatchesEach | backup.js:463 | a match is exactly equal lengths with each node showing the record at the same place |
| BackupParser.MatchesSnoc | backup.js:463 | a node made of the expected record, or nothing when nothing is expected, extends a match |
| BackupParser.MatchesStep | backup.js:463 | what one more token's handler makes extends the match of the tokens read so far |
| BackupParser.MatchesJoin | backup.js:462-463 | the node first pushed followed by the token nodes matches what "bos" makes followed by the tokens' records, with that node first |
| BackupParser.MatchesAppend | backup.js:461-464 | matches put side by side match |
| BackupParser.Failed | backup.js:554-559 | `fail()` on a state: its top comes off; nothing is thrown exactly when the popped node is a "root" or there are listeners; what is reported is `unclosed: "T"` for the popped type, and only to listeners |
| BackupParser.FailedCases | backup.js:554-559 | case by case: a failed pop is thrown on, a missing node has its type read, a "root" ends quietly, and any other type is raised as unclosed, to the listeners when there are any |
| BackupParser.FailedOnRoot | backup.js:554-559 | with only the root block left, `fail` empties the state and raises "unclosed" exactly when the root's type is not "root" |
| BackupParser.Finished | backup.js:464-468 | how `parse` ends after the "eos" push: an error the push throws ends it; otherwise `fail` runs on the state the push left, its report is appended to the errors handed to listeners, and the root comes back unless `fail` throws |
| BackupParser.Parser.Lands | backup.js:351-380 | what `push(n)` leaves against what it read: state and errors as `Landing` says, `n` given and recorded in the current scope, and appended to the current block unless something is thrown |
| BackupParser.TokenCue | backup.js:401-413 | what `next` does with a lexed token: no error exactly when a handler is found and does not throw, and then the node made is `Output`; an error is renamed "ParserError" and goes through `error` |
| BackupParser.OwnCue | backup.js:459-464 | what `parse` does with its "bos" or "eos" node: an error exactly when the handler under the node's type throws, thrown on as it is without `error`; otherwise the push of `OwnOutput` |
| BackupParser.TokenCues | backup.js:463 | one `TokenCue` per token, in order |
| BackupParser.Cues | backup.js:461-464 | what `parse` asks of the handlers: the "bos" cue, one cue per token, the "eos" cue, in that order |
| BackupParser.At | backup.js:351-380 | what a push reads of the state, the scopes, the errors handed to listeners, and whether the current block has children |
| BackupParser.LandingReads | backup.js:351-380 | `Landing` depends on the current block's children only through whether there are any, so `At` keeps all it reads |
| BackupParser.Turned | backup.js:461-464 | one turn: a routed error goes to the listeners when there are any and is thrown otherwise, an own-node error is thrown; nothing made leaves the state as it was; a node made is pushed as `Landing` says, after which the current block has a child |
| BackupParser.ChainAppend | backup.js:461-464 | turns taken in two runs lead where the second run leads from the point the first reached, unless the first threw |
| BackupParser.Pushes | backup.js:461-464 | the nodes the turns push, at most one per turn, none when no turn makes one |
| BackupParser.PushesAppend | backup.js:461-464 | the nodes pushed by two runs of turns are those of the first followed by those of the second |
| BackupParser.LeadsSnoc | backup.js:463 | one more turn is taken from where the turns so far led, and not at all once one threw |
| BackupParser.LeadsAppend | backup.js:462-463 | the token turns go on from where the "bos" turn led |
| BackupParser.FollowsSnoc | backup.js:463 | a turn that does what the next cue says extends turns that do what theirs say |
| BackupParser.FollowsOpen | backup.js:462-463 | the "bos" turn followed by the token turns does what the cues of `parse` say, in order |
| BackupParser.OuterCloseLeavesTop | backup.js:351-380 | a node that closes the block below the current one, but neither closes nor opens on the current one, leaves the state as it was; `fail` then pops the current block, leaving the outer one below, and reports the current one as `unclosed: "B"` unless it is the root, to the listeners when there are any and thrown otherwise |
| BackupParser.Parser.PushHolds | backup.js:351-380 | after a push the state and errors are exactly `Landing` on what the push read, and, when nothing was thrown, every node below the top of the state is a block and the current block has a child |
| BackupParser.Deepest | backup.js:253-255 | the descent ends on a node without children, and starts there when the node has none |
| BackupParser.Renamed | backup.js:409-411 | an error caught by `next` is renamed "ParserError", with message and code kept |
| BackupParser.Parser.constructor | backup.js:34-67 | empty handler tables, the lexer on the input, the parser initialised, no listeners |
| BackupParser.Parser.Sharing | backup.js:481-489 | a parser on the same handler tables with an empty input, initialised |
| BackupParser.Parser.Parts | backup.js:73-83 | "bos" and "eos" nodes with empty values, a root block of the configured type alone on the state, and a "root" node on the scopes |
| BackupParser.Parser.Init | backup.js:73-83 | the lexer restarted on the input and fresh trackers and nodes as `Parts` makes them |
| BackupParser.Parser.Raise | backup.js:539-548 | the error goes to the listeners when there are any and is thrown otherwise |
| BackupParser.Parser.Listen | backup.js:539-548 | an "error" listener is registered, and nothing has been handed to listeners by doing so |
| BackupParser.Parser.MakeNode | backup.js:112-136 | a falsy value fails `expected a string or object`; a string gives a node of that type and value; an object is made into a node with its children linked and numbered |
| BackupParser.Parser.Set | backup.js:166-203 | an already wrapped handler comes back and nothing is registered; any other is wrapped for the type (the identity for a non-function), replaces the type's handler and lists the type once |
| BackupParser.Parser.Get | backup.js:220-224 | the result is `Lookup` of the handler table |
| BackupParser.Parser.Has | backup.js:226-228 | true exactly when a handler is registered under the type itself |
| BackupParser.Parser.Call | backup.js:176-190 | a thrown error is thrown on; a plain object (the token included) becomes a fresh node given the handler's type when it has none; any other result gives nothing |
| BackupParser.Parser.Pop | backup.js:382-390 | the state's top is popped and returned; a top that is not a block fails `expected a block node`; a node that does not close it is reported as `expected "T.close" node, received: "U"` |
| BackupParser.Parser.Move | backup.js:365-373 | the state and the errors change as `Moves` says |
| BackupParser.Parser.Attach | backup.js:358-359 | the node is given the current scope and appended to it; without a scope, its `push` is read from |
| BackupParser.Parser.PushNode | backup.js:351-380 | the node is recorded in the current scope; unless marked `skip`, it is pushed when it opens a block and pops the block it closes; then it is appended to the block that was current and returned |
| BackupParser.Parser.Push | backup.js:351-380 | a falsy value pushes nothing and changes nothing; a plain object with a type becomes a fresh node showing its fields, and a node is taken as it is; either is then pushed as `Lands` says: the state and the errors are those of `Landing` on what `push` read first, the node is recorded in the current scope and, unless something is thrown, appended to the current block; other values fail |
| BackupParser.Parser.PushRecord | backup.js:353-355 | a typed plain object is made into a fresh node showing its fields, and that node is pushed as `Lands` says and recorded in the current scope |
| BackupParser.Parser.Next | backup.js:401-413 | the next token is taken and handed back to the lexer, or nothing at the end; for a token the outcome is `Handed`: a missing handler or an error the handler throws is renamed "ParserError" and raised, to the listeners when there are any; otherwise the result is the node made of what the handler returns (`Output`), or nothing |
| BackupParser.Parser.Expect | backup.js:422-428 | a token of another type fails `expected "T", but got "U"`, and the end of input fails reading `type`; a token of the type is taken, and the result is what `next` makes of it (`Handed`) |
| BackupParser.Parser.Accept | backup.js:437-442 | a token of another type leaves the lexer and the errors as they were and returns nothing; a token of the type is taken, and the result is what `next` makes of it (`Handed`) |
| BackupParser.Parser.Fail | backup.js:554-559 | pops the state; a block other than "root" is reported as `unclosed: "T"` |
| BackupParser.Parser.Handle | backup.js:459-464 | the handler under the own node's type is called: what it throws comes back as the failure; otherwise the result is the node made of `OwnOutput`, the node itself without a handler or for a handler that returns it |
| BackupParser.Parser.PushOwn | backup.js:459-464 | the "bos" or "eos" node goes to the handler registered under its type: an error it throws is thrown on and nothing is pushed; otherwise the node made of `OwnOutput` (the node itself without a handler, or when the handler returns the token) is pushed as `Lands` says, and nothing when the handler returns no object; the turn taken follows `OwnCue`, and the state, errors and what is thrown are where `Turned` leads |
| BackupParser.Parser.PushTokens | backup.js:463 | the loop runs one turn per token read, each following that token's `TokenCue`, and the state, errors and outcome are where `Chain` of those turns leads; it succeeds with every token read and nothing thrown, fails with the error the last turn threw, or else with the lexer's error after the last token; on success the nodes recorded match `Outputs` of the tokens read |
| BackupParser.Parser.PushTurn | backup.js:463 | the node `next` returned is pushed as `Lands` says and recorded in the current scope; the turn it makes leads as `Turned` says |
| BackupParser.Parser.Step | backup.js:463 | one turn: with a token left it takes exactly that token and does what its `TokenCue` says (`Follows`), the state, errors and outcome being where `Turned` leads and the node pushed, if any, being what `Output` says; with no token left it fails with the lexer's error and changes nothing |
| BackupParser.Parser.Open | backup.js:462-463 | the "bos" turn then one turn per token read, following `Cues` in order and leading as `Chain` says from the initial state; on success every token was read, nothing was thrown and the recorded nodes match `OwnOutput` of "bos" followed by `Outputs` of every token; a failure is the error the last turn threw, or the lexer's after the last token |
| BackupParser.Parser.PushBos | backup.js:462 | the "bos" turn: "bos", or what its handler makes of it, is pushed and recorded alone in the current scope; the turn follows the "bos" `OwnCue` and leads as `Chain` says; a failure is the error that turn threw |
| BackupParser.Parser.PushTokensAfter | backup.js:462-463 | after the "bos" turn, the token loop: the turns so far start with that turn, follow `Cues` and lead as `Chain` says; on success the recorded nodes match `OwnOutput` of "bos" followed by `Outputs` of every token |
| BackupParser.Parser.Close | backup.js:464-468 | "eos", or what its handler makes of it, is pushed as `Landing` says on what `push` read; `fail` then runs on the state that push left (`Finished`), and the root comes back unless the push or `fail` throws; an error the "eos" handler throws is thrown with nothing pushed; the turn follows the "eos" `OwnCue` |
| BackupParser.Parser.Run | backup.js:458-468 | open then close: the turns taken follow `Cues` in order and lead from the initial state as `Chain` says; when the "eos" turn is reached the end is `Finished` on where the turns led, otherwise the result is the failure the last turn threw, or the lexer's error, with the state and errors where the turns stopped; on success the lexer is done and the recorded nodes match `Expected` |
| BackupParser.Parser.Finish | backup.js:464-468 | after the token loop: a failure there is returned with the turns, state and errors as they were; otherwise the "eos" turn is taken and the end is `Finished` on where the turns led, with the recorded nodes matching `Expected` on success |
| BackupParser.Parser.Parse | backup.js:456-469 | a non-string input fails `expected input to be a string` and changes nothing; a string initialises the parser on it and ends exactly as `Run` says: turns following `Cues`, leading as `Chain` says, then `Finished` after the "eos" turn, or the failure of the turn that threw or the lexer's error; the root comes back only with the lexer done and the recorded nodes matching `Expected` |
| BackupParser.Parser.LastStart | backup.js:251 | the state's top, or the root when the state is empty |
| BackupParser.Parser.Last | backup.js:250-258 | the loop ends on `Deepest` of the start node, a node without children |
| BackupParser.Parser.Create | backup.js:481-489 | a fresh initialised parser with the given root type sharing the handler tables, its input empty |
| IndexParser.StackPushed | index.js:371-376 | a block goes on top of the stack; a missing one leaves it as it was |
| IndexParser.StackPopped | index.js:378-382 | the top comes off and is returned; an empty stack gives nothing |
| IndexParser.PushAsWritten | index.js:371-376 | `push` as written: a block fails reading `push` of the unset `this.state`; see "## Findings" |
| IndexParser.PopAsWritten | index.js:378-382 | `pop` as written always fails reading `pop` of the unset `this.state` |
| IndexParser.PushThenPop | index.js:371-382 | a pushed block is the next one popped, and the pop restores the stack |
| IndexParser.BosPushFailsAsWritten | index.js:371-382 | as written the first push of `parse`, that of "bos", fails, while on the block stack it is taken and given back |
| IndexParser.Get | index.js:212-219 | succeeds exactly for a type with its own handler; a miss reads `default` of an unset property and fails |
| IndexParser.DefaultNeverReached | index.js:212-219 | unlike backup.js, a registered "default" handler is never used; registering a type makes it found |
| IndexParser.IsBlock | index.js:301-303 | true exactly when `nodes` is a non-empty array whose first child is an opener; an empty array fails reading `type` |
| IndexParser.IsClosedBlock | index.js:313-315 | `isClosedBlock`: a block whose last child is a closer name; `OpenOrClosed` states its properties |
| IndexParser.IsOpenBlock | index.js:317-319 | `isOpenBlock`: a block whose last child is not a closer name; `OpenOrClosed` states its properties |
| IndexParser.OpenOrClosed | index.js:313-319 | a block is open or closed and never both; what is not a block is neither; an empty array fails all three tests alike; a block is closed exactly when its last child is a closer name |
| IndexParser.Kept | index.js:248-255 | fields are kept exactly when they have a non-empty type |
| IndexParser.Handled | index.js:242-264 | a thrown error is caught; a plain object (the token included) becomes a node given the handler's type when it has none; a falsy value gives nothing; a string, number or `true` cannot take a type and throws a TypeError |
| IndexParser.HandledKeepsObjects | index.js:245-250 | under a non-empty type, every plain object returned becomes a node, of that type when it had none |
| IndexParser.Annotated | index.js:259 | the caught error's message gains a line feed and the token's display |
| IndexParser.Caught | index.js:242-264 | a handled result gives the node made of it, or nothing, with nothing reported; a caught error, annotated, is recorded in the reporting parser's errors, then handed to its listeners with nothing returned, or thrown |
| IndexParser.Dispatched | index.js:435-440 | a token type without its own handler fails reading `default` with nothing reported; otherwise the handler's call ends as `Caught` says |
| IndexParser.Extended | index.js:91-98 | reports only extend a parser's errors and what its listeners were handed, and hand nothing without listeners |
| IndexParser.DispatchedExtends | index.js:435-440 | however `next` ends, the reporting parser's errors are only extended |
| IndexParser.ExtendedTwice | index.js:475 | extending twice extends, so the loop of `parse` only extends |
| IndexParser.DispatchesSnoc | index.js:475 | one more call of `next`, ending as `Dispatched` says on the next token from the reports the earlier calls left, extends the calls, and the nodes made gain what it returned |
| IndexParser.DispatchesExtend | index.js:475 | the calls of the loop only extend the reporting parser's errors and what its listeners were handed, from the first tally to the last |
| IndexParser.MadeNodes | index.js:435-440 | the nodes the calls pushed, at most one per call, each one a call returned |
| IndexParser.DispatchesSucceed | index.js:435-440 | with listeners, a root that records errors and a handler for every token type, no call of `next` throws and the root still records errors |
| IndexParser.Reported | index.js:91-98 | `error(e)`: `e` is appended to the root's `errors` (a root without them fails there), then handed to the listeners when there are any, and thrown otherwise |
| IndexParser.Describe | index.js:248-250 | how the engine names a primitive in the error for setting `type` on it, used by `Handled` |
| IndexParser.Parser.constructor | index.js:38-53 | empty handler tables, the lexer reset, the parser initialised, no listeners |
| IndexParser.Parser.Sharing | index.js:455-460 | a parser with the options of the parser it is made for, on the same handler tables, initialised, whose wrappers report to the parser that registered them |
| IndexParser.Parser.Parts | index.js:67-69 | "bos" and "eos" nodes with empty values and a root of the configured type with no errors |
| IndexParser.Parser.Init | index.js:63-72 | the lexer restarted on the input; fresh nodes; the root alone on the block stack |
| IndexParser.Parser.Raise | index.js:91-98 | the error is added to the root's `errors`, then handed to the listeners when there are any and thrown otherwise |
| IndexParser.Parser.Listen | index.js:91-98 | an "error" listener is registered, so `error` hands errors to the listeners instead of throwing them |
| IndexParser.Parser.Set | index.js:194-198 | the handler wrapped for the type replaces any earlier one, and the type is listed once |
| IndexParser.Parser.Call | index.js:242-264 | ends as `Caught` says: a handled result becomes a fresh node showing its fields, or nothing, with nothing reported; a caught error gets the token's display appended and is reported to the parser that registered the handler, to its listeners when there are any, and is thrown on when that report throws |
| IndexParser.Parser.Push | index.js:371-376 | the block stack becomes `StackPushed`, and the block is returned |
| IndexParser.Parser.Pop | index.js:378-382 | result and stack are those of `StackPopped` |
| IndexParser.Parser.Allocate | index.js:356-369 | a missing node is a no-op; otherwise it is appended to the current block, then an open block is pushed and returned, else a closer pops and is returned, else nothing is returned; the open test runs first |
| IndexParser.Parser.Next | index.js:435-440 | an error the lexer throws, or the end of input, fails with every parser left as it was; otherwise the token is handed back to the lexer and the call ends as `Dispatched` says; on success the block stack gains exactly the returned node, if any, and the lexer has moved on by one token |
| IndexParser.Parser.Dispatch | index.js:438-439 | ends as `Dispatched` says: a type without a handler fails before anything is reported; otherwise the handler's call ends as `Caught` says, and the node it makes, if any, is pushed |
| IndexParser.Parser.Fail | index.js:505-510 | the block stack's top comes off; one other than "root" is reported as `unclosed: "T"` |
| IndexParser.Parser.Close | index.js:476-479 | "eos" is pushed and popped again by `fail`, which reports `unclosed: "eos"`; the root comes back unless that report throws |
| IndexParser.Parser.ParseHere | index.js:464-479 | a non-string input and an empty handler table are reported; otherwise the parse ends as `Run` says: the calls of `next` on the tokens as `Dispatches` says, the stack holding the root, "bos" and the nodes they made, a failure being the error of the call that threw or the lexer's, and else "eos" reported as unclosed; the root comes back exactly when that report does not throw, which holds with listeners, no lexer error and a handler for every token type |
| IndexParser.Parser.Run | index.js:471-479 | after `init` the calls of `next` on the tokens end as `Dispatches` says, one per token unless one throws; the stack is the root, "bos" and the nodes they made; a thrown error is the last call's or the lexer's; otherwise "eos" is reported as `unclosed: "eos"` and the root comes back exactly when that report does not throw; with listeners, no lexer error and a handler for every token type it succeeds |
| IndexParser.Parser.Drain | index.js:475 | the calls of `next` end as `Dispatches` says on the tokens left, each from the reports the previous one left; the stack gains the nodes they made; it stops on the first call that throws, returning that error, and otherwise calls once per token left and returns the lexer's error, if any |
| IndexParser.Parser.Parse | index.js:454-480 | a parser whose lexer holds an input hands the parse to a new parser without listeners, which fails; its own lexer, stack, nodes and listeners are left as they were, and the errors the shared handlers catch are reported to the parser that registered them; a parser without an input ends as `ParseHere` says |

## Left out

- Event emission: apart from whether an "error" listener exists (`listening`), the events `init`, `node`, `push`, `handled`, each type's event and `parsed` of the parsers are not modelled; the example classes keep a log of their events.
- The lexer's internals (`snapdragon-lexer`, regular expressions, `capture`, `consumed`): the lexer is a function from the input to its tokens and trailing error.
- The node, stack and display libraries (`snapdragon-node`, `snapdragon-stack`, `snapdragon-show`): a node is a class with the fields the parsers use, the stack is a sequence whose `prev()` is its last element, and the token display is a parameter `show`.
- Handler side effects through `this`: a handler is a function of the token's fields to its outcome.
- A handler that returns an already existing node: it is treated as a plain object with that node's fields, so the node's identity is not kept.
- Nodes.Build: the children given to `node(obj)` are plain objects; strings among them, and an object that is already a node, are not modelled.
- BackupParser.Parser.MakeNode: requires that a truthy number or boolean is not given, because what the node library makes of one is not shown.
- BackupParser.Parser.Push, BackupParser.Parser.PushNode: require a node given to `push` not to be on the state or the scopes, nor the parent of one, because re-pushing an open block aliases the objects the frames reason about.
- Nodes.Concat: requires `node` and `other` to be different objects; `concat(n, n)` iterates over the array it appends to, which does not end.
- ExampleState.State.Last, BackupParser.Parser.Last, LibScope.Scope.IsInside: take a bound on the depth of the structure they walk, so cyclic trees and parent chains are not modelled.
- ExampleState.State.Last: the `prop` argument is not modelled; the node itself is returned.
- ExampleState.PushStep, ExampleState.PopStep, ExampleScopes.PushStep: the `inspect()` text in the messages of example/state.js and example/scopes.js is shown as the node's type.
- ExampleParser.Parser.Push, ExampleParser.Parser.Pop: the scope handlers they call are pure, and their results are ignored as in the source.
- Nodes.FromRecord, IndexParser.Parser.Call, ExampleNodes.MakeNode: a `nodes` array on an object a handler returns (index.js:245-246) or that `new Node(tok)` is given (example/node.js:9) is not carried into the node, whose children start absent; the node library that would copy it is not part of this model.
- IndexParser.Parser.Parse: for a re-parse, the contract says only that the errors of the parser the handlers report to, and what its listeners were handed, grow (`Extended`), not which errors are added.
- IndexParser.Parser.Next: at the end of the input, the `undefined` handed back to the lexer's `push` is not recorded.
- The index.js nodes made from `{type, val}`: `val` is taken as the node's value.
- Handler types that name properties of `Object.prototype` (`constructor`, `toString`), which index.js's plain-object table would find, are not modelled.
- Format.Format: the message table of lib/codes.js is read as a map, so a category or code that names a property of `Object.prototype` (`constructor`, `toString`) is "does not exist" in the model, where the object lookup of lib/format.js would find the inherited property.
- CodedErrors.ParserError: a code naming an `Object.prototype` property is refused like any other unknown code, which lib/ParserError.js's object lookup would not do.
- CodedErrors.LexerError: the same for lib/LexerError.js.
- ExampleState.Touched: the lists are a map, so a type named after an `Object.prototype` property starts without a list, where example/state.js's plain object would find the inherited property.
- ExampleState.PushStep: the same for the list a pushed node is filed under.
- ExampleScopes.Lookup: the handlers are a map, so a type named after an `Object.prototype` property finds no handler of its own, where example/scopes.js would find the inherited function.
- ExampleScopes.Touched: the same for the scope lists of example/scopes.js.
- ExampleScopes.PushStep: the same for the list a pushed scope is filed under.
- The `use()` plugin mechanism in index.js's constructor.
- index.js `isScopeOpen`, `isScopeClose`, `isInside`, `isInsideBlock` and `isInsideScope` (index.js:321-339) read `scopes` and `state` fields that index.js never sets, and are not modelled.
- lib/state.js `last`, `firstChild` and `lastChild`, which delegate to the stack library, and its empty `isBlock`, `isOpen` and `isClose`.
- lib/scope.js's other fields (`isScope`, `length`, `conditions`, `elements`, `context`, `forloop`) and `define`'s non-enumerable properties (`Reflect.defineProperty`).
- backup.js `context`, `capture`, `peek`, the `scope` and `parsed` getters, and the constructor given a parser (backup.js:42-44).
- backup.js's copy of a handler's name onto its wrapper (backup.js:194-196) and the debug output at backup.js:376-378.
- The `options` argument of `parse` and the lexer's handler tables that `create` copies.
- Format.Format: arguments are strings, and `%o` is modelled by `Inspect` as the string between single quotes; `util.inspect` itself switches to double quotes (or backticks) when the string holds a single quote and escapes control characters, which the model does not do, and other values' inspection is not modelled.
- `Error.captureStackTrace` and the prototype chain of the coded errors; the name field stands for the class.
- The values of the `options` entries of lib/codes.js: only their lack of a message is modelled.
- Line and column in `showPosition` are integers; other numbers are not modelled.
- example/scope.js `get`, `set` and `toObject`, example/context.js, example/frame.js and the demo example/index.js.

## Findings

| source | as written | input that shows it | evidently intended | confidence | as-written member | corrected member |
|---|---|---|---|---|---|---|
| index.js:371-382 | `push` and `pop` call `this.state.push` and `this.state.pop`, but `init` (index.js:63-72) only creates `this.stack`, so both read a property of `undefined` | `parse("a")` on a parser with any handler registered: its first step, `this.push(this.bos)`, throws | `push` and `pop` work on the block stack `this.stack` | medium, not executed | IndexParser.PushAsWritten, IndexParser.BosPushFailsAsWritten | IndexParser.Parser.Push, IndexParser.PushThenPop |

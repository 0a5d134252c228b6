/** lib/format.js: building an error message from a code of the table, and
    the two-line excerpt that shows where in the input a token was found.

    Messages are built with Node's `util.format`. The templates of the
    table use only `%s`, `%o` and `%%`, and its behaviour on those is
    written out here: `%s` takes the next argument as it is, `%o` takes it
    as `util.inspect` renders a string (between single quotes), `%%` is one
    percent sign, and arguments left over are appended, each after one
    space. The other placeholders `util.format` knows (`%d`, `%i`, `%f`,
    `%j`, `%c`, `%O`) occur in no template; any `%` sequence but these three
    is kept as it stands. Arguments are the strings handed to the message. */
module Format {
  import opened Base
  import Codes
  import Templates

  /** `util.inspect` of a string argument, simplified to the string
      between single quotes: the switch to other quotes for a string that
      holds a single quote, and the escaping of control characters, are
      not modelled. */
  function Inspect(s: string): string {
    "'" + s + "'"
  }

  /** The leftover arguments as `util.format` appends them: each one after a
      single space. */
  function Spaced(rest: seq<string>): (r: string)
    ensures rest == [] ==> r == ""
    ensures rest != [] ==> r == " " + rest[0] + Spaced(rest[1..])
  {
    if rest == [] then "" else " " + rest[0] + Spaced(rest[1..])
  }

  /** What the scan of a template produces: the text so far and the
      arguments not yet consumed. */
  datatype Scanned = Scanned(out: string, rest: seq<string>)

  /** The scan of the template once there is at least one argument. A `%`
      in last position is kept as it stands. */
  function Scan(t: string, args: seq<string>): (r: Scanned)
    ensures |r.rest| <= |args|
  {
    if |t| < 2 then Scanned(t, args)
    else if t[0] != '%' then
      var r := Scan(t[1..], args);
      Scanned([t[0]] + r.out, r.rest)
    else if t[1] == '%' then
      var r := Scan(t[2..], args);
      Scanned("%" + r.out, r.rest)
    else if args != [] && t[1] == 's' then
      var r := Scan(t[2..], args[1..]);
      Scanned(args[0] + r.out, r.rest)
    else if args != [] && (t[1] == 'o' || t[1] == 'O') then
      var r := Scan(t[2..], args[1..]);
      Scanned(Inspect(args[0]) + r.out, r.rest)
    else
      var r := Scan(t[2..], args);
      Scanned(t[..2] + r.out, r.rest)
  }

  /** `util.format(template, ...args)`: with no argument the template is
      returned as it is (a `%%` included); otherwise the scanned text
      followed by the arguments no placeholder took. */
  function UtilFormat(t: string, args: seq<string>): string {
    if args == [] then t
    else
      var r := Scan(t, args);
      r.out + Spaced(r.rest)
  }

  /** The arguments a scan leaves are the last ones it was given, in order:
      placeholders consume arguments from the front. */
  lemma {:induction false} ScanConsumesFromFront(t: string, args: seq<string>)
    ensures var r := Scan(t, args); r.rest == args[|args| - |r.rest|..]
  {
    if |t| >= 2 {
      if t[0] != '%' || t[1] == '%' || !(args != [] && (t[1] == 's' || t[1] == 'o' || t[1] == 'O')) {
        if t[0] != '%' { ScanConsumesFromFront(t[1..], args); } else { ScanConsumesFromFront(t[2..], args); }
      } else {
        ScanConsumesFromFront(t[2..], args[1..]);
        var r := Scan(t[2..], args[1..]);
        assert args[1..][|args[1..]| - |r.rest|..] == args[|args| - |r.rest|..];
      }
    }
  }

  /** The message of an entry: its template filled in, or, for a setting
      (whose `message` is undefined), "undefined" followed by the
      arguments. */
  function Render(e: Codes.Entry, args: seq<string>): string {
    match e
    case Message(t) => UtilFormat(t, args)
    case Setting => "undefined" + Spaced(args)
  }

  /** `format(type, code, ...args)`: the message for `code` of category
      `type`, or the error naming the category or the code that the table
      does not have. */
  function Format(category: string, code: string, args: seq<string>): (r: Result<string, JsError>)
    ensures r.Failure? <==> category !in Codes.Table || code !in Codes.Table[category]
    ensures category !in Codes.Table ==>
      r.error == Error("error codes " + category + " does not exist")
    ensures category in Codes.Table && code !in Codes.Table[category] ==>
      r.error == Error("error code " + code + " does not exist")
  {
    if category !in Codes.Table then Failure(Error("error codes " + category + " does not exist"))
    else if code !in Codes.Table[category] then Failure(Error("error code " + code + " does not exist"))
    else Success(Render(Codes.Table[category][code], args))
  }

  /** A template without `%` is scanned to itself, consuming nothing. */
  lemma {:induction false} ScanVerbatim(t: string, args: seq<string>)
    requires '%' !in t
    ensures Scan(t, args) == Scanned(t, args)
  {
    if |t| >= 2 {
      assert t[0] in t;
      assert '%' !in t[1..] by {
        forall i | 0 <= i < |t[1..]| ensures t[1..][i] != '%' { assert t[1..][i] == t[i + 1]; }
      }
      ScanVerbatim(t[1..], args);
      assert [t[0]] + t[1..] == t;
    }
  }

  /** A prefix without `%` is copied as it is, and the scan goes on after
      it as if it were not there. */
  lemma {:induction false} ScanAfterPlain(pre: string, t: string, args: seq<string>)
    requires '%' !in pre
    ensures Scan(pre + t, args) == Scanned(pre + Scan(t, args).out, Scan(t, args).rest)
  {
    if pre != [] {
      var s := pre + t;
      assert s[0] == pre[0] && pre[0] in pre;
      if |s| < 2 {
        assert pre == s && t == [];
      } else {
        assert s[1..] == pre[1..] + t;
        assert '%' !in pre[1..] by {
          forall i | 0 <= i < |pre[1..]| ensures pre[1..][i] != '%' { assert pre[1..][i] == pre[i + 1]; }
        }
        ScanAfterPlain(pre[1..], t, args);
        assert [pre[0]] + pre[1..] == pre;
      }
    } else {
      assert pre + t == t && pre + Scan(t, args).out == Scan(t, args).out;
    }
  }

  /** A template with no placeholder gives itself, followed by the
      arguments, each after a space. */
  lemma {:induction false} FormatWithoutPlaceholder(t: string, args: seq<string>)
    requires '%' !in t
    ensures UtilFormat(t, args) == t + Spaced(args)
  {
    if args != [] {
      ScanVerbatim(t, args);
    }
  }

  /** Scanning `%s`, `%o` and `%%` at the head of a template. */
  lemma ScanHead(post: string, x: string, more: seq<string>)
    ensures Scan("%s" + post, [x] + more) == Scanned(x + Scan(post, more).out, Scan(post, more).rest)
    ensures Scan("%o" + post, [x] + more) == Scanned(Inspect(x) + Scan(post, more).out, Scan(post, more).rest)
    ensures Scan("%%" + post, [x] + more) == Scanned("%" + Scan(post, [x] + more).out, Scan(post, [x] + more).rest)
  {
    assert ("%s" + post)[2..] == post && ("%o" + post)[2..] == post && ("%%" + post)[2..] == post;
    assert ([x] + more)[1..] == more;
  }

  /** One `%s` between plain text: the argument is put in its place and
      further arguments follow after spaces; with no argument the
      placeholder stays. */
  lemma {:induction false} FormatOneString(pre: string, post: string, x: string, more: seq<string>)
    requires '%' !in pre && '%' !in post
    ensures UtilFormat(pre + "%s" + post, [x] + more) == pre + x + post + Spaced(more)
    ensures UtilFormat(pre + "%s" + post, []) == pre + "%s" + post
  {
    ScanVerbatim(post, more);
    ScanHead(post, x, more);
    ScanAfterPlain(pre, "%s" + post, [x] + more);
    assert pre + "%s" + post == pre + ("%s" + post);
  }

  /** One `%o` between plain text: the argument is put in its place as
      `util.inspect` shows it. */
  lemma {:induction false} FormatOneInspected(pre: string, post: string, x: string, more: seq<string>)
    requires '%' !in pre && '%' !in post
    ensures UtilFormat(pre + "%o" + post, [x] + more) == pre + Inspect(x) + post + Spaced(more)
  {
    ScanVerbatim(post, more);
    ScanHead(post, x, more);
    ScanAfterPlain(pre, "%o" + post, [x] + more);
    assert pre + "%o" + post == pre + ("%o" + post);
  }

  /** The scan of plain text around one `%s`. */
  lemma {:induction false} ScanOneString(pre: string, post: string, x: string, more: seq<string>)
    requires '%' !in pre && '%' !in post
    ensures Scan(pre + "%s" + post, [x] + more) == Scanned(pre + x + post, more)
  {
    var t := "%s" + post;
    ScanVerbatim(post, more);
    ScanHead(post, x, more);
    assert Scan(t, [x] + more) == Scanned(x + post, more);
    ScanAfterPlain(pre, t, [x] + more);
    assert pre + "%s" + post == pre + t;
    assert pre + (x + post) == pre + x + post;
  }

  /** The scan of plain text around two `%s`, grouped as the scan goes. */
  lemma {:induction false} ScanTwoStrings(a: string, b: string, c: string, x: string, y: string, more: seq<string>)
    requires '%' !in a && '%' !in b && '%' !in c
    ensures Scan(a + ("%s" + (b + "%s" + c)), [x] + ([y] + more)) == Scanned(a + (x + (b + y + c)), more)
  {
    ScanOneString(b, c, y, more);
    ScanHead(b + "%s" + c, x, [y] + more);
    ScanAfterPlain(a, "%s" + (b + "%s" + c), [x] + ([y] + more));
  }

  /** Two `%s` between plain text take the first two arguments in order. */
  lemma {:induction false} FormatTwoStrings(a: string, b: string, c: string, x: string, y: string, more: seq<string>)
    requires '%' !in a && '%' !in b && '%' !in c
    ensures UtilFormat(a + "%s" + b + "%s" + c, [x, y] + more) == a + x + b + y + c + Spaced(more)
  {
    ScanTwoStrings(a, b, c, x, y, more);
    assert a + "%s" + b + "%s" + c == a + ("%s" + (b + "%s" + c));
    assert [x, y] + more == [x] + ([y] + more);
    assert a + (x + (b + y + c)) == a + x + b + y + c;
  }

  /** `%%` is one percent sign only when there is an argument; alone, the
      template is returned untouched. */
  lemma PercentPercent(x: string)
    ensures UtilFormat("%%", []) == "%%"
    ensures UtilFormat("%%", [x]) == "% " + x
  {
    ScanHead("", x, []);
    assert "%%" + "" == "%%" && [x] + [] == [x];
    assert Scan("", [x]) == Scanned("", [x]);
    assert Scan("%%", [x]) == Scanned("%", [x]);
    assert Spaced([x]) == " " + x + Spaced([]);
  }

  /** The message a parser gives for a type with no handler. */
  lemma {:induction false} ParserNoHandlerMessage(type_: string)
    ensures Format("PARSER", "NO_HANDLER", [type_]) ==
      Success(Templates.NoHandlerHead + type_ + Templates.NoHandlerTail)
  {
    Templates.PlainParts();
    Codes.ParserEntries();
    assert "PARSER" in Codes.Table && "NO_HANDLER" in Codes.Table["PARSER"];
    assert [type_] + [] == [type_];
    FormatOneString(Templates.NoHandlerHead, Templates.NoHandlerTail, type_, []);
    var msg := Templates.NoHandlerHead + type_ + Templates.NoHandlerTail;
    assert UtilFormat(Codes.NoHandlerTemplate, [type_]) == msg + Spaced([]);
    assert Render(Codes.Table["PARSER"]["NO_HANDLER"], [type_]) == msg;
  }

  /** The message for an input that is not a string quotes what it shows. */
  lemma {:induction false} InvalidInputMessage(shown: string)
    ensures Format("PARSER", "INVALID_INPUT", [shown]) ==
      Success(Templates.InvalidInputHead + Inspect(shown) + "\"")
  {
    Templates.PlainParts();
    Codes.ParserEntries();
    assert "PARSER" in Codes.Table && "INVALID_INPUT" in Codes.Table["PARSER"];
    assert [shown] + [] == [shown];
    FormatOneInspected(Templates.InvalidInputHead, "\"", shown, []);
    var msg := Templates.InvalidInputHead + Inspect(shown) + "\"";
    assert UtilFormat(Codes.InvalidInputTemplate, [shown]) == msg + Spaced([]);
    assert Render(Codes.Table["PARSER"]["INVALID_INPUT"], [shown]) == msg;
  }

  /** The settings entry has no message: formatting it gives "undefined"
      and the arguments. */
  lemma SettingMessage(args: seq<string>)
    ensures Format("options", "stack", args) == Success("undefined" + Spaced(args))
  {
  }

  // ---------------------------------------------------------------------
  // showPosition

  /** The consumed input with every line feed written as the two characters
      backslash and "n". */
  function EscapeNewlines(s: string): (r: string)
    ensures '\n' !in r
    ensures |r| >= |s|
  {
    if s == [] then []
    else (if s[0] == '\n' then "\\n" else [s[0]]) + EscapeNewlines(s[1..])
  }

  /** `new Array(n).join('-')`: n - 1 dashes, none for n = 0, and the
      engine's RangeError for a negative length. */
  function Dashes(n: int): (r: Result<string, JsError>)
    ensures r.Failure? <==> n < 0
    ensures n >= 1 ==> r.Success? && |r.value| == n - 1 && forall i :: 0 <= i < |r.value| ==> r.value[i] == '-'
    ensures n == 0 ==> r == Success("")
  {
    if n < 0 then Failure(RangeError("Invalid array length"))
    else if n <= 1 then Success("")
    else Success(seq(n - 1, _ => '-'))
  }

  /** The two lines of `showPosition`: the last twenty characters of the
      consumed input (line feeds escaped), then a line of dashes ending in a
      caret. `val` is the token's value (absent or empty counts as length
      zero). */
  function Excerpt(consumed: string, val: Option<string>): (r: Result<string, JsError>)
  {
    var escaped := EscapeNewlines(consumed);
    var input := if |escaped| > 20 then escaped[|escaped| - 20..] else escaped;
    var len := if val.Some? then |val.value| else 0;
    var dashes :- Dashes(|input| - len + 1);
    Success(input + "\n" + dashes + "^")
  }

  /** With a numeric line and column, the excerpt is preceded by
      `<line:L column:C>` and wrapped in line feeds. */
  function WithPosition(position: string, line: Option<int>, column: Option<int>): string {
    if line.Some? && column.Some? then
      UtilFormat("<line:%s column:%s>", [IntToString(line.value), IntToString(column.value), "\n\n" + position + "\n"])
    else
      position
  }

  /** `showPosition(self, tok)`. */
  function ShowPosition(consumed: string, val: Option<string>, line: Option<int>, column: Option<int>): (r: Result<string, JsError>)
  {
    var position :- Excerpt(consumed, val);
    Success(WithPosition(position, line, column))
  }

  /** The excerpt shows at most the last twenty characters of the escaped
      input, and the caret stands under the first character of the token
      when the excerpt ends with it: there are exactly as many dashes as
      characters before the token. A token longer than the excerpt by two
      or more makes the dash count negative and the excerpt fails. */
  lemma {:induction false} CaretUnderToken(consumed: string, val: string)
    ensures var escaped := EscapeNewlines(consumed);
      var input := if |escaped| > 20 then escaped[|escaped| - 20..] else escaped;
      var r := ShowPosition(consumed, Some(val), None, None);
      |input| <= 20 && EndsWith(escaped, input) &&
      (|val| <= |input| ==> r == Success(input + "\n" + seq(|input| - |val|, _ => '-') + "^")) &&
      (r.Failure? <==> |val| > |input| + 1)
  {
    var escaped := EscapeNewlines(consumed);
    var input := if |escaped| > 20 then escaped[|escaped| - 20..] else escaped;
    var n := |input| - |val| + 1;
    if |val| <= |input| {
      var d := Dashes(n);
      assert d.value == seq(|input| - |val|, _ => '-');
    }
  }

  /** Without a token value the excerpt never fails, and a line and column
      put `<line:L column:C>`, a space and the excerpt between line feeds in
      front of it. */
  lemma {:induction false} PositionHeader(consumed: string, line: int, column: int)
    ensures var plain := ShowPosition(consumed, None, None, None);
      plain.Success? &&
      ShowPosition(consumed, None, Some(line), Some(column)) ==
        Success("<line:" + IntToString(line) + " column:" + IntToString(column) + ">" + " \n\n" + plain.value + "\n")
  {
    var plain := Excerpt(consumed, None);
    assert plain.Success?;
    var tail := "\n\n" + plain.value + "\n";
    var L, C := IntToString(line), IntToString(column);
    HeaderFormat(L, C, tail);
    assert ShowPosition(consumed, None, None, None) == plain;
    assert ShowPosition(consumed, None, Some(line), Some(column)) == Success(WithPosition(plain.value, Some(line), Some(column)));
    var head := "<line:" + L + " column:" + C + ">";
    assert head + " " + tail == head + " \n\n" + plain.value + "\n";
  }

  /** The position header template filled with a line, a column and the
      excerpt: the excerpt is the extra argument, after a space. */
  lemma {:induction false} HeaderFormat(L: string, C: string, tail: string)
    ensures UtilFormat("<line:%s column:%s>", [L, C, tail]) == "<line:" + L + " column:" + C + ">" + " " + tail
  {
    HeaderTemplate();
    assert [L, C] + [tail] == [L, C, tail];
    FormatTwoStrings("<line:", " column:", ">", L, C, [tail]);
    assert Spaced([tail]) == " " + tail + Spaced([]);
  }

  lemma HeaderTemplate()
    ensures "<line:%s column:%s>" == "<line:" + "%s" + " column:" + "%s" + ">"
    ensures '%' !in "<line:" && '%' !in " column:" && '%' !in ">"
  {
  }

  /** Each line feed of the input takes two characters in the excerpt. */
  lemma {:induction false} EscapeLength(s: string)
    ensures |EscapeNewlines(s)| == |s| + LineFeeds(s)
  {
    if s != [] {
      EscapeLength(s[1..]);
    }
  }

  /** The number of line feeds in `s`. */
  function LineFeeds(s: string): nat {
    if s == [] then 0 else (if s[0] == '\n' then 1 else 0) + LineFeeds(s[1..])
  }
}

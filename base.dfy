/** Values and helpers shared by every module: optional values, results with
    an error path, the error records the JavaScript code throws, and the few
    string operations of JavaScript that the parser relies on. */
module Base {

  datatype Option<T> = None | Some(value: T) {
    function GetOr(default: T): T {
      match this
      case None => default
      case Some(v) => v
    }

    /** The value as a sequence of at most one element. */
    function ToSeq(): seq<T> {
      if Some? then [value] else []
    }
  }

  datatype Result<T, E> = Success(value: T) | Failure(error: E) {
    predicate IsFailure() { Failure? }
    function PropagateFailure<U>(): Result<U, E>
      requires Failure?
    {
      Failure(error)
    }
    function Extract(): T
      requires Success?
    {
      value
    }
  }

  /** What a call that ends in `r` throws. */
  function Thrown<T>(r: Result<T, JsError>): Option<JsError> {
    if r.Failure? then Some(r.error) else None
  }

  /** An error object as JavaScript throws it: its `name` (the constructor,
      such as "Error", "TypeError" or "ParserError"), its `message`, and the
      optional `code` the coded error classes attach. */
  datatype JsError = JsError(name: string, message: string, code: Option<string>)

  function Error(message: string): JsError { JsError("Error", message, None) }
  function TypeError(message: string): JsError { JsError("TypeError", message, None) }
  function SyntaxError(message: string): JsError { JsError("SyntaxError", message, None) }
  function AssertionError(message: string): JsError { JsError("AssertionError", message, None) }
  function RangeError(message: string): JsError { JsError("RangeError", message, None) }

  /** The engine's own error for reading a property of `undefined`; its
      exact wording belongs to the engine and is fixed here. */
  function UndefinedRead(property: string): JsError {
    TypeError("Cannot read properties of undefined (reading '" + property + "')")
  }

  /** The engine's error for reading a property of `null`. */
  function NullRead(property: string): JsError {
    TypeError("Cannot read properties of null (reading '" + property + "')")
  }

  /** JavaScript `s.endsWith(suffix)`. */
  predicate EndsWith(s: string, suffix: string) {
    |suffix| <= |s| && s[|s| - |suffix|..] == suffix
  }

  /** JavaScript `s.slice(-k)` for `0 <= k`: the last `k` characters, except
      that `slice(-0)` is `slice(0)`, the whole string. */
  function SliceFromEnd(s: string, k: nat): (r: string)
    ensures k == 0 ==> r == s
    ensures 0 < k <= |s| ==> |r| == k && EndsWith(s, r)
    ensures k > |s| ==> r == s
  {
    if k == 0 || k > |s| then s else s[|s| - k..]
  }

  /** JavaScript `s.slice(0, -k)` for `0 < k`. */
  function DropEnd(s: string, k: nat): (r: string)
    requires 0 < k
    ensures |r| == if k <= |s| then |s| - k else 0
    ensures r == s[..|r|]
  {
    if k <= |s| then s[..|s| - k] else ""
  }

  /** JavaScript `s.split('.')`: the pieces between dots, in order; a string
      without a dot is one piece, and two adjacent dots give an empty piece. */
  function SplitOnDot(s: string): (r: seq<string>)
    ensures |r| >= 1
  {
    if '.' !in s then [s]
    else
      var i := FirstIndex(s, '.');
      [s[..i]] + SplitOnDot(s[i + 1..])
  }

  /** The position of the first occurrence of `c` in `s`. */
  function FirstIndex(s: string, c: char): (i: nat)
    requires c in s
    ensures i < |s| && s[i] == c && c !in s[..i]
  {
    if s[0] == c then 0
    else
      assert s == [s[0]] + s[1..];
      var j := FirstIndex(s[1..], c);
      assert s[..j + 1] == [s[0]] + s[1..][..j];
      j + 1
  }

  /** JavaScript `Array.prototype.indexOf`: the first position holding `x`,
      or -1 when there is none. */
  function IndexOf<T(==)>(s: seq<T>, x: T): (i: int)
    ensures i == -1 <==> x !in s
    ensures 0 <= i ==> i < |s| && s[i] == x && x !in s[..i]
  {
    if |s| == 0 then -1
    else if s[0] == x then 0
    else
      var j := IndexOf(s[1..], x);
      assert s[1..][..if j < 0 then 0 else j] == s[1..if j < 0 then 1 else j + 1];
      if j < 0 then -1 else j + 1
  }

  /** Decimal rendering of an integer, as `String(n)` gives it. */
  function IntToString(n: int): string {
    if n < 0 then "-" + NatToString(-n) else NatToString(n)
  }

  function NatToString(n: nat): string
    decreases n
  {
    if n < 10 then [Digit(n)] else NatToString(n / 10) + [Digit(n % 10)]
  }

  function Digit(d: nat): char
    requires d < 10
  {
    "0123456789"[d]
  }

  /** The last element of a sequence, or None when it is empty (JavaScript's
      `arr[arr.length - 1]`, which reads `undefined` on an empty array). */
  function LastOf<T>(s: seq<T>): (r: Option<T>)
    ensures r.None? <==> s == []
    ensures r.Some? ==> r.value == s[|s| - 1]
  {
    if s == [] then None else Some(s[|s| - 1])
  }

  /** JavaScript `arr.pop()` on the array value: the remaining elements. */
  function DropLast<T>(s: seq<T>): (r: seq<T>)
    ensures s == [] ==> r == []
    ensures s != [] ==> r + [s[|s| - 1]] == s
  {
    if s == [] then [] else s[..|s| - 1]
  }
}

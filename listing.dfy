/** The stack entries filed under a given key, for the trackers that keep
    one list per type beside their stack. `keys[i]` is the key the entry at
    `stack[i]` was filed under. */
module Listing {
  /** The stack entries filed under `t`, in stack order. */
  function Listed<T>(stack: seq<T>, keys: seq<string>, t: string): (r: seq<T>)
    requires |keys| == |stack|
  {
    if stack == [] then []
    else
      var n := |stack| - 1;
      Listed(stack[..n], keys[..n], t) + (if keys[n] == t then [stack[n]] else [])
  }

  /** The listing after one more entry. */
  lemma {:induction false} ListedPush<T>(stack: seq<T>, keys: seq<string>, n: T, k: string, t: string)
    requires |keys| == |stack|
    ensures Listed(stack + [n], keys + [k], t) == Listed(stack, keys, t) + (if k == t then [n] else [])
  {
    assert (stack + [n])[..|stack|] == stack;
    assert (keys + [k])[..|keys|] == keys;
  }

  /** Everything listed is on the stack. */
  lemma {:induction false} ListedFrom<T>(stack: seq<T>, keys: seq<string>, t: string, x: T)
    requires |keys| == |stack| && x in Listed(stack, keys, t)
    ensures x in stack
  {
    var n := |stack| - 1;
    if x !in (if keys[n] == t then [stack[n]] else []) {
      ListedFrom(stack[..n], keys[..n], t, x);
    }
  }

  /** An entry filed under `t` puts something in its listing. */
  lemma {:induction false} ListedHas<T>(stack: seq<T>, keys: seq<string>, t: string, i: nat)
    requires |keys| == |stack| && i < |keys| && keys[i] == t
    ensures Listed(stack, keys, t) != []
  {
    var n := |stack| - 1;
    if i < n {
      assert keys[..n][i] == t;
      ListedHas(stack[..n], keys[..n], t, i);
    }
  }

  /** A listing that is not empty has an entry filed under its key. */
  lemma {:induction false} ListedKey<T>(stack: seq<T>, keys: seq<string>, t: string)
    requires |keys| == |stack| && Listed(stack, keys, t) != []
    ensures exists i :: 0 <= i < |keys| && keys[i] == t
  {
    var n := |stack| - 1;
    if keys[n] != t {
      ListedKey(stack[..n], keys[..n], t);
      var i :| 0 <= i < n && keys[..n][i] == t;
      assert keys[i] == t;
    }
  }
}

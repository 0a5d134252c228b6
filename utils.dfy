/** lib/utils.js: two helpers over node type names. A node is given here by
    its type name, and an absent node by `None`. */
module TypeUtils {
  import opened Base

  /** `typeEndsWith(node, substring)`: true when there is a node whose type
      is more than one character longer than `substring` and ends with it.
      Because `slice(-0)` is the whole string, an empty `substring` never
      matches. */
  function TypeEndsWith(node: Option<string>, sub: string): (r: bool)
    ensures r <==> node.Some? && |sub| > 0 && |node.value| > |sub| + 1 && EndsWith(node.value, sub)
  {
    if node.Some? && |node.value| > |sub| + 1 then SliceFromEnd(node.value, |sub|) == sub
    else false
  }

  /** `type(node)`: the type with one trailing ".open" or ".close" removed,
      as `replace(/\.(open|close)$/, '')` does; any other type is returned
      unchanged. */
  function StripType(t: string): (r: string)
    ensures EndsWith(t, ".open") ==> r + ".open" == t
    ensures EndsWith(t, ".close") ==> r + ".close" == t
    ensures !EndsWith(t, ".open") && !EndsWith(t, ".close") ==> r == t
  {
    if EndsWith(t, ".open") then
      assert !EndsWith(t, ".close") by { assert t[|t| - 2] == 'e' && ".close"[4] == 's'; }
      t[..|t| - 5]
    else if EndsWith(t, ".close") then t[..|t| - 6]
    else t
  }

  /** Stripping a block suffix from a name that has none is the identity,
      and stripping twice removes only one suffix: `a.open.close` becomes
      `a.open`, never `a`. */
  lemma {:induction false} StripRemovesOneSuffix(base: string)
    ensures StripType(base + ".open.close") == base + ".open"
    ensures StripType(base + ".close.open") == base + ".close"
  {
    assert EndsWith(base + ".open.close", ".close");
    assert (base + ".open.close")[..|base| + 5] == base + ".open";
    assert !EndsWith(base + ".open.close", ".open") by {
      var s := base + ".open.close";
      assert s[|s| - 1] == 'e' && ".open"[4] == 'n';
    }
    assert EndsWith(base + ".close.open", ".open");
    assert (base + ".close.open")[..|base| + 6] == base + ".close";
  }

  /** Opening and closing names of the same block strip to the same name. */
  lemma {:induction false} StripPairs(base: string)
    ensures StripType(base + ".open") == base
    ensures StripType(base + ".close") == base
  {
    assert EndsWith(base + ".open", ".open");
    assert (base + ".open")[..|base|] == base;
    var c := base + ".close";
    assert EndsWith(c, ".close");
    assert !EndsWith(c, ".open") by { assert c[|c| - 1] == 'e' && ".open"[4] == 'n'; }
    assert c[..|base|] == base;
  }

  /** `typeEndsWith` with a non-empty suffix implies the suffix is there; the
      converse fails only on the short names whose length is at most one
      more than the suffix's. */
  lemma {:induction false} TypeEndsWithShortNames(t: string, sub: string)
    requires 0 < |sub| && EndsWith(t, sub)
    ensures TypeEndsWith(Some(t), sub) <==> |t| >= |sub| + 2
  {
  }
}

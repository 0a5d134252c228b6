/** The naming conventions by which the parsers recognise the opening and
    closing nodes of a block. index.js and example/parser.js share one
    convention (a ".open"/".close" suffix after at least one character);
    backup.js falls back on a looser one (any name ending in "open"/"close"
    after at least one character) and decides whether a node closes a given
    block by splitting its type on dots. */
module BlockTypes {
  import opened Base
  import TypeUtils

  /** `isBlockOpen` of index.js and example/parser.js, on the node's type. */
  predicate IsDotOpen(t: string) {
    |t| >= 6 && t[|t| - 5..] == ".open"
  }

  /** `isBlockClose` of index.js and example/parser.js, on the node's type. */
  predicate IsDotClose(t: string) {
    |t| >= 7 && t[|t| - 6..] == ".close"
  }

  /** The last test of backup.js `isBlockOpen`: at least five characters
      ending in "open". */
  predicate IsSuffixOpen(t: string) {
    |t| >= 5 && t[|t| - 4..] == "open"
  }

  /** The last test of backup.js `isBlockClose`: at least six characters
      ending in "close". */
  predicate IsSuffixClose(t: string) {
    |t| >= 6 && t[|t| - 5..] == "close"
  }

  /** The default of backup.js `isClose(node, parent)`: the first dot-piece
      of the node's type is the parent's type and the second is "close". */
  predicate IsDefaultClose(nodeType: string, parentType: string) {
    var segs := SplitOnDot(nodeType);
    segs[0] == parentType && |segs| > 1 && segs[1] == "close"
  }

  /** A block name in the dotted convention is a non-empty base name
      followed by its suffix. */
  lemma {:induction false} DotOpenShape(t: string)
    ensures IsDotOpen(t) <==> exists base: string :: |base| >= 1 && t == base + ".open"
  {
    if IsDotOpen(t) {
      var base := t[..|t| - 5];
      assert t == base + ".open";
    }
    if exists base: string :: |base| >= 1 && t == base + ".open" {
      var base: string :| |base| >= 1 && t == base + ".open";
      assert t[|t| - 5..] == ".open";
    }
  }

  lemma {:induction false} DotCloseShape(t: string)
    ensures IsDotClose(t) <==> exists base: string :: |base| >= 1 && t == base + ".close"
  {
    if IsDotClose(t) {
      var base := t[..|t| - 6];
      assert t == base + ".close";
    }
    if exists base: string :: |base| >= 1 && t == base + ".close" {
      var base: string :| |base| >= 1 && t == base + ".close";
      assert t[|t| - 6..] == ".close";
    }
  }

  /** Every name the dotted convention accepts, backup.js accepts too. */
  lemma {:induction false} DotConventionIsStricter(t: string)
    ensures IsDotOpen(t) ==> IsSuffixOpen(t)
    ensures IsDotClose(t) ==> IsSuffixClose(t)
  {
    if IsDotOpen(t) {
      assert t[|t| - 4..] == t[|t| - 5..][1..];
    }
    if IsDotClose(t) {
      assert t[|t| - 5..] == t[|t| - 6..][1..];
    }
  }

  /** No type both opens and closes a block in the dotted convention: the
      one ends in 'n', the other in 'e'. */
  lemma {:induction false} DotOpenNotClose(t: string)
    ensures !(IsDotOpen(t) && IsDotClose(t))
  {
    if IsDotOpen(t) {
      var tail := t[|t| - 5..];
      assert tail[4] == ".open"[4] == 'n';
      assert t[|t| - 1] == tail[4];
    }
    if IsDotClose(t) {
      var tail := t[|t| - 6..];
      assert tail[5] == ".close"[5] == 'e';
      assert t[|t| - 1] == tail[5];
    }
  }

  /** The converse fails: backup.js takes "reopen" for an opening node and
      "enclose" for a closing one, the dotted convention takes neither. */
  lemma {:induction false} SuffixConventionIsLooser()
    ensures IsSuffixOpen("reopen") && !IsDotOpen("reopen")
    ensures IsSuffixClose("enclose") && !IsDotClose("enclose")
  {
    var o := "reopen";
    assert o[2..] == "open";
    assert o[1..][0] == 'e';
    var c := "enclose";
    assert c[2..] == "close";
    assert c[1..][0] == 'n';
  }

  /** lib/utils.js `typeEndsWith(node, '.open')` is stricter still: it
      rejects the six-character names such as "a.open" that `isBlockOpen`
      accepts, and agrees with it on every longer name. */
  lemma {:induction false} TypeEndsWithAgainstDotOpen(t: string)
    ensures TypeUtils.TypeEndsWith(Some(t), ".open") <==> IsDotOpen(t) && |t| >= 7
    ensures TypeUtils.TypeEndsWith(Some(t), ".close") <==> IsDotClose(t) && |t| >= 8
    ensures IsDotOpen("a.open") && !TypeUtils.TypeEndsWith(Some("a.open"), ".open")
  {
    assert "a.open"[1..] == ".open";
  }

  /** A name in the dotted convention strips, with lib/utils.js `type`, to
      its non-empty base name. */
  lemma {:induction false} StripDotNames(t: string)
    ensures IsDotOpen(t) ==> |TypeUtils.StripType(t)| >= 1 && TypeUtils.StripType(t) + ".open" == t
    ensures IsDotClose(t) ==> |TypeUtils.StripType(t)| >= 1 && TypeUtils.StripType(t) + ".close" == t
  {
    if IsDotClose(t) {
      assert !EndsWith(t, ".open") by { assert t[|t| - 1] == 'e' && ".open"[4] == 'n'; }
    }
  }

  /** The position of the first dot of `p + "." + rest` when `p` has none. */
  lemma {:induction false} FirstDotAfter(p: string, rest: string)
    requires '.' !in p
    ensures FirstIndex(p + "." + rest, '.') == |p|
  {
    var s := p + "." + rest;
    assert s[..|p|] == p;
    assert s[|p|] == '.';
  }

  /** Splitting `p + "." + rest` for a dot-free `p` gives `p` and then the
      pieces of `rest`. */
  lemma {:induction false} SplitAfterFirstDot(p: string, rest: string)
    requires '.' !in p
    ensures SplitOnDot(p + "." + rest) == [p] + SplitOnDot(rest)
  {
    var s := p + "." + rest;
    FirstDotAfter(p, rest);
    assert s[..|p|] == p;
    assert s[|p| + 1..] == rest;
  }

  /** A string with a dot is its first piece, a dot, and the remainder. */
  lemma {:induction false} SplitAtFirstDot(s: string) returns (head: string, rest: string)
    requires '.' in s
    ensures '.' !in head && s == head + "." + rest
    ensures SplitOnDot(s) == [head] + SplitOnDot(rest)
  {
    var i := FirstIndex(s, '.');
    head, rest := s[..i], s[i + 1..];
    assert s == head + "." + rest;
    SplitAfterFirstDot(head, rest);
  }

  /** A string whose first dot-piece is "close" is "close" itself or
      starts with "close.". */
  lemma {:induction false} FirstPieceClose(rest: string)
    requires SplitOnDot(rest)[0] == "close"
    ensures rest == "close" || (|rest| >= 6 && rest[..6] == "close.")
  {
    if '.' !in rest {
      assert SplitOnDot(rest) == [rest];
    } else {
      var head, more := SplitAtFirstDot(rest);
      assert head == "close";
      assert rest == "close." + more;
    }
  }

  /** When backup.js's default `isClose` holds, the node's type has one of
      the two closing shapes. */
  lemma {:induction false} DefaultCloseHasShape(t: string, p: string)
    requires IsDefaultClose(t, p)
    ensures '.' !in p && (t == p + ".close" || (|t| >= |p| + 7 && t[..|p| + 7] == p + ".close."))
  {
    var head, rest := SplitAtFirstDot(t);
    assert head == p && SplitOnDot(rest)[0] == "close";
    FirstPieceClose(rest);
    if rest != "close" {
      assert t == p + "." + rest;
      assert t[..|p| + 7] == p + "." + rest[..6];
    }
  }

  /** The closing shapes satisfy backup.js's default `isClose`. */
  lemma {:induction false} ShapeIsDefaultClose(p: string, more: string)
    requires '.' !in p
    ensures IsDefaultClose(p + ".close", p)
    ensures IsDefaultClose(p + ".close." + more, p)
  {
    PlainCloseIsDefaultClose(p);
    assert p + ".close." + more == p + "." + ("close" + "." + more);
    SplitAfterFirstDot(p, "close" + "." + more);
    SplitAfterFirstDot("close", more);
  }

  lemma {:induction false} PlainCloseIsDefaultClose(p: string)
    requires '.' !in p
    ensures IsDefaultClose(p + ".close", p)
  {
    assert p + ".close" == p + "." + "close";
    SplitAfterFirstDot(p, "close");
    assert SplitOnDot("close") == ["close"];
  }

  /** backup.js's default `isClose(node, parent)` holds exactly when the
      parent's type has no dot and the node's type is that type followed by
      ".close", alone or followed by a further dot-piece. */
  lemma {:induction false} DefaultCloseShape(t: string, p: string)
    ensures IsDefaultClose(t, p) <==>
      '.' !in p && (t == p + ".close" || (|t| >= |p| + 7 && t[..|p| + 7] == p + ".close."))
  {
    if IsDefaultClose(t, p) {
      DefaultCloseHasShape(t, p);
    } else if '.' !in p {
      if |t| >= |p| + 7 && t[..|p| + 7] == p + ".close." {
        assert t == p + ".close." + t[|p| + 7..];
        ShapeIsDefaultClose(p, t[|p| + 7..]);
      } else {
        ShapeIsDefaultClose(p, "");
      }
    }
  }

  /** The two ways of recognising a closing node agree on the plain case: a
      node "P.close" closes a block of a dot-free type P in backup.js and is
      a closing node in the dotted convention. */
  lemma {:induction false} DefaultCloseIsDotClose(p: string)
    requires '.' !in p && |p| >= 1
    ensures IsDefaultClose(p + ".close", p)
    ensures IsDotClose(p + ".close")
  {
    DefaultCloseShape(p + ".close", p);
    assert (p + ".close")[|p| + 1 - 1 + 1 - 1..] == ".close";
  }
}

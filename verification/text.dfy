/**
 * Python's `str.replace(old, new)` on strings, as the deployer uses it to put the
 * release version into manifest templates, and what it means for a string to be
 * free of a token.
 */
module Text {

  /** The placeholder manifest templates carry where the release version belongs. */
  const Token: string := "VERSION"

  predicate StartsWith(s: string, p: string) {
    |p| <= |s| && s[..|p|] == p
  }

  /** No occurrence of `p` starts anywhere in `s`. */
  predicate Free(s: string, p: string)
    decreases |s|
  {
    !StartsWith(s, p) && (s == [] || Free(s[1..], p))
  }

  /** `r` shares no character with `p`. */
  predicate Disjoint(r: string, p: string) {
    forall i :: 0 <= i < |r| ==> r[i] !in p
  }

  /**
   * `s.replace(p, r)`: scanning left to right, every occurrence of `p` that does
   * not overlap an earlier replaced one is replaced by `r`.
   */
  function Replace(s: string, p: string, r: string): string
    requires p != []
    decreases |s|
  {
    if |s| < |p| then s
    else if s[..|p|] == p then r + Replace(s[|p|..], p, r)
    else [s[0]] + Replace(s[1..], p, r)
  }

  /** A string without the token is returned as it is. */
  lemma {:induction false} ReplaceFree(s: string, p: string, r: string)
    requires p != [] && Free(s, p)
    ensures Replace(s, p, r) == s
    decreases |s|
  {
    if |s| >= |p| {
      assert s != [];
      ReplaceFree(s[1..], p, r);
      assert [s[0]] + s[1..] == s;
    }
  }

  lemma {:induction false} ShortFree(s: string, p: string)
    requires |s| < |p|
    ensures Free(s, p)
    decreases |s|
  {
    if s != [] {
      ShortFree(s[1..], p);
    }
  }

  lemma {:induction false} DisjointPrefixFree(r: string, x: string, p: string)
    requires p != [] && Disjoint(r, p) && Free(x, p)
    ensures Free(r + x, p)
    decreases |r|
  {
    if r == [] {
      assert r + x == x;
    } else {
      assert (r + x)[0] == r[0];
      assert p[0] in p;
      assert !StartsWith(r + x, p);
      assert (r + x)[1..] == r[1..] + x;
      DisjointPrefixFree(r[1..], x, p);
    }
  }

  lemma ReplaceStartsWithReplacement(t: string, p: string, r: string)
    requires p != [] && r != [] && StartsWith(t, p)
    ensures Replace(t, p, r)[0] == r[0]
  {
  }

  /**
   * When the replacement is non-empty and has no character of `p`, a prefix of
   * the output made only of characters of `p` was copied from the input.
   */
  lemma {:induction false} TokenCharsCopied(t: string, p: string, r: string, k: nat)
    requires p != [] && r != [] && Disjoint(r, p)
    requires k <= |Replace(t, p, r)|
    requires forall i :: 0 <= i < k ==> Replace(t, p, r)[i] in p
    ensures k <= |t| && t[..k] == Replace(t, p, r)[..k]
    decreases |t|
  {
    if |t| < |p| {
    } else if t[..|p|] == p {
      if k > 0 {
        ReplaceStartsWithReplacement(t, p, r);
        assert false;
      }
    } else if k > 0 {
      var out := Replace(t, p, r);
      var rest := Replace(t[1..], p, r);
      assert out == [t[0]] + rest;
      forall i | 0 <= i < k - 1
        ensures rest[i] in p
      {
        assert rest[i] == out[i + 1];
      }
      TokenCharsCopied(t[1..], p, r, k - 1);
      assert t[..k] == [t[0]] + t[1..][..k - 1];
      assert out[..k] == [t[0]] + rest[..k - 1];
    }
  }

  /** A copied character cannot start an occurrence that the rest of the output completes. */
  lemma CopiedHeadFree(s: string, p: string, r: string)
    requires p != [] && r != [] && Disjoint(r, p)
    requires |p| <= |s| && s[..|p|] != p && Free(Replace(s[1..], p, r), p)
    ensures Free([s[0]] + Replace(s[1..], p, r), p)
  {
    var rest := Replace(s[1..], p, r);
    var out := [s[0]] + rest;
    assert out[1..] == rest;
    if StartsWith(out, p) {
      forall i | 0 <= i < |p| - 1
        ensures rest[i] in p
      {
        assert rest[i] == out[i + 1] == p[i + 1];
      }
      assert s[..|p|] == [s[0]] + s[1..][..|p| - 1];
      assert out[..|p|] == [s[0]] + rest[..|p| - 1];
      TokenCharsCopied(s[1..], p, r, |p| - 1);
      assert false;
    }
  }

  /**
   * With a non-empty replacement that has no character of `p`, no occurrence of
   * `p` is left: every occurrence was replaced and none was formed anew.
   */
  lemma {:induction false} ReplaceLeavesNoToken(s: string, p: string, r: string)
    requires p != [] && r != [] && Disjoint(r, p)
    ensures Free(Replace(s, p, r), p)
    decreases |s|
  {
    if |s| < |p| {
      ShortFree(s, p);
    } else if s[..|p|] == p {
      ReplaceLeavesNoToken(s[|p|..], p, r);
      DisjointPrefixFree(r, Replace(s[|p|..], p, r), p);
    } else {
      ReplaceLeavesNoToken(s[1..], p, r);
      CopiedHeadFree(s, p, r);
    }
  }

  /** Replacing a second time changes nothing (given a suitable replacement). */
  lemma ReplaceIdempotent(s: string, p: string, r: string)
    requires p != [] && r != [] && Disjoint(r, p)
    ensures Replace(Replace(s, p, r), p, r) == Replace(s, p, r)
  {
    ReplaceLeavesNoToken(s, p, r);
    ReplaceFree(Replace(s, p, r), p, r);
  }

  /** Regrouping a concatenation of three strings. */
  lemma CharsAssoc(a: string, b: string, c: string)
    ensures a + (b + c) == (a + b) + c
  {
  }

  /** A stretch in which the first character of `p` does not occur is copied as it is. */
  lemma {:induction false} ReplaceSkips(s: string, p: string, r: string, i: nat)
    requires p != [] && i <= |s|
    requires forall j :: 0 <= j < i ==> s[j] != p[0]
    ensures Replace(s, p, r) == s[..i] + Replace(s[i..], p, r)
    decreases i
  {
    if i > 0 {
      assert Replace(s, p, r) == [s[0]] + Replace(s[1..], p, r) by {
        assert |s| >= |p| ==> s[..|p|][0] == s[0];
      }
      var t := s[1..];
      forall j | 0 <= j < i - 1
        ensures t[j] != p[0]
      {
        assert t[j] == s[j + 1];
      }
      ReplaceSkips(t, p, r, i - 1);
      assert t[i - 1..] == s[i..];
      assert s[..i] == [s[0]] + t[..i - 1];
      CharsAssoc([s[0]], t[..i - 1], Replace(s[i..], p, r));
    }
  }

  /** A tag that ends in the token, with no character before it equal to the token's first, gets the replacement at its end. */
  lemma TrailingToken(head: string, p: string, r: string)
    requires p != [] && forall j :: 0 <= j < |head| ==> head[j] != p[0]
    ensures Replace(head + p, p, r) == head + r
  {
    var s := head + p;
    assert s[..|head|] == head && s[|head|..] == p;
    ReplaceSkips(s, p, r, |head|);
    assert Replace(p, p, r) == r + Replace([], p, r);
  }

  /** The example of a registry image tag: `quobyte/registry:VERSION` with version `2.10`. */
  lemma ReplaceImageTag()
    ensures Replace("quobyte/registry:" + Token, Token, "2.10") == "quobyte/registry:" + "2.10"
  {
    TrailingToken("quobyte/registry:", Token, "2.10");
  }
}

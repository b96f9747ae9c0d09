/**
 The part of Go's `strings` package that the plugin's output parsing relies on:
 TrimSpace, HasPrefix, TrimPrefix, TrimSuffix and Contains. Strings are
 sequences of Unicode code points; Go's byte-level handling of invalid UTF-8
 is not modelled.
 */
module GoStrings {

  import opened Optional

  /** Go's unicode.IsSpace, the predicate strings.TrimSpace trims by: the six ASCII
      white-space characters, NEL, NO-BREAK SPACE and the remaining Unicode
      White_Space code points. */
  predicate IsSpace(c: char) {
    var n := c as int;
    || n == 0x09 || n == 0x0A || n == 0x0B || n == 0x0C || n == 0x0D || n == 0x20
    || n == 0x85 || n == 0xA0 || n == 0x1680 || (0x2000 <= n <= 0x200A)
    || n == 0x2028 || n == 0x2029 || n == 0x202F || n == 0x205F || n == 0x3000
  }

  predicate AllSpace(s: string) {
    forall i :: 0 <= i < |s| ==> IsSpace(s[i])
  }

  /** Neither end of `s` is white space. */
  predicate IsTrimmed(s: string) {
    |s| == 0 || (!IsSpace(s[0]) && !IsSpace(s[|s| - 1]))
  }

  /** Drops the leading white space: what remains is a suffix of `s`, everything
      dropped is white space, and what remains does not start with white space. */
  function TrimLeftSpace(s: string): (r: string)
    ensures |r| <= |s| && r == s[|s| - |r|..]
    ensures AllSpace(s[..|s| - |r|])
    ensures |r| == 0 || !IsSpace(r[0])
    decreases |s|
  {
    if |s| > 0 && IsSpace(s[0]) then
      var r := TrimLeftSpace(s[1..]);
      assert s[..|s| - |r|] == [s[0]] + s[1..][..|s| - 1 - |r|];
      r
    else
      s
  }

  /** Drops the trailing white space, symmetrically to TrimLeftSpace. */
  function TrimRightSpace(s: string): (r: string)
    ensures |r| <= |s| && r == s[..|r|]
    ensures AllSpace(s[|r|..])
    ensures |r| == 0 || !IsSpace(r[|r| - 1])
    decreases |s|
  {
    if |s| > 0 && IsSpace(s[|s| - 1]) then
      var r := TrimRightSpace(s[..|s| - 1]);
      assert s[|r|..] == s[..|s| - 1][|r|..] + [s[|s| - 1]];
      r
    else
      s
  }

  /** strings.TrimSpace: drops white space from both ends, leaving a trimmed
      piece of `s` (TrimSpaceSplit and TrimSpaceOfPadded say which piece). */
  function TrimSpace(s: string): (r: string)
    ensures IsTrimmed(r)
    ensures |r| <= |s|
  {
    TrimRightSpace(TrimLeftSpace(s))
  }

  predicate HasPrefix(s: string, prefix: string) {
    |prefix| <= |s| && s[..|prefix|] == prefix
  }

  predicate HasSuffix(s: string, suffix: string) {
    |suffix| <= |s| && s[|s| - |suffix|..] == suffix
  }

  /** strings.TrimPrefix: removes one leading copy of `prefix`, if there is one. */
  function TrimPrefix(s: string, prefix: string): (r: string)
    ensures HasPrefix(s, prefix) ==> prefix + r == s
    ensures !HasPrefix(s, prefix) ==> r == s
  {
    if HasPrefix(s, prefix) then s[|prefix|..] else s
  }

  /** strings.TrimSuffix: removes one trailing copy of `suffix`, if there is one. */
  function TrimSuffix(s: string, suffix: string): (r: string)
    ensures HasSuffix(s, suffix) ==> r + suffix == s
    ensures !HasSuffix(s, suffix) ==> r == s
  {
    if HasSuffix(s, suffix) then s[..|s| - |suffix|] else s
  }

  /** `sub` occurs in `s` starting at index `i`. */
  ghost predicate OccursAt(s: string, sub: string, i: int) {
    0 <= i && i + |sub| <= |s| && s[i..i + |sub|] == sub
  }

  /** strings.Contains, by scanning left to right: true exactly when `sub`
      occurs somewhere in `s` (the empty string occurs everywhere). */
  function Contains(s: string, sub: string): (b: bool)
    ensures b <==> exists i :: OccursAt(s, sub, i)
    decreases |s|
  {
    if |sub| > |s| then
      false
    else if s[..|sub|] == sub then
      assert OccursAt(s, sub, 0);
      true
    else
      OccurrenceShift(s, sub);
      Contains(s[1..], sub)
  }

  /** Once `sub` is not at the front of `s`, its occurrences in `s` are those in
      `s[1..]`, moved one place right. */
  lemma OccurrenceShift(s: string, sub: string)
    requires |s| > 0 && !OccursAt(s, sub, 0)
    ensures (exists i :: OccursAt(s, sub, i)) <==> (exists i :: OccursAt(s[1..], sub, i))
  {
    forall i | OccursAt(s[1..], sub, i)
      ensures OccursAt(s, sub, i + 1)
    {
      assert s[i + 1..i + 1 + |sub|] == s[1..][i..i + |sub|];
    }
    forall i | OccursAt(s, sub, i)
      ensures OccursAt(s[1..], sub, i - 1)
    {
      assert s[1..][i - 1..i - 1 + |sub|] == s[i..i + |sub|];
    }
  }

  /** A string cannot contain a piece that has a character the string lacks. */
  lemma NotContainedWithoutChar(s: string, sub: string, k: int)
    requires 0 <= k < |sub|
    requires forall j :: 0 <= j < |s| ==> s[j] != sub[k]
    ensures !Contains(s, sub)
  {
    forall i
      ensures !OccursAt(s, sub, i)
    {
      if 0 <= i && i + |sub| <= |s| {
        assert s[i..i + |sub|][k] == s[i + k];
      }
    }
  }

  /** First index of `c` in `s` (strings.IndexByte), None when absent. The
      plugin's parsing does not use it; the JSON body reader in commands.dfy
      does. */
  function IndexOf(s: string, c: char): (r: Option<nat>)
    ensures r.Some? ==> r.value < |s| && s[r.value] == c
    ensures r.Some? ==> forall k :: 0 <= k < r.value ==> s[k] != c
    ensures r.None? ==> forall k :: 0 <= k < |s| ==> s[k] != c
  {
    if |s| == 0 then None
    else if s[0] == c then Some(0)
    else match IndexOf(s[1..], c)
      case None => None
      case Some(i) => Some(i + 1)
  }

  /** Leading white space before a piece that does not start with white space
      is exactly what TrimLeftSpace removes. */
  lemma {:induction false} TrimLeftOfPadded(pad: string, t: string)
    requires AllSpace(pad)
    requires |t| == 0 || !IsSpace(t[0])
    ensures TrimLeftSpace(pad + t) == t
    decreases |pad|
  {
    if |pad| == 0 {
      assert pad + t == t;
    } else {
      assert (pad + t)[1..] == pad[1..] + t;
      TrimLeftOfPadded(pad[1..], t);
    }
  }

  /** Trailing white space after a piece that does not end with white space is
      exactly what TrimRightSpace removes. */
  lemma {:induction false} TrimRightOfPadded(t: string, pad: string)
    requires AllSpace(pad)
    requires |t| == 0 || !IsSpace(t[|t| - 1])
    ensures TrimRightSpace(t + pad) == t
    decreases |pad|
  {
    if |pad| == 0 {
      assert t + pad == t;
    } else {
      var s := t + pad;
      assert s[..|s| - 1] == t + pad[..|pad| - 1];
      TrimRightOfPadded(t, pad[..|pad| - 1]);
    }
  }

  /** TrimSpace recovers any trimmed string from any white-space padding: with
      TrimSpace's own contract, this pins its result down uniquely. */
  lemma TrimSpaceOfPadded(pre: string, core: string, post: string)
    requires AllSpace(pre) && AllSpace(post) && IsTrimmed(core)
    ensures TrimSpace(pre + core + post) == core
  {
    if |core| == 0 {
      assert pre + core + post == (pre + post) + "";
      TrimLeftOfPadded(pre + post, "");
    } else {
      assert pre + core + post == pre + (core + post);
      TrimLeftOfPadded(pre, core + post);
      TrimRightOfPadded(core, post);
    }
  }

  /** The white space TrimSpace removes from each side. */
  lemma TrimSpaceSplit(s: string) returns (pre: string, post: string)
    ensures AllSpace(pre) && AllSpace(post)
    ensures s == pre + TrimSpace(s) + post
  {
    var l := TrimLeftSpace(s);
    var r := TrimRightSpace(l);
    pre, post := s[..|s| - |l|], l[|r|..];
    SplitAt(s, |s| - |l|);
    SplitAt(l, |r|);
    Reassociate(s, pre, l, r, post);
  }

  /** TrimSpace of a trimmed string followed by white space. */
  lemma TrimSpaceOfRightPadded(core: string, post: string)
    requires AllSpace(post) && IsTrimmed(core)
    ensures TrimSpace(core + post) == core
  {
    EmptyLeft(core + post);
    TrimSpaceOfPadded("", core, post);
  }

  /** TrimSpace of white space followed by a trimmed string. */
  lemma TrimSpaceOfLeftPadded(pre: string, core: string)
    requires AllSpace(pre) && IsTrimmed(core)
    ensures TrimSpace(pre + core) == core
  {
    EmptyRight(pre + core);
    TrimSpaceOfPadded(pre, core, "");
  }

  // SplitAt, Reassociate, EmptyLeft and EmptyRight are one-line sequence facts
  // with no meaning of their own: calling them keeps the sequence algebra out of
  // the larger trim proofs, which the solver otherwise handles slowly.

  lemma SplitAt(s: string, k: nat)
    requires k <= |s|
    ensures s == s[..k] + s[k..]
  {
  }

  lemma Reassociate(s: string, pre: string, l: string, r: string, post: string)
    requires s == pre + l && l == r + post
    ensures s == pre + r + post
  {
  }

  lemma EmptyLeft(s: string)
    ensures "" + s == s
  {
  }

  lemma EmptyRight(s: string)
    ensures s + "" == s
  {
  }

  /** TrimSpace leaves a trimmed string alone, so applying it twice is applying
      it once. */
  lemma TrimSpaceIdempotent(s: string)
    ensures TrimSpace(TrimSpace(s)) == TrimSpace(s)
  {
    var t := TrimSpace(s);
    EmptyRight(t);
    TrimSpaceOfRightPadded(t, "");
  }

  /** TrimSuffix undoes appending the suffix. */
  lemma TrimSuffixOfAppended(t: string, suffix: string)
    ensures TrimSuffix(t + suffix, suffix) == t
  {
    assert (t + suffix)[|t + suffix| - |suffix|..] == suffix;
    assert (t + suffix)[..|t|] == t;
  }

  /** TrimPrefix undoes prepending the prefix. */
  lemma TrimPrefixOfPrepended(prefix: string, t: string)
    ensures TrimPrefix(prefix + t, prefix) == t
  {
    assert (prefix + t)[..|prefix|] == prefix;
    assert (prefix + t)[|prefix|..] == t;
  }
}

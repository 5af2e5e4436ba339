/**
 * Java's String.trim(): strips every leading and trailing character whose code
 * is at most U+0020 (space and the control characters), and nothing else.
 */
module JavaString {

  /** A character that String.trim() removes from either end. */
  predicate IsTrimmable(c: char) {
    c <= ' '
  }

  /** Every character of `s` is one that trim() removes. */
  predicate AllTrimmable(s: string) {
    forall k :: 0 <= k < |s| ==> IsTrimmable(s[k])
  }

  /** The number of characters trim() removes from the front of `s`. */
  function LeadingCount(s: string): (n: nat)
    ensures n <= |s|
    ensures forall k :: 0 <= k < n ==> IsTrimmable(s[k])
    ensures n < |s| ==> !IsTrimmable(s[n])
  {
    if s == [] || !IsTrimmable(s[0]) then 0 else 1 + LeadingCount(s[1..])
  }

  /** The number of characters trim() removes from the back of `s`. */
  function TrailingCount(s: string): (n: nat)
    ensures n <= |s|
    ensures forall k :: |s| - n <= k < |s| ==> IsTrimmable(s[k])
    ensures n < |s| ==> !IsTrimmable(s[|s| - 1 - n])
  {
    if s == [] || !IsTrimmable(s[|s| - 1]) then 0 else 1 + TrailingCount(s[..|s| - 1])
  }

  /**
   * String.trim(): the part of `s` between its removable prefix and its
   * removable suffix; empty when every character is removable.
   */
  function Trim(s: string): (r: string)
    ensures LeadingCount(s) + |r| <= |s|
    ensures r == s[LeadingCount(s)..LeadingCount(s) + |r|]
    ensures forall k :: LeadingCount(s) + |r| <= k < |s| ==> IsTrimmable(s[k])
    ensures r == [] || (!IsTrimmable(r[0]) && !IsTrimmable(r[|r| - 1]))
  {
    var l := LeadingCount(s);
    if l == |s| then [] else s[l..|s| - TrailingCount(s)]
  }

  /**
   * trim() is characterised by its result: whenever `s` is removable padding
   * around a core that is empty or starts and ends with a kept character,
   * trim() returns exactly that core.
   */
  lemma TrimOfPadded(pre: string, core: string, post: string)
    requires AllTrimmable(pre) && AllTrimmable(post)
    requires core == [] || (!IsTrimmable(core[0]) && !IsTrimmable(core[|core| - 1]))
    ensures Trim(pre + core + post) == core
  {
    var s := pre + core + post;
    if core == [] {
      assert forall k :: 0 <= k < |s| ==> s[k] == if k < |pre| then pre[k] else post[k - |pre|];
    } else {
      assert s[|pre|] == core[0];
      assert LeadingCount(s) == |pre|;
      var r := Trim(s);
      var e := |pre| + |core|;
      assert s[e - 1] == core[|core| - 1];
      assert s[|pre|..e] == core;
    }
  }

  /** Trimming twice is trimming once. */
  lemma TrimIdempotent(s: string)
    ensures Trim(Trim(s)) == Trim(s)
  {
  }

  /** Gluing removable runs together gives a removable run. */
  lemma AllTrimmableConcat(x: string, y: string)
    requires AllTrimmable(x) && AllTrimmable(y)
    ensures AllTrimmable(x + y)
  {
  }

  /** Every string is its trimmed core with removable padding on both sides. */
  lemma TrimPieces(s: string) returns (pre: string, post: string)
    ensures AllTrimmable(pre) && AllTrimmable(post)
    ensures s == pre + Trim(s) + post
  {
    var l := LeadingCount(s);
    var r := Trim(s);
    pre, post := s[..l], s[l + |r|..];
    assert s == s[..l] + s[l..l + |r|] + s[l + |r|..];
  }

  /** Removable padding around a string does not change what trim() returns. */
  lemma TrimIgnoresPadding(pre: string, s: string, post: string)
    requires AllTrimmable(pre) && AllTrimmable(post)
    ensures Trim(pre + s + post) == Trim(s)
  {
    var r := Trim(s);
    var a, b := TrimPieces(s);
    AllTrimmableConcat(pre, a);
    AllTrimmableConcat(b, post);
    assert pre + s + post == (pre + a) + r + (b + post);
    TrimOfPadded(pre + a, r, b + post);
  }
}

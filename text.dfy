/** The few string operations of Python that the core relies on:
    str.lower(), the `in` substring test and str.strip(). */
module Text {

  /** ASCII case folding of one character; other characters are unchanged. */
  function LowerChar(c: char): char {
    if 'A' <= c <= 'Z' then (c as int + 32) as char else c
  }

  /** str.lower(), restricted to ASCII letters. */
  function Lower(s: string): (r: string)
    ensures |r| == |s|
    ensures forall i :: 0 <= i < |s| ==> r[i] == LowerChar(s[i])
  {
    if s == [] then [] else [LowerChar(s[0])] + Lower(s[1..])
  }

  predicate IsPrefix(p: string, s: string) {
    |p| <= |s| && s[..|p|] == p
  }

  /** Python's `sub in s`: sub occurs as a contiguous block of s. */
  predicate Contains(s: string, sub: string)
    decreases |s|
  {
    IsPrefix(sub, s) || (|s| > 0 && Contains(s[1..], sub))
  }

  /** `any(p in s for p in pats)`. */
  predicate ContainsAny(s: string, pats: seq<string>) {
    exists k :: 0 <= k < |pats| && Contains(s, pats[k])
  }

  /** The characters for which Python's str.isspace() holds. */
  predicate IsSpace(c: char) {
    var n := c as int;
    9 <= n <= 13 || 28 <= n <= 32 || n == 0x85 || n == 0xA0 || n == 0x1680
    || 0x2000 <= n <= 0x200A || n == 0x2028 || n == 0x2029 || n == 0x202F
    || n == 0x205F || n == 0x3000
  }

  predicate AllSpace(s: string) {
    forall k :: 0 <= k < |s| ==> IsSpace(s[k])
  }

  /** str.strip(): what is left of s once white space is cut from both ends;
      it is empty exactly when s is all white space, and otherwise neither
      starts nor ends with white space. */
  function Strip(s: string): (r: string)
    ensures |r| <= |s|
    ensures r == [] <==> AllSpace(s)
    ensures r == [] || (!IsSpace(r[0]) && !IsSpace(r[|r| - 1]))
    decreases |s|
  {
    if s != [] && IsSpace(s[0]) then
      var r := Strip(s[1..]);
      assert AllSpace(s[1..]) ==> AllSpace(s) by {
        if AllSpace(s[1..]) {
          forall k | 0 <= k < |s| ensures IsSpace(s[k]) { if k > 0 { assert s[k] == s[1..][k - 1]; } }
        }
      }
      r
    else if s != [] && IsSpace(s[|s| - 1]) then
      var r := Strip(s[..|s| - 1]);
      assert AllSpace(s[..|s| - 1]) ==> AllSpace(s) by {
        if AllSpace(s[..|s| - 1]) {
          forall k | 0 <= k < |s| ensures IsSpace(s[k]) { if k < |s| - 1 { assert s[k] == s[..|s| - 1][k]; } }
        }
      }
      r
    else
      s
  }

  /** Cutting s[0] off first: positions in s[1..] shift by one, and a space
      s[0] joins the leading run. */
  lemma FrontCut(s: string, a: nat, b: nat)
    requires s != [] && IsSpace(s[0]) && a <= b <= |s| - 1
    requires AllSpace(s[1..][..a]) && AllSpace(s[1..][b..])
    ensures s[1..][a..b] == s[a + 1..b + 1]
    ensures AllSpace(s[..a + 1]) && AllSpace(s[b + 1..])
  {
    assert s[1..][b..] == s[b + 1..];
    var lead := s[..a + 1];
    forall k | 0 <= k < |lead| ensures IsSpace(lead[k]) {
      if k > 0 { assert lead[k] == s[1..][..a][k - 1]; }
    }
  }

  /** Cutting the last character off first: positions are unchanged, and a
      space at the end joins the trailing run. */
  lemma BackCut(s: string, a: nat, b: nat)
    requires s != [] && IsSpace(s[|s| - 1]) && a <= b <= |s| - 1
    requires AllSpace(s[..|s| - 1][..a]) && AllSpace(s[..|s| - 1][b..])
    ensures s[..|s| - 1][a..b] == s[a..b]
    ensures AllSpace(s[..a]) && AllSpace(s[b..])
  {
    assert s[..|s| - 1][..a] == s[..a];
    var trail := s[b..];
    forall k | 0 <= k < |trail| ensures IsSpace(trail[k]) {
      if k < |trail| - 1 { assert trail[k] == s[..|s| - 1][b..][k]; }
    }
  }

  /** Strip(s) is s with a run of white space cut from each end, at the
      returned positions; with Strip's own contract (the result neither starts
      nor ends with white space) this fixes the result as str.strip() does. */
  lemma {:induction false} StripCutsEnds(s: string) returns (a: nat, b: nat)
    ensures a <= b <= |s| && Strip(s) == s[a..b]
    ensures AllSpace(s[..a]) && AllSpace(s[b..])
    decreases |s|
  {
    if s != [] && IsSpace(s[0]) {
      var a', b' := StripCutsEnds(s[1..]);
      FrontCut(s, a', b');
      a, b := a' + 1, b' + 1;
    } else if s != [] && IsSpace(s[|s| - 1]) {
      a, b := StripCutsEnds(s[..|s| - 1]);
      BackCut(s, a, b);
    } else {
      a, b := 0, |s|;
      assert s[a..b] == s;
    }
  }

  /** A string longer than s does not occur in s. */
  lemma {:induction false} LongerNotContained(s: string, sub: string)
    requires |sub| > |s|
    ensures !Contains(s, sub)
    decreases |s|
  {
    if |s| > 0 {
      LongerNotContained(s[1..], sub);
    }
  }
}

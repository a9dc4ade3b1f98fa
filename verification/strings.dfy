/** The few functions of Go's `strings` package that the resolver, the
    blocklist loader and the logger use, over `seq<char>`. */
module Strings {

  /** `strings.HasPrefix` */
  predicate HasPrefix(s: string, prefix: string) {
    |prefix| <= |s| && s[..|prefix|] == prefix
  }

  /** `strings.HasSuffix` */
  predicate HasSuffix(s: string, suffix: string) {
    |suffix| <= |s| && s[|s| - |suffix|..] == suffix
  }

  /** `strings.TrimSuffix`: removes one occurrence of `suffix` at the end, if there is one. */
  function TrimSuffix(s: string, suffix: string): (r: string)
    ensures HasSuffix(s, suffix) ==> r + suffix == s
    ensures !HasSuffix(s, suffix) ==> r == s
  {
    if HasSuffix(s, suffix) then s[..|s| - |suffix|] else s
  }

  /** The characters Go's `unicode.IsSpace` accepts: the ASCII white space,
      NEL, NO-BREAK SPACE, and the other code points with the Unicode
      White_Space property. */
  predicate IsSpace(c: char) {
    || c == ' ' || c == '\t' || c == '\n' || c == '\r'
    || c == '\U{000B}' || c == '\U{000C}' || c == '\U{0085}' || c == '\U{00A0}'
    || c == '\U{1680}' || ('\U{2000}' <= c <= '\U{200A}')
    || c == '\U{2028}' || c == '\U{2029}' || c == '\U{202F}' || c == '\U{205F}'
    || c == '\U{3000}'
  }

  /** Drops the white space at the front of `s`. */
  function TrimLeftSpace(s: string): (r: string)
    ensures r != [] ==> !IsSpace(r[0])
    decreases |s|
  {
    if s != [] && IsSpace(s[0]) then TrimLeftSpace(s[1..]) else s
  }

  /** Drops the white space at the end of `s`. */
  function TrimRightSpace(s: string): (r: string)
    ensures r != [] ==> !IsSpace(r[|r| - 1])
    decreases |s|
  {
    if s != [] && IsSpace(s[|s| - 1]) then TrimRightSpace(s[..|s| - 1]) else s
  }

  /** `r` occurs in `s` starting at index `k`. */
  predicate InfixAt(r: string, s: string, k: int) {
    0 <= k <= |s| - |r| && r == s[k..k + |r|]
  }

  /** `TrimLeftSpace` keeps a suffix of `s` and cuts off only white space. */
  lemma {:induction false} TrimLeftSpaceCutsSpace(s: string)
    ensures |TrimLeftSpace(s)| <= |s| && TrimLeftSpace(s) == s[|s| - |TrimLeftSpace(s)|..]
    ensures forall i :: 0 <= i < |s| - |TrimLeftSpace(s)| ==> IsSpace(s[i])
    decreases |s|
  {
    if s != [] && IsSpace(s[0]) {
      TrimLeftSpaceCutsSpace(s[1..]);
      assert s[1..][|s| - 1 - |TrimLeftSpace(s)|..] == s[|s| - |TrimLeftSpace(s)|..];
    }
  }

  /** `TrimRightSpace` keeps a prefix of `s` and cuts off only white space. */
  lemma {:induction false} TrimRightSpaceCutsSpace(s: string)
    ensures |TrimRightSpace(s)| <= |s| && TrimRightSpace(s) == s[..|TrimRightSpace(s)|]
    ensures forall i :: |TrimRightSpace(s)| <= i < |s| ==> IsSpace(s[i])
    decreases |s|
  {
    if s != [] && IsSpace(s[|s| - 1]) {
      TrimRightSpaceCutsSpace(s[..|s| - 1]);
      assert s[..|s| - 1][..|TrimRightSpace(s)|] == s[..|TrimRightSpace(s)|];
    }
  }

  /** `strings.TrimSpace`: cuts the white space off both ends of `s`. */
  function TrimSpace(s: string): (r: string)
    ensures r != [] ==> !IsSpace(r[0]) && !IsSpace(r[|r| - 1])
  {
    var left := TrimLeftSpace(s);
    TrimRightSpaceCutsSpace(left);
    TrimRightSpace(left)
  }

  /** `r` is the piece of `s` starting at `k`, and everything of `s` before and after it is white space. */
  predicate SpaceAround(r: string, s: string, k: int) {
    && InfixAt(r, s, k)
    && (forall i :: 0 <= i < k ==> IsSpace(s[i]))
    && (forall i :: k + |r| <= i < |s| ==> IsSpace(s[i]))
  }

  /** `TrimSpace` keeps one contiguous piece of `s` and cuts off only white space on either side of it. */
  lemma TrimSpaceCutsOnlySpace(s: string)
    ensures exists k :: SpaceAround(TrimSpace(s), s, k)
  {
    var left := TrimLeftSpace(s);
    TrimLeftSpaceCutsSpace(s);
    TrimRightSpaceCutsSpace(left);
    var r := TrimRightSpace(left);
    assert r == TrimSpace(s);
    var k := |s| - |left|;
    assert r == s[k..k + |r|] by {
      assert left == s[k..];
      assert r == left[..|r|];
    }
    assert forall i :: 0 <= i < k ==> IsSpace(s[i]);
    assert forall i :: k + |r| <= i < |s| ==> IsSpace(s[i]) by {
      forall i | k + |r| <= i < |s| ensures IsSpace(s[i]) {
        assert s[i] == left[i - k];
      }
    }
    assert SpaceAround(r, s, k);
  }

  /** Trimming is idempotent. */
  lemma TrimSpaceIdempotent(s: string)
    ensures TrimSpace(TrimSpace(s)) == TrimSpace(s)
  {
    var t := TrimSpace(s);
    if t != [] {
      assert TrimLeftSpace(t) == t;
      assert TrimRightSpace(t) == t;
    }
  }

  /** The upper-case form of a character, as `unicode.ToUpper` gives it for ASCII letters. */
  function UpperChar(c: char): (u: char)
    ensures 'a' <= c <= 'z' ==> 'A' <= u <= 'Z' && u as int - c as int == 'A' as int - 'a' as int
    ensures !('a' <= c <= 'z') ==> u == c
  {
    if 'a' <= c <= 'z' then (c as int - 'a' as int + 'A' as int) as char else c
  }

  /** `strings.ToUpper`, character by character. */
  function ToUpper(s: string): (r: string)
    ensures |r| == |s|
    ensures forall i :: 0 <= i < |s| ==> r[i] == UpperChar(s[i])
  {
    seq(|s|, i requires 0 <= i < |s| => UpperChar(s[i]))
  }

  /** `s` and `t` differ at most in the case of their letters. */
  predicate EqualFold(s: string, t: string) {
    |s| == |t| && forall i :: 0 <= i < |s| ==> UpperChar(s[i]) == UpperChar(t[i])
  }

  lemma EqualFoldSameUpper(s: string, t: string)
    requires EqualFold(s, t)
    ensures ToUpper(s) == ToUpper(t)
  {
    assert forall i :: 0 <= i < |s| ==> ToUpper(s)[i] == ToUpper(t)[i];
  }
}

/**
  The Python string methods the review screens rely on: `str.strip()`,
  `str.lower()`, `str.upper()` and substring containment (`in`, pandas
  `str.contains`, SQL `LIKE '%x%'`). Whitespace and case follow the ASCII
  range.
 */
module Text {

  /** The characters `str.strip()` removes within the ASCII range. */
  predicate IsSpace(c: char) {
    c == ' ' || c == '\t' || c == '\n' || c == '\r' || c == '\U{B}' || c == '\U{C}'
    || ('\U{1C}' <= c <= '\U{1F}')
  }

  predicate AllSpace(s: string) {
    forall i :: 0 <= i < |s| ==> IsSpace(s[i])
  }

  /** `str.lstrip()`: the string without its leading whitespace. */
  function StripLeft(s: string): (r: string)
    ensures |r| <= |s| && r == s[|s| - |r|..]
    ensures r == [] || !IsSpace(r[0])
    ensures AllSpace(s[..|s| - |r|])
  {
    if |s| > 0 && IsSpace(s[0]) then StripLeft(s[1..]) else s
  }

  /** `str.rstrip()`: the string without its trailing whitespace. */
  function StripRight(s: string): (r: string)
    ensures |r| <= |s| && r == s[..|r|]
    ensures r == [] || !IsSpace(r[|r| - 1])
    ensures AllSpace(s[|r|..])
  {
    if |s| > 0 && IsSpace(s[|s| - 1]) then StripRight(s[..|s| - 1]) else s
  }

  /** `str.strip()`. */
  function Strip(s: string): string {
    StripRight(StripLeft(s))
  }

  function LowerChar(c: char): (d: char)
    ensures IsSpace(d) <==> IsSpace(c)
  {
    if 'A' <= c <= 'Z' then (c as int - 'A' as int + 'a' as int) as char else c
  }

  function UpperChar(c: char): (d: char)
    ensures IsSpace(d) <==> IsSpace(c)
  {
    if 'a' <= c <= 'z' then (c as int - 'a' as int + 'A' as int) as char else c
  }

  /** `str.lower()`. */
  function Lower(s: string): (r: string)
    ensures |r| == |s|
    ensures forall i :: 0 <= i < |s| ==> r[i] == LowerChar(s[i])
  {
    seq(|s|, i requires 0 <= i < |s| => LowerChar(s[i]))
  }

  /** `str.upper()`. */
  function Upper(s: string): (r: string)
    ensures |r| == |s|
    ensures forall i :: 0 <= i < |s| ==> r[i] == UpperChar(s[i])
  {
    seq(|s|, i requires 0 <= i < |s| => UpperChar(s[i]))
  }

  /** `sub` occurs in `s` starting at index `k`. */
  predicate OccursAt(s: string, sub: string, k: int) {
    0 <= k <= |s| - |sub| && s[k..k + |sub|] == sub
  }

  /** `sub in s`: `sub` occurs in `s` as a contiguous piece. */
  predicate Contains(s: string, sub: string) {
    exists k | 0 <= k <= |s| - |sub| :: OccursAt(s, sub, k)
  }

  /** Leading whitespace does not survive `lstrip`. */
  lemma {:induction false} StripLeftPadded(w: string, t: string)
    requires AllSpace(w)
    ensures StripLeft(w + t) == StripLeft(t)
  {
    if w != [] {
      assert (w + t)[0] == w[0] && (w + t)[1..] == w[1..] + t;
      StripLeftPadded(w[1..], t);
    } else {
      assert w + t == t;
    }
  }

  /** Trailing whitespace does not survive `rstrip`. */
  lemma {:induction false} StripRightPadded(t: string, w: string)
    requires AllSpace(w)
    ensures StripRight(t + w) == StripRight(t)
  {
    if w != [] {
      var w' := w[..|w| - 1];
      assert (t + w)[|t + w| - 1] == w[|w| - 1];
      assert (t + w)[..|t + w| - 1] == t + w';
      StripRightPadded(t, w');
    } else {
      assert t + w == t;
    }
  }

  /** Trailing whitespace does not survive `strip` either. */
  lemma {:induction false} StripTrailing(t: string, w: string)
    requires AllSpace(w)
    ensures Strip(t + w) == Strip(t)
  {
    if t == [] {
      assert t + w == w;
      StripLeftPadded(w, []);
      assert w + [] == w;
    } else if IsSpace(t[0]) {
      assert (t + w)[1..] == t[1..] + w;
      StripTrailing(t[1..], w);
    } else {
      StripRightPadded(t, w);
    }
  }

  /** `strip()` ignores any whitespace around a string. */
  lemma StripPadded(w1: string, s: string, w2: string)
    requires AllSpace(w1) && AllSpace(w2)
    ensures Strip(w1 + s + w2) == Strip(s)
  {
    assert w1 + s + w2 == w1 + (s + w2);
    StripLeftPadded(w1, s + w2);
    StripTrailing(s, w2);
  }

  /** `lstrip` and `lower` may be applied in either order. */
  lemma {:induction false} StripLeftLower(s: string)
    ensures Lower(StripLeft(s)) == StripLeft(Lower(s))
  {
    if |s| > 0 && IsSpace(s[0]) {
      assert Lower(s)[1..] == Lower(s[1..]);
      StripLeftLower(s[1..]);
    }
  }

  /** `rstrip` and `lower` may be applied in either order. */
  lemma {:induction false} StripRightLower(s: string)
    ensures Lower(StripRight(s)) == StripRight(Lower(s))
  {
    if |s| > 0 && IsSpace(s[|s| - 1]) {
      assert Lower(s)[..|s| - 1] == Lower(s[..|s| - 1]);
      StripRightLower(s[..|s| - 1]);
    }
  }

  /** `strip` and `lower` may be applied in either order. */
  lemma StripLower(s: string)
    ensures Lower(Strip(s)) == Strip(Lower(s))
  {
    StripLeftLower(s);
    StripRightLower(StripLeft(s));
  }
}

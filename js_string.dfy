/**
 * The JavaScript string operations the query gate relies on:
 * String.prototype.trim, toUpperCase, startsWith and includes.
 * Strings are sequences of Unicode scalar values.
 */
module JsString {

  /** The code points `trim` removes: ECMAScript WhiteSpace (TAB, VT, FF,
      ZWNBSP and the Unicode space separators) and LineTerminator (LF, CR,
      LS, PS). */
  predicate IsTrimmable(c: char) {
    || c == '\t' || c == '\n' || c == '\U{000B}' || c == '\U{000C}' || c == '\r'
    || c == ' ' || c == '\U{00A0}' || c == '\U{1680}'
    || ('\U{2000}' <= c <= '\U{200A}')
    || c == '\U{2028}' || c == '\U{2029}' || c == '\U{202F}' || c == '\U{205F}'
    || c == '\U{3000}' || c == '\U{FEFF}'
  }

  predicate AllTrimmable(s: string) {
    forall i :: 0 <= i < |s| ==> IsTrimmable(s[i])
  }

  /** Neither end of `s` is a trimmable code point. */
  predicate IsTrimmed(s: string) {
    s == [] || (!IsTrimmable(s[0]) && !IsTrimmable(s[|s| - 1]))
  }

  /** `s` drops leading trimmable code points: the longest trimmable prefix. */
  function TrimStart(s: string): (r: string)
    ensures |r| <= |s| && r == s[|s| - |r|..]
    ensures AllTrimmable(s[..|s| - |r|])
    ensures r == [] || !IsTrimmable(r[0])
  {
    if s != [] && IsTrimmable(s[0]) then TrimStart(s[1..]) else s
  }

  /** `s` drops trailing trimmable code points: the longest trimmable suffix. */
  function TrimEnd(s: string): (r: string)
    ensures |r| <= |s| && r == s[..|r|]
    ensures AllTrimmable(s[|r|..])
    ensures r == [] || !IsTrimmable(r[|r| - 1])
  {
    if s != [] && IsTrimmable(s[|s| - 1]) then TrimEnd(s[..|s| - 1]) else s
  }

  /** String.prototype.trim: the middle of `s` once both trimmable ends are cut. */
  function Trim(s: string): (r: string)
    ensures IsTrimmed(r)
    ensures |r| <= |s|
  {
    TrimEnd(TrimStart(s))
  }

  /** Trimming only cuts trimmable code points: `s` is `Trim(s)` between a
      trimmable prefix and a trimmable suffix. */
  lemma TrimSplits(s: string) returns (pre: string, post: string)
    ensures s == pre + Trim(s) + post
    ensures AllTrimmable(pre) && AllTrimmable(post)
  {
    var t := TrimStart(s);
    var m := TrimEnd(t);
    pre, post := s[..|s| - |t|], t[|m|..];
    Reassemble(s, |s| - |t|, |m|);
  }

  lemma {:induction false} TrimStartOfPadded(pre: string, t: string)
    requires AllTrimmable(pre)
    requires t == [] || !IsTrimmable(t[0])
    ensures TrimStart(pre + t) == t
  {
    if pre != [] {
      assert (pre + t)[1..] == pre[1..] + t;
      TrimStartOfPadded(pre[1..], t);
    }
  }

  lemma {:induction false} TrimEndOfPadded(t: string, post: string)
    requires AllTrimmable(post)
    requires t == [] || !IsTrimmable(t[|t| - 1])
    ensures TrimEnd(t + post) == t
  {
    if post != [] {
      assert (t + post)[..|t + post| - 1] == t + post[..|post| - 1];
      TrimEndOfPadded(t, post[..|post| - 1]);
    }
  }

  /** Uniqueness: whatever trimmable padding surrounds a trimmed string,
      `Trim` returns exactly that string. */
  lemma TrimOfPadded(pre: string, m: string, post: string)
    requires AllTrimmable(pre) && AllTrimmable(post) && IsTrimmed(m)
    ensures Trim(pre + m + post) == m
  {
    assert pre + m + post == pre + (m + post);
    if m == [] {
      assert pre + m + post == pre + post;
      assert AllTrimmable(pre + post);
      TrimStartOfPadded(pre + post, []);
      assert pre + post + [] == pre + post;
    } else {
      TrimStartOfPadded(pre, m + post);
      TrimEndOfPadded(m, post);
    }
  }

  /** Trimming twice is trimming once. */
  lemma TrimIdempotent(s: string)
    ensures Trim(Trim(s)) == Trim(s)
  {
    TrimOfPadded([], Trim(s), []);
    assert [] + Trim(s) + [] == Trim(s);
  }

  /** A string with no trimmable code point at either end is its own trim. */
  lemma TrimOfTrimmed(s: string)
    requires IsTrimmed(s)
    ensures Trim(s) == s
  {
    TrimOfPadded([], s, []);
    assert [] + s + [] == s;
  }

  /** Extra trimmable padding around a string does not change its trim. */
  lemma TrimIgnoresPadding(a: string, s: string, b: string)
    requires AllTrimmable(a) && AllTrimmable(b)
    ensures Trim(a + s + b) == Trim(s)
  {
    var pre, post := TrimSplits(s);
    var m := Trim(s);
    Regroup(a, pre, m, post, b);
    AppendAllTrimmable(a, pre);
    AppendAllTrimmable(post, b);
    TrimOfPadded(a + pre, m, post + b);
  }

  lemma Reassemble(s: string, k: nat, j: nat)
    requires k + j <= |s|
    ensures s == s[..k] + s[k..][..j] + s[k..][j..]
  {
    assert s[k..] == s[k..][..j] + s[k..][j..];
    assert s == s[..k] + s[k..];
  }

  lemma Regroup(a: string, pre: string, m: string, post: string, b: string)
    ensures a + (pre + m + post) + b == (a + pre) + m + (post + b)
  {
  }

  lemma AppendAllTrimmable(a: string, b: string)
    requires AllTrimmable(a) && AllTrimmable(b)
    ensures AllTrimmable(a + b)
  {
  }

  /** toUpperCase restricted to ASCII: a-z become A-Z, everything else stays.
      No small ASCII letter survives it. */
  function UpperAscii(c: char): (u: char)
    ensures !('a' <= u <= 'z')
  {
    if 'a' <= c <= 'z' then (c as int - 32) as char else c
  }

  function ToUpper(s: string): (r: string)
    ensures |r| == |s|
    ensures forall i :: 0 <= i < |s| ==> r[i] == UpperAscii(s[i])
  {
    if s == [] then [] else [UpperAscii(s[0])] + ToUpper(s[1..])
  }

  /** String.prototype.startsWith. */
  predicate StartsWith(s: string, p: string) {
    |p| <= |s| && s[..|p|] == p
  }

  /** `t` occurs in `s` beginning at index `i`. */
  predicate OccursAt(s: string, t: string, i: int) {
    0 <= i && i + |t| <= |s| && s[i..i + |t|] == t
  }

  /** String.prototype.includes, scanning `s` from the left. */
  predicate Includes(s: string, t: string)
    decreases |s|
  {
    StartsWith(s, t) || (s != [] && Includes(s[1..], t))
  }

  /** `includes` answers true exactly when the needle occurs at some index. */
  lemma {:induction false} IncludesIff(s: string, t: string)
    ensures Includes(s, t) <==> exists i :: OccursAt(s, t, i)
  {
    if StartsWith(s, t) {
      assert OccursAt(s, t, 0);
    } else if s == [] {
      assert forall i :: !OccursAt(s, t, i);
    } else {
      IncludesIff(s[1..], t);
      forall i | OccursAt(s[1..], t, i) ensures OccursAt(s, t, i + 1) {
        assert s[1..][i..i + |t|] == s[i + 1..i + 1 + |t|];
      }
      forall i | OccursAt(s, t, i) ensures i > 0 && OccursAt(s[1..], t, i - 1) {
        assert s[1..][i - 1..i - 1 + |t|] == s[i..i + |t|];
      }
    }
  }
}

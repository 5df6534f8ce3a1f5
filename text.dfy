/**
 * The two string operations the command terminal applies to what the user
 * types: JavaScript's `toLowerCase` (restricted to ASCII letters) and
 * `trim`, which removes ECMAScript WhiteSpace and LineTerminator
 * characters from both ends.
 */
module Text {

  /** The code points `String.prototype.trim` removes: ECMAScript WhiteSpace (tab, vertical tab,
      form feed, space, no-break space, byte-order mark and the Unicode space separators)
      and LineTerminator (line feed, carriage return, line and paragraph separators). */
  const Spaces: set<char> := {
    '\t', '\n', '\U{000B}', '\U{000C}', '\r', ' ', '\U{00A0}', '\U{1680}',
    '\U{2000}', '\U{2001}', '\U{2002}', '\U{2003}', '\U{2004}', '\U{2005}',
    '\U{2006}', '\U{2007}', '\U{2008}', '\U{2009}', '\U{200A}',
    '\U{2028}', '\U{2029}', '\U{202F}', '\U{205F}', '\U{3000}', '\U{FEFF}'
  }

  predicate IsSpace(c: char) {
    c in Spaces
  }

  predicate IsUpper(c: char) {
    'A' <= c <= 'Z'
  }

  /** Lower-cases one ASCII letter; every other character is kept. */
  function LowerChar(c: char): (r: char)
    ensures !IsUpper(r)
    ensures !IsUpper(c) ==> r == c
    ensures IsUpper(c) ==> 'a' <= r <= 'z' && r as int - c as int == 32
  {
    if IsUpper(c) then (c as int + 32) as char else c
  }

  /** `s.toLowerCase()` over ASCII: same length, no upper-case letter left. */
  function ToLower(s: string): (r: string)
    ensures |r| == |s|
    ensures forall k :: 0 <= k < |r| ==> !IsUpper(r[k])
    ensures forall k :: 0 <= k < |s| && !IsUpper(s[k]) ==> r[k] == s[k]
    ensures forall k :: 0 <= k < |s| ==> r[k] == LowerChar(s[k])
  {
    seq(|s|, k requires 0 <= k < |s| => LowerChar(s[k]))
  }

  /** Drops leading white space: the result is the suffix of `s` that starts at its first non-space character. */
  function TrimStart(s: string): (r: string)
    ensures |r| <= |s| && r == s[|s| - |r|..]
    ensures forall k :: 0 <= k < |s| - |r| ==> IsSpace(s[k])
    ensures r == [] || !IsSpace(r[0])
  {
    if |s| > 0 && IsSpace(s[0]) then
      var r := TrimStart(s[1..]);
      DropFirst(s, s[1..], r);
      r
    else s
  }

  /** One leading space more in front of the suffix `r` of `t`, the rest of `s`. */
  lemma DropFirst(s: string, t: string, r: string)
    requires |s| > 0 && IsSpace(s[0]) && t == s[1..]
    requires |r| <= |t| && r == t[|t| - |r|..]
    requires forall k :: 0 <= k < |t| - |r| ==> IsSpace(t[k])
    ensures |r| <= |s| && r == s[|s| - |r|..]
    ensures forall k :: 0 <= k < |s| - |r| ==> IsSpace(s[k])
  {
    forall k | 1 <= k < |s| - |r|
      ensures IsSpace(s[k])
    {
      assert s[k] == t[k - 1];
    }
  }

  /** Drops trailing white space: the result is the prefix of `s` that ends at its last non-space character. */
  function TrimEnd(s: string): (r: string)
    ensures |r| <= |s| && r == s[..|r|]
    ensures forall k :: |r| <= k < |s| ==> IsSpace(s[k])
    ensures r == [] || !IsSpace(r[|r| - 1])
  {
    if |s| > 0 && IsSpace(s[|s| - 1]) then
      var r := TrimEnd(s[..|s| - 1]);
      DropLast(s, s[..|s| - 1], r);
      r
    else s
  }

  /** One trailing space more after the prefix `r` of `t`, `s` without its last character. */
  lemma DropLast(s: string, t: string, r: string)
    requires |s| > 0 && IsSpace(s[|s| - 1]) && t == s[..|s| - 1]
    requires |r| <= |t| && r == t[..|r|]
    requires forall k :: |r| <= k < |t| ==> IsSpace(t[k])
    ensures |r| <= |s| && r == s[..|r|]
    ensures forall k :: |r| <= k < |s| ==> IsSpace(s[k])
  {
    forall k | |r| <= k < |s| - 1
      ensures IsSpace(s[k])
    {
      assert s[k] == t[k];
    }
  }

  /** `s.trim()`: no white space is left at either end. */
  function Trim(s: string): (r: string)
    ensures r == [] || (!IsSpace(r[0]) && !IsSpace(r[|r| - 1]))
  {
    var t := TrimStart(s);
    var r := TrimEnd(t);
    assert r != [] ==> r[0] == t[0];
    r
  }

  /** `trim` is `TrimEnd` after `TrimStart`. */
  lemma TrimParts(s: string)
    ensures Trim(s) == TrimEnd(TrimStart(s))
  {
  }

  /** A prefix `r` of a suffix `t` of `s` sits in `s` where `t` starts. */
  lemma SliceInPlace(s: string, t: string, r: string)
    requires |t| <= |s| && t == s[|s| - |t|..] && |r| <= |t| && r == t[..|r|]
    ensures s[|s| - |t|..|s| - |t| + |r|] == r
  {
    assert s[|s| - |t|..|s| - |t| + |r|] == t[..|r|];
  }

  /** White space after `r` in the suffix `t` is white space at the same place in `s`. */
  lemma SpaceAfterSlice(s: string, t: string, r: string)
    requires |t| <= |s| && t == s[|s| - |t|..] && |r| <= |t|
    requires forall k :: |r| <= k < |t| ==> IsSpace(t[k])
    ensures forall k :: |s| - |t| + |r| <= k < |s| ==> IsSpace(s[k])
  {
    var i := |s| - |t|;
    forall k | i + |r| <= k < |s|
      ensures IsSpace(s[k])
    {
      assert s[k] == t[k - i];
    }
  }

  /** A prefix `r` of a suffix `t` of `s`, with only white space cut off either side, is a slice of `s`
      with only white space around it. */
  lemma Sandwich(s: string, t: string, r: string) returns (i: nat)
    requires |t| <= |s| && t == s[|s| - |t|..]
    requires forall k :: 0 <= k < |s| - |t| ==> IsSpace(s[k])
    requires |r| <= |t| && r == t[..|r|]
    requires forall k :: |r| <= k < |t| ==> IsSpace(t[k])
    ensures i + |r| <= |s| && s[i..i + |r|] == r
    ensures forall k :: 0 <= k < i ==> IsSpace(s[k])
    ensures forall k :: i + |r| <= k < |s| ==> IsSpace(s[k])
  {
    SliceInPlace(s, t, r);
    SpaceAfterSlice(s, t, r);
    i := |s| - |t|;
  }

  /** What `trim` removes is white space only: the trimmed text `r` sits in `s` from index `i` on, and
      every character of `s` before or after it is white space. */
  lemma TrimRemovesOnlySpace(s: string) returns (i: nat, r: string)
    ensures r == Trim(s)
    ensures i + |r| <= |s| && s[i..i + |r|] == r
    ensures forall k :: 0 <= k < i ==> IsSpace(s[k])
    ensures forall k :: i + |r| <= k < |s| ==> IsSpace(s[k])
  {
    var t := TrimStart(s);
    r := TrimEnd(t);
    TrimParts(s);
    i := Sandwich(s, t, r);
  }

  /** Leading white space in front of text that starts with a non-space is exactly what `TrimStart` drops. */
  lemma {:induction false} TrimStartPadded(pre: string, rest: string)
    requires forall k :: 0 <= k < |pre| ==> IsSpace(pre[k])
    requires rest == [] || !IsSpace(rest[0])
    ensures TrimStart(pre + rest) == rest
    decreases |pre|
  {
    if pre == [] {
      assert pre + rest == rest;
    } else {
      assert (pre + rest)[0] == pre[0];
      assert (pre + rest)[1..] == pre[1..] + rest;
      TrimStartPadded(pre[1..], rest);
    }
  }

  /** Trailing white space after text that ends with a non-space is exactly what `TrimEnd` drops. */
  lemma {:induction false} TrimEndPadded(core: string, post: string)
    requires forall k :: 0 <= k < |post| ==> IsSpace(post[k])
    requires core == [] || !IsSpace(core[|core| - 1])
    ensures TrimEnd(core + post) == core
    decreases |post|
  {
    if post == [] {
      assert core + post == core;
    } else {
      var s := core + post;
      assert s[|s| - 1] == post[|post| - 1];
      assert s[..|s| - 1] == core + post[..|post| - 1];
      TrimEndPadded(core, post[..|post| - 1]);
    }
  }

  /** `trim` removes any white space around text that has none at its ends. */
  lemma TrimPadded(pre: string, core: string, post: string)
    requires forall k :: 0 <= k < |pre| ==> IsSpace(pre[k])
    requires forall k :: 0 <= k < |post| ==> IsSpace(post[k])
    requires core != [] && !IsSpace(core[0]) && !IsSpace(core[|core| - 1])
    ensures Trim(pre + core + post) == core
  {
    assert pre + core + post == pre + (core + post);
    assert (core + post)[0] == core[0];
    TrimStartPadded(pre, core + post);
    TrimEndPadded(core, post);
  }

  /** Trimming text with no upper-case letter leaves none. */
  lemma TrimNoUpper(s: string)
    requires forall k :: 0 <= k < |s| ==> !IsUpper(s[k])
    ensures forall k :: 0 <= k < |Trim(s)| ==> !IsUpper(Trim(s)[k])
  {
    var i, r := TrimRemovesOnlySpace(s);
    forall k | 0 <= k < |r|
      ensures !IsUpper(r[k])
    {
      assert r[k] == s[i + k];
    }
  }

  /** Trimming twice is trimming once. */
  lemma TrimIdempotent(s: string)
    ensures Trim(Trim(s)) == Trim(s)
  {
    var r := Trim(s);
    assert TrimStart(r) == r;
    assert TrimEnd(r) == r;
  }

  /** Text with no white space at its ends is left alone by `trim`. */
  lemma TrimKeepsTrimmed(s: string)
    requires s == [] || (!IsSpace(s[0]) && !IsSpace(s[|s| - 1]))
    ensures Trim(s) == s
  {
  }

  /** Text with no upper-case letter is left alone by `toLowerCase`. */
  lemma ToLowerKeepsLower(s: string)
    requires forall k :: 0 <= k < |s| ==> !IsUpper(s[k])
    ensures ToLower(s) == s
  {
  }

  lemma LowerKeepsSpace(c: char)
    ensures IsSpace(LowerChar(c)) == IsSpace(c)
  {
  }

  lemma {:induction false} TrimStartLower(s: string)
    ensures TrimStart(ToLower(s)) == ToLower(TrimStart(s))
    decreases |s|
  {
    if |s| > 0 {
      LowerKeepsSpace(s[0]);
      assert ToLower(s)[1..] == ToLower(s[1..]);
      if IsSpace(s[0]) {
        TrimStartLower(s[1..]);
      }
    }
  }

  lemma {:induction false} TrimEndLower(s: string)
    ensures TrimEnd(ToLower(s)) == ToLower(TrimEnd(s))
    decreases |s|
  {
    if |s| > 0 {
      LowerKeepsSpace(s[|s| - 1]);
      assert ToLower(s)[..|s| - 1] == ToLower(s[..|s| - 1]);
      if IsSpace(s[|s| - 1]) {
        TrimEndLower(s[..|s| - 1]);
      }
    }
  }

  /** Lower-casing and trimming commute, so the order the terminal applies them in does not matter. */
  lemma LowerTrimCommute(s: string)
    ensures Trim(ToLower(s)) == ToLower(Trim(s))
  {
    TrimStartLower(s);
    TrimEndLower(TrimStart(s));
  }

  /** Lower-casing text that has no upper-case letter changes nothing. */
  lemma ToLowerIdempotent(s: string)
    ensures ToLower(ToLower(s)) == ToLower(s)
  {
  }
}

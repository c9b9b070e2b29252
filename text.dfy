/**
 * The Python string operations that `predict` applies to its inputs:
 * `str.strip()` on the prompt, and `str.lower()` followed by
 * `str.replace('_', '-')` on the speaker key.
 */
module Text {

  /** Python's `str.isspace()` for one code point: the characters that `str.strip()` removes. */
  predicate IsSpace(c: char) {
    var n := c as int;
    (9 <= n <= 13) || (28 <= n <= 32) || n == 0x85 || n == 0xA0 || n == 0x1680
    || (0x2000 <= n <= 0x200A) || n == 0x2028 || n == 0x2029 || n == 0x202F
    || n == 0x205F || n == 0x3000
  }

  predicate AllSpace(s: string) {
    forall i :: 0 <= i < |s| ==> IsSpace(s[i])
  }

  /** `str.lstrip()`: drops the leading whitespace and keeps the rest as it is. */
  function TrimStart(s: string): (r: string)
    ensures |r| <= |s| && r == s[|s| - |r|..]
    ensures forall i :: 0 <= i < |s| - |r| ==> IsSpace(s[i])
    ensures r == [] || !IsSpace(r[0])
  {
    if s != [] && IsSpace(s[0]) then TrimStart(s[1..]) else s
  }

  /** `str.rstrip()`: drops the trailing whitespace and keeps the rest as it is. */
  function TrimEnd(s: string): (r: string)
    ensures |r| <= |s| && r == s[..|r|]
    ensures forall i :: |r| <= i < |s| ==> IsSpace(s[i])
    ensures r == [] || !IsSpace(r[|r| - 1])
  {
    if s != [] && IsSpace(s[|s| - 1]) then TrimEnd(s[..|s| - 1]) else s
  }

  /** `str.strip()`: the input with its leading and trailing whitespace cut off. */
  function Strip(s: string): (r: string)
    ensures |r| <= |s|
    ensures r == [] || (!IsSpace(r[0]) && !IsSpace(r[|r| - 1]))
    ensures exists i, j :: 0 <= i <= j <= |s| && r == s[i..j] && AllSpace(s[..i]) && AllSpace(s[j..])
  {
    var t := TrimStart(s);
    DroppedPrefixIsSpace(s);
    DroppedSuffixIsSpace(t);
    SliceBetweenSpaces(s, t, TrimEnd(t));
    TrimEnd(t)
  }

  /**
   * A prefix `u` of a suffix `t` of `s`, where whitespace is all that `t`
   * drops from `s` and all that `u` drops from `t`, is the slice of `s`
   * between two runs of whitespace.
   */
  lemma SliceBetweenSpaces(s: string, t: string, u: string)
    requires |t| <= |s| && t == s[|s| - |t|..] && AllSpace(s[..|s| - |t|])
    requires |u| <= |t| && u == t[..|u|] && AllSpace(t[|u|..])
    ensures var i := |s| - |t|;
            u == s[i..i + |u|] && AllSpace(s[..i]) && AllSpace(s[i + |u|..])
  {
    var i := |s| - |t|;
    assert s[i + |u|..] == t[|u|..];
  }

  /** What `TrimStart` drops is whitespace, as a slice. */
  lemma {:induction false} DroppedPrefixIsSpace(s: string)
    ensures AllSpace(s[..|s| - |TrimStart(s)|])
  {
    var head := s[..|s| - |TrimStart(s)|];
    forall k | 0 <= k < |head| ensures IsSpace(head[k]) {
      assert head[k] == s[k];
    }
  }

  /** What `TrimEnd` drops is whitespace, as a slice. */
  lemma {:induction false} DroppedSuffixIsSpace(t: string)
    ensures AllSpace(t[|TrimEnd(t)|..])
  {
    var tail := t[|TrimEnd(t)|..];
    forall k | 0 <= k < |tail| ensures IsSpace(tail[k]) {
      assert tail[k] == t[|TrimEnd(t)| + k];
    }
  }

  /** `s.strip()` is empty exactly when every character of `s` is whitespace. */
  lemma {:induction false} StripEmptyIffAllSpace(s: string)
    ensures Strip(s) == [] <==> AllSpace(s)
  {
    var t := TrimStart(s);
    if Strip(s) == [] {
      // all of TrimStart(s) is whitespace, yet it cannot start with whitespace
      assert t == [];
    } else {
      var r := Strip(s);
      assert r == t[..|r|];
      assert r[0] == s[|s| - |t|];
    }
  }

  /** True for the upper-case ASCII letters 'A'..'Z'. */
  predicate IsUpperAscii(c: char) {
    'A' <= c <= 'Z'
  }

  /** `str.lower()` on one character, restricted to ASCII: 'A'..'Z' become 'a'..'z'. */
  function LowerChar(c: char): (d: char)
    ensures !IsUpperAscii(d)
    ensures IsUpperAscii(c) ==> d as int == c as int + 32
    ensures !IsUpperAscii(c) ==> d == c
  {
    if IsUpperAscii(c) then (c as int + 32) as char else c
  }

  /** `str.lower()`, one character at a time, preserving length. */
  function Lower(s: string): (r: string)
    ensures |r| == |s|
    ensures forall i :: 0 <= i < |s| ==> r[i] == LowerChar(s[i])
  {
    if s == [] then [] else [LowerChar(s[0])] + Lower(s[1..])
  }

  /** `str.replace(target, replacement)` for one-character arguments. */
  function Replace(s: string, target: char, replacement: char): (r: string)
    ensures |r| == |s|
    ensures forall i :: 0 <= i < |s| ==> r[i] == (if s[i] == target then replacement else s[i])
  {
    if s == [] then []
    else [if s[0] == target then replacement else s[0]] + Replace(s[1..], target, replacement)
  }
}

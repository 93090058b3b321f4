/**
 * The two string operations of `String.prototype` the core relies on: `trim` (used by the
 * stats filter and by the dashboard) and `toLowerCase` (used by the dashboard lookup).
 */
module JsText {

  /** The code points `trim` removes: the WhiteSpace and LineTerminator characters of
      ECMA-262 (sections 12.2 and 12.3), with the Unicode space separators written out. */
  predicate IsJsSpace(c: char) {
    var n := c as int;
    n == 0x09 || n == 0x0A || n == 0x0B || n == 0x0C || n == 0x0D || n == 0x20 ||
    n == 0xA0 || n == 0x1680 || (0x2000 <= n <= 0x200A) || n == 0x2028 || n == 0x2029 ||
    n == 0x202F || n == 0x205F || n == 0x3000 || n == 0xFEFF
  }

  /** Drops leading white space: the result is a suffix of `s` and what was dropped is blank. */
  function TrimStart(s: string): (r: string)
    ensures |r| <= |s| && r == s[|s| - |r|..]
    ensures forall i :: 0 <= i < |s| - |r| ==> IsJsSpace(s[i])
    ensures r != [] ==> !IsJsSpace(r[0])
  {
    if s != [] && IsJsSpace(s[0]) then TrimStart(s[1..]) else s
  }

  /** Drops trailing white space: the result is a prefix of `s` and what was dropped is blank. */
  function TrimEnd(s: string): (r: string)
    ensures |r| <= |s| && r == s[..|r|]
    ensures forall i :: |r| <= i < |s| ==> IsJsSpace(s[i])
    ensures r != [] ==> !IsJsSpace(r[|r| - 1])
  {
    if s != [] && IsJsSpace(s[|s| - 1]) then TrimEnd(s[..|s| - 1]) else s
  }

  /** `s` is white space throughout. */
  predicate Blank(s: string) {
    s == [] || (IsJsSpace(s[0]) && Blank(s[1..]))
  }

  /** `s.trim()`: empty exactly when `s` is blank, and otherwise neither end is white space;
      `TrimDropsBlankEnds` says that nothing but white space is removed. */
  function Trim(s: string): (r: string)
    ensures r == [] <==> forall i :: 0 <= i < |s| ==> IsJsSpace(s[i])
    ensures r != [] ==> !IsJsSpace(r[0]) && !IsJsSpace(r[|r| - 1])
    ensures |r| <= |s|
  {
    TrimEnd(TrimStart(s))
  }

  /** `trim` removes white space from the two ends of `s` and nothing else. */
  lemma TrimDropsBlankEnds(s: string)
    ensures exists pre, post :: Blank(pre) && Blank(post) && s == pre + Trim(s) + post
  {
    TrimParts(s, TrimStart(s), TrimEnd(TrimStart(s)));
  }

  /** A prefix `r` of a suffix `t` of `s`, with only white space cut off on either side, is
      `s` between two blanks. */
  lemma TrimParts(s: string, t: string, r: string)
    requires |t| <= |s| && t == s[|s| - |t|..]
    requires forall i :: 0 <= i < |s| - |t| ==> IsJsSpace(s[i])
    requires |r| <= |t| && r == t[..|r|]
    requires forall i :: |r| <= i < |t| ==> IsJsSpace(t[i])
    ensures exists pre, post :: Blank(pre) && Blank(post) && s == pre + r + post
  {
    var pre, post := s[..|s| - |t|], t[|r|..];
    BlankAll(pre);
    BlankAll(post);
    assert t == r + post;
    assert s == pre + t;
    assert s == pre + r + post;
  }

  /** A string of white-space characters is `Blank`. */
  lemma {:induction false} BlankAll(s: string)
    requires forall i :: 0 <= i < |s| ==> IsJsSpace(s[i])
    ensures Blank(s)
  {
    if s != [] {
      BlankAll(s[1..]);
    }
  }

  /** A string whose ends are not white space is left alone by `trim`. */
  lemma TrimKeepsTrimmed(s: string)
    requires s != [] && !IsJsSpace(s[0]) && !IsJsSpace(s[|s| - 1])
    ensures Trim(s) == s
  {
  }

  /** `toLowerCase` on one character, for the ASCII letters only. */
  function LowerChar(c: char): char {
    if 'A' <= c <= 'Z' then (c as int + 32) as char else c
  }

  /** `s.toLowerCase()`, character by character (ASCII letters only). */
  function ToLower(s: string): (r: string)
    ensures |r| == |s|
    ensures forall i :: 0 <= i < |s| ==> r[i] == LowerChar(s[i])
  {
    if s == [] then [] else [LowerChar(s[0])] + ToLower(s[1..])
  }
}

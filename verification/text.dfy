/** The string helpers the front end relies on: JavaScript's
    `String.prototype.trim` and the `text.trim() || fallback` idiom. */
module Text {
  import opened Wrappers

  /** The characters `trim` removes: ECMAScript WhiteSpace (TAB, VT, FF,
      SPACE, NBSP, ZWNBSP and the Zs category) and LineTerminator
      (LF, CR, LS, PS). */
  predicate IsJsWhitespace(c: char) {
    c == '\t' || c == '\n' || c == '\U{000B}' || c == '\U{000C}' || c == '\r' || c == ' '
    || c == '\U{00A0}' || c == '\U{1680}' || ('\U{2000}' <= c <= '\U{200A}')
    || c == '\U{2028}' || c == '\U{2029}' || c == '\U{202F}' || c == '\U{205F}'
    || c == '\U{3000}' || c == '\U{FEFF}'
  }

  /** A string made of whitespace only (the empty string included). */
  predicate IsBlank(s: string) {
    forall i :: 0 <= i < |s| ==> IsJsWhitespace(s[i])
  }

  /** `s.trimStart()` */
  function TrimStart(s: string): (r: string)
    ensures |r| <= |s| && r == s[|s| - |r|..]
    ensures IsBlank(s[..|s| - |r|])
    ensures r == [] || !IsJsWhitespace(r[0])
  {
    if s == [] || !IsJsWhitespace(s[0]) then s
    else
      var r := TrimStart(s[1..]);
      assert s[..|s| - |r|] == [s[0]] + s[1..][..|s| - 1 - |r|];
      r
  }

  /** `s.trimEnd()` */
  function TrimEnd(s: string): (r: string)
    ensures |r| <= |s| && r == s[..|r|]
    ensures IsBlank(s[|r|..])
    ensures r == [] || !IsJsWhitespace(r[|r| - 1])
  {
    if s == [] || !IsJsWhitespace(s[|s| - 1]) then s
    else
      var r := TrimEnd(s[..|s| - 1]);
      assert s[|r|..] == s[..|s| - 1][|r|..] + [s[|s| - 1]];
      r
  }

  /** `s.trim()`: `s` with its leading and trailing whitespace removed. */
  function Trim(s: string): (r: string)
    ensures |r| <= |s|
    ensures r == [] || (!IsJsWhitespace(r[0]) && !IsJsWhitespace(r[|r| - 1]))
  {
    TrimEnd(TrimStart(s))
  }

  /** What `trim` removes is whitespace only, and what it keeps is one
      contiguous piece of the original. */
  lemma TrimCutsOnlyWhitespace(s: string)
    ensures exists i, j :: 0 <= i <= j <= |s| && Trim(s) == s[i..j]
                           && IsBlank(s[..i]) && IsBlank(s[j..])
  {
    var t := TrimStart(s);
    var r := TrimEnd(t);
    var i := |s| - |t|;
    assert r == s[i..i + |r|];
    assert s[i + |r|..] == t[|r|..];
  }

  /** `!s.trim()` holds exactly for the blank strings: trimming leaves
      nothing precisely when there is nothing but whitespace. */
  lemma TrimEmptyIffBlank(s: string)
    ensures Trim(s) == [] <==> IsBlank(s)
  {
    TrimCutsOnlyWhitespace(s);
  }

  /** Trimming a trimmed string changes nothing. */
  lemma TrimIdempotent(s: string)
    ensures Trim(Trim(s)) == Trim(s)
  {
    var r := Trim(s);
    assert r == [] || TrimStart(r) == r;
    assert r == [] || TrimEnd(r) == r;
  }

  /** `response.text?.trim() || fallback`: the trimmed response when there is
      one and it is not blank, otherwise the fallback unchanged. */
  function TrimmedOr(text: Option<string>, fallback: string): (r: string)
    ensures text.Some? && !IsBlank(text.value) ==> r == Trim(text.value) && r != []
    ensures text.None? || IsBlank(text.value) ==> r == fallback
  {
    match text
    case None => fallback
    case Some(t) =>
      TrimEmptyIffBlank(t);
      if Trim(t) != [] then Trim(t) else fallback
  }

  /** What `trim() || fallback` returns never has surrounding whitespace
      unless it is the fallback itself. */
  lemma TrimmedOrIsTrimmedOrFallback(text: Option<string>, fallback: string)
    ensures var r := TrimmedOr(text, fallback);
            r == fallback || (r != [] && Trim(r) == r)
  {
    if text.Some? && !IsBlank(text.value) {
      TrimIdempotent(text.value);
    }
  }
}

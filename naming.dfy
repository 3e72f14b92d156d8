/** The two string helpers around the painting name: the reset of a blank
    title to the default, and the sanitiser that turns the name into the
    stem of the export file name. */
module Naming {

  /** The name a new painting starts with, and the one a blank title is
      reset to. */
  const DefaultName: string := "My Painting"

  /** The characters `String.prototype.trim` strips: white space and line
      terminators of ECMAScript. */
  predicate IsJsWhitespace(c: char) {
    c == ' ' || c == '\t' || c == '\n' || c == '\U{000B}' || c == '\U{000C}' || c == '\r' ||
    c == '\U{00A0}' || c == '\U{1680}' || ('\U{2000}' <= c <= '\U{200A}') ||
    c == '\U{2028}' || c == '\U{2029}' || c == '\U{202F}' || c == '\U{205F}' ||
    c == '\U{3000}' || c == '\U{FEFF}'
  }

  /** A name made of white space only (the empty name included). */
  predicate IsBlank(s: string) {
    forall i :: 0 <= i < |s| ==> IsJsWhitespace(s[i])
  }

  /** Strip leading white space. */
  function TrimStart(s: string): (r: string)
    ensures |r| <= |s| && r == s[|s| - |r|..]
    ensures IsBlank(s[..|s| - |r|])
    ensures r != [] ==> !IsJsWhitespace(r[0])
  {
    if s != [] && IsJsWhitespace(s[0]) then
      var r := TrimStart(s[1..]);
      assert s[..|s| - |r|] == [s[0]] + s[1..][..|s[1..]| - |r|];
      r
    else s
  }

  /** Strip trailing white space. */
  function TrimEnd(s: string): (r: string)
    ensures |r| <= |s| && r == s[..|r|]
    ensures IsBlank(s[|r|..])
    ensures r != [] ==> !IsJsWhitespace(r[|r| - 1])
  {
    if s != [] && IsJsWhitespace(s[|s| - 1]) then
      var r := TrimEnd(s[..|s| - 1]);
      assert s[|r|..] == s[..|s| - 1][|r|..] + [s[|s| - 1]];
      r
    else s
  }

  /** `s.trim()`. */
  function Trim(s: string): (r: string)
    ensures |r| <= |s|
    ensures r != [] ==> !IsJsWhitespace(r[0]) && !IsJsWhitespace(r[|r| - 1])
    ensures IsBlank(s) ==> r == []
  {
    TrimEnd(TrimStart(s))
  }

  /** `s.trim() === ''` holds exactly when the name is blank. */
  lemma TrimEmptyIffBlank(s: string)
    ensures Trim(s) == [] <==> IsBlank(s)
  {
  }

  /** The name after `handleTitleSubmit`: a blank name becomes the default,
      any other name is kept as typed (untrimmed). */
  function SubmittedTitle(name: string): (r: string)
    ensures IsBlank(name) ==> r == DefaultName
    ensures !IsBlank(name) ==> r == name
    ensures !IsBlank(r)
  {
    TrimEmptyIffBlank(name);
    assert !IsJsWhitespace(DefaultName[0]);
    if Trim(name) == [] then DefaultName else name
  }

  /** A character matched by neither side of `/[^a-z0-9]/gi`: an ASCII
      letter of either case or an ASCII digit. */
  predicate IsAsciiAlnum(c: char) {
    ('a' <= c <= 'z') || ('A' <= c <= 'Z') || ('0' <= c <= '9')
  }

  /** A character that may appear in a sanitised file stem. */
  predicate IsStemChar(c: char) {
    ('a' <= c <= 'z') || ('0' <= c <= '9') || c == '_'
  }

  /** Lower-casing of one character, as `toLowerCase` does it on ASCII. */
  function LowerAscii(c: char): (d: char)
    ensures 'A' <= c <= 'Z' ==> 'a' <= d <= 'z'
    ensures 'A' <= c <= 'Z' ==> d as int - 'a' as int == c as int - 'A' as int
    ensures !('A' <= c <= 'Z') ==> d == c
  {
    if 'A' <= c <= 'Z' then (c as int + 32) as char else c
  }

  /** `s.replace(/[^a-z0-9]/gi, '_')`: every character that is not an ASCII
      letter or digit becomes an underscore. */
  function ReplaceNonAlnum(s: string): (r: string)
    ensures |r| == |s|
    ensures forall i :: 0 <= i < |s| ==> (if IsAsciiAlnum(s[i]) then r[i] == s[i] else r[i] == '_')
  {
    if s == [] then []
    else [if IsAsciiAlnum(s[0]) then s[0] else '_'] + ReplaceNonAlnum(s[1..])
  }

  /** `s.toLowerCase()` on a string of ASCII letters, digits and
      underscores, the only strings the sanitiser lower-cases. */
  function ToLowerAscii(s: string): (r: string)
    ensures |r| == |s|
    ensures forall i :: 0 <= i < |s| ==> r[i] == LowerAscii(s[i])
  {
    if s == [] then [] else [LowerAscii(s[0])] + ToLowerAscii(s[1..])
  }

  /** The `sanitizedName` expression of the export. */
  function Sanitize(name: string): (r: string)
    ensures |r| == |name|
    ensures forall i :: 0 <= i < |r| ==> IsStemChar(r[i])
  {
    ToLowerAscii(ReplaceNonAlnum(name))
  }

  /** The sanitised stem has the name's length, consists of lower-case
      ASCII letters, digits and underscores only, has an underscore exactly
      where the name had a character other than an ASCII letter or digit,
      and keeps every letter (lower-cased) and digit in place. */
  lemma SanitizeShape(name: string)
    ensures |Sanitize(name)| == |name|
    ensures forall i :: 0 <= i < |name| ==> IsStemChar(Sanitize(name)[i])
    ensures forall i :: 0 <= i < |name| ==> (Sanitize(name)[i] == '_' <==> !IsAsciiAlnum(name[i]))
    ensures forall i :: 0 <= i < |name| && IsAsciiAlnum(name[i]) ==> Sanitize(name)[i] == LowerAscii(name[i])
  {
  }

  /** A name that is already a valid stem is left as it is, so sanitising
      twice is the same as sanitising once. */
  lemma SanitizeIdempotent(name: string)
    ensures Sanitize(Sanitize(name)) == Sanitize(name)
  {
  }
}

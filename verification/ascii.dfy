/**
  ASCII-only models of the three PHP string functions the post-type helper
  uses to derive names: `strtolower`, `ucwords` and `str_replace(' ', '-', …)`.
  Case mapping touches only the letters A-Z and a-z; every other character,
  including non-ASCII ones, passes through unchanged (the behaviour of PHP 8.2
  and later, and of earlier versions under the "C" locale).
 */
module Ascii {

  predicate IsUpper(c: char) { 'A' <= c <= 'Z' }

  predicate IsLower(c: char) { 'a' <= c <= 'z' }

  /** C `tolower` restricted to ASCII. */
  function ToLower(c: char): (r: char)
    ensures IsUpper(c) ==> IsLower(r) && r as int == c as int + 32
    ensures !IsUpper(c) ==> r == c
  {
    if IsUpper(c) then (c as int + 32) as char else c
  }

  /** C `toupper` restricted to ASCII. */
  function ToUpper(c: char): (r: char)
    ensures IsLower(c) ==> IsUpper(r) && r as int + 32 == c as int
    ensures !IsLower(c) ==> r == c
  {
    if IsLower(c) then (c as int - 32) as char else c
  }

  /** The default delimiter set of PHP's `ucwords`: space, \t, \r, \n, \f and \v. */
  predicate IsWordDelimiter(c: char)
  {
    c == ' ' || c == '\t' || c == '\r' || c == '\n' || c == 12 as char || c == 11 as char
  }

  /** `ucwords` upper-cases a character exactly when it opens the string or follows a delimiter. */
  predicate StartsWord(s: string, i: int)
    requires 0 <= i < |s|
  {
    i == 0 || IsWordDelimiter(s[i - 1])
  }

  /** PHP `strtolower`: lower-cases every ASCII letter and keeps everything else. */
  function StrToLower(s: string): (r: string)
    ensures |r| == |s|
    ensures forall i :: 0 <= i < |s| ==> r[i] == ToLower(s[i])
    ensures forall i :: 0 <= i < |r| ==> !IsUpper(r[i])
  {
    if s == [] then [] else [ToLower(s[0])] + StrToLower(s[1..])
  }

  /** PHP `str_replace(' ', '-', s)`: every space becomes a hyphen, nothing else moves. */
  function SpacesToHyphens(s: string): (r: string)
    ensures |r| == |s|
    ensures forall i :: 0 <= i < |s| ==> r[i] == (if s[i] == ' ' then '-' else s[i])
    ensures forall i :: 0 <= i < |r| ==> r[i] != ' '
  {
    if s == [] then []
    else [if s[0] == ' ' then '-' else s[0]] + SpacesToHyphens(s[1..])
  }

  /**
    The scan inside `ucwords`: the first character is upper-cased when
    `atWordStart` holds, and each later one when its predecessor is a delimiter.
   */
  function CapitalizeFrom(s: string, atWordStart: bool): (r: string)
    ensures |r| == |s|
    ensures |s| > 0 ==> r[0] == (if atWordStart then ToUpper(s[0]) else s[0])
    ensures forall i :: 0 < i < |s| ==>
              r[i] == (if IsWordDelimiter(s[i - 1]) then ToUpper(s[i]) else s[i])
  {
    if s == [] then []
    else [if atWordStart then ToUpper(s[0]) else s[0]] + CapitalizeFrom(s[1..], IsWordDelimiter(s[0]))
  }

  /** PHP `ucwords` with its default delimiters. */
  function UcWords(s: string): (r: string)
    ensures |r| == |s|
    ensures forall i :: 0 <= i < |s| ==> r[i] == (if StartsWord(s, i) then ToUpper(s[i]) else s[i])
  {
    CapitalizeFrom(s, true)
  }

  /** Lower-casing is blind to any earlier upper-casing, and the hyphen rewrite commutes with both. */
  lemma LowerHyphenAbsorbsCase(c: char)
    ensures ToLower(if ToUpper(ToLower(c)) == ' ' then '-' else ToUpper(ToLower(c)))
         == ToLower(if c == ' ' then '-' else c)
    ensures ToLower(if ToLower(c) == ' ' then '-' else ToLower(c))
         == ToLower(if c == ' ' then '-' else c)
  {
  }

  /** The delimiter test of `ucwords` cannot see the effect of lower-casing. */
  lemma DelimiterIgnoresCase(c: char)
    ensures IsWordDelimiter(ToLower(c)) <==> IsWordDelimiter(c)
  {
  }
}

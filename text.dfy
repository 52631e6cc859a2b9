/** String helpers the components use through JavaScript's built-in string methods.
    Case mapping is restricted to ASCII: `toUpperCase`/`toLowerCase` change only the
    letters a..z / A..Z here, and keep every other character as it is. */
module Text {

  predicate IsLowerLetter(c: char) { 'a' <= c <= 'z' }
  predicate IsUpperLetter(c: char) { 'A' <= c <= 'Z' }

  /** `toUpperCase` on one character (ASCII only). */
  function UpperChar(c: char): (r: char)
    ensures !IsLowerLetter(r)
    ensures IsLowerLetter(c) ==> IsUpperLetter(r) && r as int + 32 == c as int
    ensures !IsLowerLetter(c) ==> r == c
  {
    if IsLowerLetter(c) then (c as int - 32) as char else c
  }

  /** `toLowerCase` on one character (ASCII only). */
  function LowerChar(c: char): (r: char)
    ensures !IsUpperLetter(r)
    ensures IsUpperLetter(c) ==> IsLowerLetter(r) && r as int == c as int + 32
    ensures !IsUpperLetter(c) ==> r == c
  {
    if IsUpperLetter(c) then (c as int + 32) as char else c
  }

  /** A string with no lower-case ASCII letter: what `toUpperCase` always yields. */
  predicate IsUpperCase(s: string) {
    forall i :: 0 <= i < |s| ==> !IsLowerLetter(s[i])
  }

  function ToUpper(s: string): (r: string)
    ensures |r| == |s|
    ensures forall i :: 0 <= i < |s| ==> r[i] == UpperChar(s[i])
    ensures IsUpperCase(r)
  {
    seq(|s|, i requires 0 <= i < |s| => UpperChar(s[i]))
  }

  function ToLower(s: string): (r: string)
    ensures |r| == |s|
    ensures forall i :: 0 <= i < |s| ==> r[i] == LowerChar(s[i])
  {
    seq(|s|, i requires 0 <= i < |s| => LowerChar(s[i]))
  }

  /** Upper-casing an upper-case string changes nothing, so `ToUpper` is idempotent. */
  lemma UpperCaseFixed(s: string)
    requires IsUpperCase(s)
    ensures ToUpper(s) == s
  {
  }

  lemma ToUpperIdempotent(s: string)
    ensures ToUpper(ToUpper(s)) == ToUpper(s)
  {
    UpperCaseFixed(ToUpper(s));
  }

  /** Lower-casing forgets an earlier upper-casing. */
  lemma LowerOfUpper(s: string)
    ensures ToLower(ToUpper(s)) == ToLower(s)
  {
    forall i | 0 <= i < |s|
      ensures ToLower(ToUpper(s))[i] == ToLower(s)[i]
    {
      assert LowerChar(UpperChar(s[i])) == LowerChar(s[i]);
    }
  }

  predicate StartsWith(s: string, prefix: string) {
    |prefix| <= |s| && s[..|prefix|] == prefix
  }

  /** `s.includes(needle)`: needle occurs in s at some offset. */
  predicate Contains(s: string, needle: string)
    decreases |s|
  {
    StartsWith(s, needle) || (s != [] && Contains(s[1..], needle))
  }

  /** The empty string is included in every string. */
  lemma ContainsEmpty(s: string)
    ensures Contains(s, "")
  {
    assert StartsWith(s, "");
  }

  lemma {:induction false} ContainsNoLonger(s: string, needle: string)
    requires Contains(s, needle)
    ensures |needle| <= |s|
    decreases |s|
  {
    if !StartsWith(s, needle) {
      ContainsNoLonger(s[1..], needle);
    }
  }

  /** White space and line terminators as `String.prototype.trim` removes them. */
  predicate IsTrimmedSpace(c: char) {
    c == ' ' || c == '\t' || c == '\n' || c == '\r' || c == '\U{000B}' || c == '\U{000C}'
    || c == '\U{00A0}' || c == '\U{1680}' || ('\U{2000}' <= c <= '\U{200A}')
    || c == '\U{2028}' || c == '\U{2029}' || c == '\U{202F}' || c == '\U{205F}'
    || c == '\U{3000}' || c == '\U{FEFF}'
  }

  /** `!s.trim()`: trimming leaves the empty string exactly when every character is trimmed. */
  predicate IsBlank(s: string) {
    forall i :: 0 <= i < |s| ==> IsTrimmedSpace(s[i])
  }

  predicate IsDigit(c: char) { '0' <= c <= '9' }

  /** `s.replace(/\D/g, '')`: the decimal digits of s, in order. */
  function KeepDigits(s: string): (r: string)
    ensures |r| <= |s|
    ensures forall i :: 0 <= i < |r| ==> IsDigit(r[i])
    ensures (forall i :: 0 <= i < |s| ==> IsDigit(s[i])) ==> r == s
  {
    if s == [] then []
    else if IsDigit(s[0]) then [s[0]] + KeepDigits(s[1..])
    else KeepDigits(s[1..])
  }

  /** One character is kept exactly when it is a digit. */
  lemma KeepDigitsOne(c: char)
    ensures IsDigit(c) ==> KeepDigits([c]) == [c]
    ensures !IsDigit(c) ==> KeepDigits([c]) == []
  {
    assert [c][1..] == [];
  }

  /** Filtering a concatenation filters each part and keeps them in order; with
      KeepDigitsOne this pins KeepDigits down to the digits of its input, in order. */
  lemma {:induction false} KeepDigitsAppend(a: string, b: string)
    ensures KeepDigits(a + b) == KeepDigits(a) + KeepDigits(b)
  {
    if a != [] {
      assert (a + b)[0] == a[0];
      assert (a + b)[1..] == a[1..] + b;
      KeepDigitsAppend(a[1..], b);
    } else {
      assert a + b == b;
    }
  }
}

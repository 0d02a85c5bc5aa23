/** Normalisation of a keyboard event into the candidate key of a skill check.
    A key event carries the produced character(s) `key` and the physical key
    identifier `code`; on a non-Latin layout the produced character is replaced
    by the QWERTY character recovered from `code`. */
module Keys {

  /** The UTF-16 code unit of capital Heta, the first one of the Greek and Coptic block. */
  const CapitalHetaCode: int := 880

  /** Lower-casing of one character; only ASCII capitals change. */
  function LowerChar(c: char): (r: char)
    ensures !('A' <= r <= 'Z')
    ensures 'A' <= c <= 'Z' ==> 'a' <= r <= 'z' && r as int - c as int == 'a' as int - 'A' as int
    ensures !('A' <= c <= 'Z') ==> r == c
  {
    if 'A' <= c <= 'Z' then (c as int - 'A' as int + 'a' as int) as char else c
  }

  /** No character of `s` is an (ASCII) capital. */
  predicate IsLower(s: string) {
    forall i :: 0 <= i < |s| ==> !('A' <= s[i] <= 'Z')
  }

  /** String lower-casing: lower-cases every character and keeps the length. */
  function Lower(s: string): (r: string)
    ensures |r| == |s|
    ensures forall i :: 0 <= i < |s| ==> r[i] == LowerChar(s[i])
    ensures IsLower(r)
  {
    if s == [] then [] else [LowerChar(s[0])] + Lower(s[1..])
  }

  /** A string without capitals is its own lower-case form. */
  lemma {:induction false} LowerOfLower(s: string)
    requires IsLower(s)
    ensures Lower(s) == s
  {
    if s != [] {
      assert IsLower(s[1..]) by {
        forall i | 0 <= i < |s[1..]| ensures !('A' <= s[1..][i] <= 'Z') {
          assert s[1..][i] == s[i + 1];
        }
      }
      LowerOfLower(s[1..]);
    }
  }

  /** Lower-casing is idempotent. */
  lemma LowerIdempotent(s: string)
    ensures Lower(Lower(s)) == Lower(s)
  {
    LowerOfLower(Lower(s));
  }

  /** The produced character belongs to a non-Latin script: the first UTF-16 code
      unit of `key` is at least that of capital Heta. An empty `key` has no code
      unit (charCodeAt yields NaN) and counts as Latin. A character outside the
      Basic Multilingual Plane begins with a surrogate unit, which is above the
      bound, so comparing the whole scalar value gives the same answer. */
  predicate IsNonLatin(key: string) {
    |key| > 0 && key[0] as int >= CapitalHetaCode
  }

  /** `code` names a letter key: "Key" followed by exactly one character. Physical
      key codes are ASCII names, so counting characters gives the same length as
      counting UTF-16 code units; the same holds for IsDigitCode. */
  predicate IsLetterCode(code: string) {
    |code| == 4 && "Key" <= code
  }

  /** `code` names a digit key: "Digit" followed by exactly one character. */
  predicate IsDigitCode(code: string) {
    |code| == 6 && "Digit" <= code
  }

  /** No code matches both patterns, so at most one of the two replacements applies. */
  lemma CodePatternsExclusive(code: string)
    ensures !(IsLetterCode(code) && IsDigitCode(code))
  {
  }

  /** The candidate key recorded for a key event. */
  function NormalizeKey(key: string, code: string): (r: string)
    ensures IsLower(r)
    ensures |r| == 1 || r == Lower(key)
  {
    var lowered := Lower(key);
    // the letter and digit patterns exclude each other, so at most one applies
    var converted :=
      if IsNonLatin(key) && IsLetterCode(code) then [code[3]]
      else if IsNonLatin(key) && IsDigitCode(code) then [code[5]]
      else lowered;
    Lower(converted)
  }

  /** On a Latin layout the candidate is the produced key lower-cased, whatever `code` is. */
  lemma NormalizeLatin(key: string, code: string)
    requires !IsNonLatin(key)
    ensures NormalizeKey(key, code) == Lower(key)
  {
    LowerIdempotent(key);
  }

  /** On a non-Latin layout a letter key yields its letter, lower-cased. */
  lemma NormalizeLetterKey(key: string, code: string)
    requires IsNonLatin(key) && IsLetterCode(code)
    ensures NormalizeKey(key, code) == [LowerChar(code[3])]
  {
    CodePatternsExclusive(code);
  }

  /** On a non-Latin layout a digit key yields its character; a digit is kept as it is. */
  lemma NormalizeDigitKey(key: string, code: string)
    requires IsNonLatin(key) && IsDigitCode(code)
    ensures NormalizeKey(key, code) == [LowerChar(code[5])]
    ensures '0' <= code[5] <= '9' ==> NormalizeKey(key, code) == [code[5]]
  {
  }

  /** On a non-Latin layout any other physical code leaves the lower-cased key unchanged. */
  lemma NormalizeOtherCode(key: string, code: string)
    requires IsNonLatin(key) && !IsLetterCode(code) && !IsDigitCode(code)
    ensures NormalizeKey(key, code) == Lower(key)
  {
    LowerIdempotent(key);
  }
}

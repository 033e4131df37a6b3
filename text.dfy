/** Character-level helpers: ASCII lower-casing, as Python's `str.lower` does on ASCII text. */
module Text {

  predicate IsUpper(ch: char) { 'A' <= ch <= 'Z' }

  function LowerChar(ch: char): char {
    if IsUpper(ch) then (ch as int + 32) as char else ch
  }

  /** `s.lower()` restricted to the ASCII letters. */
  function Lower(s: string): string {
    seq(|s|, i requires 0 <= i < |s| => LowerChar(s[i]))
  }

  /** No upper-case ASCII letter anywhere in `s`. */
  predicate IsLowerText(s: string) {
    forall i :: 0 <= i < |s| ==> !IsUpper(s[i])
  }

  lemma LowerOfLowerText(s: string)
    requires IsLowerText(s)
    ensures Lower(s) == s
  {
  }

  lemma LowerIsLowerText(s: string)
    ensures IsLowerText(Lower(s))
  {
  }

  lemma LowerIdempotent(s: string)
    ensures Lower(Lower(s)) == Lower(s)
  {
    LowerIsLowerText(s);
    LowerOfLowerText(Lower(s));
  }
}

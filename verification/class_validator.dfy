/** The meaning of the class-validator decorators the DTOs use, over Dafny strings
    (sequences of Unicode code points). */
module ClassValidator {

  /** U+FE0E and U+FE0F, which validator.js leaves out when it measures a length. */
  predicate IsVariationSelector(c: char) {
    c == '\U{FE0E}' || c == '\U{FE0F}'
  }

  function VariationSelectors(s: string): (n: nat)
    ensures n <= |s|
    ensures n == 0 <== forall i :: 0 <= i < |s| ==> !IsVariationSelector(s[i])
  {
    if s == [] then 0
    else (if IsVariationSelector(s[0]) then 1 else 0) + VariationSelectors(s[1..])
  }

  /** The length `@MaxLength` and `@MinLength` compare: code points, less the
      variation selectors. */
  function ValidatorLength(s: string): (n: nat)
    ensures n <= |s|
  {
    |s| - VariationSelectors(s)
  }

  predicate MaxLength(s: string, n: nat) {
    ValidatorLength(s) <= n
  }

  predicate MinLength(s: string, n: nat) {
    ValidatorLength(s) >= n
  }

  /** `@IsNotEmpty()` on a string: not ''. */
  predicate IsNotEmpty(s: string) {
    s != ""
  }

  /** `\d` in a JavaScript regular expression without the `u` flag. */
  predicate IsDigit(c: char) {
    '0' <= c <= '9'
  }

  predicate AllDigits(s: string) {
    forall i :: 0 <= i < |s| ==> IsDigit(s[i])
  }

  /** `\s` in a JavaScript regular expression: the WhiteSpace and LineTerminator
      code points of ECMA-262. */
  predicate IsJsWhitespace(c: char) {
    || c == '\t' || c == '\n' || c == '\U{000B}' || c == '\U{000C}' || c == '\r' || c == ' '
    || c == '\U{00A0}' || c == '\U{1680}' || ('\U{2000}' <= c <= '\U{200A}')
    || c == '\U{2028}' || c == '\U{2029}' || c == '\U{202F}' || c == '\U{205F}'
    || c == '\U{3000}' || c == '\U{FEFF}'
  }

  /** A positive minimum length already rules out the empty string, and needs at
      least as many code points as it counts. */
  lemma MinLengthExcludesEmpty(s: string, n: nat)
    requires n > 0 && MinLength(s, n)
    ensures IsNotEmpty(s) && |s| >= n
  {
  }

  /** A string of digits is measured by its plain length. */
  lemma DigitsHaveNoSelectors(s: string)
    requires AllDigits(s)
    ensures ValidatorLength(s) == |s|
  {
    forall i | 0 <= i < |s| ensures !IsVariationSelector(s[i]) {
      assert IsDigit(s[i]);
    }
  }
}

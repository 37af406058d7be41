/** The input checks LCViewModel.kt runs before it touches the backend. */
module Validation {
  import opened Wrappers

  /** Kotlin's `Char.isWhitespace()`: Java whitespace plus the Unicode space separators. */
  predicate IsWhitespace(c: char) {
    || ('\t' <= c <= '\r') || ('\U{1C}' <= c <= ' ')
    || c == '\U{A0}' || c == '\U{1680}' || ('\U{2000}' <= c <= '\U{200A}')
    || c == '\U{2028}' || c == '\U{2029}' || c == '\U{202F}' || c == '\U{205F}' || c == '\U{3000}'
  }

  /** `isBlank()`: empty or whitespace only. */
  predicate IsBlank(s: string) {
    forall i :: 0 <= i < |s| ==> IsWhitespace(s[i])
  }

  predicate IsDigit(c: char) {
    '0' <= c <= '9'
  }

  /** `isDigitsOnly()`: true of the empty string too. */
  predicate IsDigitsOnly(s: string) {
    forall i :: 0 <= i < |s| ==> IsDigit(s[i])
  }

  /** The guard of `onAddChat` (LCViewModel.kt:285). */
  predicate RejectsNumber(s: string) {
    IsBlank(s) || !IsDigitsOnly(s)
  }

  /** A number is accepted exactly when it is a non-empty run of digits. */
  lemma RejectsNumberIff(s: string)
    ensures !RejectsNumber(s) <==> |s| > 0 && forall i :: 0 <= i < |s| ==> IsDigit(s[i])
  {
    if |s| > 0 && IsDigitsOnly(s) {
      assert !IsWhitespace(s[0]);
    }
  }

  /** The first check of `signUp` (LCViewModel.kt:82). */
  predicate PasswordTooShort(password: string) {
    |password| < 6
  }

  /** The second check of `signUp` (LCViewModel.kt:86). */
  predicate AnyEmpty(name: string, number: string, email: string, password: string) {
    name == "" || number == "" || email == "" || password == ""
  }

  /** `isNullOrEmpty()` (LCViewModel.kt:158). */
  predicate NullOrEmpty(s: Option<string>) {
    s.None? || s.value == ""
  }
}

/**
 * Character classes used by the field extractor and its validators.
 *
 * `IsSpace` is Python's `str.isspace()`, which is also what `str.strip()` with no
 * argument removes and what `\s` matches in a `str` pattern. The other classes are
 * the ASCII ranges written in the validation patterns (`[A-Z]`, `[a-z]`, `[0-9]`).
 */
module Chars {

  /** Python's whitespace: the ASCII controls 9-13 and 28-31, the space, and the Unicode separators. */
  predicate IsSpace(c: char)
  {
    || ('\t' <= c <= '\r')
    || ('\U{1C}' <= c <= '\U{1F}')
    || c == ' '
    || c == '\U{85}'
    || c == '\U{A0}'
    || c == '\U{1680}'
    || ('\U{2000}' <= c <= '\U{200A}')
    || c == '\U{2028}'
    || c == '\U{2029}'
    || c == '\U{202F}'
    || c == '\U{205F}'
    || c == '\U{3000}'
  }

  /** `[0-9]`, and the model's reading of `\d` */
  predicate IsDigit(c: char)
  {
    '0' <= c <= '9'
  }

  /** `[A-Z]`: the patterns are matched without IGNORECASE, so lower case is not accepted */
  predicate IsUpper(c: char)
  {
    'A' <= c <= 'Z'
  }

  /** `[a-z]` */
  predicate IsLower(c: char)
  {
    'a' <= c <= 'z'
  }

  /** `[a-zA-Z]` */
  predicate IsLetter(c: char)
  {
    IsUpper(c) || IsLower(c)
  }

  /** `[A-Z0-9]` (written `[0-9A-Z]` in the GSTIN pattern) */
  predicate IsUpperOrDigit(c: char)
  {
    IsUpper(c) || IsDigit(c)
  }

  /** `[a-zA-Z0-9]` */
  predicate IsAlnum(c: char)
  {
    IsLetter(c) || IsDigit(c)
  }
}

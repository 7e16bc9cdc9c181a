/**
 * The string formats the validation schemas delegate to their schema library:
 * `z.string().uuid()` and `z.string().email()`, stated as the regular expressions
 * of that library's version 3 (the sources pin no version).
 */
module ZodRules {
  import opened JsStrings

  predicate IsHexDigit(c: char) {
    IsAsciiDigit(c) || ('a' <= c <= 'f') || ('A' <= c <= 'F')
  }

  /** The positions of the four dashes in the 8-4-4-4-12 layout of a UUID. */
  predicate IsDashPosition(i: int) { i == 8 || i == 13 || i == 18 || i == 23 }

  /**
   * The textual layout of a UUID (section 3 of RFC 4122): 36 characters, hex digits in
   * groups of 8, 4, 4, 4 and 12 separated by dashes, either case.
   */
  predicate UuidLayout(s: string) {
    |s| == 36
    && (forall i :: 0 <= i < 36 && IsDashPosition(i) ==> s[i] == '-')
    && (forall i :: 0 <= i < 36 && !IsDashPosition(i) ==> IsHexDigit(s[i]))
  }

  /** `z.string().uuid()`: the layout alone, any version and variant nibble. */
  predicate ZodUuid(s: string) {
    UuidLayout(s)
  }

  /** A character the local part of an e-mail address may use. */
  predicate IsLocalChar(c: char) {
    IsAsciiAlnum(c) || c == '_' || c == '\'' || c == '+' || c == '-' || c == '.'
  }

  /** `([A-Z0-9_'+\-\.]*)[A-Z0-9_+-]` and the leading `(?!\.)`. */
  predicate IsZodLocalPart(s: string) {
    |s| >= 1
    && (forall i :: 0 <= i < |s| ==> IsLocalChar(s[i]))
    && s[0] != '.'
    && (IsAsciiAlnum(s[|s| - 1]) || s[|s| - 1] == '_' || s[|s| - 1] == '+' || s[|s| - 1] == '-')
  }

  /** `[A-Z0-9][A-Z0-9\-]*`. */
  predicate IsDomainLabel(s: string) {
    |s| >= 1 && IsAsciiAlnum(s[0])
    && forall i :: 0 < i < |s| ==> IsAsciiAlnum(s[i]) || s[i] == '-'
  }

  /** `[A-Z]{2,}`. */
  predicate IsTopLevelLabel(s: string) {
    |s| >= 2 && forall i :: 0 <= i < |s| ==> IsAsciiLetter(s[i])
  }

  /** `([A-Z0-9][A-Z0-9\-]*\.)+[A-Z]{2,}`: neither kind of label holds a dot. */
  predicate IsZodDomain(s: string) {
    var labels := Split(s, '.');
    |labels| >= 2
    && (forall k :: 0 <= k < |labels| - 1 ==> IsDomainLabel(labels[k]))
    && IsTopLevelLabel(labels[|labels| - 1])
  }

  /**
   * `z.string().email()`: `^(?!\.)(?!.*\.\.)([A-Z0-9_'+\-\.]*)[A-Z0-9_+-]@([A-Z0-9][A-Z0-9\-]*\.)+[A-Z]{2,}$`
   * with the `i` flag. No part of the pattern admits a second `@`.
   */
  predicate ZodEmail(s: string) {
    var parts := Split(s, '@');
    |parts| == 2
    && IsZodLocalPart(parts[0])
    && IsZodDomain(parts[1])
    && !Contains(s, "..")
  }
}

/** Texts that match a pattern: identifiers and digests, as the tools' regular expressions describe them. */
module Patterns {
  predicate Each(s: string, ok: char -> bool) {
    forall i :: 0 <= i < |s| ==> ok(s[i])
  }

  predicate Letter(c: char) {
    'a' <= c <= 'z' || 'A' <= c <= 'Z' || '0' <= c <= '9' || c == '_' || c == '-'
  }

  predicate Mark(c: char) {
    Letter(c) || c == ':' || c == '.'
  }

  /** One to `most` letters, digits and the marks `:`, `_`, `.` and `-`. */
  predicate Named(s: string, most: nat) {
    1 <= |s| <= most && Each(s, Mark)
  }

  predicate HexDigit(c: char) {
    '0' <= c <= '9' || 'a' <= c <= 'f'
  }

  /** A SHA-256 digest in lower-case hexadecimal. */
  predicate Digest(s: string) {
    |s| == 64 && Each(s, HexDigit)
  }
}

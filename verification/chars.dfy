/** Character classes as Ruby's regular expressions and String methods see them. */
module Chars {

  const VerticalTab: char := '\U{000B}'
  const FormFeed: char := '\U{000C}'

  /** `\s`: space, tab, line feed, vertical tab, form feed, carriage return. */
  predicate IsSpace(c: char) {
    c == ' ' || c == '\t' || c == '\n' || c == VerticalTab || c == FormFeed || c == '\r'
  }

  /** `\w`: ASCII letters, digits and the underscore. */
  predicate IsWord(c: char) {
    ('a' <= c <= 'z') || ('A' <= c <= 'Z') || ('0' <= c <= '9') || c == '_'
  }

  /** The two quote characters every quoted-literal rule accepts. */
  predicate IsQuote(c: char) {
    c == '\'' || c == '"'
  }

  /** What String#strip removes from either end: `\s` and NUL. */
  predicate IsStripSpace(c: char) {
    IsSpace(c) || c == '\0'
  }

  predicate IsUpper(c: char) {
    'A' <= c <= 'Z'
  }

  /** ASCII-only lower-casing, the case folding the name rules are modelled with. */
  function ToLower(c: char): (r: char)
    ensures IsUpper(c) ==> r as int == c as int + 32
    ensures !IsUpper(c) ==> r == c
    ensures !IsUpper(r)
  {
    if IsUpper(c) then (c as int + 32) as char else c
  }

  /** Case-insensitive character equality (ASCII). */
  predicate SameLetter(a: char, b: char) {
    ToLower(a) == ToLower(b)
  }

  /** `)` is not whitespace. */
  lemma ParenNotSpace()
    ensures !IsSpace(')')
  {
  }

  lemma WordIsNotSpace(c: char)
    requires IsWord(c)
    ensures !IsSpace(c) && !IsQuote(c) && c != '\n'
  {
  }
}

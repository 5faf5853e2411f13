/** JavaScript strings as the regular expressions of the service see them:
    sequences of UTF-16 code units (none of its patterns carries the `u` flag,
    so every pattern works one code unit at a time). */
module Utf16 {

  /** One UTF-16 code unit. */
  newtype CodeUnit = x: int | 0 <= x < 0x1_0000

  /** A JavaScript string. */
  type JsString = seq<CodeUnit>

  const UNDERSCORE: CodeUnit := 0x5F  // '_'
  const HYPHEN: CodeUnit := 0x2D      // '-'
  const SLASH: CodeUnit := 0x2F       // '/'
  const BACKSLASH: CodeUnit := 0x5C   // '\'
  const DOT: CodeUnit := 0x2E         // '.'

  predicate IsDigit(c: CodeUnit) { 0x30 <= c <= 0x39 }
  predicate IsUpper(c: CodeUnit) { 0x41 <= c <= 0x5A }
  predicate IsLower(c: CodeUnit) { 0x61 <= c <= 0x7A }
  predicate IsLetter(c: CodeUnit) { IsUpper(c) || IsLower(c) }

  /** The class `[a-z0-9]` under the `i` flag without `u`: case-insensitive
      matching never lets a non-ASCII code unit match an ASCII letter, so the
      class is exactly the ASCII letters and digits. */
  predicate IsAlnum(c: CodeUnit) { IsDigit(c) || IsLetter(c) }

  /** The class `\w` without the `u` flag: `[A-Za-z0-9_]`. */
  predicate IsWordChar(c: CodeUnit) { IsAlnum(c) || c == UNDERSCORE }

  /** The class `\s`: the code points of ECMAScript's WhiteSpace and
      LineTerminator productions, all of which are single code units. None
      of them lies in 0x30..0x7A, the range of every ASCII digit and letter
      and of `_`, so white space is never a `\w` unit. */
  predicate IsSpace(c: CodeUnit)
    ensures IsSpace(c) ==> c < 0x30 || 0x7A < c
  {
    || 0x09 <= c <= 0x0D   // tab, line feed, vertical tab, form feed, carriage return
    || c == 0x20           // space
    || c == 0xA0           // no-break space
    || c == 0x1680         // Ogham space mark
    || 0x2000 <= c <= 0x200A
    || c == 0x2028 || c == 0x2029  // line and paragraph separators
    || c == 0x202F || c == 0x205F || c == 0x3000
    || c == 0xFEFF         // byte order mark
  }

  /** `toLowerCase` on a code unit the service can hand it (an ASCII letter,
      a digit or `_`): upper-case ASCII letters move down by 0x20. */
  function ToLower(c: CodeUnit): (r: CodeUnit)
    ensures IsUpper(c) ==> IsLower(r) && r as int == c as int + 0x20
    ensures !IsUpper(c) ==> r == c
  {
    if IsUpper(c) then c + 0x20 else c
  }

  /** `toUpperCase` on a code unit matched by `\w`: lower-case ASCII letters
      move up by 0x20. */
  function ToUpper(c: CodeUnit): (r: CodeUnit)
    ensures IsLower(c) ==> IsUpper(r) && r as int == c as int - 0x20
    ensures !IsLower(c) ==> r == c
  {
    if IsLower(c) then c - 0x20 else c
  }
}

/** String helpers with the meaning of the Rust `str` methods the source calls. */
module Text {

  predicate StartsWith(s: string, prefix: string) {
    |prefix| <= |s| && s[..|prefix|] == prefix
  }

  predicate EndsWithStar(s: string) {
    |s| > 0 && s[|s| - 1] == '*'
  }

  /** The text before a trailing `*`. */
  function BeforeStar(s: string): string
    requires EndsWithStar(s)
  {
    s[..|s| - 1]
  }

  /** A trailing `*` means a textual prefix; every other pattern is an exact text. */
  predicate PrefixPatternMatches(pattern: string, text: string) {
    if EndsWithStar(pattern) then StartsWith(text, BeforeStar(pattern)) else pattern == text
  }

  /** The Unicode property White_Space. */
  predicate IsWhite(c: char) {
    var n := c as int;
    || 0x09 <= n <= 0x0D || n == 0x20 || n == 0x85 || n == 0xA0 || n == 0x1680
    || 0x2000 <= n <= 0x200A || n == 0x2028 || n == 0x2029 || n == 0x202F || n == 0x205F || n == 0x3000
  }

  /** `trim().is_empty()`. */
  predicate IsBlank(s: string) { forall i | 0 <= i < |s| :: IsWhite(s[i]) }

  function Trim(s: string): string
    decreases |s|
  {
    if s == "" then ""
    else if IsWhite(s[0]) then Trim(s[1..])
    else if IsWhite(s[|s| - 1]) then Trim(s[..|s| - 1])
    else s
  }
}

// The few string operations the server applies to user input, on sequences of code points.

module Text {
  // Unicode's White_Space property, as strings.TrimSpace uses it.
  predicate Whitespace(c: char) {
    || '\t' <= c <= '\r' || c == ' '
    || c in ['\U{85}', '\U{A0}', '\U{1680}', '\U{2028}', '\U{2029}', '\U{202F}', '\U{205F}', '\U{3000}']
    || '\U{2000}' <= c <= '\U{200A}'
  }

  function TrimSpace(s: string): string {
    if s == [] then s
    else if Whitespace(s[0]) then TrimSpace(s[1..])
    else if Whitespace(s[|s| - 1]) then TrimSpace(s[..|s| - 1])
    else s
  }

  // Two characters outside ASCII have a lower-case letter inside it: the dotted capital I and
  // the Kelvin sign. The rest stay outside and are left alone here.
  function LowerChar(c: char): char {
    if 'A' <= c <= 'Z' then (c as int + 32) as char
    else if c == '\U{130}' then 'i'
    else if c == '\U{212A}' then 'k'
    else c
  }

  function ToLower(s: string): string {
    seq(|s|, i requires 0 <= i < |s| => LowerChar(s[i]))
  }

  // How many bytes UTF-8 takes for a code point (section 3 of RFC 3629).
  function Utf8Width(c: char): nat {
    var v := c as int;
    if v < 0x80 then 1 else if v < 0x800 then 2 else if v < 0x1_0000 then 3 else 4
  }

  // Go's len of a string.
  function ByteLength(s: string): nat {
    if s == [] then 0 else ByteLength(s[..|s| - 1]) + Utf8Width(s[|s| - 1])
  }
}

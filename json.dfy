/**
 * The two pieces of JSON and of Node's `Buffer` that the upload body goes
 * through: how `JSON.stringify` writes a string value, and how many bytes
 * `Buffer.byteLength` counts for a string (its UTF-8 length).
 */
module Json {

  function HexDigit(d: int): char
    requires 0 <= d < 16
  {
    if d < 10 then ('0' as int + d) as char else ('a' as int + (d - 10)) as char
  }

  /** A character that `JSON.stringify` writes unchanged inside a string value. */
  predicate IsPlain(c: char) {
    c != '"' && c != '\\' && c as int >= 0x20
  }

  /**
   * What `JSON.stringify` writes for one character of a string: the two-character
   * escapes for quote, backslash and the five named controls, `\u00xx` (lower-case
   * hex) for the other control characters, and the character itself otherwise.
   */
  function EscapeChar(c: char): (r: string)
    ensures IsPlain(c) <==> r == [c]
  {
    if c == '"' then "\\\""
    else if c == '\\' then "\\\\"
    else if c as int == 0x08 then "\\b"
    else if c as int == 0x0C then "\\f"
    else if c == '\n' then "\\n"
    else if c == '\r' then "\\r"
    else if c == '\t' then "\\t"
    else if c as int < 0x20 then "\\u00" + [HexDigit(c as int / 16), HexDigit(c as int % 16)]
    else [c]
  }

  function Escape(s: string): string
    decreases |s|
  {
    if s == [] then [] else EscapeChar(s[0]) + Escape(s[1..])
  }

  /** A JSON string literal for `s`, as `JSON.stringify(s)` writes it. */
  function Quote(s: string): string {
    "\"" + Escape(s) + "\""
  }

  /** Escaping changes nothing in text whose every character is plain. */
  lemma {:induction false} EscapePlain(s: string)
    requires forall i :: 0 <= i < |s| ==> IsPlain(s[i])
    ensures Escape(s) == s
    decreases |s|
  {
    if s != [] {
      EscapePlain(s[1..]);
      assert [s[0]] + s[1..] == s;
    }
  }

  /** Number of bytes UTF-8 uses for one character. */
  function Utf8Width(c: char): (n: nat)
    ensures 1 <= n <= 4
    ensures n == 1 <==> c as int < 0x80
  {
    if c as int < 0x80 then 1
    else if c as int < 0x800 then 2
    else if c as int < 0x1_0000 then 3
    else 4
  }

  /** `Buffer.byteLength(s)`: the length of `s` encoded in UTF-8. */
  function Utf8Length(s: string): (n: nat)
    ensures |s| <= n <= 4 * |s|
    decreases |s|
  {
    if s == [] then 0 else Utf8Width(s[0]) + Utf8Length(s[1..])
  }

  /** For ASCII text the byte length is the character count. */
  lemma {:induction false} Utf8LengthAscii(s: string)
    requires forall i :: 0 <= i < |s| ==> s[i] as int < 0x80
    ensures Utf8Length(s) == |s|
    decreases |s|
  {
    if s != [] {
      Utf8LengthAscii(s[1..]);
    }
  }

  /** Text that any non-ASCII character lengthens in UTF-8. */
  lemma {:induction false} Utf8LengthNonAscii(s: string, k: nat)
    requires k < |s| && s[k] as int >= 0x80
    ensures Utf8Length(s) > |s|
    decreases |s|
  {
    if k > 0 {
      Utf8LengthNonAscii(s[1..], k - 1);
    }
  }
}

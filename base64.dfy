/**
 * The base64 encoding of section 4 of RFC 4648: the standard alphabet
 * `A-Z a-z 0-9 + /`, with `=` padding.  `Encode` is what Node's
 * `buffer.toString('base64')` produces; `Decode` is the inverse decoder
 * the RFC describes, used here to state that nothing is lost.
 */
module Base64 {
  import opened Optional
  import opened Bytes

  /** A 6-bit group: the value one base64 character stands for. */
  type Sextet = x: int | 0 <= x < 64

  predicate IsAlphabetChar(c: char) {
    'A' <= c <= 'Z' || 'a' <= c <= 'z' || '0' <= c <= '9' || c == '+' || c == '/'
  }

  /** The character of the base64 alphabet (RFC 4648, Table 1) for `v`. */
  function CharOf(v: Sextet): (c: char)
    ensures IsAlphabetChar(c)
  {
    if v < 26 then ('A' as int + v) as char
    else if v < 52 then ('a' as int + (v - 26)) as char
    else if v < 62 then ('0' as int + (v - 52)) as char
    else if v == 62 then '+'
    else '/'
  }

  /** The value an alphabet character stands for: the inverse of `CharOf`. */
  function ValueOf(c: char): (v: Sextet)
    requires IsAlphabetChar(c)
    ensures CharOf(v) == c
  {
    if 'A' <= c <= 'Z' then c as int - 'A' as int
    else if 'a' <= c <= 'z' then c as int - 'a' as int + 26
    else if '0' <= c <= '9' then c as int - '0' as int + 52
    else if c == '+' then 62
    else 63
  }

  lemma ValueOfCharOf(v: Sextet)
    ensures ValueOf(CharOf(v)) == v
  {
  }

  /** Three input bytes become four characters, most significant bits first. */
  function EncodeTriple(a: byte, b: byte, c: byte): seq<char> {
    [ CharOf(a as int / 4),
      CharOf((a as int % 4) * 16 + b as int / 16),
      CharOf((b as int % 16) * 4 + c as int / 64),
      CharOf(c as int % 64) ]
  }

  /**
   * Base64 of `data`.  A final group of one byte is written as two characters
   * and `==`, a final group of two bytes as three characters and `=`.
   */
  function Encode(data: seq<byte>): (r: string)
    ensures |r| == 4 * ((|data| + 2) / 3)
    ensures forall i :: 0 <= i < |r| ==> IsAlphabetChar(r[i]) || r[i] == '='
    decreases |data|
  {
    if |data| == 0 then []
    else if |data| == 1 then
      [CharOf(data[0] as int / 4), CharOf((data[0] as int % 4) * 16), '=', '=']
    else if |data| == 2 then
      [ CharOf(data[0] as int / 4),
        CharOf((data[0] as int % 4) * 16 + data[1] as int / 16),
        CharOf((data[1] as int % 16) * 4),
        '=' ]
    else
      EncodeTriple(data[0], data[1], data[2]) + Encode(data[3..])
  }

  /** The three bytes four alphabet characters stand for. */
  function DecodeQuad(c0: char, c1: char, c2: char, c3: char): Option<seq<byte>> {
    if IsAlphabetChar(c0) && IsAlphabetChar(c1) && IsAlphabetChar(c2) && IsAlphabetChar(c3) then
      var v0, v1, v2, v3 := ValueOf(c0), ValueOf(c1), ValueOf(c2), ValueOf(c3);
      Some([(v0 * 4 + v1 / 16) as byte, ((v1 % 16) * 16 + v2 / 4) as byte, ((v2 % 4) * 64 + v3) as byte])
    else None
  }

  /** The last group of four characters, which may end in `=` or `==`. */
  function DecodeFinal(c0: char, c1: char, c2: char, c3: char): Option<seq<byte>> {
    if c2 == '=' && c3 == '=' then
      if IsAlphabetChar(c0) && IsAlphabetChar(c1) then
        Some([(ValueOf(c0) * 4 + ValueOf(c1) / 16) as byte])
      else None
    else if c3 == '=' then
      if IsAlphabetChar(c0) && IsAlphabetChar(c1) && IsAlphabetChar(c2) then
        var v0, v1, v2 := ValueOf(c0), ValueOf(c1), ValueOf(c2);
        Some([(v0 * 4 + v1 / 16) as byte, ((v1 % 16) * 16 + v2 / 4) as byte])
      else None
    else DecodeQuad(c0, c1, c2, c3)
  }

  /** Decoding as RFC 4648 section 4 describes it; `None` for text that is not base64. */
  function Decode(s: string): Option<seq<byte>>
    decreases |s|
  {
    if |s| == 0 then Some([])
    else if |s| < 4 then None
    else if |s| == 4 then DecodeFinal(s[0], s[1], s[2], s[3])
    else
      match DecodeQuad(s[0], s[1], s[2], s[3])
      case None => None
      case Some(group) =>
        match Decode(s[4..])
        case None => None
        case Some(rest) => Some(group + rest)
  }

  lemma TripleRoundTrip(a: byte, b: byte, c: byte)
    ensures DecodeQuad(CharOf(a as int / 4), CharOf((a as int % 4) * 16 + b as int / 16),
                       CharOf((b as int % 16) * 4 + c as int / 64), CharOf(c as int % 64))
            == Some([a, b, c])
  {
    var x, y, z := a as int, b as int, c as int;
    var v1: Sextet := (x % 4) * 16 + y / 16;
    var v2: Sextet := (y % 16) * 4 + z / 64;
    ValueOfCharOf(x / 4);
    ValueOfCharOf(v1);
    ValueOfCharOf(v2);
    ValueOfCharOf(z % 64);
    assert v1 / 16 == x % 4 && v1 % 16 == y / 16;
    assert v2 / 4 == y % 16 && v2 % 4 == z / 64;
  }

  lemma SingleRoundTrip(a: byte)
    ensures DecodeFinal(CharOf(a as int / 4), CharOf((a as int % 4) * 16), '=', '=') == Some([a])
  {
    var x := a as int;
    ValueOfCharOf(x / 4);
    ValueOfCharOf((x % 4) * 16);
    assert ((x % 4) * 16) / 16 == x % 4;
  }

  lemma PairRoundTrip(a: byte, b: byte)
    ensures DecodeFinal(CharOf(a as int / 4), CharOf((a as int % 4) * 16 + b as int / 16),
                        CharOf((b as int % 16) * 4), '=')
            == Some([a, b])
  {
    var x, y := a as int, b as int;
    var v1: Sextet := (x % 4) * 16 + y / 16;
    var v2: Sextet := (y % 16) * 4;
    ValueOfCharOf(x / 4);
    ValueOfCharOf(v1);
    ValueOfCharOf(v2);
    assert v1 / 16 == x % 4 && v1 % 16 == y / 16;
    assert v2 / 4 == y % 16;
  }

  /** Round trip: decoding the encoding of any byte string gives that byte string back. */
  lemma {:induction false} DecodeEncode(data: seq<byte>)
    ensures Decode(Encode(data)) == Some(data)
    decreases |data|
  {
    if |data| == 0 {
    } else if |data| == 1 {
      SingleRoundTrip(data[0]);
      assert [data[0]] == data;
    } else if |data| == 2 {
      PairRoundTrip(data[0], data[1]);
      assert [data[0], data[1]] == data;
    } else {
      DecodeEncodeGroup(data);
    }
  }

  lemma TripleDecodes(a: byte, b: byte, c: byte)
    ensures var t := EncodeTriple(a, b, c); DecodeQuad(t[0], t[1], t[2], t[3]) == Some([a, b, c])
  {
    TripleRoundTrip(a, b, c);
  }

  /** A leading full group decodes on its own, ahead of what follows it. */
  lemma DecodeLeadingGroup(head: string, rest: string, group: seq<byte>, tail: seq<byte>)
    requires |head| == 4 && |rest| >= 4
    requires DecodeQuad(head[0], head[1], head[2], head[3]) == Some(group)
    requires Decode(rest) == Some(tail)
    ensures Decode(head + rest) == Some(group + tail)
  {
    var s := head + rest;
    assert s[0] == head[0] && s[1] == head[1] && s[2] == head[2] && s[3] == head[3];
    assert s[4..] == rest;
  }

  lemma {:induction false} DecodeEncodeGroup(data: seq<byte>)
    requires |data| >= 3
    ensures Decode(Encode(data)) == Some(data)
    decreases |data|, 1
  {
    if |data| == 3 {
      DecodeEncodeThree(data);
    } else {
      var tail := data[3..];
      DecodeEncode(tail);
      DecodeEncodeLonger(data);
    }
  }

  lemma DecodeEncodeThree(data: seq<byte>)
    requires |data| == 3
    ensures Decode(Encode(data)) == Some(data)
  {
    EncodeStep(data);
    assert Encode(data[3..]) == [];
    LastGroupRoundTrip(data[0], data[1], data[2]);
    FirstThree(data);
  }

  /** The step of the round trip: a leading group of three bytes in front of a tail that already round-trips. */
  lemma DecodeEncodeLonger(data: seq<byte>)
    requires |data| > 3
    requires Decode(Encode(data[3..])) == Some(data[3..])
    ensures Decode(Encode(data)) == Some(data)
  {
    EncodeStep(data);
    TripleDecodes(data[0], data[1], data[2]);
    FirstThree(data);
    DecodeLeadingGroup(EncodeTriple(data[0], data[1], data[2]), Encode(data[3..]), data[..3], data[3..]);
  }

  lemma FirstThree(data: seq<byte>)
    requires |data| >= 3
    ensures data[..3] == [data[0], data[1], data[2]]
    ensures data[..3] + data[3..] == data
    ensures |data| == 3 ==> data == [data[0], data[1], data[2]]
  {
  }

  lemma EncodeStep(data: seq<byte>)
    requires |data| >= 3
    ensures Encode(data) == EncodeTriple(data[0], data[1], data[2]) + Encode(data[3..])
  {
  }

  /** A final group of three bytes carries no padding and decodes as a full group. */
  lemma LastGroupRoundTrip(a: byte, b: byte, c: byte)
    ensures Decode(EncodeTriple(a, b, c)) == Some([a, b, c])
  {
    var head := EncodeTriple(a, b, c);
    TripleDecodes(a, b, c);
    assert head[2] != '=' && head[3] != '=';
    assert Decode(head) == DecodeFinal(head[0], head[1], head[2], head[3]);
  }
}

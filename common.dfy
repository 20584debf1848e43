/** An optional value, for results that may be absent. */
module Optional {
  datatype Option<+T> = None | Some(value: T)
}

/**
 * Bytes as Node's `Buffer` holds them, and the little-endian field
 * encodings that `Buffer.writeUInt16LE` / `Buffer.writeUInt32LE` produce.
 */
module Bytes {
  newtype byte = x: int | 0 <= x < 256

  /** The unsigned 16-bit value stored little-endian at `offset` (what `readUInt16LE` returns). */
  function ReadUInt16LE(s: seq<byte>, offset: nat): nat
    requires offset + 2 <= |s|
  {
    s[offset] as nat + 256 * s[offset + 1] as nat
  }

  /** The unsigned 32-bit value stored little-endian at `offset` (what `readUInt32LE` returns). */
  function ReadUInt32LE(s: seq<byte>, offset: nat): nat
    requires offset + 4 <= |s|
  {
    ReadUInt16LE(s, offset) + 65536 * ReadUInt16LE(s, offset + 2)
  }

  /** The two bytes `writeUInt16LE(v, _)` stores: low byte first. */
  function LE16(v: nat): (r: seq<byte>)
    requires v < 0x1_0000
    ensures |r| == 2
    ensures ReadUInt16LE(r, 0) == v
  {
    [(v % 256) as byte, (v / 256) as byte]
  }

  /** The four bytes `writeUInt32LE(v, _)` stores: low byte first. */
  function LE32(v: nat): (r: seq<byte>)
    requires v < 0x1_0000_0000
    ensures |r| == 4
    ensures ReadUInt32LE(r, 0) == v
    ensures r[..2] == LE16(v % 0x1_0000) && r[2..] == LE16(v / 0x1_0000)
  {
    LE16(v % 0x1_0000) + LE16(v / 0x1_0000)
  }
}

/**
 * `createSimpleICO`: the bytes of a one-image 32x32 icon file, assembled
 * from a 6-byte header, a 16-byte directory entry and 4128 bytes of image
 * data, each a zero-filled buffer written with Node's little-endian writers.
 */
module Icon {
  import opened Bytes

  const HeaderSize: nat := 6
  const DirEntrySize: nat := 16
  const ImageDataSize: nat := 4128

  /** `Buffer.alloc(n)`: a fresh buffer of `n` zero bytes. */
  method Alloc(n: nat) returns (buf: array<byte>)
    ensures fresh(buf) && buf.Length == n
    ensures forall i :: 0 <= i < n ==> buf[i] == 0
  {
    buf := new byte[n](_ => 0);
  }

  /** `buf.writeUInt8(value, offset)`: one byte replaced, the others kept. */
  method WriteUInt8(buf: array<byte>, value: byte, offset: nat)
    requires offset < buf.Length
    modifies buf
    ensures buf[..] == old(buf[..])[offset := value]
  {
    buf[offset] := value;
  }

  /** `buf.writeUInt16LE(value, offset)`: the two bytes at `offset` become `LE16(value)`, the others are kept. */
  method WriteUInt16LE(buf: array<byte>, value: nat, offset: nat)
    requires value < 0x1_0000 && offset + 2 <= buf.Length
    modifies buf
    ensures buf[..] == old(buf[..offset]) + LE16(value) + old(buf[offset + 2..])
  {
    buf[offset] := (value % 256) as byte;
    buf[offset + 1] := (value / 256) as byte;
  }

  /** `buf.writeUInt32LE(value, offset)`: the four bytes at `offset` become `LE32(value)`, the others are kept. */
  method WriteUInt32LE(buf: array<byte>, value: nat, offset: nat)
    requires value < 0x1_0000_0000 && offset + 4 <= buf.Length
    modifies buf
    ensures buf[..] == old(buf[..offset]) + LE32(value) + old(buf[offset + 4..])
  {
    WriteUInt16LE(buf, value % 0x1_0000, offset);
    WriteUInt16LE(buf, value / 0x1_0000, offset + 2);
  }

  /**
   * What an icon reader checks in the first 22 bytes: reserved 0, type 1
   * (icon), one image, 32x32 pixels, no palette, one colour plane, 32 bits
   * per pixel, and an image that starts right after the header and the one
   * directory entry and runs to the end of the file.
   */
  predicate WellFormedIcon(f: seq<byte>) {
    && |f| >= HeaderSize + DirEntrySize
    && ReadUInt16LE(f, 0) == 0
    && ReadUInt16LE(f, 2) == 1
    && ReadUInt16LE(f, 4) == 1
    && f[6] == 32 && f[7] == 32
    && f[8] == 0 && f[9] == 0
    && ReadUInt16LE(f, 10) == 1
    && ReadUInt16LE(f, 12) == 32
    && ReadUInt32LE(f, 14) == |f| - (HeaderSize + DirEntrySize)
    && ReadUInt32LE(f, 18) == HeaderSize + DirEntrySize
  }

  /** The icon header: reserved 0, type 1 (icon), one image. */
  method NewHeader() returns (header: array<byte>)
    ensures fresh(header)
    ensures header[..] == LE16(0) + LE16(1) + LE16(1)
  {
    header := Alloc(HeaderSize);
    WriteUInt16LE(header, 0, 0);
    WriteUInt16LE(header, 1, 2);
    WriteUInt16LE(header, 1, 4);
  }

  /** The one directory entry: 32x32, no palette, one plane, 32 bits per pixel, 4128 bytes at offset 22. */
  method NewDirEntry() returns (dirEntry: array<byte>)
    ensures fresh(dirEntry)
    ensures dirEntry[..] == [32, 32, 0, 0] + LE16(1) + LE16(32) + LE32(4128) + LE32(22)
  {
    dirEntry := Alloc(DirEntrySize);
    WriteUInt8(dirEntry, 32, 0);
    WriteUInt8(dirEntry, 32, 1);
    WriteUInt8(dirEntry, 0, 2);
    WriteUInt8(dirEntry, 0, 3);
    assert dirEntry[..4] == [32, 32, 0, 0];
    WriteUInt16LE(dirEntry, 1, 4);
    WriteUInt16LE(dirEntry, 32, 6);
    WriteUInt32LE(dirEntry, 4128, 8);
    WriteUInt32LE(dirEntry, 22, 12);
  }

  /** The bytes `createSimpleICO` hands to `writeFileSync`: a well-formed header and directory, then 4128 zero bytes. */
  method CreateSimpleIco() returns (ico: seq<byte>)
    ensures |ico| == HeaderSize + DirEntrySize + ImageDataSize
    ensures WellFormedIcon(ico)
    ensures forall i :: HeaderSize + DirEntrySize <= i < |ico| ==> ico[i] == 0
  {
    var header := NewHeader();
    var dirEntry := NewDirEntry();
    var imageData := Alloc(ImageDataSize);
    ico := header[..] + dirEntry[..] + imageData[..];
    HeaderFields(header[..], dirEntry[..], imageData[..]);
  }

  /** Reading the fields back through the concatenation. */
  lemma HeaderFields(header: seq<byte>, dirEntry: seq<byte>, imageData: seq<byte>)
    requires header == LE16(0) + LE16(1) + LE16(1)
    requires dirEntry == [32, 32, 0, 0] + LE16(1) + LE16(32) + LE32(4128) + LE32(22)
    requires |imageData| == ImageDataSize
    ensures WellFormedIcon(header + dirEntry + imageData)
  {
  }
}

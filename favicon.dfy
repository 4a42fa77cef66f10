/**
 * The one-image ICO file the favicon script writes: a 6-byte header and a
 * 16-byte directory entry, filled in place in zeroed buffers, followed by
 * the 32x32 PNG.  Rendering the PNG is not modelled; its bytes are an input.
 */
module Favicon {
  import opened Wrappers

  newtype byte = x: int | 0 <= x < 256

  const HeaderSize: nat := 6
  const EntrySize: nat := 16
  const ImageOffset: nat := 22
  const U32Limit: nat := 0x1_0000_0000

  /** The little-endian bytes of a 16-bit value. */
  function Le16(v: nat): (r: seq<byte>)
    requires v < 0x1_0000
    ensures |r| == 2
  {
    [(v % 256) as byte, (v / 256) as byte]
  }

  /** The little-endian bytes of a 32-bit value. */
  function Le32(v: nat): (r: seq<byte>)
    requires v < U32Limit
    ensures |r| == 4
  {
    [(v % 256) as byte, (v / 256 % 256) as byte, (v / 0x1_0000 % 256) as byte, (v / 0x100_0000) as byte]
  }

  /** Reads a little-endian 16-bit value. */
  function ReadU16(s: seq<byte>, at: nat): nat
    requires at + 2 <= |s|
  {
    s[at] as nat + 256 * s[at + 1] as nat
  }

  /** Reads a little-endian 32-bit value. */
  function ReadU32(s: seq<byte>, at: nat): nat
    requires at + 4 <= |s|
  {
    s[at] as nat + 256 * s[at + 1] as nat + 0x1_0000 * s[at + 2] as nat + 0x100_0000 * s[at + 3] as nat
  }

  /** The header: reserved 0, type 1 (icon), one image. */
  function Header(): (r: seq<byte>)
    ensures |r| == HeaderSize
  {
    Le16(0) + Le16(1) + Le16(1)
  }

  /** The directory entry of a 32x32, 32-bit image of `size` bytes stored at offset 22. */
  function Entry(size: nat): (r: seq<byte>)
    requires size < U32Limit
    ensures |r| == EntrySize
  {
    [32, 32, 0, 0] + Le16(1) + Le16(32) + Le32(size) + Le32(ImageOffset)
  }

  /** The file the script writes, as a layout. */
  function IcoBytes(png: seq<byte>): (r: seq<byte>)
    requires |png| < U32Limit
  {
    Header() + Entry(|png|) + png
  }

  /** `buf.writeUInt16LE(value, offset)`. */
  method WriteU16LE(buf: array<byte>, value: nat, offset: nat)
    requires value < 0x1_0000 && offset + 2 <= buf.Length
    modifies buf
    ensures buf[..] == old(buf[..])[..offset] + Le16(value) + old(buf[..])[offset + 2..]
  {
    buf[offset] := (value % 256) as byte;
    buf[offset + 1] := (value / 256) as byte;
  }

  /** `buf.writeUInt32LE(value, offset)`. */
  method WriteU32LE(buf: array<byte>, value: nat, offset: nat)
    requires value < U32Limit && offset + 4 <= buf.Length
    modifies buf
    ensures buf[..] == old(buf[..])[..offset] + Le32(value) + old(buf[..])[offset + 4..]
  {
    buf[offset] := (value % 256) as byte;
    buf[offset + 1] := (value / 256 % 256) as byte;
    buf[offset + 2] := (value / 0x1_0000 % 256) as byte;
    buf[offset + 3] := (value / 0x100_0000) as byte;
  }

  /** `Buffer.alloc(6)` and the three header writes. */
  method NewHeader() returns (header: array<byte>)
    ensures fresh(header) && header[..] == Header()
  {
    header := new byte[HeaderSize](_ => 0);
    WriteU16LE(header, 0, 0);
    WriteU16LE(header, 1, 2);
    WriteU16LE(header, 1, 4);
  }

  /** `Buffer.alloc(16)` and the eight directory-entry writes. */
  method NewEntry(size: nat) returns (dir: array<byte>)
    requires size < U32Limit
    ensures fresh(dir) && dir[..] == Entry(size)
  {
    dir := new byte[EntrySize](_ => 0);
    dir[0] := 32;
    dir[1] := 32;
    dir[2] := 0;
    dir[3] := 0;
    assert dir[..4] == [32, 32, 0, 0];
    WriteU16LE(dir, 1, 4);
    WriteU16LE(dir, 32, 6);
    WriteU32LE(dir, size, 8);
    WriteU32LE(dir, ImageOffset, 12);
  }

  /**
   * Builds the ICO file.  `writeUInt32LE` throws for an image of 2^32
   * bytes or more, and the script then stops: `None`.
   */
  method BuildIco(png: seq<byte>) returns (r: Option<seq<byte>>)
    ensures r.Some? <==> |png| < U32Limit
    ensures r.Some? ==> r.value == IcoBytes(png)
  {
    if |png| >= U32Limit {
      return None;
    }
    var header := NewHeader();
    var dir := NewEntry(|png|);
    r := Some(header[..] + dir[..] + png);
  }

  // ------------------------------------------------------------ properties

  /** A 32-bit value reads back from its little-endian bytes. */
  lemma Le32RoundTrip(v: nat)
    requires v < U32Limit
    ensures ReadU32(Le32(v), 0) == v
  {
    var b := Le32(v);
    assert b[0] as nat == v % 256;
    assert b[1] as nat == v / 256 % 256;
    assert b[2] as nat == v / 0x1_0000 % 256;
    assert b[3] as nat == v / 0x100_0000;
    assert v / 256 == v / 256 % 256 + 256 * (v / 0x1_0000);
    assert v / 0x1_0000 == v / 0x1_0000 % 256 + 256 * (v / 0x100_0000);
  }

  /**
   * The file is 22 bytes plus the image; the header reads 0, 1, 1; the
   * entry reads 32x32, no palette, 1 plane, 32 bits per pixel, the image
   * size and offset 22; the image starts exactly at the recorded offset.
   */
  lemma IcoLayout(png: seq<byte>)
    requires |png| < U32Limit
    ensures var f := IcoBytes(png);
      |f| == HeaderSize + EntrySize + |png| && HeaderSize + EntrySize == ImageOffset
      && ReadU16(f, 0) == 0 && ReadU16(f, 2) == 1 && ReadU16(f, 4) == 1
      && f[6] == 32 && f[7] == 32 && f[8] == 0 && f[9] == 0
      && ReadU16(f, 10) == 1 && ReadU16(f, 12) == 32
      && ReadU32(f, 14) == |png| && ReadU32(f, 18) == ImageOffset
      && f[ReadU32(f, 18)..] == png
  {
    var f := IcoBytes(png);
    Le32RoundTrip(|png|);
    Le32RoundTrip(ImageOffset);
    assert f[6..22] == Entry(|png|);
    assert f[14..18] == Le32(|png|);
    assert f[18..22] == Le32(ImageOffset);
    assert f[22..] == png;
  }
}

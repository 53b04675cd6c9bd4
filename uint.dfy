/**
 * The integer conversions a JavaScript DataView or Uint8Array applies when a
 * number is stored into it, and the little-endian byte layout of its
 * setUint16/setUint32 writes.
 */
module Uint {
  /** One element of a Uint8Array / one byte of an ArrayBuffer. */
  type Byte = b: int | 0 <= b < 256

  const TWO_16: nat := 0x1_0000
  const TWO_32: nat := 0x1_0000_0000

  /** ToUint8: the value a Uint8Array or setUint8 actually keeps (modulo 2^8). */
  function ToUint8(v: int): (r: Byte)
    ensures 0 <= v < 256 ==> r == v
  {
    v % 256
  }

  /** ToUint16: the value setUint16 actually stores (modulo 2^16). */
  function ToUint16(v: int): (r: nat)
    ensures r < TWO_16
    ensures 0 <= v < TWO_16 ==> r == v
  {
    v % TWO_16
  }

  /** ToUint32: the value setUint32 actually stores (modulo 2^32). */
  function ToUint32(v: int): (r: nat)
    ensures r < TWO_32
    ensures 0 <= v < TWO_32 ==> r == v
  {
    v % TWO_32
  }

  /** The two bytes setUint16(offset, v, true) writes, least significant first. */
  function LE16(v: int): (b: seq<Byte>)
    ensures |b| == 2
  {
    var u := ToUint16(v);
    [u % 256, u / 256]
  }

  /** The four bytes setUint32(offset, v, true) writes, least significant first. */
  function LE32(v: int): (b: seq<Byte>)
    ensures |b| == 4
  {
    var u := ToUint32(v);
    [u % 256, (u / 256) % 256, (u / 256 / 256) % 256, u / 256 / 256 / 256]
  }

  /** getUint16(offset, true): reads two bytes back as an unsigned number. */
  function DecodeLE16(b: seq<Byte>): (v: nat)
    requires |b| == 2
    ensures v < TWO_16
  {
    b[0] as int + 256 * (b[1] as int)
  }

  /** getUint32(offset, true): reads four bytes back as an unsigned number. */
  function DecodeLE32(b: seq<Byte>): (v: nat)
    requires |b| == 4
    ensures v < TWO_32
  {
    b[0] as int + 256 * (b[1] as int + 256 * (b[2] as int + 256 * (b[3] as int)))
  }

  /** charCodeAt(i) for every i, each stored into a Uint8Array slot (so modulo 2^8). */
  function Uint8Codes(s: string): (b: seq<Byte>)
    ensures |b| == |s|
    ensures forall i :: 0 <= i < |s| ==> b[i] == ToUint8(s[i] as int)
  {
    seq(|s|, i requires 0 <= i < |s| => ToUint8(s[i] as int))
  }

  /** Reading back a 16-bit field recovers the stored value modulo 2^16. */
  lemma LE16RoundTrip(v: int)
    ensures DecodeLE16(LE16(v)) == ToUint16(v)
  {
    var u := ToUint16(v);
    assert u == u % 256 + 256 * (u / 256);
  }

  /** Reading back a 32-bit field recovers the stored value modulo 2^32. */
  lemma LE32RoundTrip(v: int)
    ensures DecodeLE32(LE32(v)) == ToUint32(v)
  {
    var u := ToUint32(v);
    var q0 := u / 256;
    var q1 := q0 / 256;
    var q2 := q1 / 256;
    assert u == u % 256 + 256 * q0;
    assert q0 == q0 % 256 + 256 * q1;
    assert q1 == q1 % 256 + 256 * q2;
    assert q2 < 256;
  }

  /** Any two bytes are what setUint16 writes for the number they encode. */
  lemma DecodeLE16Inverse(b: seq<Byte>)
    requires |b| == 2
    ensures LE16(DecodeLE16(b)) == b
  {
    var v := DecodeLE16(b);
    assert ToUint16(v) == v;
    assert v / 256 == b[1];
  }

  /** Any four bytes are what setUint32 writes for the number they encode. */
  lemma DecodeLE32Inverse(b: seq<Byte>)
    requires |b| == 4
    ensures LE32(DecodeLE32(b)) == b
  {
    var v := DecodeLE32(b);
    assert ToUint32(v) == v;
    assert v / 256 == b[1] as int + 256 * (b[2] as int + 256 * (b[3] as int));
    assert v / 256 / 256 == b[2] as int + 256 * (b[3] as int);
    assert v / 256 / 256 / 256 == b[3];
  }

  /** Storing a number that was already reduced stores the same bytes. */
  lemma LE32Reduced(v: int)
    ensures LE32(ToUint32(v)) == LE32(v)
  {
  }
}

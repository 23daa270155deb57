/** `UInt32ToFourCC`: the printable four-character code of a 32-bit status or
    format id, taken from the value's bytes in memory, reversed, and NUL-terminated. */
module FourCC {
  import opened AudioTypes

  /** The four bytes of `v`, most significant first. */
  function BigEndianBytes(v: uint32): (b: seq<byte>)
    ensures |b| == 4
  {
    [v / 0x100_0000, (v / 0x1_0000) % 0x100, (v / 0x100) % 0x100, v % 0x100]
  }

  /** The value the four bytes stand for, first byte most significant. */
  function FromBigEndian(b: seq<byte>): int
    requires |b| == 4
  {
    b[0] as int * 0x100_0000 + b[1] as int * 0x1_0000 + b[2] as int * 0x100 + b[3] as int
  }

  /** The bytes of `v` as they lie in memory on a host of the given order
      (what `(char*)&inVal` reads, `pIn[0]` first). */
  function MemoryBytes(v: uint32, order: ByteOrder): (m: seq<byte>)
    ensures |m| == 4
  {
    var be := BigEndianBytes(v);
    if order == BigEndian then be else [be[3], be[2], be[1], be[0]]
  }

  /** The five-byte result: memory bytes 3, 2, 1, 0 and a NUL. The source
      returns a shared static buffer; here each call yields a fresh value. */
  function UInt32ToFourCC(v: uint32, order: ByteOrder): (r: seq<byte>)
    ensures |r| == 5 && r[4] == 0
    ensures forall i :: 0 <= i < 4 ==> r[i] == MemoryBytes(v, order)[3 - i]
  {
    var m := MemoryBytes(v, order);
    [m[3], m[2], m[1], m[0], 0]
  }

  /** Splitting a 32-bit value into bytes and joining them again gives it back. */
  lemma BigEndianRoundTrip(v: uint32)
    ensures FromBigEndian(BigEndianBytes(v)) == v
  {
    var q1 := v / 0x100;
    var q2 := q1 / 0x100;
    var q3 := q2 / 0x100;
    assert v == q1 * 0x100 + v % 0x100;
    assert q1 == q2 * 0x100 + q1 % 0x100;
    assert q2 == q3 * 0x100 + q2 % 0x100;
    assert q2 == v / 0x1_0000;
    assert q3 == v / 0x100_0000;
  }

  /** On a little-endian host (Intel and Apple-silicon Macs) the four characters
      read most significant byte first, so a code packed from 'I','A','C','3'
      prints as "IAC3"; the characters determine the value. */
  lemma FourCCLittleEndian(v: uint32)
    ensures UInt32ToFourCC(v, LittleEndian)[..4] == BigEndianBytes(v)
    ensures FromBigEndian(UInt32ToFourCC(v, LittleEndian)[..4]) == v
  {
    BigEndianRoundTrip(v);
  }

  /** On a big-endian host the same code comes out reversed. */
  lemma FourCCBigEndian(v: uint32)
    ensures var r := UInt32ToFourCC(v, BigEndian);
            FromBigEndian([r[3], r[2], r[1], r[0]]) == v
  {
    BigEndianRoundTrip(v);
  }

  /** Distinct values give distinct codes on either host. */
  lemma FourCCInjective(v: uint32, u: uint32, order: ByteOrder)
    requires UInt32ToFourCC(v, order) == UInt32ToFourCC(u, order)
    ensures v == u
  {
    var rv, ru := UInt32ToFourCC(v, order), UInt32ToFourCC(u, order);
    if order == LittleEndian {
      FourCCLittleEndian(v);
      FourCCLittleEndian(u);
      assert rv[..4] == ru[..4];
    } else {
      FourCCBigEndian(v);
      FourCCBigEndian(u);
      assert [rv[3], rv[2], rv[1], rv[0]] == [ru[3], ru[2], ru[1], ru[0]];
    }
  }

  /** The AC-3 identifier the S/PDIF search compares against. */
  lemma FourCCOfIAC3()
    ensures UInt32ToFourCC(FormatIAC3, LittleEndian) == ['I' as byte, 'A' as byte, 'C' as byte, '3' as byte, 0]
  {
  }
}

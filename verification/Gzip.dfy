/** The repair of gzip mails whose last byte, a zero of the length in the trailer, was lost. */
module Gzip {
  import opened Rados

  type Bytes = seq<byte>

  const MAGIC_1: byte := 0x1f
  const MAGIC_2: byte := 0x8b

  const TWO_8 := 0x100
  const TWO_16 := 0x1_0000
  const TWO_24 := 0x100_0000
  const TWO_32 := 0x1_0000_0000
  const INT_MAX := 0x7fff_ffff
  const TWO_64 := 0x1_0000_0000_0000_0000

  // ----- the format: section 2.3.1 of RFC 1952 -----

  function Byte(n: nat): byte { n % TWO_8 }

  /** Four bytes, least significant first. */
  function Le32(n: nat): Bytes { [Byte(n), Byte(n / TWO_8), Byte(n / TWO_16), Byte(n / TWO_24)] }

  /** A member with the given header and compressed blocks; the trailer is the CRC and the length modulo 2^32. */
  function Member(blocks: Bytes, crc: nat, length: nat): Bytes { blocks + Le32(crc) + Le32(length % TWO_32) }

  /** At least the fixed header: the two magic bytes, ..., the flags at offset 3. */
  predicate IsGzip(data: Bytes) { |data| >= 10 && data[0] == MAGIC_1 && data[1] == MAGIC_2 }

  // ----- the code -----

  /** `zlib_trailer_msg_length` */
  function TrailerLength(data: Bytes): (n: nat)
    requires |data| >= 4
    ensures n < TWO_32
  {
    var k := |data|;
    data[k - 1] * TWO_24 + data[k - 2] * TWO_16 + data[k - 3] * TWO_8 + data[k - 4]
  }

  /** Subtraction of a 64-bit size from a 32-bit one. */
  function Difference(result: nat, size: nat): nat
    requires result < TWO_32 && size < TWO_64
  {
    if result >= size then result - size else TWO_64 + result - size
  }

  predicate HasZero(data: Bytes, from: nat) { exists i :: from <= i < |data| && data[i] == 0 }

  /** Position of the first zero. */
  function ZeroFrom(data: Bytes, from: nat): (i: nat)
    requires HasZero(data, from)
    ensures from <= i < |data| && data[i] == 0 && forall k :: from <= k < i ==> data[k] != 0
    decreases |data| - from
  {
    if data[from] == 0 then from else ZeroFrom(data, from + 1)
  }

  /** The flags for which the code follows the header to its end. */
  predicate Readable(data: Bytes) {
    && |data| >= 10
    && (data[3] == 0x04 ==> |data| >= 12)
    && (data[3] == 0x08 || data[3] == 0x10 ==> HasZero(data, 10))
  }

  /** `zlib_header_length` */
  function HeaderLength(data: Bytes): nat
    requires Readable(data)
  {
    match data[3]
    case 0x01 => 10
    case 0x02 => 12
    case 0x04 => 12 + data[10] + data[11]
    case 0x08 => ZeroFrom(data, 10)
    case 0x10 => ZeroFrom(data, 10)
    case _ => 11
  }

  predicate Fires(data: Bytes, size: nat)
    requires Readable(data) && size < TWO_64
  {
    Difference(TrailerLength(data), size) > HeaderLength(data)
  }

  /** `check_is_zlib` */
  predicate HasMagic(data: Bytes)
    requires |data| >= 2
  {
    data[0] == MAGIC_1 && data[1] == MAGIC_2
  }

  function Repaired(data: Bytes, size: nat): Bytes
    requires |data| >= 2 && (HasMagic(data) ==> Readable(data)) && size < TWO_64
  {
    if HasMagic(data) && Fires(data, size) then data + [0] else data
  }

  /** `header_dynamic_size` */
  method HeaderDynamicSize(data: Bytes) returns (i: nat)
    requires HasZero(data, 10)
    ensures i == ZeroFrom(data, 10)
  {
    i := 10;
    while data[i] != 0
      invariant 10 <= i < |data| && HasZero(data, i) && ZeroFrom(data, i) == ZeroFrom(data, 10)
      decreases |data| - i
    {
      i := i + 1;
    }
  }

  method ZlibHeaderLength(data: Bytes) returns (n: nat)
    requires Readable(data)
    ensures n == HeaderLength(data)
  {
    var flg := data[3];
    if flg == 0x01 {
      n := 10;
    } else if flg == 0x02 {
      n := 10 + 2;
    } else if flg == 0x04 {
      var low: int, high: int := data[10], data[11];
      n := 10 + 2 + low + high;
    } else if flg == 0x08 || flg == 0x10 {
      n := HeaderDynamicSize(data);
    } else {
      n := 11;
    }
  }

  /** The repair step when a mail is opened; `size` is the length of the mail on record. */
  method RepairTrailer(data: Bytes, size: nat) returns (data': Bytes, physicalSize: nat)
    requires |data| >= 2 && (HasMagic(data) ==> Readable(data)) && size < TWO_64
    ensures data' == Repaired(data, size) && physicalSize == |data'|
    ensures !(data[0] == 0x1f && data[1] == 0x8b) ==> data' == data && physicalSize == |data|
  {
    data', physicalSize := data, |data|;
    if HasMagic(data) {
      var result := TrailerLength(data);
      var header := ZlibHeaderLength(data);
      if Difference(result, size) > header {
        data' := data' + [0];
        physicalSize := physicalSize + 1;
      }
    }
  }

  // ----- the header as the format defines it -----

  predicate Flag(flags: byte, bit: nat)
    requires bit > 0
  {
    flags / bit % 2 == 1
  }

  const FHCRC := 2
  const FEXTRA := 4
  const FNAME := 8
  const FCOMMENT := 16

  /** The end of a text that starts at `from`, with its terminating zero. */
  function TextEnd(data: Bytes, from: nat): Option<nat> {
    if HasZero(data, from) then Some(ZeroFrom(data, from) + 1) else None
  }

  function AfterText(data: Bytes, from: Option<nat>, present: bool): Option<nat> {
    if from.None? || !present then from else TextEnd(data, from.value)
  }

  /** Section 2.3 of RFC 1952: the fixed part, then the extra field, the name, the comment and the CRC, as flagged. */
  function RfcHeaderLength(data: Bytes): Option<nat>
    requires |data| >= 10
  {
    var extra := if !Flag(data[3], FEXTRA) then Some(10)
                 else if |data| < 12 then None else Some(12 + data[10] + TWO_8 * data[11]);
    var name := AfterText(data, extra, Flag(data[3], FNAME));
    var comment := AfterText(data, name, Flag(data[3], FCOMMENT));
    if comment.None? || !Flag(data[3], FHCRC) then comment else Some(comment.value + 2)
  }

  /** The flags the code tells apart: one single flag. */
  predicate Known(flags: byte) { flags in {1, 2, 4, 8, 16} }

  /** All that follows the fixed part is an empty name or an empty comment. */
  predicate OneEmptyText(data: Bytes)
    requires |data| >= 10
  {
    && !Flag(data[3], FEXTRA) && !Flag(data[3], FHCRC) && Flag(data[3], FNAME) != Flag(data[3], FCOMMENT)
    && |data| > 10 && data[10] == 0
  }

  /**
   The length the code takes for that of the header is the one of the format iff the only flag is the text hint, the
   CRC, or an extra field shorter than 256 bytes, or else, for flags the code does not know, if the header is just one
   byte longer than its fixed part.
   */
  lemma HeaderLengthIff(data: Bytes)
    requires Readable(data)
    ensures RfcHeaderLength(data) == Some(HeaderLength(data)) <==>
            if Known(data[3]) then data[3] == 1 || data[3] == 2 || (data[3] == 4 && data[11] == 0)
            else OneEmptyText(data)
  {
    if !Known(data[3]) { UnknownFlags(data); }
  }

  /** By how much the code is wrong: it counts an extra byte without flags, not the zero of a name or a comment, and the
      high byte of an extra field's length as if it were a low one. */
  lemma HeaderLengthOff(data: Bytes)
    requires Readable(data)
    ensures data[3] == 0 ==> RfcHeaderLength(data) == Some(HeaderLength(data) - 1)
    ensures data[3] == 8 || data[3] == 16 ==> RfcHeaderLength(data) == Some(HeaderLength(data) + 1)
    ensures data[3] == 4 ==> RfcHeaderLength(data) == Some(HeaderLength(data) + (data[11] as int) * 255)
  {
    assert data[3] == 8 ==> Flag(data[3], FNAME) && !Flag(data[3], FEXTRA) && !Flag(data[3], FCOMMENT);
    assert data[3] == 16 ==> !Flag(data[3], FNAME) && !Flag(data[3], FEXTRA) && Flag(data[3], FCOMMENT);
  }

  /** A header without flags is taken for one byte longer, and an extra field of 256 bytes for an empty one. */
  lemma HeaderExamples(plain: Bytes, extra: Bytes)
    requires |plain| == 10 && plain[3] == 0
    requires |extra| == 268 && extra[3] == 4 && extra[10] == 0 && extra[11] == 1
    ensures HeaderLength(plain) == 11 && RfcHeaderLength(plain) == Some(10)
    ensures HeaderLength(extra) == 13 && RfcHeaderLength(extra) == Some(268)
  {
  }

  lemma UnknownFlags(data: Bytes)
    requires |data| >= 10
    ensures RfcHeaderLength(data) == Some(11) <==> OneEmptyText(data)
  {
    var flags := data[3];
    if !Flag(flags, FEXTRA) {
      TextEndsAfter(data, 10);
      var name := AfterText(data, Some(10), Flag(flags, FNAME));
      if name.Some? { TextEndsAfter(data, name.value); }
    }
  }

  lemma TextEndsAfter(data: Bytes, from: nat)
    ensures TextEnd(data, from).Some? ==> from < TextEnd(data, from).value
    ensures TextEnd(data, from) == Some(from + 1) <==> from < |data| && data[from] == 0
  {
  }

  // ----- what the repair achieves -----

  /** The four bytes of a 32-bit number give the number back. */
  lemma Le32Value(n: nat)
    requires n < TWO_32
    ensures var b := Le32(n); b[3] * TWO_24 + b[2] * TWO_16 + b[1] * TWO_8 + b[0] == n
  {
    var q1, q2, q3 := n / TWO_8, n / TWO_16, n / TWO_24;
    assert q2 == q1 / TWO_8 && q3 == q2 / TWO_8 && q3 < TWO_8;
  }

  /** The trailer of an intact member is its length, for lengths the trailer can hold. */
  lemma IntactTrailer(blocks: Bytes, crc: nat, length: nat)
    ensures TrailerLength(Member(blocks, crc, length)) == length % TWO_32
  {
    var data, b := Member(blocks, crc, length), Le32(length % TWO_32);
    var k := |data|;
    assert data[k - 4] == b[0] && data[k - 3] == b[1] && data[k - 2] == b[2] && data[k - 1] == b[3];
    Le32Value(length % TWO_32);
  }

  /** Nothing is added to an intact mail, unless it is too long for the trailer. */
  lemma IntactIff(blocks: Bytes, crc: nat, length: nat)
    requires length < TWO_64 && Readable(Member(blocks, crc, length)) && |blocks| < INT_MAX
    ensures Fires(Member(blocks, crc, length), length) <==> length >= TWO_32
  {
    var data := Member(blocks, crc, length);
    IntactTrailer(blocks, crc, length);
    HeaderSmall(data);
    var high := length / TWO_32;
    assert length == TWO_32 * high + length % TWO_32 && high < TWO_32;
  }

  lemma HeaderSmall(data: Bytes)
    requires Readable(data)
    ensures HeaderLength(data) < |data| + 523
  {
  }

  /** The member without its last byte. */
  function Damaged(blocks: Bytes, crc: nat, length: nat): Bytes {
    var data := Member(blocks, crc, length);
    data[..|data| - 1]
  }

  /** The byte of the CRC that is then taken for the least significant byte of the length. */
  function CrcByte(crc: nat): byte { Byte(crc / TWO_24) }

  lemma LostByteIsZero(blocks: Bytes, crc: nat, length: nat)
    requires length < TWO_24
    ensures Damaged(blocks, crc, length) + [0] == Member(blocks, crc, length)
  {
    var data := Member(blocks, crc, length);
    assert length / TWO_24 == 0;
    assert data[|data| - 1] == 0;
    assert data == data[..|data| - 1] + [data[|data| - 1]];
  }

  /** A damaged trailer reads as 256 times the length plus one byte of the CRC. */
  lemma DamagedTrailer(blocks: Bytes, crc: nat, length: nat)
    requires length < TWO_24
    ensures TrailerLength(Damaged(blocks, crc, length)) == TWO_8 * length + CrcByte(crc)
  {
    var data, b := Damaged(blocks, crc, length), Le32(length);
    LastFour(blocks, crc, length);
    Le32Value(length);
    assert b[3] == 0;
  }

  lemma LastFour(blocks: Bytes, crc: nat, length: nat)
    requires length < TWO_24
    ensures var data, b := Damaged(blocks, crc, length), Le32(length);
            var k := |data|;
            k >= 4 && data[k - 4] == CrcByte(crc) && data[k - 3] == b[0] && data[k - 2] == b[1] && data[k - 1] == b[2]
  {
    assert length % TWO_32 == length;
  }

  /** The damage is noticed iff 255 times the length plus the CRC byte exceeds the header length. */
  lemma DamageNoticedIff(blocks: Bytes, crc: nat, length: nat)
    requires length < TWO_24 && Readable(Damaged(blocks, crc, length))
    ensures var data := Damaged(blocks, crc, length);
            Fires(data, length) <==> 255 * length + CrcByte(crc) > HeaderLength(data)
  {
    DamagedTrailer(blocks, crc, length);
  }

  /** With no flags set every mail that is not empty is repaired, and its trailer is its length again. */
  lemma PlainMailRepaired(blocks: Bytes, crc: nat, length: nat)
    requires 1 <= length < TWO_24 && IsGzip(blocks) && blocks[3] == 0
    ensures var data := Damaged(blocks, crc, length);
            Readable(data) && Fires(data, length) && TrailerLength(data + [0]) == length
  {
    var data := Damaged(blocks, crc, length);
    assert data[3] == blocks[3];
    DamageNoticedIff(blocks, crc, length);
    LostByteIsZero(blocks, crc, length);
    IntactTrailer(blocks, crc, length);
  }

  /** Opening a mail gives the intact data, whether its last zero was lost or not. */
  lemma OpenedIntact(blocks: Bytes, crc: nat, length: nat)
    requires 1 <= length < TWO_24 && IsGzip(blocks) && blocks[3] == 0 && |blocks| < INT_MAX
    ensures var data := Member(blocks, crc, length);
            && Readable(data) && Repaired(data, length) == data
            && Readable(Damaged(blocks, crc, length)) && Repaired(Damaged(blocks, crc, length), length) == data
  {
    var data := Member(blocks, crc, length);
    assert data[0] == blocks[0] && data[1] == blocks[1] && data[3] == blocks[3];
    IntactIff(blocks, crc, length);
    PlainMailRepaired(blocks, crc, length);
    LostByteIsZero(blocks, crc, length);
  }
}

/**
 Fixed values of the CRC: two entries of the first table, the check value of the digits 1 to 9,
 and the residue that every message followed by its own CRC leaves.
 */
module CrcValues {
  import opened LogEntries
  import opened Crc32
  import opened Rpc

  /** Eight single bits, one by one. */
  lemma EightBits(c0: bv32, c1: bv32, c2: bv32, c3: bv32, c4: bv32, c5: bv32, c6: bv32, c7: bv32, c8: bv32)
    requires Bit(c0) == c1 && Bit(c1) == c2 && Bit(c2) == c3 && Bit(c3) == c4
    requires Bit(c4) == c5 && Bit(c5) == c6 && Bit(c6) == c7 && Bit(c7) == c8
    ensures Step(c0) == c8
  {
    hide Bit;
    BitsNone(c0);
    assert Bits(1, c0) == c1;
    assert Bits(2, c0) == c2;
    assert Bits(3, c0) == c3;
    assert Bits(4, c0) == c4;
    assert Bits(5, c0) == c5;
    assert Bits(6, c0) == c6;
    assert Bits(7, c0) == c7;
    assert Bits(8, c0) == c8;
  }

  /** Entries 1 and 0x80 of the first table. */
  lemma TableEntries()
    ensures Table(0, 0x01) == 0x77073096 && Table(0, 0x80) == 0xEDB88320
  {
    EightBits(0x00000001, 0xEDB88320, 0x76DC4190, 0x3B6E20C8, 0x1DB71064, 0x0EDB8832, 0x076DC419, 0xEE0E612C, 0x77073096);
    EightBits(0x00000080, 0x00000040, 0x00000020, 0x00000010, 0x00000008, 0x00000004, 0x00000002, 0x00000001, 0xEDB88320);
  }

  lemma OnesStepped()
    ensures Steps(4, 0xFFFFFFFF) == 0xDEBB20E3
  {
    EightBits(0xFFFFFFFF, 0x92477CDF, 0xA49B3D4F, 0xBFF51D87, 0xB2420DE3, 0xB49985D1, 0xB7F441C8, 0x5BFA20E4, 0x2DFD1072);
    EightBits(0x2DFD1072, 0x16FE8839, 0xE6C7C73C, 0x7363E39E, 0x39B1F1CF, 0xF1607BC7, 0x9508BEC3, 0xA73CDC41, 0xBE26ED00);
    EightBits(0xBE26ED00, 0x5F137680, 0x2F89BB40, 0x17C4DDA0, 0x0BE26ED0, 0x05F13768, 0x02F89BB4, 0x017C4DDA, 0x00BE26ED);
    EightBits(0x00BE26ED, 0xEDE79056, 0x76F3C82B, 0xD6C16735, 0x86D830BA, 0x436C185D, 0xCC0E8F0E, 0x66074787, 0xDEBB20E3);
    hide Step;
    assert Steps(1, 0xFFFFFFFF) == Step(Steps(0, 0xFFFFFFFF)) == 0x2DFD1072;
    assert Steps(2, 0xFFFFFFFF) == 0xBE26ED00;
    assert Steps(3, 0xFFFFFFFF) == 0x00BE26ED;
  }

  lemma XorNot(c: bv32)
    ensures Xor(Not(c), c) == 0xFFFFFFFF
  {
  }

  lemma NotResidue()
    ensures Not(0xDEBB20E3) == 0x2144DF1C
  {
  }

  /** A message followed by its own CRC always has the same CRC, whatever the message and the seed. */
  lemma Residue(m: seq<byte>, prev: bv32)
    ensures Crc(m + PutCrc(Crc(m, prev)), prev) == 0x2144DF1C
  {
    hide Feed, Not, Xor, Word, PutCrc, Steps;
    var crc := Crc(m, prev);
    CrcChains(m, PutCrc(crc), prev);
    FeedWord(Not(crc), PutCrc(crc));
    CrcBack(crc);
    XorNot(crc);
    OnesStepped();
    NotResidue();
  }

  /** Three bytes, each added to the register and stepped. */
  lemma FeedThree(c: bv32, x: bv32, y: bv32, z: bv32, a: byte, b: byte, d: byte, c1: bv32, c2: bv32, c3: bv32)
    requires Xor(c, Widen(a)) == x && Step(x) == c1 && Xor(c1, Widen(b)) == y && Step(y) == c2
    requires Xor(c2, Widen(d)) == z && Step(z) == c3
    ensures Feed(c, [a, b, d]) == c3
  {
    hide Xor, Widen, Step;
    assert [a, b, d][1..] == [b, d] && [b, d][1..] == [d] && [d][1..] == [];
    assert Feed(c2, [d]) == Feed(c3, []);
    assert Feed(c1, [b, d]) == Feed(c2, [d]);
  }

  lemma Digits123()
    ensures Feed(0xFFFFFFFF, [49, 50, 51]) == 0x77B79C2D
  {
    EightBits(0xFFFFFFCE, 0x7FFFFFE7, 0xD2477CD3, 0x849B3D49, 0xAFF51D84, 0x57FA8EC2, 0x2BFD4761, 0xF8462090, 0x7C231048);
    EightBits(0x7C23107A, 0x3E11883D, 0xF2B0473E, 0x7958239F, 0xD11492EF, 0x8532CA57, 0xAF21E60B, 0xBA287025, 0xB0ACBB32);
    EightBits(0xB0ACBB01, 0xB5EEDEA0, 0x5AF76F50, 0x2D7BB7A8, 0x16BDDBD4, 0x0B5EEDEA, 0x05AF76F5, 0xEF6F385A, 0x77B79C2D);
    hide Step;
    FeedThree(0xFFFFFFFF, 0xFFFFFFCE, 0x7C23107A, 0xB0ACBB01, 49, 50, 51, 0x7C231048, 0xB0ACBB32, 0x77B79C2D);
  }

  lemma Digits456()
    ensures Feed(0x77B79C2D, [52, 53, 54]) == 0xF68D2C9E
  {
    EightBits(0x77B79C19, 0xD6634D2C, 0x6B31A696, 0x3598D34B, 0xF774EA85, 0x9602F662, 0x4B017B31, 0xC8383EB8, 0x641C1F5C);
    EightBits(0x641C1F69, 0xDFB68C94, 0x6FDB464A, 0x37EDA325, 0xF64E52B2, 0x7B272959, 0xD02B178C, 0x68158BC6, 0x340AC5E3);
    EightBits(0x340AC5D5, 0xF7BDE1CA, 0x7BDEF0E5, 0xD057FB52, 0x682BFDA9, 0xD9AD7DF4, 0x6CD6BEFA, 0x366B5F7D, 0xF68D2C9E);
    hide Step;
    FeedThree(0x77B79C2D, 0x77B79C19, 0x641C1F69, 0x340AC5D5, 52, 53, 54, 0x641C1F5C, 0x340AC5E3, 0xF68D2C9E);
  }

  lemma Digits789()
    ensures Feed(0xF68D2C9E, [55, 56, 57]) == 0x340BC6D9
  {
    EightBits(0xF68D2CA9, 0x96FE1574, 0x4B7F0ABA, 0x25BF855D, 0xFF67418E, 0x7FB3A0C7, 0xD2615343, 0x84882A81, 0xAFFC9660);
    EightBits(0xAFFC9658, 0x57FE4B2C, 0x2BFF2596, 0x15FF92CB, 0xE7474A45, 0x9E1B2602, 0x4F0D9301, 0xCA3E4AA0, 0x651F2550);
    EightBits(0x651F2569, 0xDF371194, 0x6F9B88CA, 0x37CDC465, 0xF65E6112, 0x7B2F3089, 0xD02F1B64, 0x68178DB2, 0x340BC6D9);
    hide Step;
    FeedThree(0xF68D2C9E, 0xF68D2CA9, 0xAFFC9658, 0x651F2569, 55, 56, 57, 0xAFFC9660, 0x651F2550, 0x340BC6D9);
  }

  /** The digits 1 to 9 in ASCII. */
  const DIGITS: seq<byte> := [49, 50, 51, 52, 53, 54, 55, 56, 57]

  lemma NotCheck()
    ensures Not(0) == 0xFFFFFFFF && Not(0x340BC6D9) == 0xCBF43926
  {
  }

  /** The published check value of this CRC. */
  lemma CheckValue()
    ensures Crc(DIGITS, 0) == 0xCBF43926
  {
    hide Feed, Not;
    Digits123();
    Digits456();
    Digits789();
    NotCheck();
    assert DIGITS == [49, 50, 51] + ([52, 53, 54] + [55, 56, 57]);
    FeedConcat(0xFFFFFFFF, [49, 50, 51], [52, 53, 54] + [55, 56, 57]);
    FeedConcat(0x77B79C2D, [52, 53, 54], [55, 56, 57]);
  }
}

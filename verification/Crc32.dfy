/**
 CRC-32: the reflected one-bit-at-a-time definition, the byte-table form and the
 slicing-by-8 form, with tables defined by their generation rule.

 Word operations are named, and proofs above the word level hide their definitions, so that
 only the few lemmas about single operations reason about bits.
 */
module Crc32 {
  import opened LogEntries

  const POLYNOMIAL: bv32 := 0xEDB88320

  // ----- word operations

  function Xor(a: bv32, b: bv32): bv32 { a ^ b }
  function Not(a: bv32): bv32 { !a }
  function Half(a: bv32): bv32 { a >> 1 }
  function Low(a: bv32): bv32 { a & 1 }
  function Poly(a: bv32): bv32 { a * POLYNOMIAL }
  function Byte(a: bv32): bv32 { a & 0xFF }
  function High(a: bv32): bv32 { a >> 8 }
  function Lift(a: bv32): bv32 { a << 8 }
  function Widen(b: byte): bv32 { b as bv32 }

  // ----- definition

  function Bit(c: bv32): bv32 {
    Xor(Half(c), Poly(Low(c)))
  }

  function Bits(n: nat, c: bv32): bv32 {
    if n == 0 then c else Bit(Bits(n - 1, c))
  }

  /** A byte's worth of bits. */
  function Step(c: bv32): bv32 { Bits(8, c) }

  function Steps(n: nat, c: bv32): bv32 {
    if n == 0 then c else Step(Steps(n - 1, c))
  }

  /** The register after the bytes have been fed, least significant bit first. */
  function Feed(c: bv32, data: seq<byte>): bv32
    decreases |data|
  {
    if data == [] then c else Feed(Step(Xor(c, Widen(data[0]))), data[1..])
  }

  /** CRC of `data`, continuing from the CRC `prev` of what came before. */
  function Crc(data: seq<byte>, prev: bv32): bv32 {
    Not(Feed(Not(prev), data))
  }

  // ----- tables

  /** Table 0 by eight single bits, table k from table k - 1. */
  function Table(k: nat, i: bv32): bv32 {
    if k == 0 then Step(i)
    else Xor(High(Table(k - 1, i)), Step(Byte(Table(k - 1, i))))
  }

  // ----- facts about single words

  lemma XorAssoc(a: bv32, b: bv32, c: bv32)
    ensures Xor(Xor(a, b), c) == Xor(a, Xor(b, c))
  {
  }

  lemma XorComm(a: bv32, b: bv32)
    ensures Xor(a, b) == Xor(b, a)
  {
  }

  lemma XorZero(a: bv32)
    ensures Xor(a, 0) == a && Xor(0, a) == a
  {
  }

  lemma XorSelf(a: bv32)
    ensures Xor(a, a) == 0
  {
  }

  lemma XorEqual(a: bv32, b: bv32)
    requires Xor(a, b) == 0
    ensures a == b
  {
  }

  lemma XorSame(c: bv32, a: bv32, b: bv32)
    requires Xor(c, a) == Xor(c, b)
    ensures a == b
  {
  }

  lemma XorSameRight(c: bv32, a: bv32, b: bv32)
    requires Xor(a, c) == Xor(b, c)
    ensures a == b
  {
  }

  lemma NotNot(a: bv32)
    ensures Not(Not(a)) == a
  {
  }

  lemma NotInjective(a: bv32, b: bv32)
    requires Not(a) == Not(b)
    ensures a == b
  {
  }

  lemma HalfXor(a: bv32, b: bv32)
    ensures Half(Xor(a, b)) == Xor(Half(a), Half(b))
  {
  }

  lemma LowXor(a: bv32, b: bv32)
    ensures Low(Xor(a, b)) == Xor(Low(a), Low(b))
  {
  }

  lemma LowIsBit(a: bv32)
    ensures Low(a) == 0 || Low(a) == 1
  {
  }

  lemma PolyBit()
    ensures Poly(0) == 0 && Poly(1) == POLYNOMIAL
  {
  }

  lemma PolyXor(x: bv32, y: bv32)
    requires (x == 0 || x == 1) && (y == 0 || y == 1)
    ensures Poly(Xor(x, y)) == Xor(Poly(x), Poly(y))
  {
    hide Poly;
    PolyBit();
  }

  lemma XorSwap(a: bv32, b: bv32, c: bv32, d: bv32)
    ensures Xor(Xor(a, b), Xor(c, d)) == Xor(Xor(a, c), Xor(b, d))
  {
    hide Xor;
    XorAssoc(a, b, Xor(c, d));
    XorAssoc(b, c, d);
    XorComm(b, c);
    XorAssoc(c, b, d);
    XorAssoc(a, c, Xor(b, d));
  }

  // ----- linearity over exclusive or

  lemma BitLinear(a: bv32, b: bv32)
    ensures Bit(Xor(a, b)) == Xor(Bit(a), Bit(b))
  {
    hide Xor, Half, Low, Poly;
    HalfXor(a, b);
    LowXor(a, b);
    LowIsBit(a);
    LowIsBit(b);
    PolyXor(Low(a), Low(b));
    XorSwap(Half(a), Half(b), Poly(Low(a)), Poly(Low(b)));
  }

  lemma {:induction false} BitsLinear(n: nat, a: bv32, b: bv32)
    ensures Bits(n, Xor(a, b)) == Xor(Bits(n, a), Bits(n, b))
  {
    hide Bit, Xor;
    if n == 0 {
    } else {
      BitsLinear(n - 1, a, b);
      BitLinear(Bits(n - 1, a), Bits(n - 1, b));
    }
  }

  lemma StepLinear(a: bv32, b: bv32)
    ensures Step(Xor(a, b)) == Xor(Step(a), Step(b))
  {
    hide Bits, Xor;
    BitsLinear(8, a, b);
  }

  lemma {:induction false} StepsLinear(n: nat, a: bv32, b: bv32)
    ensures Steps(n, Xor(a, b)) == Xor(Steps(n, a), Steps(n, b))
  {
    hide Step, Xor;
    if n == 0 {
    } else {
      StepsLinear(n - 1, a, b);
      StepLinear(Steps(n - 1, a), Steps(n - 1, b));
    }
  }

  lemma {:induction false} StepsZero(n: nat)
    ensures Steps(n, 0) == 0
  {
    hide Xor, Steps;
    StepsLinear(n, 0, 0);
    XorZero(0);
    XorSelf(Steps(n, 0));
  }

  lemma {:induction false} StepsAdd(m: nat, n: nat, c: bv32)
    ensures Steps(m, Steps(n, c)) == Steps(m + n, c)
  {
    hide Step;
    if m == 0 {
    } else {
      StepsAdd(m - 1, n, c);
    }
  }

  // ----- a clear low byte is only shifted out

  lemma EvenBit(c: bv32)
    requires Low(c) == 0
    ensures Bit(c) == Half(c)
  {
    hide Half, Low, Poly, Xor;
    PolyBit();
    XorZero(Half(c));
  }

  /** If the bits in `mask` are clear, so are those one place lower after a shift. */
  lemma ClearHalf(c: bv32, mask: bv32)
    requires c & mask == 0 && mask & 1 == 1
    ensures Low(c) == 0 && Half(c) & (mask >> 1) == 0
  {
  }

  lemma EightHalves(c: bv32)
    ensures Half(Half(Half(Half(Half(Half(Half(Half(c)))))))) == High(c)
  {
  }

  lemma EvenStep(n: nat, c: bv32, mask: bv32, m: bv32)
    requires Bits(n, c) == m && m & mask == 0 && mask & 1 == 1
    ensures Bits(n + 1, c) == Half(m) && Half(m) & (mask >> 1) == 0
  {
    hide Bit, Half, Low;
    ClearHalf(m, mask);
    EvenBit(m);
  }

  lemma StepShifts(c: bv32)
    requires Byte(c) == 0
    ensures Step(c) == High(c)
  {
    hide Bits, Bit, Half, High;
    assert Bits(0, c) == c by { BitsNone(c); }
    var c1 := Half(c);
    var c2 := Half(c1);
    var c3 := Half(c2);
    var c4 := Half(c3);
    var c5 := Half(c4);
    var c6 := Half(c5);
    var c7 := Half(c6);
    EvenStep(0, c, 0xFF, c);
    EvenStep(1, c, 0x7F, c1);
    EvenStep(2, c, 0x3F, c2);
    EvenStep(3, c, 0x1F, c3);
    EvenStep(4, c, 0xF, c4);
    EvenStep(5, c, 7, c5);
    EvenStep(6, c, 3, c6);
    EvenStep(7, c, 1, c7);
    EightHalves(c);
  }

  lemma BitsNone(c: bv32)
    ensures Bits(0, c) == c
  {
  }

  lemma SplitLow(c: bv32) returns (top: bv32)
    ensures c == Xor(top, Byte(c)) && Byte(top) == 0 && High(top) == High(c)
  {
    top := c & 0xFFFFFF00;
  }

  /** Shift by a byte and add what the lost byte contributes. */
  lemma StepByByte(c: bv32)
    ensures Step(c) == Xor(High(c), Step(Byte(c)))
  {
    hide Step, Xor, High, Byte;
    var top := SplitLow(c);
    StepLinear(top, Byte(c));
    StepShifts(top);
  }

  /** Table k answers what k + 1 byte steps make of a single byte. */
  lemma {:induction false} TableIsSteps(k: nat, i: bv32)
    ensures Table(k, i) == Steps(k + 1, i)
  {
    hide Step, Xor, High, Byte;
    if k == 0 {
      assert Steps(1, i) == Step(Steps(0, i)) == Step(i);
    } else {
      TableIsSteps(k - 1, i);
      StepByByte(Table(k - 1, i));
    }
  }

  // ----- one byte through table 0

  lemma WidenFits(b: byte)
    ensures High(Widen(b)) == 0 && Byte(Widen(b)) == Widen(b)
  {
  }

  lemma HighXor(a: bv32, b: bv32)
    ensures High(Xor(a, b)) == Xor(High(a), High(b))
  {
  }

  lemma ByteXor(a: bv32, b: bv32)
    ensures Byte(Xor(a, b)) == Xor(Byte(a), Byte(b))
  {
  }

  lemma ByteStep(c: bv32, b: byte)
    ensures Xor(High(c), Table(0, Xor(Byte(c), Widen(b)))) == Step(Xor(c, Widen(b)))
  {
    hide Step, Xor, High, Byte, Widen;
    WidenFits(b);
    HighXor(c, Widen(b));
    ByteXor(c, Widen(b));
    XorZero(High(c));
    StepByByte(Xor(c, Widen(b)));
  }

  lemma {:induction false} FeedConcat(c: bv32, a: seq<byte>, b: seq<byte>)
    ensures Feed(c, a + b) == Feed(Feed(c, a), b)
    decreases |a|
  {
    hide Step, Xor, Widen;
    if a == [] {
      assert a + b == b;
    } else {
      assert (a + b)[1..] == a[1..] + b;
      FeedConcat(Step(Xor(c, Widen(a[0]))), a[1..], b);
    }
  }

  /** One byte at a time. */
  method Crc32By1(data: seq<byte>, prev: bv32) returns (crc: bv32)
    ensures crc == Crc(data, prev)
  {
    hide Step, Xor, Widen, High, Byte, Not, Table;
    crc := Not(prev);
    var i := 0;
    while i < |data|
      invariant 0 <= i <= |data|
      invariant Feed(crc, data[i..]) == Feed(Not(prev), data)
    {
      ByteStep(crc, data[i]);
      crc := Xor(High(crc), Table(0, Xor(Byte(crc), Widen(data[i]))));
      assert data[i..][1..] == data[i + 1..];
      i := i + 1;
    }
    crc := Not(crc);
  }

  // ----- up to four bytes as one word

  /** Little-endian value of a short byte string. */
  function Word(a: seq<byte>): bv32 {
    if a == [] then 0 else Xor(Widen(a[0]), Lift(Word(a[1..])))
  }

  function Mask(n: nat): bv32 {
    if n == 0 then 0xFFFFFFFF else if n == 1 then 0xFFFFFF00 else if n == 2 then 0xFFFF0000 else 0xFF000000
  }

  lemma LiftFits(n: nat, b: byte, w: bv32)
    requires n <= 2 && w & Mask(n) == 0
    ensures Xor(Widen(b), Lift(w)) & Mask(n + 1) == 0
  {
  }

  lemma {:induction false} WordFits(a: seq<byte>)
    requires |a| <= 3
    ensures Word(a) & Mask(|a|) == 0
  {
    hide Xor, Widen, Lift, Mask;
    if a == [] {
      assert (0 as bv32) & Mask(0) == 0;
    } else {
      WordFits(a[1..]);
      LiftFits(|a| - 1, a[0], Word(a[1..]));
    }
  }

  lemma MaskWeakens(n: nat, w: bv32)
    requires n <= 3 && w & Mask(n) == 0
    ensures w & 0xFF000000 == 0
  {
  }

  lemma LiftBack(w: bv32)
    requires w & 0xFF000000 == 0
    ensures Byte(Lift(w)) == 0 && High(Lift(w)) == w
  {
  }

  lemma ShortWord(a: seq<byte>)
    requires |a| <= 3
    ensures Byte(Lift(Word(a))) == 0 && High(Lift(Word(a))) == Word(a)
  {
    WordFits(a);
    hide Word, Mask, Byte, High, Lift;
    MaskWeakens(|a|, Word(a));
    LiftBack(Word(a));
  }

  /** Feeding up to four bytes is adding them as one word and then stepping. */
  lemma {:induction false} FeedWord(c: bv32, a: seq<byte>)
    requires |a| <= 4
    ensures Feed(c, a) == Steps(|a|, Xor(c, Word(a)))
    decreases |a|
  {
    hide Step, Xor, Widen, Lift, High, Byte;
    if a == [] {
      XorZero(c);
    } else {
      var (x, w) := (Xor(c, Widen(a[0])), Word(a[1..]));
      FeedWord(Step(x), a[1..]);
      ShortWord(a[1..]);
      StepShifts(Lift(w));
      StepLinear(x, Lift(w));
      XorAssoc(c, Widen(a[0]), Lift(w));
      StepsAdd(|a| - 1, 1, Xor(x, Lift(w)));
      assert Steps(1, Xor(x, Lift(w))) == Step(Steps(0, Xor(x, Lift(w)))) == Step(Xor(x, Lift(w)));
    }
  }

  // ----- one word through four tables

  lemma {:induction false} StepsSplit(n: nat, x: bv32)
    ensures Steps(n + 1, x) == Xor(Steps(n, High(x)), Steps(n + 1, Byte(x)))
  {
    hide Step, Xor, High, Byte;
    StepsAdd(n, 1, x);
    StepsAdd(n, 1, Byte(x));
    assert Steps(1, x) == Step(Steps(0, x)) && Steps(1, Byte(x)) == Step(Steps(0, Byte(x)));
    StepByByte(x);
    StepsLinear(n, High(x), Step(Byte(x)));
  }

  lemma FourHighs(x: bv32)
    ensures High(High(High(High(x)))) == 0
  {
  }

  /** The four table look-ups of one word, with tables n + 3 down to n. */
  function Slice(n: nat, x: bv32): bv32 {
    Xor(Xor(Xor(Table(n + 3, Byte(x)), Table(n + 2, Byte(High(x)))), Table(n + 1, Byte(High(High(x))))),
        Table(n, Byte(High(High(High(x))))))
  }

  lemma SliceIsSteps(n: nat, x: bv32)
    ensures Slice(n, x) == Steps(n + 4, x)
  {
    hide Step, Steps, Xor, High, Byte, Table;
    var x1 := High(x);
    var x2 := High(x1);
    var x3 := High(x2);
    TableIsSteps(n + 3, Byte(x));
    TableIsSteps(n + 2, Byte(x1));
    TableIsSteps(n + 1, Byte(x2));
    TableIsSteps(n, Byte(x3));
    var (a, b, c, d) := (Table(n + 3, Byte(x)), Table(n + 2, Byte(x1)), Table(n + 1, Byte(x2)), Table(n, Byte(x3)));
    StepsSplit(n, x3);
    FourHighs(x);
    StepsZero(n);
    XorZero(d);
    assert Steps(n + 1, x3) == d;
    StepsSplit(n + 1, x2);
    assert Steps(n + 2, x2) == Xor(d, c);
    StepsSplit(n + 2, x1);
    assert Steps(n + 3, x1) == Xor(Xor(d, c), b);
    StepsSplit(n + 3, x);
    assert Steps(n + 4, x) == Xor(Xor(Xor(d, c), b), a);
    Turn(a, b, c, d);
  }

  lemma Turn(a: bv32, b: bv32, c: bv32, d: bv32)
    ensures Xor(Xor(Xor(d, c), b), a) == Xor(Xor(Xor(a, b), c), d)
  {
    hide Xor;
    XorComm(Xor(Xor(d, c), b), a);
    XorComm(Xor(d, c), b);
    XorComm(d, c);
    XorAssoc(a, b, Xor(c, d));
    XorAssoc(Xor(a, b), c, d);
  }

  lemma SlicesAreFeed(c: bv32, data: seq<byte>)
    requires |data| == 8
    ensures Xor(Slice(4, Xor(Word(data[..4]), c)), Slice(0, Word(data[4..]))) == Feed(c, data)
  {
    hide Step, Steps, Xor, Word, Slice, Feed;
    var (one, two) := (Word(data[..4]), Word(data[4..]));
    assert data == data[..4] + data[4..];
    FeedConcat(c, data[..4], data[4..]);
    FeedWord(c, data[..4]);
    XorComm(c, one);
    var c1 := Steps(4, Xor(one, c));
    FeedWord(c1, data[4..]);
    StepsLinear(4, c1, two);
    StepsAdd(4, 4, Xor(one, c));
    SliceIsSteps(4, Xor(one, c));
    SliceIsSteps(0, two);
  }

  // ----- the loop over eight bytes

  /** A 32-bit load at `i` on a little-endian machine. */
  function Load(data: seq<byte>, i: nat): bv32
    requires i + 4 <= |data|
  {
    Assemble(data[i], data[i + 1], data[i + 2], data[i + 3])
  }

  function Assemble(a: byte, b: byte, c: byte, d: byte): bv32 {
    Widen(a) | (Widen(b) << 8) | (Widen(c) << 16) | (Widen(d) << 24)
  }

  lemma LoadBits(a: byte, b: byte, c: byte, d: byte)
    ensures Assemble(a, b, c, d) ==
            Xor(Widen(a), Lift(Xor(Widen(b), Lift(Xor(Widen(c), Lift(Xor(Widen(d), Lift(0))))))))
  {
  }

  lemma WordStep(a: seq<byte>)
    ensures Word(a) == if a == [] then 0 else Xor(Widen(a[0]), Lift(Word(a[1..])))
  {
  }

  lemma LoadIsWord(data: seq<byte>, i: nat)
    requires i + 4 <= |data|
    ensures Load(data, i) == Word(data[i..i + 4])
  {
    hide Xor, Lift, Widen, Word, Assemble;
    var a := data[i..i + 4];
    LoadBits(a[0], a[1], a[2], a[3]);
    WordStep(a);
    WordStep(a[1..]);
    WordStep(a[2..]);
    WordStep(a[3..]);
    assert a[1..][1..] == a[2..] && a[2..][1..] == a[3..] && a[3..][1..] == [];
    WordStep([]);
  }

  /** Eight bytes at a time, the rest one by one. */
  method Crc32By8(data: seq<byte>, prev: bv32) returns (crc: bv32)
    ensures crc == Crc(data, prev)
  {
    hide Step, Xor, Widen, High, Byte, Not, Table, Slice, Load, Word, Feed;
    crc := Not(prev);
    var i := 0;
    assert data[0..] == data;
    while |data| - i >= 8
      invariant 0 <= i <= |data|
      invariant Feed(crc, data[i..]) == Feed(Not(prev), data)
    {
      var one := Xor(Load(data, i), crc);
      var two := Load(data, i + 4);
      EightBytes(crc, data, i);
      crc := Xor(Slice(4, one), Slice(0, two));
      i := i + 8;
    }
    while i < |data|
      invariant 0 <= i <= |data|
      invariant Feed(crc, data[i..]) == Feed(Not(prev), data)
    {
      OneByte(crc, data, i);
      crc := Xor(High(crc), Table(0, Xor(Byte(crc), Widen(data[i]))));
      i := i + 1;
    }
    FeedNone(crc, data[i..]);
    crc := Not(crc);
  }

  lemma EightBytes(c: bv32, data: seq<byte>, i: nat)
    requires i + 8 <= |data|
    ensures Feed(Xor(Slice(4, Xor(Load(data, i), c)), Slice(0, Load(data, i + 4))), data[i + 8..]) == Feed(c, data[i..])
  {
    hide Xor, Slice, Load, Word, Feed;
    var block := data[i..i + 8];
    LoadIsWord(data, i);
    LoadIsWord(data, i + 4);
    assert block[..4] == data[i..i + 4] && block[4..] == data[i + 4..i + 4 + 4];
    SlicesAreFeed(c, block);
    assert data[i..] == block + data[i + 8..];
    FeedConcat(c, block, data[i + 8..]);
  }

  lemma OneByte(c: bv32, data: seq<byte>, i: nat)
    requires i < |data|
    ensures Feed(Xor(High(c), Table(0, Xor(Byte(c), Widen(data[i])))), data[i + 1..]) == Feed(c, data[i..])
  {
    hide Step, Xor, Widen, High, Byte, Table;
    ByteStep(c, data[i]);
    assert data[i..][1..] == data[i + 1..];
  }

  lemma FeedNone(c: bv32, data: seq<byte>)
    requires data == []
    ensures Feed(c, data) == c
  {
  }

  // ----- chaining

  /** The CRC of a concatenation is that of the second part seeded with that of the first. */
  lemma CrcChains(a: seq<byte>, b: seq<byte>, prev: bv32)
    ensures Crc(a + b, prev) == Crc(b, Crc(a, prev))
  {
    hide Feed, Not;
    FeedConcat(Not(prev), a, b);
    NotNot(Feed(Not(prev), a));
  }

  // ----- detection

  lemma BitKernel(c: bv32)
    requires Bit(c) == 0
    ensures c == 0
  {
  }

  lemma BitInjective(a: bv32, b: bv32)
    requires Bit(a) == Bit(b)
    ensures a == b
  {
    hide Bit, Xor;
    BitLinear(a, b);
    XorSelf(Bit(a));
    BitKernel(Xor(a, b));
    XorEqual(a, b);
  }

  lemma {:induction false} BitsInjective(n: nat, a: bv32, b: bv32)
    requires Bits(n, a) == Bits(n, b)
    ensures a == b
  {
    hide Bit;
    if n == 0 {
    } else {
      BitInjective(Bits(n - 1, a), Bits(n - 1, b));
      BitsInjective(n - 1, a, b);
    }
  }

  lemma {:induction false} StepsInjective(n: nat, a: bv32, b: bv32)
    requires Steps(n, a) == Steps(n, b)
    ensures a == b
  {
    hide Bits;
    if n == 0 {
    } else {
      BitsInjective(8, Steps(n - 1, a), Steps(n - 1, b));
      StepsInjective(n - 1, a, b);
    }
  }

  /** What is fed later never hides a difference. */
  lemma {:induction false} FeedInjective(a: bv32, b: bv32, data: seq<byte>)
    requires Feed(a, data) == Feed(b, data)
    ensures a == b
    decreases |data|
  {
    hide Bits, Xor, Widen;
    if data == [] {
    } else {
      var w := Widen(data[0]);
      FeedInjective(Step(Xor(a, w)), Step(Xor(b, w)), data[1..]);
      BitsInjective(8, Xor(a, w), Xor(b, w));
      XorSameRight(w, a, b);
    }
  }

  lemma WidenInjective(a: byte, b: byte)
    requires Widen(a) == Widen(b)
    ensures a == b
  {
  }

  lemma {:induction false} WordInjective(a: seq<byte>, b: seq<byte>)
    requires |a| == |b| <= 4 && Word(a) == Word(b)
    ensures a == b
    decreases |a|
  {
    hide Xor, Widen, Lift, Byte, High;
    if a == [] {
    } else {
      WordParts(a);
      WordParts(b);
      WidenInjective(a[0], b[0]);
      WordInjective(a[1..], b[1..]);
      assert a == [a[0]] + a[1..] && b == [b[0]] + b[1..];
    }
  }

  lemma WordParts(a: seq<byte>)
    requires 1 <= |a| <= 4
    ensures Byte(Word(a)) == Widen(a[0]) && High(Word(a)) == Word(a[1..])
  {
    hide Xor, Widen, Lift, Byte, High;
    var w := Lift(Word(a[1..]));
    ShortWord(a[1..]);
    WidenFits(a[0]);
    ByteXor(Widen(a[0]), w);
    HighXor(Widen(a[0]), w);
    XorZero(Widen(a[0]));
    XorZero(Word(a[1..]));
  }

  /** Messages that differ only inside four consecutive bytes have different CRCs, whatever the seed. */
  lemma BurstDetected(before: seq<byte>, a: seq<byte>, b: seq<byte>, after: seq<byte>, prev: bv32)
    requires |a| == |b| <= 4 && a != b
    ensures Crc(before + a + after, prev) != Crc(before + b + after, prev)
  {
    hide Feed, Word, Xor, Not, Steps;
    var c := Feed(Not(prev), before);
    FeedConcat(Not(prev), before + a, after);
    FeedConcat(Not(prev), before + b, after);
    FeedConcat(Not(prev), before, a);
    FeedConcat(Not(prev), before, b);
    if Crc(before + a + after, prev) == Crc(before + b + after, prev) {
      NotInjective(Feed(Feed(c, a), after), Feed(Feed(c, b), after));
      FeedInjective(Feed(c, a), Feed(c, b), after);
      FeedWord(c, a);
      FeedWord(c, b);
      StepsInjective(|a|, Xor(c, Word(a)), Xor(c, Word(b)));
      XorSame(c, Word(a), Word(b));
      WordInjective(a, b);
    }
  }
}

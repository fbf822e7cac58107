/** `_crc32c`, the checksum over secret payloads: the Castagnoli polynomial of section 12.1 of
    RFC 3720, one bit at a time, and the integrity check that rests on it. */
module Crc32c {
  import opened Outcomes

  const POLYNOMIAL: bv32 := 0x82F6_3B78
  const ONES: bv32 := 0xFFFF_FFFF

  // --- Bit operations, named so that proofs can treat them as their laws ---

  function Xor(a: bv32, b: bv32): bv32 { a ^ b }

  function Half(a: bv32): bv32 { a >> 1 }

  predicate Odd(a: bv32) { a & 1 != 0 }

  predicate High(a: bv32) { a & 0x8000_0000 != 0 }

  function Word(b: bv8): bv32 { b as bv32 }

  /** The word read backwards: bits, pairs, nibbles, bytes and halves change places. */
  function Backwards(x: bv32): bv32 {
    var a := ((x >> 1) & 0x5555_5555) | ((x & 0x5555_5555) << 1);
    var b := ((a >> 2) & 0x3333_3333) | ((a & 0x3333_3333) << 2);
    var c := ((b >> 4) & 0x0F0F_0F0F) | ((b & 0x0F0F_0F0F) << 4);
    var d := ((c >> 8) & 0x00FF_00FF) | ((c & 0x00FF_00FF) << 8);
    (d >> 16) | (d << 16)
  }

  /** The constant is the Castagnoli polynomial 0x11EDC6F41 with its bits in reverse. */
  lemma PolynomialIsCastagnoli()
    ensures Backwards(0x1EDC_6F41) == POLYNOMIAL
  {
  }

  // --- The checksum ---

  /** One turn of the inner loop. */
  function Shift(crc: bv32): bv32 {
    Xor(Half(crc), if Odd(crc) then POLYNOMIAL else 0)
  }

  function Turns(crc: bv32, k: nat): bv32 {
    if k == 0 then crc else Shift(Turns(crc, k - 1))
  }

  function Absorb(crc: bv32, data: seq<bv8>): bv32
    decreases |data|
  {
    if data == [] then crc else Absorb(Turns(Xor(crc, Word(data[0])), 8), data[1..])
  }

  function Crc(data: seq<bv8>): bv32 {
    Xor(Absorb(ONES, data), ONES)
  }

  method Checksum(data: seq<bv8>) returns (crc: bv32)
    ensures crc == Crc(data)
  {
    hide Xor, Half, Odd, Word;
    crc := ONES;
    for i := 0 to |data|
      invariant Absorb(crc, data[i..]) == Absorb(ONES, data)
    {
      assert data[i..][0] == data[i] && data[i..][1..] == data[i + 1..];
      crc := Xor(crc, Word(data[i]));
      ghost var before := crc;
      for k := 0 to 8
        invariant Turns(before, k) == crc
      {
        crc := Xor(Half(crc), if Odd(crc) then POLYNOMIAL else 0);
      }
    }
    crc := Xor(crc, ONES);
  }

  function EightShifts(x: bv32): bv32 {
    Shift(Shift(Shift(Shift(Shift(Shift(Shift(Shift(x))))))))
  }

  lemma EightTurns(x: bv32)
    ensures Turns(x, 8) == EightShifts(x)
  {
    hide Shift;
    assert Turns(x, 1) == Shift(Turns(x, 0)) && Turns(x, 2) == Shift(Turns(x, 1));
    assert Turns(x, 3) == Shift(Turns(x, 2)) && Turns(x, 4) == Shift(Turns(x, 3));
    assert Turns(x, 5) == Shift(Turns(x, 4)) && Turns(x, 6) == Shift(Turns(x, 5));
    assert Turns(x, 7) == Shift(Turns(x, 6)) && Turns(x, 8) == Shift(Turns(x, 7));
  }

  lemma AbsorbAt(crc: bv32, data: seq<bv8>, i: nat, b: bv8, next: bv32)
    requires i < |data| && data[i] == b && next == EightShifts(Xor(crc, Word(b)))
    ensures Absorb(crc, data[i..]) == Absorb(next, data[i + 1..])
  {
    hide EightShifts, Xor, Word;
    EightTurns(Xor(crc, Word(b)));
    assert data[i..][0] == data[i] && data[i..][1..] == data[i + 1..];
  }

  lemma CheckTurns0()
    ensures EightShifts(Xor(ONES, Word(0x31))) == 0x6F0A_661C
    ensures EightShifts(Xor(0x6F0A_661C, Word(0x32))) == 0x8CAA_3B9F
    ensures EightShifts(Xor(0x8CAA_3B9F, Word(0x33))) == 0xEF84_D04D
  {
  }

  lemma CheckTurns1()
    ensures EightShifts(Xor(0xEF84_D04D, Word(0x34))) == 0x09C5_0B11
    ensures EightShifts(Xor(0x09C5_0B11, Word(0x35))) == 0xE72E_DCCA
    ensures EightShifts(Xor(0xE72E_DCCA, Word(0x36))) == 0xBECA_8E79
  {
  }

  lemma CheckTurns2()
    ensures EightShifts(Xor(0xBECA_8E79, Word(0x37))) == 0xEDBD_6815
    ensures EightShifts(Xor(0xEDBD_6815, Word(0x38))) == 0x9F78_7F65
    ensures EightShifts(Xor(0x9F78_7F65, Word(0x39))) == 0x1CF9_6D7C
  {
  }

  lemma AbsorbNothing(crc: bv32, data: seq<bv8>)
    requires data == []
    ensures Absorb(crc, data) == crc
  {
  }

  lemma CheckThird0(data: seq<bv8>)
    requires |data| == 9 && data[0] == 0x31 && data[1] == 0x32 && data[2] == 0x33
    ensures Absorb(ONES, data[0..]) == Absorb(0xEF84_D04D, data[3..])
  {
    hide EightShifts, Xor, Word, Absorb;
    CheckTurns0();
    AbsorbAt(ONES, data, 0, 0x31, 0x6F0A_661C);
    AbsorbAt(0x6F0A_661C, data, 1, 0x32, 0x8CAA_3B9F);
    AbsorbAt(0x8CAA_3B9F, data, 2, 0x33, 0xEF84_D04D);
  }

  lemma CheckThird1(data: seq<bv8>)
    requires |data| == 9 && data[3] == 0x34 && data[4] == 0x35 && data[5] == 0x36
    ensures Absorb(0xEF84_D04D, data[3..]) == Absorb(0xBECA_8E79, data[6..])
  {
    hide EightShifts, Xor, Word, Absorb;
    CheckTurns1();
    AbsorbAt(0xEF84_D04D, data, 3, 0x34, 0x09C5_0B11);
    AbsorbAt(0x09C5_0B11, data, 4, 0x35, 0xE72E_DCCA);
    AbsorbAt(0xE72E_DCCA, data, 5, 0x36, 0xBECA_8E79);
  }

  lemma CheckThird2(data: seq<bv8>)
    requires |data| == 9 && data[6] == 0x37 && data[7] == 0x38 && data[8] == 0x39
    ensures Absorb(0xBECA_8E79, data[6..]) == Absorb(0x1CF9_6D7C, data[9..])
  {
    hide EightShifts, Xor, Word, Absorb;
    CheckTurns2();
    AbsorbAt(0xBECA_8E79, data, 6, 0x37, 0xEDBD_6815);
    AbsorbAt(0xEDBD_6815, data, 7, 0x38, 0x9F78_7F65);
    AbsorbAt(0x9F78_7F65, data, 8, 0x39, 0x1CF9_6D7C);
  }

  lemma CheckAbsorbed(data: seq<bv8>)
    requires data == [0x31, 0x32, 0x33, 0x34, 0x35, 0x36, 0x37, 0x38, 0x39]
    ensures Absorb(ONES, data) == 0x1CF9_6D7C
  {
    hide Absorb;
    CheckThird0(data);
    CheckThird1(data);
    CheckThird2(data);
    AbsorbNothing(0x1CF9_6D7C, data[9..]);
    assert data[0..] == data;
  }

  lemma CheckEnds()
    ensures (0x1CF9_6D7C as bv32) ^ ONES == 0xE306_9283 && ONES ^ ONES == 0
  {
  }

  /** The published check value: that of the nine digits "123456789". */
  lemma {:induction false} CheckValue()
    ensures Crc([0x31, 0x32, 0x33, 0x34, 0x35, 0x36, 0x37, 0x38, 0x39]) == 0xE306_9283
    ensures Crc([]) == 0
  {
    hide Absorb;
    CheckAbsorbed([0x31, 0x32, 0x33, 0x34, 0x35, 0x36, 0x37, 0x38, 0x39]);
    AbsorbNothing(ONES, []);
    CheckEnds();
  }

  // --- Laws of bits, first on the bare operators ---

  lemma CancelBits(a: bv32, b: bv32)
    ensures (a ^ b) ^ b == a
  {
  }

  lemma AssocBits(a: bv32, b: bv32, c: bv32)
    ensures (a ^ b) ^ c == a ^ (b ^ c)
  {
  }

  lemma HalfBits(a: bv32, b: bv32)
    ensures (a ^ b) >> 1 == (a >> 1) ^ (b >> 1)
  {
  }

  lemma OddBits(a: bv32, b: bv32)
    ensures (a ^ b) & 1 != 0 <==> (a & 1 != 0) != (b & 1 != 0)
  {
  }

  lemma HighBits(a: bv32)
    ensures (a >> 1) & 0x8000_0000 == 0 && ((a >> 1) ^ 0x82F6_3B78) & 0x8000_0000 != 0
  {
  }

  lemma SameBits(a: bv32, b: bv32)
    requires a >> 1 == b >> 1 && (a & 1 != 0 <==> b & 1 != 0)
    ensures a == b
  {
  }

  lemma DoubleBits(a: bv32)
    ensures a & 0x8000_0000 == 0 ==> (a << 1) >> 1 == a && (a << 1) & 1 == 0
  {
  }

  lemma DoubleOneBits(a: bv32)
    ensures a & 0x8000_0000 != 0 ==> (((a ^ 0x82F6_3B78) << 1) | 1) >> 1 == a ^ 0x82F6_3B78
    ensures (((a ^ 0x82F6_3B78) << 1) | 1) & 1 != 0
  {
  }

  lemma {:induction false} Cancel(a: bv32, b: bv32)
    ensures Xor(Xor(a, b), b) == a
  {
    CancelBits(a, b);
  }

  lemma DifferenceBits(a: bv32, b: bv32)
    ensures a ^ b == 0 ==> a == b
    ensures a ^ a == 0
  {
  }

  lemma {:induction false} Difference(a: bv32, b: bv32)
    ensures Xor(a, b) == 0 <==> a == b
  {
    DifferenceBits(a, b);
  }

  lemma XorZero(a: bv32)
    ensures Xor(a, 0) == a && Xor(0, a) == a
  {
  }

  lemma {:induction false} Assoc(a: bv32, b: bv32, c: bv32)
    ensures Xor(Xor(a, b), c) == Xor(a, Xor(b, c))
  {
    AssocBits(a, b, c);
  }

  lemma Comm(a: bv32, b: bv32)
    ensures Xor(a, b) == Xor(b, a)
  {
  }

  lemma Swap(a: bv32, b: bv32, c: bv32, d: bv32)
    ensures Xor(Xor(a, b), Xor(c, d)) == Xor(Xor(a, c), Xor(b, d))
  {
    hide Xor;
    Assoc(a, b, Xor(c, d));
    Assoc(b, c, d);
    Comm(b, c);
    Assoc(c, b, d);
    Assoc(a, c, Xor(b, d));
  }

  lemma {:induction false} HalfXor(a: bv32, b: bv32)
    ensures Half(Xor(a, b)) == Xor(Half(a), Half(b))
  {
    HalfBits(a, b);
  }

  lemma {:induction false} OddXor(a: bv32, b: bv32)
    ensures Odd(Xor(a, b)) <==> Odd(a) != Odd(b)
  {
    OddBits(a, b);
  }

  lemma {:induction false} HalfAndHigh(a: bv32)
    ensures !High(Half(a)) && High(Xor(Half(a), POLYNOMIAL))
  {
    HighBits(a);
  }

  /** The lowest bit and the rest determine the word. */
  lemma {:induction false} HalfAndOdd(a: bv32, b: bv32)
    requires Half(a) == Half(b) && (Odd(a) <==> Odd(b))
    ensures a == b
  {
    SameBits(a, b);
  }

  // --- A turn is a linear bijection on 32-bit states ---

  lemma {:induction false} ShiftLinear(a: bv32, b: bv32)
    ensures Shift(Xor(a, b)) == Xor(Shift(a), Shift(b))
  {
    hide Xor, Half, Odd;
    HalfXor(a, b);
    OddXor(a, b);
    Swap(Half(a), if Odd(a) then POLYNOMIAL else 0, Half(b), if Odd(b) then POLYNOMIAL else 0);
    XorZero(POLYNOMIAL);
    XorZero(0);
    Difference(POLYNOMIAL, POLYNOMIAL);
  }

  /** The turn undone: the polynomial's top bit tells which way it went. */
  function Unshift(crc: bv32): bv32 {
    if crc & 0x8000_0000 != 0 then ((crc ^ POLYNOMIAL) << 1) | 1 else crc << 1
  }

  /** A turn loses nothing. */
  lemma {:induction false} ShiftInjective(a: bv32, b: bv32)
    requires Shift(a) == Shift(b)
    ensures a == b
  {
    hide Xor, Half, Odd, High;
    HalfAndHigh(a);
    HalfAndHigh(b);
    XorZero(Half(a));
    XorZero(Half(b));
    Cancel(Half(a), POLYNOMIAL);
    Cancel(Half(b), POLYNOMIAL);
    HalfAndOdd(a, b);
  }

  lemma UnshiftIs(a: bv32)
    ensures High(a) ==> Odd(Unshift(a)) && Half(Unshift(a)) == Xor(a, POLYNOMIAL)
    ensures !High(a) ==> !Odd(Unshift(a)) && Half(Unshift(a)) == a
  {
    DoubleBits(a);
    DoubleOneBits(a);
  }

  /** And every state is reached. */
  lemma {:induction false} ShiftOnto(a: bv32)
    ensures Shift(Unshift(a)) == a
  {
    hide Xor, Half, Odd, High, Unshift;
    UnshiftIs(a);
    Cancel(a, POLYNOMIAL);
    XorZero(a);
  }

  lemma {:induction false} TurnsLinear(a: bv32, b: bv32, k: nat)
    ensures Turns(Xor(a, b), k) == Xor(Turns(a, k), Turns(b, k))
  {
    hide Shift, Xor;
    if k > 0 {
      TurnsLinear(a, b, k - 1);
      ShiftLinear(Turns(a, k - 1), Turns(b, k - 1));
    }
  }

  lemma {:induction false} TurnsInjective(a: bv32, b: bv32, k: nat)
    requires Turns(a, k) == Turns(b, k)
    ensures a == b
  {
    hide Shift;
    if k > 0 {
      ShiftInjective(Turns(a, k - 1), Turns(b, k - 1));
      TurnsInjective(a, b, k - 1);
    }
  }

  // --- The checksum is affine ---

  function XorBytes(a: bv8, b: bv8): bv8 { a ^ b }

  function XorAll(a: seq<bv8>, b: seq<bv8>): (c: seq<bv8>)
    requires |a| == |b|
    ensures |c| == |a|
  {
    if a == [] then [] else [XorBytes(a[0], b[0])] + XorAll(a[1..], b[1..])
  }

  lemma {:induction false} WordXor(a: bv8, b: bv8)
    ensures Word(XorBytes(a, b)) == Xor(Word(a), Word(b))
  {
    WordXorBits(a, b);
  }

  lemma WordXorBits(a: bv8, b: bv8)
    ensures (a ^ b) as bv32 == (a as bv32) ^ (b as bv32)
  {
  }

  lemma {:induction false} AbsorbXor(s: bv32, t: bv32, a: seq<bv8>, b: seq<bv8>)
    requires |a| == |b|
    ensures Absorb(Xor(s, t), XorAll(a, b)) == Xor(Absorb(s, a), Absorb(t, b))
    decreases |a|
  {
    hide Xor, Word, XorBytes, Turns;
    if a != [] {
      WordXor(a[0], b[0]);
      Swap(s, t, Word(a[0]), Word(b[0]));
      TurnsLinear(Xor(s, Word(a[0])), Xor(t, Word(b[0])), 8);
      assert XorAll(a, b)[1..] == XorAll(a[1..], b[1..]);
      AbsorbXor(Turns(Xor(s, Word(a[0])), 8), Turns(Xor(t, Word(b[0])), 8), a[1..], b[1..]);
    }
  }

  /** The checksum of a combination of three messages is the combination of their checksums. */
  lemma {:induction false} CrcAffine(a: seq<bv8>, b: seq<bv8>, c: seq<bv8>)
    requires |a| == |b| == |c|
    ensures Crc(XorAll(XorAll(a, b), c)) == Xor(Xor(Crc(a), Crc(b)), Crc(c))
  {
    hide Xor, Absorb;
    Cancel(ONES, ONES);
    AbsorbXor(ONES, ONES, a, b);
    AbsorbXor(Xor(ONES, ONES), ONES, XorAll(a, b), c);
    var x, y, z := Absorb(ONES, a), Absorb(ONES, b), Absorb(ONES, c);
    Swap(x, ONES, y, ONES);
    Swap(Xor(x, y), Xor(ONES, ONES), z, ONES);
  }

  /** Whether an error goes unseen depends on the error pattern alone, not on the data under it. */
  lemma {:induction false} ErrorSeen(data: seq<bv8>, error: seq<bv8>)
    requires |data| == |error|
    ensures Crc(XorAll(data, error)) == Crc(data) <==> Absorb(0, error) == 0
  {
    hide Xor, Absorb;
    XorZero(ONES);
    AbsorbXor(ONES, 0, data, error);
    var x, e := Absorb(ONES, data), Absorb(0, error);
    Cancel(x, ONES);
    Cancel(Xor(x, e), ONES);
    Comm(x, e);
    Cancel(e, x);
    XorZero(x);
    Difference(x, x);
  }

  // --- The message as bits, lowest bit of each byte first ---

  function Bit(b: bool): bv32 { if b then 1 else 0 }

  function Double(x: bv32): bv32 { x << 1 }

  function WordBits(w: bv32, k: nat): (bits: seq<bool>)
    ensures |bits| == k
  {
    if k == 0 then [] else [Odd(w)] + WordBits(Half(w), k - 1)
  }

  function Halved(w: bv32, k: nat): bv32
    decreases k
  {
    if k == 0 then w else Halved(Half(w), k - 1)
  }

  function Bits(data: seq<bv8>): (bits: seq<bool>)
    ensures |bits| == 8 * |data|
  {
    if data == [] then [] else WordBits(Word(data[0]), 8) + Bits(data[1..])
  }

  /** The register fed one bit at a time. */
  function Feed(crc: bv32, bits: seq<bool>): bv32
    decreases |bits|
  {
    if bits == [] then crc else Feed(Shift(Xor(crc, Bit(bits[0]))), bits[1..])
  }

  lemma DoubleAndOneBits(a: bv32)
    ensures a & 0x8000_0000 == 0 ==> ((a << 1) ^ 1) >> 1 == a
    ensures ((a << 1) ^ 1) & 1 != 0 && (a << 1) & 1 == 0
  {
  }

  /** A word is its lowest bit and twice the rest. */
  lemma {:induction false} BitAndDouble(a: bv32, b: bool)
    ensures Odd(Xor(Double(a), Bit(b))) <==> b
    ensures !High(a) ==> Half(Xor(Double(a), Bit(b))) == a
  {
    DoubleAndOneBits(a);
    if !b {
      DoubleBits(a);
      XorZero(Double(a));
    }
  }

  lemma {:induction false} Split(w: bv32)
    ensures Xor(Double(Half(w)), Bit(Odd(w))) == w && !High(Half(w))
  {
    hide Xor, Double, Half, Odd, High, Bit;
    HalfAndHigh(w);
    BitAndDouble(Half(w), Odd(w));
    HalfAndOdd(Xor(Double(Half(w)), Bit(Odd(w))), w);
  }

  /** A turn undoes a doubling that loses nothing. */
  lemma {:induction false} ShiftOfDouble(x: bv32)
    requires !High(x)
    ensures Shift(Double(x)) == x
  {
    hide Xor, Double, Half, Odd, High;
    assert Bit(false) == 0;
    BitAndDouble(x, false);
    XorZero(Double(x));
    XorZero(x);
  }

  lemma {:induction false} TurnsFirst(crc: bv32, k: nat)
    requires k > 0
    ensures Turns(crc, k) == Turns(Shift(crc), k - 1)
  {
    hide Shift;
    if k > 1 {
      TurnsFirst(crc, k - 1);
    }
  }

  /** One turn on a word is one bit fed and the rest of the word still to come. */
  lemma {:induction false} ShiftOfWord(s: bv32, w: bv32)
    ensures Shift(Xor(s, w)) == Xor(Shift(Xor(s, Bit(Odd(w)))), Half(w))
  {
    hide Xor, Double, Half, Odd, High, Bit, Shift;
    Split(w);
    var bit, rest := Bit(Odd(w)), Double(Half(w));
    Comm(rest, bit);
    Assoc(s, bit, rest);
    ShiftLinear(Xor(s, bit), rest);
    ShiftOfDouble(Half(w));
  }

  lemma {:induction false} TurnsFeed(s: bv32, w: bv32, k: nat)
    ensures Turns(Xor(s, w), k) == Xor(Feed(s, WordBits(w, k)), Halved(w, k))
    decreases k
  {
    hide Xor, Half, Odd, Bit, Shift;
    if k > 0 {
      TurnsFirst(Xor(s, w), k);
      ShiftOfWord(s, w);
      TurnsFeed(Shift(Xor(s, Bit(Odd(w)))), Half(w), k - 1);
      assert WordBits(w, k)[1..] == WordBits(Half(w), k - 1);
    }
  }

  // Words of few bits.

  function OneMore(m: bv32): bv32 { (m << 1) | 1 }

  /** The lowest `n` bits. */
  function Mask(n: nat): bv32 {
    if n == 0 then 0 else OneMore(Mask(n - 1))
  }

  predicate Under(x: bv32, mask: bv32) { x & mask == x }

  lemma UnderOneBits(x: bv32, m: bv32)
    requires x & m == x
    ensures ((x << 1) ^ 1) & ((m << 1) | 1) == (x << 1) ^ 1
  {
  }

  lemma UnderZeroBits(x: bv32, m: bv32)
    requires x & m == x
    ensures (x << 1) & ((m << 1) | 1) == x << 1
  {
  }

  lemma UnderTopBits(x: bv32, m: bv32)
    requires x & m == x && m & 0x8000_0000 == 0
    ensures x & 0x8000_0000 == 0
  {
  }

  lemma UnderOne(x: bv32, m: bv32)
    requires Under(x, m)
    ensures Under(Xor(Double(x), 1), OneMore(m))
  {
    UnderOneBits(x, m);
  }

  lemma UnderZero(x: bv32, m: bv32)
    requires Under(x, m)
    ensures Under(Double(x), OneMore(m))
  {
    UnderZeroBits(x, m);
  }

  lemma UnderTop(x: bv32, m: bv32)
    requires Under(x, m) && !High(m)
    ensures !High(x)
  {
    UnderTopBits(x, m);
  }

  lemma {:induction false} UnderNext(x: bv32, n: nat, b: bool)
    requires Under(x, Mask(n))
    ensures Under(Xor(Double(x), Bit(b)), Mask(n + 1))
    ensures !High(Mask(n)) ==> !High(x)
  {
    hide Under, Xor, Double, OneMore, High;
    if b {
      UnderOne(x, Mask(n));
    } else {
      UnderZero(x, Mask(n));
      XorZero(Double(x));
    }
    if !High(Mask(n)) {
      UnderTop(x, Mask(n));
    }
  }

  lemma FourOnes(m: bv32)
    ensures OneMore(OneMore(OneMore(OneMore(m)))) == (m << 4) | 0xF
  {
  }

  lemma FourMore(n: nat)
    ensures Mask(n + 4) == OneMore(OneMore(OneMore(OneMore(Mask(n)))))
  {
    hide OneMore;
    assert Mask(n + 1) == OneMore(Mask(n));
    assert Mask(n + 2) == OneMore(Mask(n + 1));
    assert Mask(n + 3) == OneMore(Mask(n + 2));
  }

  lemma LargestMask()
    ensures Mask(31) == 0x7FFF_FFFF
  {
    SevenBits();
    hide Mask, OneMore;
    FourMore(3);
    FourOnes(7);
    FourMore(7);
    FourOnes(0x7F);
    FourMore(11);
    FourOnes(0x7FF);
    FourMore(15);
    FourOnes(0x7FFF);
    FourMore(19);
    FourOnes(0x7_FFFF);
    FourMore(23);
    FourOnes(0x7F_FFFF);
    FourMore(27);
    FourOnes(0x7FF_FFFF);
  }

  lemma SevenBits()
    ensures Mask(3) == 7
  {
    assert Mask(1) == 1;
    assert Mask(2) == 3;
  }

  lemma {:induction false} WholeMasks()
    ensures Mask(8) == 0xFF && Mask(32) == ONES
  {
    SevenBits();
    LargestMask();
    FourMore(3);
    FourOnes(7);
    assert Mask(8) == OneMore(Mask(7)) && Mask(32) == OneMore(Mask(31));
  }

  lemma MaskTop(n: nat)
    requires n <= 31
    ensures !High(Mask(n))
  {
    hide Mask;
    MaskUnder(n, 31);
    LargestMask();
    TopBits(Mask(n));
  }

  lemma TopBits(x: bv32)
    ensures x & 0x7FFF_FFFF == x ==> x & 0x8000_0000 == 0
  {
  }

  lemma MaskBits(x: bv32, m: bv32)
    requires x & m == x
    ensures ((x << 1) | 1) & ((m << 1) | 1) == (x << 1) | 1
  {
  }

  lemma MaskNext(x: bv32, m: bv32)
    requires Under(x, m)
    ensures Under(OneMore(x), OneMore(m))
  {
    MaskBits(x, m);
  }

  lemma {:induction false} MaskUnder(n: nat, m: nat)
    requires n <= m
    ensures Under(Mask(n), Mask(m))
    decreases n
  {
    hide Under, OneMore;
    if n > 0 {
      MaskUnder(n - 1, m - 1);
      MaskNext(Mask(n - 1), Mask(m - 1));
    } else {
      NoneUnder(Mask(m));
    }
  }

  lemma NotHigh()
    ensures !High(0)
  {
  }

  lemma NoneUnder(m: bv32)
    ensures Under(0, m)
  {
  }

  lemma HalfUnderBits(x: bv32, m: bv32)
    requires x & ((m << 1) | 1) == x
    ensures (x >> 1) & m == x >> 1
  {
  }

  lemma HalfUnder(x: bv32, m: bv32)
    requires Under(x, OneMore(m))
    ensures Under(Half(x), m)
  {
    HalfUnderBits(x, m);
  }

  lemma OnlyNone(x: bv32)
    requires Under(x, 0)
    ensures x == 0
  {
  }

  lemma {:induction false} UsedUp(x: bv32, n: nat)
    requires Under(x, Mask(n))
    ensures Halved(x, n) == 0
    decreases n
  {
    hide Under, OneMore, Half;
    if n == 0 {
      OnlyNone(x);
    } else {
      HalfUnder(x, Mask(n - 1));
      UsedUp(Half(x), n - 1);
    }
  }

  lemma WordUnder(b: bv8)
    ensures Under(Word(b), 0xFF)
  {
  }

  lemma AllUnder(x: bv32)
    ensures Under(x, ONES)
  {
  }

  lemma {:induction false} ByteIsUsedUp(b: bv8)
    ensures Halved(Word(b), 8) == 0
  {
    hide Under, Word, Mask, Halved;
    WordUnder(b);
    WholeMasks();
    UsedUp(Word(b), 8);
  }

  lemma {:induction false} WordIsUsedUp(x: bv32)
    ensures Halved(x, 32) == 0
  {
    hide Under, Mask, Halved;
    AllUnder(x);
    WholeMasks();
    UsedUp(x, 32);
  }

  /** Absorbing bytes is feeding their bits. */
  lemma {:induction false} AbsorbIsFeed(s: bv32, data: seq<bv8>)
    ensures Absorb(s, data) == Feed(s, Bits(data))
    decreases |data|
  {
    hide Xor, Word, WordBits, Halved, Turns;
    if data != [] {
      var w := Word(data[0]);
      TurnsFeed(s, w, 8);
      ByteIsUsedUp(data[0]);
      XorZero(Feed(s, WordBits(w, 8)));
      AbsorbIsFeed(Turns(Xor(s, w), 8), data[1..]);
      FeedInParts(s, WordBits(w, 8), Bits(data[1..]));
    }
  }

  lemma {:induction false} FeedInParts(s: bv32, first: seq<bool>, rest: seq<bool>)
    ensures Feed(s, first + rest) == Feed(Feed(s, first), rest)
    decreases |first|
  {
    hide Xor, Shift, Bit;
    if first == [] {
      assert first + rest == rest;
    } else {
      assert (first + rest)[1..] == first[1..] + rest;
      FeedInParts(Shift(Xor(s, Bit(first[0]))), first[1..], rest);
    }
  }

  lemma {:induction false} FeedApart(s: bv32, t: bv32, bits: seq<bool>)
    requires Feed(s, bits) == Feed(t, bits)
    ensures s == t
    decreases |bits|
  {
    hide Xor, Shift, Bit;
    if bits != [] {
      var b := Bit(bits[0]);
      FeedApart(Shift(Xor(s, b)), Shift(Xor(t, b)), bits[1..]);
      ShiftInjective(Xor(s, b), Xor(t, b));
      Cancel(s, b);
      Cancel(t, b);
    }
  }

  // The bits determine the bytes.

  lemma {:induction false} SameWord(w: bv32, w': bv32, k: nat)
    requires WordBits(w, k) == WordBits(w', k) && Halved(w, k) == Halved(w', k)
    ensures w == w'
    decreases k
  {
    hide Half, Odd;
    if k > 0 {
      assert WordBits(w, k)[0] == WordBits(w', k)[0];
      assert WordBits(w, k)[1..] == WordBits(Half(w), k - 1) && WordBits(w', k)[1..] == WordBits(Half(w'), k - 1);
      SameWord(Half(w), Half(w'), k - 1);
      HalfAndOdd(w, w');
    }
  }

  lemma SameByte(b: bv8, b': bv8)
    ensures Word(b) == Word(b') ==> b == b'
  {
  }

  lemma {:induction false} SameBytes(a: seq<bv8>, b: seq<bv8>)
    requires Bits(a) == Bits(b)
    ensures a == b
    decreases |a|
  {
    hide Word, WordBits, Halved;
    if a != [] {
      var w, w' := Word(a[0]), Word(b[0]);
      assert WordBits(w, 8) == Bits(a)[..8] && WordBits(w', 8) == Bits(b)[..8];
      assert Bits(a[1..]) == Bits(a)[8..] && Bits(b[1..]) == Bits(b)[8..];
      ByteIsUsedUp(a[0]);
      ByteIsUsedUp(b[0]);
      SameWord(w, w', 8);
      SameByte(a[0], b[0]);
      SameBytes(a[1..], b[1..]);
    }
  }

  // --- Bursts ---

  /** The differences of two windows as a word, first bit lowest. */
  function Gap(u: seq<bool>, v: seq<bool>): bv32
    requires |u| == |v|
    decreases |u|
  {
    if u == [] then 0 else Xor(Double(Gap(u[1..], v[1..])), Bit(u[0] != v[0]))
  }

  lemma NothingBits(x: bv32, b: bool)
    requires x & 0x8000_0000 == 0 && (x << 1) ^ (if b then 1 else 0) == 0
    ensures x == 0 && !b
  {
  }

  lemma {:induction false} GapFits(u: seq<bool>, v: seq<bool>)
    requires |u| == |v| <= 32
    ensures Under(Gap(u, v), Mask(|u|)) && (|u| <= 31 ==> !High(Gap(u, v)))
    ensures Gap(u, v) == 0 <==> u == v
    decreases |u|
  {
    hide Xor, Double, Bit, Under, Mask, High;
    if u == [] {
      NoneUnder(Mask(0));
      MaskTop(0);
      NotHigh();
    } else {
      var rest, b := Gap(u[1..], v[1..]), u[0] != v[0];
      GapFits(u[1..], v[1..]);
      UnderNext(rest, |u| - 1, b);
      if |u| <= 31 {
        MaskTop(|u|);
        UnderNext(Gap(u, v), |u|, b);
      }
      GapIsNothing(rest, b);
      assert u == [u[0]] + u[1..] && v == [v[0]] + v[1..];
    }
  }

  lemma {:induction false} GapIsNothing(rest: bv32, b: bool)
    requires !High(rest)
    ensures Xor(Double(rest), Bit(b)) == 0 <==> rest == 0 && !b
  {
    if Xor(Double(rest), Bit(b)) == 0 {
      NothingBits(rest, b);
    }
  }

  /** After the same window of at most 32 bits two states meet exactly when they differed by the
      windows' gap. */
  lemma {:induction false} WindowMeets(s: bv32, t: bv32, u: seq<bool>, v: seq<bool>)
    requires |u| == |v| <= 32
    ensures Feed(s, u) == Feed(t, v) <==> Xor(s, t) == Gap(u, v)
    decreases |u|
  {
    hide Xor, Double, Bit, Under, Mask, High, Shift;
    if u == [] {
      Difference(s, t);
    } else {
      var rest := Gap(u[1..], v[1..]);
      var a, b := Bit(u[0]), Bit(v[0]);
      WindowMeets(Shift(Xor(s, a)), Shift(Xor(t, b)), u[1..], v[1..]);
      GapFits(u[1..], v[1..]);
      ShiftLinear(Xor(s, a), Xor(t, b));
      ShiftOfDouble(rest);
      if Shift(Xor(Xor(s, a), Xor(t, b))) == rest {
        ShiftInjective(Xor(Xor(s, a), Xor(t, b)), Double(rest));
      }
      Swap(s, a, t, b);
      BitXor(u[0], v[0]);
      Moved(Xor(s, t), Bit(u[0] != v[0]), Double(rest));
    }
  }

  lemma BitXor(a: bool, b: bool)
    ensures Xor(Bit(a), Bit(b)) == Bit(a != b)
  {
  }

  lemma Moved(a: bv32, b: bv32, c: bv32)
    ensures Xor(a, b) == c <==> a == Xor(c, b)
  {
    hide Xor;
    Cancel(a, b);
    Cancel(c, b);
  }

  lemma SameAround(p: seq<bool>, q: seq<bool>, from: nat, to: nat)
    requires |p| == |q| && from <= to <= |p|
    requires forall k | 0 <= k < from || to <= k < |p| :: p[k] == q[k]
    ensures p == p[..from] + p[from..to] + p[to..] && q == p[..from] + q[from..to] + p[to..]
  {
    assert q[..from] == p[..from] && q[to..] == p[to..];
  }

  lemma FeedInThree(s: bv32, before: seq<bool>, u: seq<bool>, after: seq<bool>)
    ensures Feed(s, before + u + after) == Feed(Feed(Feed(s, before), u), after)
  {
    hide Feed;
    FeedInParts(s, before + u, after);
    FeedInParts(s, before, u);
  }

  /** Messages whose bits agree outside 32 consecutive ones, at any offset, have equal checksums only
      when they are equal. */
  lemma {:induction false} BurstDetected(a: seq<bv8>, b: seq<bv8>, at: nat)
    requires |a| == |b|
    requires forall k | 0 <= k < 8 * |a| && !(at <= k < at + 32) :: Bits(a)[k] == Bits(b)[k]
    ensures Crc(a) == Crc(b) <==> a == b
  {
    hide Xor, Absorb, Bits, Feed, Gap;
    var p, q, n := Bits(a), Bits(b), 8 * |a|;
    var start := if at <= n then at else n;
    var end := if at + 32 <= n then at + 32 else n;
    var before, u, v, after := p[..start], p[start..end], q[start..end], p[end..];
    SameAround(p, q, start, end);
    var s := Feed(ONES, before);
    AbsorbIsFeed(ONES, a);
    AbsorbIsFeed(ONES, b);
    FeedInThree(ONES, before, u, after);
    FeedInThree(ONES, before, v, after);
    Cancel(Absorb(ONES, a), ONES);
    Cancel(Absorb(ONES, b), ONES);
    if Crc(a) == Crc(b) {
      FeedApart(Feed(s, u), Feed(s, v), after);
      WindowMeets(s, s, u, v);
      Difference(s, s);
      GapFits(u, v);
      SameBytes(a, b);
    }
  }

  /** Four consecutive bytes are one such window. */
  lemma {:induction false} CloseMessagesDiffer(a: seq<bv8>, b: seq<bv8>, at: nat)
    requires |a| == |b| && a != b
    requires forall k | 0 <= k < |a| && !(at <= k < at + 4) :: a[k] == b[k]
    ensures Crc(a) != Crc(b)
  {
    hide Crc, Bits;
    forall k | 0 <= k < 8 * |a| && !(8 * at <= k < 8 * at + 32)
      ensures Bits(a)[k] == Bits(b)[k]
    {
      BitOf(a, k);
      BitOf(b, k);
    }
    BurstDetected(a, b, 8 * at);
  }

  lemma {:induction false} BitOf(data: seq<bv8>, k: nat)
    requires k < 8 * |data|
    ensures Bits(data)[k] == WordBits(Word(data[k / 8]), 8)[k % 8]
    decreases |data|
  {
    hide WordBits, Word;
    if k >= 8 {
      BitOf(data[1..], k - 8);
    }
  }

  // --- 32 bits are the most ---

  /** The polynomial's coefficients in the order the register meets them. */
  function Generator(): (bits: seq<bool>)
    ensures |bits| == 33
  {
    [true] + WordBits(POLYNOMIAL, 32)
  }

  /** `b` is `a` with a burst in the polynomial's shape at bit `at`. */
  ghost predicate Hidden(a: seq<bv8>, b: seq<bv8>, at: nat) {
    && |b| == |a| && at + 33 <= 8 * |a|
    && forall k | 0 <= k < 8 * |a| ::
         (Bits(a)[k] != Bits(b)[k]) == (at <= k < at + 33 && Generator()[k - at])
  }

  lemma {:induction false} GapOfWord(u: seq<bool>, v: seq<bool>, w: bv32)
    requires |u| == |v| && Halved(w, |u|) == 0
    requires forall k | 0 <= k < |u| :: (u[k] != v[k]) == WordBits(w, |u|)[k]
    ensures Gap(u, v) == w
    decreases |u|
  {
    hide Xor, Double, Bit, Half, Odd;
    if u != [] {
      assert WordBits(w, |u|)[1..] == WordBits(Half(w), |u| - 1);
      GapOfWord(u[1..], v[1..], Half(w));
      assert (u[0] != v[0]) == WordBits(w, |u|)[0];
      Split(w);
    }
  }

  lemma OneTurn()
    ensures Shift(Bit(true)) == POLYNOMIAL
  {
  }

  /** The polynomial itself is a burst of 33 bits that goes unseen at every offset. */
  lemma {:induction false} HiddenIsUnseen(a: seq<bv8>, b: seq<bv8>, at: nat)
    requires Hidden(a, b, at)
    ensures a != b && Crc(a) == Crc(b)
  {
    hide Xor, Absorb, Feed, Bits, Generator, Gap;
    var p, q := Bits(a), Bits(b);
    assert Generator()[0] by { GeneratorStarts(); }
    assert p[at] != q[at];
    var before, u, v, after := p[..at], p[at..at + 33], q[at..at + 33], p[at + 33..];
    assert forall k | 0 <= k < at :: p[k] == q[k];
    assert forall k | at + 33 <= k < |p| :: p[k] == q[k];
    SameAround(p, q, at, at + 33);
    AbsorbIsFeed(ONES, a);
    AbsorbIsFeed(ONES, b);
    FeedInThree(ONES, before, u, after);
    FeedInThree(ONES, before, v, after);
    assert forall k | 0 <= k < 33 :: u[k] == p[at + k] && v[k] == q[at + k];
    WindowHidden(Feed(ONES, before), u, v);
  }

  lemma GeneratorStarts()
    ensures Generator()[0]
  {
  }

  lemma {:induction false} WindowHidden(s: bv32, u: seq<bool>, v: seq<bool>)
    requires |u| == |v| == 33 && forall k | 0 <= k < 33 :: (u[k] != v[k]) == Generator()[k]
    ensures Feed(s, u) == Feed(s, v)
  {
    hide Xor, Shift, Bit, Gap, Halved, WordBits;
    var a, b := Bit(u[0]), Bit(v[0]);
    assert Generator()[0] && forall k | 0 <= k < 32 :: WordBits(POLYNOMIAL, 32)[k] == Generator()[k + 1];
    WordIsUsedUp(POLYNOMIAL);
    GapOfWord(u[1..], v[1..], POLYNOMIAL);
    ShiftLinear(Xor(s, a), Xor(s, b));
    Swap(s, a, s, b);
    Difference(s, s);
    XorZero(Xor(a, b));
    BitXor(u[0], v[0]);
    OneTurn();
    WindowMeets(Shift(Xor(s, a)), Shift(Xor(s, b)), u[1..], v[1..]);
  }

  // Every message has such a twin at every offset: bits can be put back into bytes.

  function Pack(bits: seq<bool>): bv32
    decreases |bits|
  {
    if bits == [] then 0 else Xor(Double(Pack(bits[1..])), Bit(bits[0]))
  }

  lemma {:induction false} PackFits(bits: seq<bool>)
    requires |bits| <= 32
    ensures Under(Pack(bits), Mask(|bits|)) && WordBits(Pack(bits), |bits|) == bits
    decreases |bits|
  {
    hide Under, Xor, Double, Bit, Mask, High, Half, Odd;
    if bits == [] {
      NoneUnder(Mask(0));
    } else {
      var n, rest := |bits| - 1, Pack(bits[1..]);
      PackFits(bits[1..]);
      MaskTop(n);
      UnderNext(rest, n, bits[0]);
      BitAndDouble(rest, bits[0]);
      assert bits == [bits[0]] + bits[1..];
    }
  }

  function Byte(x: bv32): bv8 { (x & 0xFF) as bv8 }

  lemma ByteOfWord(x: bv32)
    ensures Under(x, 0xFF) ==> Word(Byte(x)) == x
  {
  }

  function PackAll(bits: seq<bool>): (data: seq<bv8>)
    requires |bits| % 8 == 0
    ensures 8 * |data| == |bits|
  {
    if bits == [] then [] else [Byte(Pack(bits[..8]))] + PackAll(bits[8..])
  }

  lemma {:induction false} PackedBits(bits: seq<bool>)
    requires |bits| % 8 == 0
    ensures Bits(PackAll(bits)) == bits
    decreases |bits|
  {
    hide Under, Pack, Byte, Word, WordBits, Mask;
    if bits != [] {
      var data := PackAll(bits);
      PackedBits(bits[8..]);
      PackFits(bits[..8]);
      WholeMasks();
      ByteOfWord(Pack(bits[..8]));
      assert data[1..] == PackAll(bits[8..]);
      assert bits == bits[..8] + bits[8..];
    }
  }

  function Flipped(p: seq<bool>, pattern: seq<bool>, at: nat): (q: seq<bool>)
    requires at + |pattern| <= |p|
    ensures |q| == |p|
    ensures forall k | 0 <= k < |p| :: (p[k] != q[k]) == (at <= k < at + |pattern| && pattern[k - at])
  {
    seq(|p|, k requires 0 <= k < |p| => p[k] != (at <= k < at + |pattern| && pattern[k - at]))
  }

  lemma {:induction false} LongerBurstEscapes(a: seq<bv8>, at: nat)
    requires at + 33 <= 8 * |a|
    ensures exists b :: Hidden(a, b, at) && b != a && Crc(b) == Crc(a)
  {
    hide Bits, Crc, PackAll, Flipped, Generator;
    var q := Flipped(Bits(a), Generator(), at);
    PackedBits(q);
    HiddenIsUnseen(a, PackAll(q), at);
  }

  // --- Odd errors ---

  predicate Parity(bits: seq<bool>)
    decreases |bits|
  {
    bits != [] && bits[0] != Parity(bits[1..])
  }

  predicate WordParity(w: bv32) { Parity(WordBits(w, 32)) }

  lemma {:induction false} ParityNext(w: bv32, k: nat)
    ensures Parity(WordBits(w, k + 1)) == (Odd(w) != Parity(WordBits(Half(w), k)))
  {
    hide Odd, Half;
    assert WordBits(w, k + 1)[1..] == WordBits(Half(w), k);
  }

  lemma {:induction false} XorParity(a: bv32, b: bv32, k: nat)
    ensures Parity(WordBits(Xor(a, b), k)) == (Parity(WordBits(a, k)) != Parity(WordBits(b, k)))
    decreases k
  {
    hide Xor, Odd, Half, Parity, WordBits;
    if k == 0 {
      NoParity(a);
      NoParity(b);
      NoParity(Xor(a, b));
    } else {
      XorParity(Half(a), Half(b), k - 1);
      HalfXor(a, b);
      OddXor(a, b);
      ParityNext(a, k - 1);
      ParityNext(b, k - 1);
      ParityNext(Xor(a, b), k - 1);
    }
  }

  lemma NoParity(w: bv32)
    ensures !Parity(WordBits(w, 0))
  {
  }

  lemma NoBit()
    ensures !Odd(0)
  {
  }

  lemma {:induction false} ParityBeyond(w: bv32, k: nat)
    requires Halved(w, k) == 0
    ensures Parity(WordBits(w, k + 1)) == Parity(WordBits(w, k))
    decreases k
  {
    hide Odd, Half, Parity, WordBits;
    ParityNext(w, k);
    if k == 0 {
      NoParity(w);
      NoParity(Half(w));
      NoBit();
    } else {
      ParityBeyond(Half(w), k - 1);
      ParityNext(w, k - 1);
    }
  }

  predicate FourParity(w: bv32) {
    (Odd(w) != Odd(w >> 1)) != (Odd(w >> 2) != Odd(w >> 3))
  }

  lemma HalvesBits(w: bv32)
    ensures (w >> 1) >> 1 == w >> 2 && (w >> 2) >> 1 == w >> 3 && (w >> 3) >> 1 == w >> 4
  {
  }

  lemma Halves(w: bv32)
    ensures Half(w) == w >> 1 && Half(w >> 1) == w >> 2 && Half(w >> 2) == w >> 3 && Half(w >> 3) == w >> 4
  {
    HalvesBits(w);
  }

  lemma FourBits(w: bv32, k: nat)
    ensures Parity(WordBits(w, k + 4)) == (FourParity(w) != Parity(WordBits(w >> 4, k)))
  {
    hide Odd, Half, Parity, WordBits;
    Halves(w);
    ParityNext(w, k + 3);
    ParityNext(w >> 1, k + 2);
    ParityNext(w >> 2, k + 1);
    ParityNext(w >> 3, k);
  }

  lemma PolynomialIsOdd()
    ensures WordParity(POLYNOMIAL)
  {
    hide Parity, WordBits;
    FourBits(0x82F6_3B78, 28);
    FourBits(0x082F_63B7, 24);
    FourBits(0x0082_F63B, 20);
    FourBits(0x0008_2F63, 16);
    FourBits(0x0000_82F6, 12);
    FourBits(0x0000_082F, 8);
    FourBits(0x0000_0082, 4);
    FourBits(0x0000_0008, 0);
    NoParity(0);
  }

  lemma OnesAreEven()
    ensures !WordParity(ONES)
  {
    hide Parity, WordBits;
    FourBits(0xFFFF_FFFF, 28);
    FourBits(0x0FFF_FFFF, 24);
    FourBits(0x00FF_FFFF, 20);
    FourBits(0x000F_FFFF, 16);
    FourBits(0x0000_FFFF, 12);
    FourBits(0x0000_0FFF, 8);
    FourBits(0x0000_00FF, 4);
    FourBits(0x0000_000F, 0);
    NoParity(0);
  }

  lemma {:induction false} NothingIsEven(k: nat)
    ensures !Parity(WordBits(0, k))
  {
    hide Parity, WordBits;
    XorParity(0, 0, k);
  }

  lemma BitParity(b: bool)
    ensures WordParity(Bit(b)) == b
  {
    hide Parity, WordBits;
    NothingIsEven(31);
    NothingIsEven(32);
    ParityNext(1, 31);
  }

  /** A turn keeps the parity of the register: the polynomial has an even number of terms. */
  lemma {:induction false} ShiftParity(x: bv32)
    ensures WordParity(Shift(x)) == WordParity(x)
  {
    hide Xor, Odd, Half, Parity, WordBits, Halved;
    PolynomialIsOdd();
    NothingIsEven(32);
    WordIsUsedUp(x);
    HalvedFirst(x, 32);
    ParityBeyond(Half(x), 31);
    ParityNext(x, 31);
    XorParity(Half(x), if Odd(x) then POLYNOMIAL else 0, 32);
  }

  lemma HalvedFirst(x: bv32, k: nat)
    requires k > 0
    ensures Halved(x, k) == Halved(Half(x), k - 1)
  {
  }

  lemma {:induction false} FeedParity(s: bv32, bits: seq<bool>)
    ensures WordParity(Feed(s, bits)) == (WordParity(s) != Parity(bits))
    decreases |bits|
  {
    hide Xor, Shift, WordBits;
    if bits != [] {
      FeedParity(Shift(Xor(s, Bit(bits[0]))), bits[1..]);
      ShiftParity(Xor(s, Bit(bits[0])));
      XorParity(s, Bit(bits[0]), 32);
      BitParity(bits[0]);
    }
  }

  /** The checksum has the parity of the message. */
  lemma {:induction false} CrcParity(data: seq<bv8>)
    ensures WordParity(Crc(data)) == Parity(Bits(data))
  {
    hide Xor, Absorb, Feed, Bits, Parity, WordBits;
    AbsorbIsFeed(ONES, data);
    FeedParity(ONES, Bits(data));
    XorParity(Absorb(ONES, data), ONES, 32);
    OnesAreEven();
  }

  function Differences(u: seq<bool>, v: seq<bool>): nat
    requires |u| == |v|
    decreases |u|
  {
    if u == [] then 0 else (if u[0] != v[0] then 1 else 0) + Differences(u[1..], v[1..])
  }

  lemma {:induction false} DifferenceParity(u: seq<bool>, v: seq<bool>)
    requires |u| == |v|
    ensures Differences(u, v) % 2 == 1 <==> Parity(u) != Parity(v)
    decreases |u|
  {
    if u != [] {
      DifferenceParity(u[1..], v[1..]);
    }
  }

  /** An odd number of changed bits, however far apart, changes the checksum. */
  lemma {:induction false} OddErrorDetected(a: seq<bv8>, b: seq<bv8>)
    requires |a| == |b| && Differences(Bits(a), Bits(b)) % 2 == 1
    ensures Crc(a) != Crc(b)
  {
    hide Bits, Crc, Differences, Parity;
    DifferenceParity(Bits(a), Bits(b));
    CrcParity(a);
    CrcParity(b);
  }

  // --- The integrity check on a secret's payload ---

  const MAX_VALUE_BYTES := 8192

  datatype SecretState = Enabled | Disabled | Destroyed

  /** `state` is absent when the answer names none of the three states. */
  datatype Metadata = Metadata(name: string, state: Option<SecretState>, etag: string)

  /** `data` is the text received; `decoded` what strict base64 makes of it, if anything. */
  datatype Payload = Payload(name: string, data: string, decoded: Option<seq<bv8>>, checksum: string)

  datatype SecretDenial = MetadataInvalid | PayloadShape | PayloadBound | PayloadIntegrity | MetadataChanged

  predicate Digits(text: string) {
    1 <= |text| <= 10 && forall i | 0 <= i < |text| :: '0' <= text[i] <= '9'
  }

  function Number(text: string): int
    requires forall i | 0 <= i < |text| :: '0' <= text[i] <= '9'
  {
    if text == "" then 0 else Number(text[..|text| - 1]) * 10 + (text[|text| - 1] as int - '0' as int)
  }

  /** `_secret_value`: the metadata is read before and after the payload. */
  method SecretValue(reference: string, metadata: Metadata, payload: Payload, utf8: seq<bv8> -> Option<string>,
                     after: Metadata)
    returns (result: Result<(SecretState, Option<string>), SecretDenial>)
    ensures result.Ok? <==>
              && metadata.name == reference && metadata.state.Some? && metadata.etag != ""
              && (metadata.state == Some(Enabled) ==>
                    && Intact(reference, payload) && utf8(payload.decoded.value).Some? && after == metadata)
    ensures result.Ok? ==>
              && Some(result.value.0) == metadata.state
              && result.value.1 == if metadata.state == Some(Enabled) then utf8(payload.decoded.value) else None
    ensures result.Refused? ==>
              match result.reason
              case MetadataInvalid => metadata.name != reference || metadata.state == None || metadata.etag == ""
              case PayloadShape => metadata.state == Some(Enabled) && payload.name != reference
              case PayloadBound => payload.name == reference && (|payload.data| > 16_384 || !Digits(payload.checksum))
              case PayloadIntegrity => Digits(payload.checksum) && Damaged(payload, utf8)
              case MetadataChanged => Intact(reference, payload) && after != metadata
  {
    if metadata.name != reference || metadata.state == None || metadata.etag == "" {
      return Refused(MetadataInvalid);
    }
    var state := metadata.state.value;
    if state != Enabled {
      return Ok((state, None));
    }
    if payload.name != reference {
      return Refused(PayloadShape);
    }
    if |payload.data| > 2 * MAX_VALUE_BYTES || !Digits(payload.checksum) {
      return Refused(PayloadBound);
    }
    if payload.decoded == None || |payload.decoded.value| > MAX_VALUE_BYTES {
      return Refused(PayloadIntegrity);
    }
    var crc := Checksum(payload.decoded.value);
    if crc as int != Number(payload.checksum) {
      return Refused(PayloadIntegrity);
    }
    var value := utf8(payload.decoded.value);
    if value == None {
      return Refused(PayloadIntegrity);
    }
    if after != metadata {
      return Refused(MetadataChanged);
    }
    return Ok((state, value));
  }

  /** The payload of this version: at most 8192 bytes that have the checksum given with them. */
  ghost predicate Intact(reference: string, payload: Payload) {
    && payload.name == reference && |payload.data| <= 16_384 && Digits(payload.checksum)
    && payload.decoded.Some? && |payload.decoded.value| <= 8_192
    && Crc(payload.decoded.value) as int == Number(payload.checksum)
  }

  /** It does not decode, is too long, has another checksum, or is no text. */
  ghost predicate Damaged(payload: Payload, utf8: seq<bv8> -> Option<string>)
    requires Digits(payload.checksum)
  {
    || payload.decoded == None || |payload.decoded.value| > 8_192
    || Crc(payload.decoded.value) as int != Number(payload.checksum) || utf8(payload.decoded.value) == None
  }

  lemma NumberNext(text: string, digit: char)
    requires forall i | 0 <= i < |text| :: '0' <= text[i] <= '9'
    requires '0' <= digit <= '9'
    ensures Number(text + [digit]) == Number(text) * 10 + (digit as int - 48)
  {
    assert (text + [digit])[..|text|] == text;
  }

  /** The nine digits under their check value, in decimal, are an intact payload. */
  lemma {:induction false} CheckPayload(reference: string, data: string)
    requires |data| <= 16_384
    ensures var digits: seq<bv8> := [0x31, 0x32, 0x33, 0x34, 0x35, 0x36, 0x37, 0x38, 0x39];
            Intact(reference, Payload(reference, data, Some(digits), "3808858755"))
  {
    hide Crc, Number;
    CheckValue();
    CheckNumber();
  }

  lemma CheckNumber()
    ensures Number("3808858755") == 3_808_858_755
  {
    hide Number;
    NumberOfNothing();
    NumberNext("", '3');
    NumberNext("3", '8');
    NumberNext("38", '0');
    NumberNext("380", '8');
    NumberNext("3808", '8');
    NumberNext("38088", '5');
    NumberNext("380885", '8');
    NumberNext("3808858", '7');
    NumberNext("38088587", '5');
    NumberNext("380885875", '5');
    assert "" + ['3'] == "3" && "3" + ['8'] == "38" && "38" + ['0'] == "380" && "380" + ['8'] == "3808";
    assert "3808" + ['8'] == "38088" && "38088" + ['5'] == "380885" && "380885" + ['8'] == "3808858";
    assert "3808858" + ['7'] == "38088587" && "38088587" + ['5'] == "380885875";
    assert "380885875" + ['5'] == "3808858755";
  }

  lemma NumberOfNothing()
    ensures Number("") == 0
  {
  }

  /** A payload that was intact and then changed within 32 consecutive bits is refused, whatever is
      done to its text. */
  lemma {:induction false} AlteredPayloadRefused(reference: string, payload: Payload, altered: Payload, at: nat)
    requires Intact(reference, payload) && altered.checksum == payload.checksum
    requires altered.decoded.Some? && |altered.decoded.value| == |payload.decoded.value|
    requires altered.decoded != payload.decoded
    requires forall k | 0 <= k < 8 * |payload.decoded.value| && !(at <= k < at + 32) ::
               Bits(payload.decoded.value)[k] == Bits(altered.decoded.value)[k]
    ensures !Intact(reference, altered)
  {
    hide Crc, Bits;
    BurstDetected(payload.decoded.value, altered.decoded.value, at);
    SameNumber(Crc(payload.decoded.value), Crc(altered.decoded.value));
  }

  lemma SameNumber(a: bv32, b: bv32)
    ensures a as int == b as int ==> a == b
  {
    assert (a as int) as bv32 == a && (b as int) as bv32 == b;
  }
}

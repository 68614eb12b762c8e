/** XXH32 in plain arithmetic, and its value on inputs of every length class. */
module KnownAnswers {
  import opened Basics
  import opened XxHash

  // ---------- Shifts, rotations and exclusive or ----------

  lemma QuotientIsUnique(x: nat, q: nat, p: nat, r: nat)
    requires x == q * p + r && r < p
    ensures x / p == q
  {
    var d := x / p - q;
    assert d * p == r - x % p;
    if d >= 1 { MulMonotone(1, d, p); }
    if d <= -1 { MulMonotone(1, -d, p); assert (-d) * p == -(d * p); }
  }

  /** A shift to the right divides. */
  lemma ShrDivides(x: nat, n: nat)
    ensures Shr(x, n) == x / Pow2(n)
  {
    SplitAtBit(x, n);
    QuotientIsUnique(x, Shr(x, n), Pow2(n), Low(x, n));
  }

  /** A rotation to the left: the bits moved up, less those that fall out, plus those that come in again below. */
  lemma RotlTurns(x: word, n: nat)
    requires n <= 32
    ensures Rotl(x, n) == x * Pow2(n) % 0x1_0000_0000 + x / Pow2(32 - n)
  {
    var p, q := Pow2(n), Pow2(32 - n);
    Pow2Adds(n, 32 - n);
    WordIs32Bits();
    SplitAtBit(x, 32 - n);
    SplitWord(Shr(x, 32 - n), Low(x, 32 - n), p, q);
    RotlSwapsParts(x, n);
    ShrDivides(x, 32 - n);
  }

  lemma Powers()
    ensures Pow2(1) == 0x2 && Pow2(7) == 0x80 && Pow2(11) == 0x800 && Pow2(12) == 0x1000 && Pow2(13) == 0x2000
    ensures Pow2(14) == 0x4000 && Pow2(15) == 0x8000 && Pow2(16) == 0x1_0000 && Pow2(17) == 0x2_0000 && Pow2(18) == 0x4_0000
    ensures Pow2(19) == 0x8_0000 && Pow2(20) == 0x10_0000 && Pow2(21) == 0x20_0000 && Pow2(25) == 0x200_0000
    ensures Pow2(31) == 0x8000_0000
  {
    assert Pow2(1) == 2 && Pow2(2) == 4 && Pow2(4) == 16 && Pow2(7) == 0x80;
    Pow2Adds(4, 7);
    Pow2Adds(11, 1);
    Pow2Adds(11, 2);
    Pow2Adds(13, 1);
    Pow2Adds(14, 1);
    Pow2Adds(15, 1);
    Pow2Adds(16, 1);
    Pow2Adds(16, 2);
    Pow2Adds(18, 1);
    Pow2Adds(18, 2);
    Pow2Adds(20, 1);
    Pow2Adds(18, 7);
    Pow2Adds(20, 11);
  }

  // ---------- Exclusive or, digit by digit ----------

  /** A word as its eight hexadecimal digits. */
  datatype Hex = Hex(d7: int, d6: int, d5: int, d4: int, d3: int, d2: int, d1: int, d0: int)

  /** A digit as its four bits. */
  datatype Bits = Bits(p3: bool, p2: bool, p1: bool, p0: bool)

  predicate IsDigit(d: int) {
    0 <= d < 0x10
  }

  predicate AreDigits(x: Hex) {
    && IsDigit(x.d7) && IsDigit(x.d6) && IsDigit(x.d5) && IsDigit(x.d4)
    && IsDigit(x.d3) && IsDigit(x.d2) && IsDigit(x.d1) && IsDigit(x.d0)
  }

  function Number(x: Hex): int {
    0x1000_0000 * x.d7 + 0x100_0000 * x.d6 + 0x10_0000 * x.d5 + 0x1_0000 * x.d4
    + 0x1000 * x.d3 + 0x100 * x.d2 + 0x10 * x.d1 + x.d0
  }

  function BitsOf(d: int): Bits {
    if d == 0 then Bits(false, false, false, false) else if d == 1 then Bits(false, false, false, true) else if d == 2 then Bits(false, false, true, false) else if d == 3 then Bits(false, false, true, true)
    else if d == 4 then Bits(false, true, false, false) else if d == 5 then Bits(false, true, false, true) else if d == 6 then Bits(false, true, true, false) else if d == 7 then Bits(false, true, true, true)
    else if d == 8 then Bits(true, false, false, false) else if d == 9 then Bits(true, false, false, true) else if d == 10 then Bits(true, false, true, false) else if d == 11 then Bits(true, false, true, true)
    else if d == 12 then Bits(true, true, false, false) else if d == 13 then Bits(true, true, false, true) else if d == 14 then Bits(true, true, true, false) else Bits(true, true, true, true)
  }

  function Value(b: Bits): int {
    (if b.p3 then 8 else 0) + (if b.p2 then 4 else 0) + (if b.p1 then 2 else 0) + (if b.p0 then 1 else 0)
  }

  function DigitXor(d: int, e: int): int {
    var x, y := BitsOf(d), BitsOf(e);
    Value(Bits(x.p3 != y.p3, x.p2 != y.p2, x.p1 != y.p1, x.p0 != y.p0))
  }

  function HexXor(x: Hex, y: Hex): Hex {
    Hex(DigitXor(x.d7, y.d7), DigitXor(x.d6, y.d6), DigitXor(x.d5, y.d5), DigitXor(x.d4, y.d4),
        DigitXor(x.d3, y.d3), DigitXor(x.d2, y.d2), DigitXor(x.d1, y.d1), DigitXor(x.d0, y.d0))
  }

  function Bit(p: bool): nat {
    if p then 1 else 0
  }

  lemma OneMoreBit(a: nat, b: nat, p: bool, q: bool)
    ensures Xor(2 * a + Bit(p), 2 * b + Bit(q)) == 2 * Xor(a, b) + Bit(p != q)
  {
    XorStep(2 * a + Bit(p), 2 * b + Bit(q));
    hide Xor;
    assert (2 * a + Bit(p)) / 2 == a && (2 * b + Bit(q)) / 2 == b;
  }

  lemma FourMoreBits(a: nat, b: nat, p: Bits, q: Bits)
    ensures Xor(0x10 * a + Value(p), 0x10 * b + Value(q)) ==
            0x10 * Xor(a, b) + Value(Bits(p.p3 != q.p3, p.p2 != q.p2, p.p1 != q.p1, p.p0 != q.p0))
  {
    BitsAdd(p);
    BitsAdd(q);
    BitsAdd(Bits(p.p3 != q.p3, p.p2 != q.p2, p.p1 != q.p1, p.p0 != q.p0));
    hide Xor, Bit, Value;
    var a1, b1 := 2 * a + Bit(p.p3), 2 * b + Bit(q.p3);
    var a2, b2 := 2 * a1 + Bit(p.p2), 2 * b1 + Bit(q.p2);
    OneMoreBit(a, b, p.p3, q.p3);
    OneMoreBit(a1, b1, p.p2, q.p2);
    OneMoreBit(a2, b2, p.p1, q.p1);
    OneMoreBit(2 * a2 + Bit(p.p1), 2 * b2 + Bit(q.p1), p.p0, q.p0);
  }

  lemma BitsAdd(b: Bits)
    ensures Value(b) == 8 * Bit(b.p3) + 4 * Bit(b.p2) + 2 * Bit(b.p1) + Bit(b.p0)
  {
  }

  lemma DigitHasBits(d: int)
    requires IsDigit(d)
    ensures Value(BitsOf(d)) == d
  {
  }

  lemma OneMoreDigit(a: nat, b: nat, d: int, e: int)
    requires IsDigit(d) && IsDigit(e)
    ensures Xor(0x10 * a + d, 0x10 * b + e) == 0x10 * Xor(a, b) + DigitXor(d, e)
  {
    hide Xor, BitsOf, Value;
    DigitHasBits(d);
    DigitHasBits(e);
    FourMoreBits(a, b, BitsOf(d), BitsOf(e));
  }

  lemma FourMoreDigits(a: nat, b: nat, d3: int, d2: int, d1: int, d0: int, e3: int, e2: int, e1: int, e0: int)
    requires IsDigit(d3) && IsDigit(d2) && IsDigit(d1) && IsDigit(d0)
    requires IsDigit(e3) && IsDigit(e2) && IsDigit(e1) && IsDigit(e0)
    ensures Xor(0x1_0000 * a + 0x1000 * d3 + 0x100 * d2 + 0x10 * d1 + d0, 0x1_0000 * b + 0x1000 * e3 + 0x100 * e2 + 0x10 * e1 + e0) ==
            0x1_0000 * Xor(a, b) + 0x1000 * DigitXor(d3, e3) + 0x100 * DigitXor(d2, e2) + 0x10 * DigitXor(d1, e1) + DigitXor(d0, e0)
  {
    hide Xor, DigitXor;
    OneMoreDigit(a, b, d3, e3);
    OneMoreDigit(0x10 * a + d3, 0x10 * b + e3, d2, e2);
    OneMoreDigit(0x100 * a + 0x10 * d3 + d2, 0x100 * b + 0x10 * e3 + e2, d1, e1);
    OneMoreDigit(0x1000 * a + 0x100 * d3 + 0x10 * d2 + d1, 0x1000 * b + 0x100 * e3 + 0x10 * e2 + e1, d0, e0);
  }

  lemma XorOfNothing()
    ensures Xor(0, 0) == 0
  {
  }

  /** Words can be xored digit by digit. */
  lemma XorOfDigits(x: Hex, y: Hex)
    requires AreDigits(x) && AreDigits(y)
    ensures Number(x) >= 0 && Number(y) >= 0 && Xor(Number(x), Number(y)) == Number(HexXor(x, y))
  {
    hide Xor, DigitXor;
    XorOfNothing();
    var x4, y4 := 0x1000 * x.d7 + 0x100 * x.d6 + 0x10 * x.d5 + x.d4, 0x1000 * y.d7 + 0x100 * y.d6 + 0x10 * y.d5 + y.d4;
    FourMoreDigits(0, 0, x.d7, x.d6, x.d5, x.d4, y.d7, y.d6, y.d5, y.d4);
    FourMoreDigits(x4, y4, x.d3, x.d2, x.d1, x.d0, y.d3, y.d2, y.d1, y.d0);
  }

  // ---------- Every step with its numbers ----------

  function Turned(x: nat, up: nat, down: nat): nat
    requires down > 0
  {
    x * up % 0x1_0000_0000 + x / down
  }

  lemma PlusProduct(acc: word, k: word, prime: word)
    ensures Plus(acc, Mul(k, prime)) == (acc + k * prime) % 0x1_0000_0000
  {
    SumOfRest(acc, k * prime);
  }

  lemma SumOfRest(a: nat, b: nat)
    ensures (a + b % WORDS) % WORDS == (a + b) % WORDS
  {
  }

  lemma RoundInNumbers(acc: word, lane: word)
    ensures Round(acc, lane) ==
            Turned((acc + lane * 2246822519) % 0x1_0000_0000, 0x2000, 0x8_0000) * 2654435761 % 0x1_0000_0000
  {
    hide Rotl, Pow2, Plus;
    Powers();
    PlusProduct(acc, lane, PRIME2);
    RotlTurns(Plus(acc, Mul(lane, PRIME2)), 13);
  }

  lemma TailWordInNumbers(acc: word, lane: word)
    ensures TailWord(acc, lane) ==
            Turned((acc + lane * 3266489917) % 0x1_0000_0000, 0x2_0000, 0x8000) * 668265263 % 0x1_0000_0000
  {
    hide Rotl, Pow2, Plus;
    Powers();
    PlusProduct(acc, lane, PRIME3);
    RotlTurns(Plus(acc, Mul(lane, PRIME3)), 17);
  }

  lemma TailByteInNumbers(acc: word, b: byte)
    ensures TailByte(acc, b) ==
            Turned((acc + b * 374761393) % 0x1_0000_0000, 0x800, 0x20_0000) * 2654435761 % 0x1_0000_0000
  {
    hide Rotl, Pow2, Plus;
    Powers();
    PlusProduct(acc, b, PRIME5);
    RotlTurns(Plus(acc, Mul(b, PRIME5)), 11);
  }

  lemma ConvergeInNumbers(v1: word, v2: word, v3: word, v4: word)
    ensures Converge(v1, v2, v3, v4) ==
            (Turned(v1, 0x2, 0x8000_0000) + Turned(v2, 0x80, 0x200_0000)
             + Turned(v3, 0x1000, 0x10_0000) + Turned(v4, 0x4_0000, 0x4000)) % 0x1_0000_0000
  {
    var r1, r2, r3, r4 := Rotl(v1, 1), Rotl(v2, 7), Rotl(v3, 12), Rotl(v4, 18);
    ConvergeAdds(v1, v2, v3, v4);
    hide Rotl, Pow2, Converge;
    Powers();
    RotlTurns(v1, 1);
    RotlTurns(v2, 7);
    RotlTurns(v3, 12);
    RotlTurns(v4, 18);
  }

  lemma ConvergeAdds(v1: word, v2: word, v3: word, v4: word)
    ensures Converge(v1, v2, v3, v4) == (Rotl(v1, 1) + Rotl(v2, 7) + Rotl(v3, 12) + Rotl(v4, 18)) % 0x1_0000_0000
  {
    hide Rotl;
  }

  /** k is h shifted to the right, and m is h xor k. */
  predicate Mixes(h: Hex, k: Hex, m: Hex, down: nat) {
    && AreDigits(h) && AreDigits(k) && 0 <= Number(h) < 0x1_0000_0000 && down > 0
    && Number(k) == Number(h) / down && HexXor(h, k) == m
  }

  lemma MixOfDigits(h: Hex, k: Hex, m: Hex, n: nat, down: nat)
    requires Mixes(h, k, m, down) && Pow2(n) == down
    ensures Mix(Number(h), n) == Number(m)
  {
    hide Xor, HexXor;
    ShrDivides(Number(h), n);
    XorOfDigits(h, k);
  }

  // ---------- Known answers ----------

  /** The bytes 0, 1, 2, and so on. */
  function Counting(n: nat): (data: seq<byte>)
    requires n <= 0x100
    ensures |data| == n && forall i :: 0 <= i < n ==> data[i] == i
  {
    seq(n, i requires 0 <= i < 0x100 => i)
  }

  lemma ReadCounting(n: nat, p: nat)
    requires p + 4 <= n <= 0x100
    ensures Read32(Counting(n), p) == p + 0x100 * (p + 1) + 0x1_0000 * (p + 2) + 0x100_0000 * (p + 3)
  {
  }

  lemma LaneOfCounting(n: nat, seed: word, j: nat, k: nat, acc: word, x: word, y: word, z: word)
    requires j < 4 && 0 < k && 16 * k <= n <= 0x100 && Lane(Counting(n), seed, j, k - 1) == acc
    requires var p := 16 * (k - 1) + 4 * j;
             x == (acc + (p + 0x100 * (p + 1) + 0x1_0000 * (p + 2) + 0x100_0000 * (p + 3)) * 2246822519) % 0x1_0000_0000
    requires y == Turned(x, 0x2000, 0x8_0000) && z == y * 2654435761 % 0x1_0000_0000
    ensures Lane(Counting(n), seed, j, k) == z
  {
    hide Round, Read32, Counting;
    var p := 16 * (k - 1) + 4 * j;
    ReadCounting(n, p);
    RoundInNumbers(acc, Read32(Counting(n), p));
  }

  lemma WordOfCounting(n: nat, acc: word, p: nat, x: word, y: word, z: word)
    requires p + 4 <= n <= 0x100
    requires x == (acc + (p + 0x100 * (p + 1) + 0x1_0000 * (p + 2) + 0x100_0000 * (p + 3)) * 3266489917) % 0x1_0000_0000
    requires y == Turned(x, 0x2_0000, 0x8000) && z == y * 668265263 % 0x1_0000_0000
    ensures Consume(acc, Counting(n), p) == Consume(z, Counting(n), p + 4)
  {
    hide TailWord, Read32, Counting;
    ReadCounting(n, p);
    TailWordInNumbers(acc, Read32(Counting(n), p));
  }

  lemma ByteOf(data: seq<byte>, acc: word, p: nat, b: int, x: word, y: word, z: word)
    requires p < |data| < p + 4 && data[p] == b && x == (acc + b * 374761393) % 0x1_0000_0000
    requires y == Turned(x, 0x800, 0x20_0000) && z == y * 2654435761 % 0x1_0000_0000
    ensures Consume(acc, data, p) == Consume(z, data, p + 1)
  {
    hide TailByte;
    TailByteInNumbers(acc, data[p]);
  }

  lemma NothingLeft(data: seq<byte>, acc: word)
    ensures Consume(acc, data, |data|) == acc
  {
  }

  lemma FirstLanes(data: seq<byte>, seed: word)
    ensures Lane(data, seed, 0, 0) == (seed + 606290984) % 0x1_0000_0000
    ensures Lane(data, seed, 1, 0) == (seed + 2246822519) % 0x1_0000_0000
    ensures Lane(data, seed, 2, 0) == seed
    ensures Lane(data, seed, 3, 0) == (seed - 2654435761) % 0x1_0000_0000
  {
  }

  lemma EmptyMix()
    ensures Avalanche(0x1656_67B1) == 0x02CC_5D05
  {
    hide Mix, Pow2;
    Powers();
    MixOfDigits(Hex(1, 6, 5, 6, 6, 7, 0xB, 1), Hex(0, 0, 0, 0, 2, 0xC, 0xA, 0xC), Hex(1, 6, 5, 6, 4, 0xB, 1, 0xD), 15, 0x8000);
    MixOfDigits(Hex(7, 0xE, 0, 0, 0xC, 0xC, 7, 0xB), Hex(0, 0, 0, 3, 0xF, 0, 0, 6), Hex(7, 0xE, 0, 3, 3, 0xC, 7, 0xD), 13, 0x2000);
    MixOfDigits(Hex(0, 2, 0xC, 0xC, 5, 0xF, 0xC, 9), Hex(0, 0, 0, 0, 0, 2, 0xC, 0xC), Hex(0, 2, 0xC, 0xC, 5, 0xD, 0, 5), 16, 0x1_0000);
  }

  lemma Empty()
    ensures XXH32([], 0) == 0x02CC_5D05
  {
    hide Consume, Avalanche;
    NothingLeft([], 0x1656_67B1);
    EmptyMix();
  }

  lemma ZeroByteMix()
    ensures Avalanche(0xF933_2D12) == 0xCF65_B03E
  {
    hide Mix, Pow2;
    Powers();
    MixOfDigits(Hex(0xF, 9, 3, 3, 2, 0xD, 1, 2), Hex(0, 0, 0, 1, 0xF, 2, 6, 6), Hex(0xF, 9, 3, 2, 0xD, 0xF, 7, 4), 15, 0x8000);
    MixOfDigits(Hex(5, 0xE, 7, 3, 6, 6, 0xE, 0xC), Hex(0, 0, 0, 2, 0xF, 3, 9, 0xB), Hex(5, 0xE, 7, 1, 9, 5, 7, 7), 13, 0x2000);
    MixOfDigits(Hex(0xC, 0xF, 6, 5, 7, 0xF, 5, 0xB), Hex(0, 0, 0, 0, 0xC, 0xF, 6, 5), Hex(0xC, 0xF, 6, 5, 0xB, 0, 3, 0xE), 16, 0x1_0000);
  }

  lemma ZeroByte()
    ensures XXH32([0], 0) == 0xCF65_B03E
  {
    hide Consume, Avalanche;
    ByteOf([0], 0x1656_67B2, 0, 0, 0x1656_67B2, 0xB33D_90B2, 0xF933_2D12);
    NothingLeft([0], 0xF933_2D12);
    ZeroByteMix();
  }

  lemma AbcMix()
    ensures Avalanche(0x760A_1E67) == 0x32D1_53FF
  {
    hide Mix, Pow2;
    Powers();
    MixOfDigits(Hex(7, 6, 0, 0xA, 1, 0xE, 6, 7), Hex(0, 0, 0, 0, 0xE, 0xC, 1, 4), Hex(7, 6, 0, 0xA, 0xF, 2, 7, 3), 15, 0x8000);
    MixOfDigits(Hex(0xD, 0, 0xF, 6, 7, 1, 7, 5), Hex(0, 0, 0, 6, 8, 7, 0xB, 3), Hex(0xD, 0, 0xF, 0, 0xF, 6, 0xC, 6), 13, 0x2000);
    MixOfDigits(Hex(3, 2, 0xD, 1, 6, 1, 2, 0xE), Hex(0, 0, 0, 0, 3, 2, 0xD, 1), Hex(3, 2, 0xD, 1, 5, 3, 0xF, 0xF), 16, 0x1_0000);
  }

  lemma Abc()
    ensures XXH32([97, 98, 99], 0) == 0x32D1_53FF
  {
    hide Consume, Avalanche;
    ByteOf([97, 98, 99], 0x1656_67B4, 0, 97, 0x8D13_B1C5, 0x9D8E_2C68, 0xDCA1_DBE8);
    ByteOf([97, 98, 99], 0xDCA1_DBE8, 1, 98, 0x69B5_8DAA, 0xAC6D_534D, 0x4F80_FD3D);
    ByteOf([97, 98, 99], 0x4F80_FD3D, 2, 99, 0xF2EB_16B0, 0x58B5_8797, 0x760A_1E67);
    NothingLeft([97, 98, 99], 0x760A_1E67);
    AbcMix();
  }

  lemma LongStripe1()
    ensures Lane(Counting(27), 0, 0, 1) == 0xF817_BCCB && Lane(Counting(27), 0, 1, 1) == 0x0222_719B
    ensures Lane(Counting(27), 0, 2, 1) == 0xD4B0_C0A4 && Lane(Counting(27), 0, 3, 1) == 0xDEBB_7574
  {
    hide Lane, Counting;
    FirstLanes(Counting(27), 0);
    LaneOfCounting(27, 0, 0, 1, 0x2423_4428, 0x09DB_BB28, 0x7765_013B, 0xF817_BCCB);
    LaneOfCounting(27, 0, 1, 1, 0x85EB_CA77, 0x3859_4753, 0x28EA_670B, 0x0222_719B);
    LaneOfCounting(27, 0, 2, 1, 0x0000_0000, 0x7F22_82B8, 0x5057_0FE4, 0xD4B0_C0A4);
    LaneOfCounting(27, 0, 3, 1, 0x61C8_864F, 0xADA0_0EE3, 0x01DC_75B4, 0xDEBB_7574);
  }

  lemma LongTail()
    ensures Consume(0xE346_0F6B, Counting(27), 16) == 0x4DCC_90CC
  {
    hide Consume, Counting;
    NothingLeft(Counting(27), 0x4DCC_90CC);
    WordOfCounting(27, 0xE346_0F6B, 16, 0xB34D_003B, 0x0077_669A, 0x1EA3_3446);
    WordOfCounting(27, 0x1EA3_3446, 20, 0x7121_D20A, 0xA414_E243, 0xE005_0B4D);
    ByteOf(Counting(27), 0xE005_0B4D, 24, 24, 0xF81E_C3E5, 0xF61F_2FC0, 0xAB61_C3C0);
    ByteOf(Counting(27), 0xAB61_C3C0, 25, 25, 0xD9D1_E409, 0x8F20_4ECE, 0x4CD7_DA6E);
    ByteOf(Counting(27), 0x4CD7_DA6E, 26, 26, 0x919E_6268, 0xF313_448C, 0x4DCC_90CC);
  }

  lemma LongMix()
    ensures Avalanche(0x4DCC_90CC) == 0xCBEA_6BCF
  {
    hide Mix, Pow2;
    Powers();
    MixOfDigits(Hex(4, 0xD, 0xC, 0xC, 9, 0, 0xC, 0xC), Hex(0, 0, 0, 0, 9, 0xB, 9, 9), Hex(4, 0xD, 0xC, 0xC, 0, 0xB, 5, 5), 15, 0x8000);
    MixOfDigits(Hex(0xB, 0xA, 0xD, 1, 5, 6, 8, 3), Hex(0, 0, 0, 5, 0xD, 6, 8, 0xA), Hex(0xB, 0xA, 0xD, 4, 8, 0, 0, 9), 13, 0x2000);
    MixOfDigits(Hex(0xC, 0xB, 0xE, 0xA, 0xA, 0, 2, 5), Hex(0, 0, 0, 0, 0xC, 0xB, 0xE, 0xA), Hex(0xC, 0xB, 0xE, 0xA, 6, 0xB, 0xC, 0xF), 16, 0x1_0000);
  }

  lemma Long()
    ensures XXH32(Counting(27), 0) == 0xCBEA_6BCF
  {
    hide Lane, Converge, Consume, Avalanche, Counting;
    LongStripe1();
    ConvergeInNumbers(0xF817_BCCB, 0x0222_719B, 0xD4B0_C0A4, 0xDEBB_7574);
    LongTail();
    LongMix();
  }

  lemma SeededStripe1()
    ensures Lane(Counting(37), 0x9E37_79B1, 0, 1) == 0xECCB_9862 && Lane(Counting(37), 0x9E37_79B1, 1, 1) == 0xF6D6_4D32
    ensures Lane(Counting(37), 0x9E37_79B1, 2, 1) == 0xDA2E_7C3B && Lane(Counting(37), 0x9E37_79B1, 3, 1) == 0x4601_B75A
  {
    hide Lane, Counting;
    FirstLanes(Counting(37), 0x9E37_79B1);
    LaneOfCounting(37, 0x9E37_79B1, 0, 1, 0xC25A_BDD9, 0xA813_34D9, 0x669B_3502, 0xECCB_9862);
    LaneOfCounting(37, 0x9E37_79B1, 1, 1, 0x2423_4428, 0xD690_C104, 0x1820_9AD2, 0xF6D6_4D32);
    LaneOfCounting(37, 0x9E37_79B1, 2, 1, 0x9E37_79B1, 0x1D59_FC69, 0x3F8D_23AB, 0xDA2E_7C3B);
    LaneOfCounting(37, 0x9E37_79B1, 3, 1, 0x0000_0000, 0x4BD7_8894, 0xF112_897A, 0x4601_B75A);
  }

  lemma SeededStripe2()
    ensures Lane(Counting(37), 0x9E37_79B1, 0, 2) == 0xF234_893B && Lane(Counting(37), 0x9E37_79B1, 1, 2) == 0x60C5_36E2
    ensures Lane(Counting(37), 0x9E37_79B1, 2, 2) == 0x0C5D_E044 && Lane(Counting(37), 0x9E37_79B1, 3, 2) == 0x2472_2C05
  {
    hide Lane, Counting;
    SeededStripe1();
    LaneOfCounting(37, 0x9E37_79B1, 0, 2, 0xECCB_9862, 0x0558_26D2, 0x04DA_40AB, 0xF234_893B);
    LaneOfCounting(37, 0x9E37_79B1, 1, 2, 0xF6D6_4D32, 0xDC17_E17E, 0xFC2F_DB82, 0x60C5_36E2);
    LaneOfCounting(37, 0x9E37_79B1, 2, 2, 0xDA2E_7C3B, 0x8C25_1663, 0xA2CC_7184, 0x0C5D_E044);
    LaneOfCounting(37, 0x9E37_79B1, 3, 2, 0x4601_B75A, 0xC4AD_575E, 0xAAEB_D895, 0x2472_2C05);
  }

  lemma SeededTail()
    ensures Consume(0xD51D_5659, Counting(37), 32) == 0x8E37_C0F2
  {
    hide Consume, Counting;
    NothingLeft(Counting(37), 0x8E37_C0F2);
    WordOfCounting(37, 0xD51D_5659, 32, 0xAF02_FAF9, 0xF5F3_5E05, 0x2E20_D9EB);
    ByteOf(Counting(37), 0x2E20_D9EB, 36, 36, 0x5247_6ECF, 0x3B76_7A92, 0x8E37_C0F2);
  }

  lemma SeededMix()
    ensures Avalanche(0x8E37_C0F2) == 0x6437_81D7
  {
    hide Mix, Pow2;
    Powers();
    MixOfDigits(Hex(8, 0xE, 3, 7, 0xC, 0, 0xF, 2), Hex(0, 0, 0, 1, 1, 0xC, 6, 0xF), Hex(8, 0xE, 3, 6, 0xD, 0xC, 9, 0xD), 15, 0x8000);
    MixOfDigits(Hex(7, 0xA, 0xB, 3, 6, 0xE, 0xF, 0xB), Hex(0, 0, 0, 3, 0xD, 5, 9, 0xB), Hex(7, 0xA, 0xB, 0, 0xB, 0xB, 6, 0), 13, 0x2000);
    MixOfDigits(Hex(6, 4, 3, 7, 0xE, 5, 0xE, 0), Hex(0, 0, 0, 0, 6, 4, 3, 7), Hex(6, 4, 3, 7, 8, 1, 0xD, 7), 16, 0x1_0000);
  }

  lemma Seeded()
    ensures XXH32(Counting(37), 0x9E37_79B1) == 0x6437_81D7
  {
    hide Lane, Converge, Consume, Avalanche, Counting;
    SeededStripe2();
    ConvergeInNumbers(0xF234_893B, 0x60C5_36E2, 0x0C5D_E044, 0x2472_2C05);
    SeededTail();
    SeededMix();
  }
}

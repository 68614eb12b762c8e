/** The 32-bit hash that the tracer computes over syscall buffers, against XXH32 as the
    xxHash specification describes it ("XXH32 Algorithm Description", Steps 1 to 7).

    A word is a natural number below 2^32; its wrapping sum and product, its shifts and its
    bitwise operations are spelled out below. */
module XxHash {
  import opened Basics

  type word = x: int | 0 <= x < 0x1_0000_0000

  const WORDS: nat := 0x1_0000_0000
  const MAX_BUF_SIZE := 4096

  const PRIME1: word := 2654435761
  const PRIME2: word := 2246822519
  const PRIME3: word := 3266489917
  const PRIME4: word := 668265263
  const PRIME5: word := 374761393

  // ---------- Word operations ----------

  function Plus(a: word, b: word): word { (a + b) % WORDS }

  function Minus(a: word, b: word): word { (a - b) % WORDS }

  function Mul(a: word, b: word): word { (a * b) % WORDS }

  function Pow2(n: nat): (p: nat)
    ensures p > 0
  {
    if n == 0 then 1 else 2 * Pow2(n - 1)
  }

  function Shl(x: word, n: nat): word { (x * Pow2(n)) % WORDS }

  function Shr(x: nat, n: nat): (r: nat)
    ensures r <= x
  {
    if n == 0 then x else Shr(x / 2, n - 1)
  }

  function Or(a: nat, b: nat): (r: nat)
    ensures r <= a + b
  {
    if a == 0 && b == 0 then 0
    else 2 * Or(a / 2, b / 2) + (if a % 2 == 1 || b % 2 == 1 then 1 else 0)
  }

  function Xor(a: nat, b: nat): nat {
    if a == 0 && b == 0 then 0
    else 2 * Xor(a / 2, b / 2) + (a + b) % 2
  }

  /** The header's seven rotations, `(x << n) | (x >> (32 - n))`. */
  function Rotl(x: word, n: nat): word
    requires n <= 32
  {
    RotlSwapsParts(x, n);
    Or(Shl(x, n), Shr(x, 32 - n))
  }

  // ---------- The standard ----------

  /** Little-endian word at byte position p. */
  function Read32(data: seq<byte>, p: nat): word
    requires p + 4 <= |data|
  {
    LittleEndian(data[p], data[p + 1], data[p + 2], data[p + 3])
  }

  function LittleEndian(b0: int, b1: int, b2: int, b3: int): word
    requires 0 <= b0 < 0x100 && 0 <= b1 < 0x100 && 0 <= b2 < 0x100 && 0 <= b3 < 0x100
  {
    b0 + 0x100 * b1 + 0x1_0000 * b2 + 0x100_0000 * b3
  }

  /** Step 1: the four initial accumulators. */
  function InitialLane(seed: word, j: nat): word
    requires j < 4
  {
    match j
    case 0 => Plus(Plus(seed, PRIME1), PRIME2)
    case 1 => Plus(seed, PRIME2)
    case 2 => seed
    case 3 => Minus(seed, PRIME1)
  }

  /** Step 2: what one lane does with one word. */
  function Round(acc: word, lane: word): word {
    Mul(Rotl(Plus(acc, Mul(lane, PRIME2)), 13), PRIME1)
  }

  /** Step 2: accumulator j after the first n stripes of 16 bytes. */
  function Lane(data: seq<byte>, seed: word, j: nat, n: nat): word
    requires j < 4 && 16 * n <= |data|
  {
    if n == 0 then InitialLane(seed, j)
    else Round(Lane(data, seed, j, n - 1), Read32(data, 16 * (n - 1) + 4 * j))
  }

  /** Step 3. */
  function Converge(v1: word, v2: word, v3: word, v4: word): word {
    Plus(Plus(Plus(Rotl(v1, 1), Rotl(v2, 7)), Rotl(v3, 12)), Rotl(v4, 18))
  }

  /** Steps 1 to 3, with the special case for inputs shorter than one stripe. */
  function Start(data: seq<byte>, seed: word): word {
    if |data| < 16 then Plus(seed, PRIME5)
    else
      var n := |data| / 16;
      Converge(Lane(data, seed, 0, n), Lane(data, seed, 1, n), Lane(data, seed, 2, n), Lane(data, seed, 3, n))
  }

  function TailWord(acc: word, lane: word): word {
    Mul(Rotl(Plus(acc, Mul(lane, PRIME3)), 17), PRIME4)
  }

  function TailByte(acc: word, b: byte): word {
    Mul(Rotl(Plus(acc, Mul(b, PRIME5)), 11), PRIME1)
  }

  /** Step 5: whole words while at least four bytes remain, then single bytes. */
  function Consume(acc: word, data: seq<byte>, p: nat): word
    requires p <= |data|
    decreases |data| - p
  {
    if p + 4 <= |data| then Consume(TailWord(acc, Read32(data, p)), data, p + 4)
    else if p < |data| then Consume(TailByte(acc, data[p]), data, p + 1)
    else acc
  }

  /** Step 6: the final mix. */
  function Avalanche(acc: word): word {
    Mix(Mul(Mix(Mul(Mix(acc, 15), PRIME2), 13), PRIME3), 16)
  }

  /** `h ^= h >> n` */
  function Mix(h: word, n: nat): word {
    XorShiftIsWord(h, n);
    Xor(h, Shr(h, n))
  }

  /** The length as it enters Step 4: its residue modulo 2^32. */
  function LengthWord(len: int): word {
    len % WORDS
  }

  lemma LengthIsResidue(len: int)
    ensures LengthWord(len) == len % 0x1_0000_0000
  {
  }

  /** XXH32 of an input of any length. */
  function XXH32(data: seq<byte>, seed: word): word {
    Avalanche(Consume(Plus(Start(data, seed), LengthWord(|data|)), data, |data| / 16 * 16))
  }

  // ---------- The tracer's loop-capped version ----------

  /** Every loop carries the constant cap that the kernel's verifier asks for. None of them ever
      cuts an input short: up to MAX_BUF_SIZE bytes the result is XXH32 of exactly those bytes. */
  method XxHash32(buf: seq<byte>, len: int, seed: word) returns (h: word)
    requires len <= |buf|
    ensures len > 4096 ==> h == 0
    ensures 0 <= len <= 4096 ==> h == XXH32(buf[..len], seed)
    ensures len < 0 ==> h == Avalanche(Plus(Plus(seed, PRIME5), len % 0x1_0000_0000))
  {
    LengthIsResidue(len);
    hide Plus, Minus, Mul, Rotl, Mix, Read32, LengthWord;
    if len > MAX_BUF_SIZE { return 0; }
    ghost var input := if len < 0 then [] else buf[..len];
    var i, j, pos := 0, 0, 0;
    var k: word;
    if len >= 16 {
      var v1 := Plus(Plus(seed, PRIME1), PRIME2);
      var v2 := Plus(seed, PRIME2);
      var v3 := seed;
      var v4 := Minus(seed, PRIME1);
      while i <= len - 16 && j < MAX_BUF_SIZE / 16
        invariant i == 16 * j == pos <= len
        invariant v1 == Lane(input, seed, 0, j)
        invariant v2 == Lane(input, seed, 1, j)
        invariant v3 == Lane(input, seed, 2, j)
        invariant v4 == Lane(input, seed, 3, j)
        decreases len - i
      {
        k := Read32Of(buf, input, pos);
        v1 := Plus(v1, Mul(k, PRIME2));
        v1 := Mul(Rotl(v1, 13), PRIME1);
        pos := pos + 4;
        k := Read32Of(buf, input, pos);
        v2 := Plus(v2, Mul(k, PRIME2));
        v2 := Mul(Rotl(v2, 13), PRIME1);
        pos := pos + 4;
        k := Read32Of(buf, input, pos);
        v3 := Plus(v3, Mul(k, PRIME2));
        v3 := Mul(Rotl(v3, 13), PRIME1);
        pos := pos + 4;
        k := Read32Of(buf, input, pos);
        v4 := Plus(v4, Mul(k, PRIME2));
        v4 := Mul(Rotl(v4, 13), PRIME1);
        pos := pos + 4;
        i, j := i + 16, j + 1;
      }
      h := Plus(Plus(Plus(Rotl(v1, 1), Rotl(v2, 7)), Rotl(v3, 12)), Rotl(v4, 18));
    } else {
      h := Plus(seed, PRIME5);
    }
    h := Plus(h, LengthWord(len));
    ghost var total := Consume(h, input, i);
    j := 0;
    while i <= len - 4 && j < 16
      invariant 0 <= j && 0 <= i == pos <= |input|
      invariant len - i == len - |input| / 16 * 16 - 4 * j
      invariant total == Consume(h, input, i)
      decreases len - i
    {
      k := Read32Of(buf, input, pos);
      h := Plus(h, Mul(k, PRIME3));
      h := Mul(Rotl(h, 17), PRIME4);
      pos := pos + 4;
      i, j := i + 4, j + 1;
    }
    ghost var words := i;
    j := 0;
    while i < len && j < 4
      invariant 0 <= j && 0 <= i == pos <= |input|
      invariant i == words + j
      invariant total == Consume(h, input, i)
      decreases len - i
    {
      var val := buf[pos];
      h := Plus(h, Mul(val, PRIME5));
      h := Mul(Rotl(h, 11), PRIME1);
      pos := pos + 1;
      i, j := i + 1, j + 1;
    }
    h := Mix(h, 15);
    h := Mul(h, PRIME2);
    h := Mix(h, 13);
    h := Mul(h, PRIME3);
    h := Mix(h, 16);
  }

  /** A four-byte probe of the buffer; the hashed input is a prefix of it. */
  function Read32Of(buf: seq<byte>, ghost input: seq<byte>, p: nat): (k: word)
    requires input <= buf && p + 4 <= |input|
    ensures k == Read32(input, p)
  {
    Read32(buf, p)
  }

  // ---------- Every word operation can be undone ----------

  lemma {:induction false} Pow2Adds(m: nat, n: nat)
    ensures Pow2(m) * Pow2(n) == Pow2(m + n)
  {
    if m > 0 {
      Pow2Adds(m - 1, n);
      assert 2 * Pow2(m - 1) * Pow2(n) == 2 * (Pow2(m - 1) * Pow2(n));
    }
  }

  lemma WordIs32Bits()
    ensures Pow2(32) == WORDS
  {
    assert Pow2(8) == 256;
    Pow2Adds(8, 8);
    Pow2Adds(16, 16);
  }

  /** The n low bits of x. */
  function Low(x: nat, n: nat): (r: nat)
    ensures r < Pow2(n)
  {
    if n == 0 then 0 else 2 * Low(x / 2, n - 1) + x % 2
  }

  lemma {:induction false} SplitAtBit(x: nat, n: nat)
    ensures x == Shr(x, n) * Pow2(n) + Low(x, n)
  {
    if n > 0 {
      var half := x / 2;
      SplitAtBit(half, n - 1);
      ghost var hi, p := Shr(half, n - 1), Pow2(n - 1);
      assert x == 2 * half + x % 2;
      Doubling(hi, p);
    }
  }

  lemma Doubling(a: nat, b: nat)
    ensures a * (2 * b) == 2 * (a * b)
  {
  }

  lemma {:induction false} SplitIsUnique(a: nat, b: nat, c: nat, d: nat, n: nat)
    requires b < Pow2(n) && d < Pow2(n) && a * Pow2(n) + b == c * Pow2(n) + d
    ensures a == c && b == d
  {
    if n > 0 {
      var p := Pow2(n - 1);
      Doubling(a, p);
      Doubling(c, p);
      SplitIsUnique(a, b / 2, c, d / 2, n - 1);
    }
  }

  /** Joining a number below 2^n with a multiple of 2^n adds them. */
  lemma {:induction false} OrOfParts(hi: nat, lo: nat, n: nat)
    requires lo < Pow2(n)
    ensures Or(hi * Pow2(n), lo) == hi * Pow2(n) + lo
  {
    if n == 0 {
      OrZero(hi);
    } else {
      var p := Pow2(n - 1);
      assert hi * Pow2(n) == 2 * (hi * p);
      OrOfParts(hi, lo / 2, n - 1);
    }
  }

  lemma OrZero(a: nat)
    ensures Or(a, 0) == a
  {
  }

  lemma SplitWord(hi: nat, lo: nat, p: nat, q: nat)
    requires p > 0 && q > 0 && p * q == WORDS && lo < q && hi * q + lo < WORDS
    ensures hi < p
    ensures lo * p + hi < WORDS
    ensures (hi * q + lo) * p % WORDS == lo * p
  {
    MulMonotone(p, hi, q);
    assert lo * p <= (q - 1) * p == WORDS - p;
    assert (hi * q + lo) * p == hi * WORDS + lo * p;
    ModOfSum(hi, lo * p);
  }

  lemma MulMonotone(a: nat, b: nat, c: nat)
    ensures a <= b ==> a * c <= b * c
  {
  }

  lemma ModOfSum(k: int, r: int)
    requires 0 <= r < WORDS
    ensures (k * WORDS + r) % WORDS == r
  {
  }

  /** Rotating left by n swaps the two parts of a word split at bit 32 - n. */
  lemma RotlSwapsParts(x: word, n: nat)
    requires n <= 32
    ensures Shr(x, 32 - n) < Pow2(n)
    ensures Or(Shl(x, n), Shr(x, 32 - n)) == Low(x, 32 - n) * Pow2(n) + Shr(x, 32 - n) < WORDS
  {
    var p, q := Pow2(n), Pow2(32 - n);
    var hi, lo := Shr(x, 32 - n), Low(x, 32 - n);
    Pow2Adds(n, 32 - n);
    WordIs32Bits();
    SplitAtBit(x, 32 - n);
    SplitWord(hi, lo, p, q);
    OrOfParts(lo, hi, n);
  }

  lemma RotlCancel(x: word, y: word, n: nat)
    requires n <= 32 && Rotl(x, n) == Rotl(y, n)
    ensures x == y
  {
    RotlSwapsParts(x, n);
    RotlSwapsParts(y, n);
    SplitIsUnique(Low(x, 32 - n), Shr(x, 32 - n), Low(y, 32 - n), Shr(y, 32 - n), n);
    SplitAtBit(x, 32 - n);
    SplitAtBit(y, 32 - n);
  }

  lemma PlusCancel(x: word, y: word, z: word)
    ensures Plus(x, z) == Plus(y, z) ==> x == y
    ensures Plus(z, x) == Plus(z, y) ==> x == y
  {
  }

  /** The product, by repeated addition. */
  ghost function Times(a: int, b: nat): int {
    if b == 0 then 0 else Times(a, b - 1) + a
  }

  lemma {:induction false} TimesIsProduct(a: int, b: nat)
    ensures Times(a, b) == a * b
  {
    if b > 0 {
      TimesIsProduct(a, b - 1);
      assert a * (b - 1) + a == a * b;
    }
  }

  /** Multiplying by a word that has an inverse modulo 2^32 is injective. */
  lemma MulCancel(x: word, y: word, p: word, inverse: nat)
    requires Times(p, inverse) % WORDS == 1 && Mul(x, p) == Mul(y, p)
    ensures x == y
  {
    TimesIsProduct(p, inverse);
    var k := p * inverse / WORDS;
    var j := x * p / WORDS - y * p / WORDS;
    assert (x - y) * p == j * WORDS;
    calc {
      (x - y) * (1 + k * WORDS);
      (x - y) * (p * inverse);
      (x - y) * p * inverse;
      j * WORDS * inverse;
    }
    SmallMultiple(x - y, j * inverse - (x - y) * k);
  }

  lemma SmallMultiple(d: int, m: int)
    requires d == m * WORDS && d < WORDS && -d < WORDS
    ensures d == 0
  {
  }

  lemma PrimesAreInvertible()
    ensures Times(PRIME1, 244002641) % WORDS == 1
    ensures Times(PRIME2, 3066638151) % WORDS == 1
    ensures Times(PRIME3, 2828982549) % WORDS == 1
    ensures Times(PRIME4, 2701016015) % WORDS == 1
    ensures Times(PRIME5, 2923004241) % WORDS == 1
  {
    hide Times;
    TimesIsProduct(PRIME1, 244002641);
    TimesIsProduct(PRIME2, 3066638151);
    TimesIsProduct(PRIME3, 2828982549);
    TimesIsProduct(PRIME4, 2701016015);
    TimesIsProduct(PRIME5, 2923004241);
  }

  lemma XorStep(a: nat, b: nat)
    ensures Xor(a, b) == 2 * Xor(a / 2, b / 2) + (a + b) % 2
    ensures Xor(a, b) / 2 == Xor(a / 2, b / 2)
  {
  }

  lemma {:induction false} XorBounded(a: nat, b: nat, n: nat)
    requires a < Pow2(n) && b < Pow2(n)
    ensures Xor(a, b) < Pow2(n)
  {
    if n > 0 {
      XorBounded(a / 2, b / 2, n - 1);
    }
  }

  lemma XorShiftIsWord(h: word, n: nat)
    ensures 0 <= Xor(h, Shr(h, n)) < WORDS
  {
    WordIs32Bits();
    XorBounded(h, Shr(h, n), 32);
  }

  lemma {:induction false} XorCancel(x: nat, y: nat, s: nat)
    requires Xor(x, s) == Xor(y, s)
    ensures x == y
    decreases x + y + s
  {
    hide Xor;
    if x + y + s > 0 {
      XorStep(x, s);
      XorStep(y, s);
      XorCancel(x / 2, y / 2, s / 2);
    }
  }

  lemma {:induction false} ShrOfXor(a: nat, b: nat, n: nat)
    ensures Shr(Xor(a, b), n) == Xor(Shr(a, n), Shr(b, n))
  {
    hide Xor;
    if n > 0 {
      XorStep(a, b);
      ShrOfXor(a / 2, b / 2, n - 1);
    }
  }

  /** `h ^= h >> n` can be undone: the claim for x and y follows from the claim for their high bits. */
  lemma {:induction false} XorShiftCancel(x: nat, y: nat, n: nat)
    requires n > 0 && Xor(x, Shr(x, n)) == Xor(y, Shr(y, n))
    ensures x == y
    decreases x + y
  {
    hide Xor;
    if x + y > 0 {
      ShrOfXor(x, Shr(x, n), n);
      ShrOfXor(y, Shr(y, n), n);
      XorShiftCancel(Shr(x, n), Shr(y, n), n);
      XorCancel(x, y, Shr(x, n));
    }
  }

  lemma LittleEndianCancel(a: seq<byte>, b: seq<byte>)
    requires |a| == |b| == 4
    requires LittleEndian(a[0], a[1], a[2], a[3]) == LittleEndian(b[0], b[1], b[2], b[3])
    ensures a[0] == b[0] && a[1] == b[1] && a[2] == b[2] && a[3] == b[3]
  {
    LowByteCancel(a[0], b[0], a[1] as int + 0x100 * (a[2] as int) + 0x1_0000 * (a[3] as int),
                  b[1] as int + 0x100 * (b[2] as int) + 0x1_0000 * (b[3] as int));
    LowByteCancel(a[1], b[1], a[2] as int + 0x100 * (a[3] as int), b[2] as int + 0x100 * (b[3] as int));
    LowByteCancel(a[2], b[2], a[3], b[3]);
  }

  lemma LowByteCancel(x: byte, y: byte, u: int, v: int)
    requires x as int + 0x100 * u == y as int + 0x100 * v
    ensures x == y && u == v
  {
  }

  lemma Read32Cancel(a: seq<byte>, b: seq<byte>, p: nat)
    requires p + 4 <= |a| && p + 4 <= |b| && Read32(a, p) == Read32(b, p)
    ensures a[p..p + 4] == b[p..p + 4]
  {
    hide LittleEndian;
    LittleEndianCancel(a[p..p + 4], b[p..p + 4]);
  }

  /** A lane round is injective in the accumulator and in the word it takes in. */
  lemma RoundCancel(v: word, w: word, k: word, l: word)
    requires Round(v, k) == Round(w, l) && (v == w || k == l)
    ensures v == w && k == l
  {
    var x, y := Plus(v, Mul(k, PRIME2)), Plus(w, Mul(l, PRIME2));
    PrimesAreInvertible();
    MulCancel(Rotl(x, 13), Rotl(y, 13), PRIME1, 244002641);
    RotlCancel(x, y, 13);
    if v == w {
      PlusCancel(Mul(k, PRIME2), Mul(l, PRIME2), v);
      MulCancel(k, l, PRIME2, 3066638151);
    } else {
      PlusCancel(v, w, Mul(k, PRIME2));
    }
  }

  lemma TailWordCancel(v: word, w: word, k: word, l: word)
    requires TailWord(v, k) == TailWord(w, l) && (v == w || k == l)
    ensures v == w && k == l
  {
    var x, y := Plus(v, Mul(k, PRIME3)), Plus(w, Mul(l, PRIME3));
    PrimesAreInvertible();
    MulCancel(Rotl(x, 17), Rotl(y, 17), PRIME4, 2701016015);
    RotlCancel(x, y, 17);
    if v == w {
      PlusCancel(Mul(k, PRIME3), Mul(l, PRIME3), v);
      MulCancel(k, l, PRIME3, 2828982549);
    } else {
      PlusCancel(v, w, Mul(k, PRIME3));
    }
  }

  lemma TailByteCancel(v: word, w: word, k: byte, l: byte)
    requires TailByte(v, k) == TailByte(w, l) && (v == w || k == l)
    ensures v == w && k == l
  {
    var x, y := Plus(v, Mul(k, PRIME5)), Plus(w, Mul(l, PRIME5));
    PrimesAreInvertible();
    MulCancel(Rotl(x, 11), Rotl(y, 11), PRIME1, 244002641);
    RotlCancel(x, y, 11);
    if v == w {
      PlusCancel(Mul(k, PRIME5), Mul(l, PRIME5), v);
      MulCancel(k, l, PRIME5, 2923004241);
    } else {
      PlusCancel(v, w, Mul(k, PRIME5));
    }
  }

  lemma MixCancel(x: word, y: word, n: nat)
    requires n > 0 && Mix(x, n) == Mix(y, n)
    ensures x == y
  {
    XorShiftCancel(x, y, n);
  }

  lemma AvalancheCancel(v: word, w: word)
    requires Avalanche(v) == Avalanche(w)
    ensures v == w
  {
    hide Mul, Mix;
    PrimesAreInvertible();
    var v1, w1 := Mul(Mix(v, 15), PRIME2), Mul(Mix(w, 15), PRIME2);
    MixCancel(Mul(Mix(v1, 13), PRIME3), Mul(Mix(w1, 13), PRIME3), 16);
    MulCancel(Mix(v1, 13), Mix(w1, 13), PRIME3, 2828982549);
    MixCancel(v1, w1, 13);
    MulCancel(Mix(v, 15), Mix(w, 15), PRIME2, 3066638151);
    MixCancel(v, w, 15);
  }

  // ---------- Near inputs never collide ----------

  /** Bytes p..p+w form one unit of the input: an aligned word, or one of the bytes after the last word. */
  predicate IsUnit(len: nat, p: nat, w: nat) {
    (w == 4 && p % 4 == 0 && p + 4 <= len) || (w == 1 && len - len % 4 <= p < len)
  }

  /** a and b differ, and only inside bytes p..p+w. */
  predicate DifferOnlyIn(a: seq<byte>, b: seq<byte>, p: nat, w: nat) {
    && |a| == |b| && p + w <= |a|
    && a[..p] == b[..p] && a[p..p + w] != b[p..p + w] && a[p + w..] == b[p + w..]
  }

  lemma SameBytes(a: seq<byte>, b: seq<byte>, p: nat, w: nat, q: nat)
    requires DifferOnlyIn(a, b, p, w) && q < |a| && !(p <= q < p + w)
    ensures a[q] == b[q]
  {
    if q < p {
      assert a[..p][q] == b[..p][q];
    } else {
      assert a[p + w..][q - p - w] == b[p + w..][q - p - w];
    }
  }

  /** Words that do not overlap the changed unit read the same. */
  lemma SameWord(a: seq<byte>, b: seq<byte>, p: nat, w: nat, q: nat)
    requires DifferOnlyIn(a, b, p, w) && q + 4 <= |a| && (q + 4 <= p || p + w <= q)
    ensures Read32(a, q) == Read32(b, q)
  {
    hide LittleEndian;
    SameBytes(a, b, p, w, q);
    SameBytes(a, b, p, w, q + 1);
    SameBytes(a, b, p, w, q + 2);
    SameBytes(a, b, p, w, q + 3);
  }

  /** Where word j of stripe n - 1 lies with respect to the changed unit. */
  lemma StripePosition(len: nat, p: nat, w: nat, j: nat, n: nat)
    requires IsUnit(len, p, w) && j < 4 && 0 < n && 16 * n <= len
    ensures var q := 16 * (n - 1) + 4 * j;
            && (p == q ==> w == 4)
            && (p != q ==> q + 4 <= p || p + w <= q)
            && (p == q <==> 16 * (n - 1) <= p < 16 * n && p % 16 / 4 == j)
  {
    if w == 4 {
      WordPosition(p, p / 4, j, n - 1);
    } else {
      WholeWords(len, 4 * n);
    }
  }

  lemma WordPosition(p: nat, u: nat, j: nat, k: nat)
    requires p == 4 * u && j < 4
    ensures p == 16 * k + 4 * j <==> 16 * k <= p < 16 * k + 16 && p % 16 / 4 == j
    ensures p != 16 * k + 4 * j ==> 16 * k + 4 * j + 4 <= p || p + 4 <= 16 * k + 4 * j
  {
    assert p % 16 / 4 == u % 4;
  }

  /** Cutting a length down to whole words keeps every word that fitted in it. */
  lemma WholeWords(len: nat, u: nat)
    requires 4 * u <= len
    ensures 4 * u <= len - len % 4
  {
    assert len == 4 * (len / 4) + len % 4;
  }

  /** No unit straddles a stripe boundary. */
  lemma TailPosition(len: nat, p: nat, w: nat, k: nat)
    requires IsUnit(len, p, w) && 16 * k <= len
    ensures 16 * k % 4 == 0 && (p < 16 * k ==> p + w <= 16 * k)
  {
    if w == 4 {
      WordsAreApart(p, p / 4, 4 * k);
    } else {
      WholeWords(len, 4 * k);
    }
  }

  lemma WordsAreApart(p: nat, u: nat, v: nat)
    requires p == 4 * u
    ensures p < 4 * v ==> p + 4 <= 4 * v
  {
  }

  /** After n stripes a lane differs exactly when the changed word was one of those it has read. */
  lemma {:induction false} LaneDiffers(a: seq<byte>, b: seq<byte>, seed: word, p: nat, w: nat, j: nat, n: nat)
    requires DifferOnlyIn(a, b, p, w) && IsUnit(|a|, p, w)
    requires j < 4 && 16 * n <= |a|
    ensures Lane(a, seed, j, n) != Lane(b, seed, j, n) <==> p < 16 * n && p % 16 / 4 == j
  {
    hide Plus, Mul, Rotl, Round, Read32, IsUnit;
    if n > 0 {
      LaneDiffers(a, b, seed, p, w, j, n - 1);
      StripePosition(|a|, p, w, j, n);
      LaneStep(a, b, seed, p, w, j, n);
    }
  }

  /** One more stripe: a lane starts to differ at the changed word and never stops differing. */
  lemma LaneStep(a: seq<byte>, b: seq<byte>, seed: word, p: nat, w: nat, j: nat, n: nat)
    requires DifferOnlyIn(a, b, p, w) && j < 4 && 0 < n && 16 * n <= |a|
    requires var q := 16 * (n - 1) + 4 * j;
             (p == q && w == 4 && Lane(a, seed, j, n - 1) == Lane(b, seed, j, n - 1)) || q + 4 <= p || p + w <= q
    ensures var q := 16 * (n - 1) + 4 * j;
            Lane(a, seed, j, n) != Lane(b, seed, j, n) <==>
            p == q || Lane(a, seed, j, n - 1) != Lane(b, seed, j, n - 1)
  {
    hide Round, Read32;
    var q := 16 * (n - 1) + 4 * j;
    var v, u := Lane(a, seed, j, n - 1), Lane(b, seed, j, n - 1);
    if p == q {
      if Read32(a, q) == Read32(b, q) {
        Read32Cancel(a, b, q);
      }
    } else {
      SameWord(a, b, p, w, q);
    }
    if Round(v, Read32(a, q)) == Round(u, Read32(b, q)) {
      RoundCancel(v, u, Read32(a, q), Read32(b, q));
    }
  }

  /** Convergence keeps a difference that sits in exactly one lane. */
  lemma ConvergeCancel(a: seq<word>, b: seq<word>, j: nat)
    requires |a| == |b| == 4 && j < 4 && (forall i :: 0 <= i < 4 && i != j ==> a[i] == b[i])
    requires Converge(a[0], a[1], a[2], a[3]) == Converge(b[0], b[1], b[2], b[3])
    ensures a[j] == b[j]
  {
    hide Plus, Rotl;
    var a1, b1 := Plus(Rotl(a[0], 1), Rotl(a[1], 7)), Plus(Rotl(b[0], 1), Rotl(b[1], 7));
    var a2, b2 := Plus(a1, Rotl(a[2], 12)), Plus(b1, Rotl(b[2], 12));
    PlusCancel(a2, b2, Rotl(a[3], 18));
    PlusCancel(Rotl(a[3], 18), Rotl(b[3], 18), a2);
    PlusCancel(a1, b1, Rotl(a[2], 12));
    PlusCancel(Rotl(a[2], 12), Rotl(b[2], 12), a1);
    PlusCancel(Rotl(a[0], 1), Rotl(b[0], 1), Rotl(a[1], 7));
    PlusCancel(Rotl(a[1], 7), Rotl(b[1], 7), Rotl(a[0], 1));
    RotlCancel(a[j], b[j], if j == 0 then 1 else if j == 1 then 7 else if j == 2 then 12 else 18);
  }

  /** The four accumulators after n stripes. */
  function Lanes(data: seq<byte>, seed: word, n: nat): (v: seq<word>)
    requires 16 * n <= |data|
    ensures |v| == 4
  {
    [Lane(data, seed, 0, n), Lane(data, seed, 1, n), Lane(data, seed, 2, n), Lane(data, seed, 3, n)]
  }

  lemma LanesDiffer(a: seq<byte>, b: seq<byte>, seed: word, p: nat, w: nat, n: nat)
    requires DifferOnlyIn(a, b, p, w) && IsUnit(|a|, p, w) && 16 * n <= |a|
    ensures forall j :: 0 <= j < 4 ==>
                          (Lanes(a, seed, n)[j] != Lanes(b, seed, n)[j] <==> p < 16 * n && p % 16 / 4 == j)
  {
    hide Lane;
    LaneDiffers(a, b, seed, p, w, 0, n);
    LaneDiffers(a, b, seed, p, w, 1, n);
    LaneDiffers(a, b, seed, p, w, 2, n);
    LaneDiffers(a, b, seed, p, w, 3, n);
  }

  lemma StartDiffers(a: seq<byte>, b: seq<byte>, seed: word, p: nat, w: nat)
    requires DifferOnlyIn(a, b, p, w) && IsUnit(|a|, p, w)
    ensures Start(a, seed) != Start(b, seed) <==> p < |a| / 16 * 16
  {
    hide Lane, Converge;
    if |a| >= 16 {
      var n := |a| / 16;
      var u, v := Lanes(a, seed, n), Lanes(b, seed, n);
      LanesDiffer(a, b, seed, p, w, n);
      if p < 16 * n {
        if Converge(u[0], u[1], u[2], u[3]) == Converge(v[0], v[1], v[2], v[3]) {
          ConvergeCancel(u, v, p % 16 / 4);
          assert false;
        }
      } else {
        assert u == v;
      }
    }
  }

  /** Consuming the tail from q keeps a difference that is already in the accumulator, and brings in
      one that is still ahead. */
  lemma {:induction false} ConsumeDiffers(a: seq<byte>, b: seq<byte>, v: word, u: word, p: nat, w: nat, q: nat)
    requires DifferOnlyIn(a, b, p, w) && IsUnit(|a|, p, w)
    requires q <= |a| && (q % 4 == 0 || q + 4 > |a|)
    requires v != u <==> p < q
    requires p < q ==> p + w <= q
    ensures Consume(v, a, q) != Consume(u, b, q)
    decreases |a| - q
  {
    hide Plus, Mul, Rotl, TailWord, TailByte, Read32;
    if q + 4 <= |a| {
      var k, l := Read32(a, q), Read32(b, q);
      if p == q {
        if k == l {
          Read32Cancel(a, b, q);
          assert false;
        }
      } else {
        SameWord(a, b, p, w, q);
      }
      if TailWord(v, k) == TailWord(u, l) {
        TailWordCancel(v, u, k, l);
      }
      ConsumeDiffers(a, b, TailWord(v, k), TailWord(u, l), p, w, q + 4);
    } else if q < |a| {
      if p == q {
        assert a[q..q + 1] == [a[q]] && b[q..q + 1] == [b[q]];
      } else {
        SameBytes(a, b, p, w, q);
      }
      if TailByte(v, a[q]) == TailByte(u, b[q]) {
        TailByteCancel(v, u, a[q], b[q]);
      }
      ConsumeDiffers(a, b, TailByte(v, a[q]), TailByte(u, b[q]), p, w, q + 1);
    }
  }

  /** Two inputs of the same length that differ only inside one aligned word, or only in one trailing
      byte, never have the same hash. */
  lemma NearInputsNeverCollide(a: seq<byte>, b: seq<byte>, seed: word, p: nat, w: nat)
    requires DifferOnlyIn(a, b, p, w) && IsUnit(|a|, p, w)
    ensures XXH32(a, seed) != XXH32(b, seed)
  {
    hide Plus, Start, Consume, Avalanche, LengthWord, IsUnit;
    TailPosition(|a|, p, w, |a| / 16);
    var len := LengthWord(|a|);
    var v, u := Plus(Start(a, seed), len), Plus(Start(b, seed), len);
    StartDiffers(a, b, seed, p, w);
    if v == u {
      PlusCancel(Start(a, seed), Start(b, seed), len);
    }
    var q := |a| / 16 * 16;
    ConsumeDiffers(a, b, v, u, p, w, q);
    if XXH32(a, seed) == XXH32(b, seed) {
      AvalancheCancel(Consume(v, a, q), Consume(u, b, q));
    }
  }
}

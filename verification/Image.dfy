/** The saved image of the tables: numbers of eight bytes, ids of 64 bytes, length-prefixed strings and
    lists. Numbers are as the C types have them: 64 bits, little-endian, two's complement. */
module Image {
  import opened Basics

  // ---------- Numbers as bytes ----------

  function Pow256(n: nat): (p: nat)
    ensures p > 0
  {
    if n == 0 then 1 else 256 * Pow256(n - 1)
  }

  function Little(v: nat, n: nat): (r: seq<byte>)
    ensures |r| == n
  {
    if n == 0 then [] else [v % 256] + Little(v / 256, n - 1)
  }

  function FromLittle(b: seq<byte>): nat {
    if b == [] then 0 else b[0] as nat + 256 * FromLittle(b[1..])
  }

  function Big(v: nat, n: nat): (r: seq<byte>)
    ensures |r| == n
  {
    if n == 0 then [] else Big(v / 256, n - 1) + [v % 256]
  }

  function FromBig(b: seq<byte>): nat {
    if b == [] then 0 else 256 * FromBig(b[..|b| - 1]) + b[|b| - 1] as nat
  }

  lemma {:induction false} LittleRoundTrip(v: nat, n: nat)
    requires v < Pow256(n)
    ensures FromLittle(Little(v, n)) == v
  {
    if n > 0 {
      LittleRoundTrip(v / 256, n - 1);
      assert Little(v, n)[1..] == Little(v / 256, n - 1);
    }
  }

  lemma {:induction false} BigRoundTrip(v: nat, n: nat)
    requires v < Pow256(n)
    ensures FromBig(Big(v, n)) == v
  {
    if n > 0 {
      BigRoundTrip(v / 256, n - 1);
      assert Big(v, n)[..n - 1] == Big(v / 256, n - 1);
    }
  }

  /** memcmp: the first byte that differs decides. */
  predicate Before(a: seq<byte>, b: seq<byte>)
    requires |a| == |b|
  {
    a != [] && (a[0] < b[0] || (a[0] == b[0] && Before(a[1..], b[1..])))
  }

  lemma {:induction false} BeforeAtEnd(a: seq<byte>, b: seq<byte>, x: byte, y: byte)
    requires |a| == |b|
    ensures Before(a + [x], b + [y]) <==> Before(a, b) || (a == b && x < y)
  {
    if a != [] {
      BeforeAtEnd(a[1..], b[1..], x, y);
      assert (a + [x])[1..] == a[1..] + [x] && (b + [y])[1..] == b[1..] + [y];
      assert a == [a[0]] + a[1..] && b == [b[0]] + b[1..];
    }
  }

  /** Sorting ids with memcmp sorts the numbers that their bytes spell. */
  lemma {:induction false} MemcmpIsNumeric(v: nat, w: nat, n: nat)
    requires v < Pow256(n) && w < Pow256(n)
    ensures Before(Big(v, n), Big(w, n)) <==> v < w
  {
    if n > 0 {
      MemcmpIsNumeric(v / 256, w / 256, n - 1);
      BeforeAtEnd(Big(v / 256, n - 1), Big(w / 256, n - 1), v % 256, w % 256);
      BigRoundTrip(v / 256, n - 1);
      BigRoundTrip(w / 256, n - 1);
    }
  }

  const TWO63: nat := 0x8000_0000_0000_0000
  const TWO64: nat := 0x1_0000_0000_0000_0000
  const TWO31: nat := 0x8000_0000
  const TWO32: nat := 0x1_0000_0000

  lemma Pow256Of8()
    ensures Pow256(8) == TWO64
  {
    assert Pow256(2) == 0x1_0000;
    assert Pow256(4) == TWO32;
    assert Pow256(6) == 0x1_0000_0000_0000;
  }

  /** An int64_t or a uint64_t as it is written. */
  function Word(v: int): (r: seq<byte>)
    ensures |r| == 8
  {
    Little(v % TWO64, 8)
  }

  function AsUnsigned(b: seq<byte>): nat {
    FromLittle(b)
  }

  function AsSigned(b: seq<byte>): int {
    var v := FromLittle(b);
    if v < TWO63 then v else v - TWO64
  }

  /** The cast of a uint64_t to int. */
  function ToInt(v: nat): int {
    var w := v % TWO32;
    if w < TWO31 then w else w - TWO32
  }

  predicate IsInt64(v: int) {
    0 <= v + TWO63 < TWO64
  }

  predicate IsInt(v: int) {
    0 <= v + TWO31 < TWO32
  }

  lemma WordRoundTrip(v: int)
    ensures 0 <= v < TWO64 ==> AsUnsigned(Word(v)) == v
    ensures IsInt64(v) ==> AsSigned(Word(v)) == v
    ensures IsInt(v) ==> ToInt(AsUnsigned(Word(v))) == v
  {
    Pow256Of8();
    LittleRoundTrip(v % TWO64, 8);
    hide Little, FromLittle;
    if IsInt64(v) && v < 0 {
      assert v % TWO64 == v + TWO64;
    }
    if IsInt(v) && v < 0 {
      assert (v + TWO64) % TWO32 == v + TWO32;
    }
  }

  // ---------- The tables ----------

  datatype BlockRec = BlockRec(size: int, offset: int, counter: int)

  datatype FileRec = FileRec(realSize: int, logicalSize: int, list: seq<Hash>)

  /** What is saved: file lists name blocks by id. */
  datatype Tables = Tables(next: int, blocks: map<Hash, BlockRec>, files: map<Path, FileRec>, free: seq<int>)

  predicate IsId(h: Hash) {
    h < Pow256(64)
  }

  /** A C string: bytes other than 0. */
  predicate IsPath(p: Path) {
    |p| < TWO64 && forall i :: 0 <= i < |p| ==> 0 < p[i] as int < 256
  }

  ghost predicate BlockFits(h: Hash, b: BlockRec) {
    IsId(h) && 0 <= b.size < TWO64 && IsInt64(b.offset) && IsInt(b.counter)
  }

  ghost predicate FileFits(p: Path, f: FileRec, blocks: map<Hash, BlockRec>) {
    && IsPath(p) && IsInt64(f.realSize) && IsInt64(f.logicalSize) && |f.list| < TWO64
    && forall h :: h in f.list ==> h in blocks && IsId(h)
  }

  /** The numbers have the widths of their C types, and lists refer to blocks of the index. */
  ghost predicate Fits(t: Tables) {
    && IsInt64(t.next) && |t.blocks| < TWO64 && |t.files| < TWO64 && |t.free| < TWO64
    && (forall h :: h in t.blocks ==> BlockFits(h, t.blocks[h]))
    && (forall p :: p in t.files ==> FileFits(p, t.files[p], t.blocks))
    && (forall i :: 0 <= i < |t.free| ==> IsInt64(t.free[i]))
  }

  // ---------- Saving ----------

  function IdBytes(h: Hash): (r: seq<byte>)
    ensures |r| == 64
  {
    Big(h, 64)
  }

  function PathBytes(p: Path): (r: seq<byte>)
    requires IsPath(p)
    ensures |r| == |p|
  {
    seq(|p|, i requires 0 <= i < |p| => p[i] as int as byte)
  }

  function BlockBytes(h: Hash, b: BlockRec): (r: seq<byte>)
    ensures |r| == 88
  {
    IdBytes(h) + Word(b.size) + Word(b.offset) + Word(b.counter)
  }

  function IdsBytes(list: seq<Hash>): (r: seq<byte>)
    ensures |r| == 64 * |list|
  {
    if list == [] then [] else IdBytes(list[0]) + IdsBytes(list[1..])
  }

  function FileHead(p: Path, f: FileRec): seq<byte>
    requires IsPath(p)
  {
    Word(|p|) + PathBytes(p) + Word(f.realSize) + Word(f.logicalSize) + Word(|f.list|)
  }

  function FileBytes(p: Path, f: FileRec): seq<byte>
    requires IsPath(p)
  {
    FileHead(p, f) + IdsBytes(f.list)
  }

  function BlocksBytes(order: seq<Hash>, blocks: map<Hash, BlockRec>): (r: seq<byte>)
    requires forall h :: h in order ==> h in blocks
    ensures |r| == 88 * |order|
  {
    if order == [] then [] else BlockBytes(order[0], blocks[order[0]]) + BlocksBytes(order[1..], blocks)
  }

  function FilesBytes(order: seq<Path>, files: map<Path, FileRec>): seq<byte>
    requires forall p :: p in order ==> p in files && IsPath(p)
  {
    if order == [] then [] else FileBytes(order[0], files[order[0]]) + FilesBytes(order[1..], files)
  }

  function WordsBytes(vs: seq<int>): (r: seq<byte>)
    ensures |r| == 8 * |vs|
  {
    if vs == [] then [] else Word(vs[0]) + WordsBytes(vs[1..])
  }

  /** The orders in which the hash tables are walked: arbitrary, but every entry once. */
  ghost predicate Walks<K(!new), V>(order: seq<K>, m: map<K, V>) {
    (forall i, j :: 0 <= i < j < |order| ==> order[i] != order[j]) && (forall k :: k in order <==> k in m)
  }

  ghost function ImageOf(t: Tables, blockOrder: seq<Hash>, fileOrder: seq<Path>): seq<byte>
    requires Fits(t) && Walks(blockOrder, t.blocks) && Walks(fileOrder, t.files)
  {
    Word(t.next) + (Word(|t.blocks|) + (BlocksBytes(blockOrder, t.blocks) +
      (Word(|t.files|) + (FilesBytes(fileOrder, t.files) + (Word(|t.free|) + WordsBytes(t.free))))))
  }
}

/** Where the saved image has which number: positions and single bytes. */
module Layout {
  import opened Basics
  import opened Image

  /** At position `at` stand the eight bytes of v, lowest first; a negative number as 2^64 more. */
  ghost predicate WordAt(b: seq<byte>, at: nat, v: int) {
    at + 8 <= |b| && forall i :: at <= i < at + 8 ==> b[i] == v % 0x1_0000_0000_0000_0000 / Pow256(i - at) % 256
  }

  /** At position `at` stand the 64 bytes of an id, highest first. */
  ghost predicate IdAt(b: seq<byte>, at: nat, h: Hash) {
    at + 64 <= |b| && forall i :: at <= i < at + 64 ==> b[i] == h / Pow256(at + 63 - i) % 256
  }

  // ---------- Numbers ----------

  lemma DivTwice(v: nat, p: nat)
    requires p > 0
    ensures v / 256 / p == v / (256 * p)
  {
    var q, r := v / 256 / p, v / 256 % p;
    assert v == 256 * (p * q + r) + v % 256;
    assert 256 * (p * q) == (256 * p) * q;
    DivUnique(v, 256 * p, q, 256 * r + v % 256);
  }

  lemma DivUnique(v: nat, p: nat, q: nat, r: nat)
    requires v == p * q + r && r < p
    ensures v / p == q
  {
    assert p * (v / p - q) == r - v % p;
    MultipleIsFar(p, v / p - q);
  }

  lemma MultipleIsFar(p: nat, d: int)
    ensures d >= 1 ==> p * d >= p
    ensures d <= -1 ==> p * d + p <= 0
  {
  }

  lemma {:induction false} LittleByte(v: nat, n: nat, k: nat)
    requires k < n
    ensures Little(v, n)[k] == v / Pow256(k) % 256
  {
    if k > 0 {
      LittleByte(v / 256, n - 1, k - 1);
      DivTwice(v, Pow256(k - 1));
    }
  }

  lemma {:induction false} BigByte(v: nat, n: nat, k: nat)
    requires k < n
    ensures Big(v, n)[k] == v / Pow256(n - 1 - k) % 256
  {
    if k < n - 1 {
      BigByte(v / 256, n - 1, k);
      DivTwice(v, Pow256(n - 2 - k));
    }
  }

  lemma WordHasBytes(v: int)
    ensures WordAt(Word(v), 0, v)
  {
    forall k | 0 <= k < 8
      ensures Word(v)[k] == v % 0x1_0000_0000_0000_0000 / Pow256(k) % 256
    {
      LittleByte(v % TWO64, 8, k);
    }
  }

  lemma IdHasBytes(h: Hash)
    ensures IdAt(IdBytes(h), 0, h)
  {
    forall k | 0 <= k < 64
      ensures IdBytes(h)[k] == h / Pow256(63 - k) % 256
    {
      BigByte(h, 64, k);
    }
  }

  lemma WordInside(a: seq<byte>, v: int, c: seq<byte>)
    ensures WordAt(a + Word(v) + c, |a|, v)
  {
    WordHasBytes(v);
    hide Word, Pow256;
    var b := a + Word(v) + c;
    forall i | |a| <= i < |a| + 8
      ensures b[i] == v % 0x1_0000_0000_0000_0000 / Pow256(i - |a|) % 256
    {
      assert b[i] == Word(v)[i - |a|];
    }
  }

  lemma IdInside(a: seq<byte>, h: Hash, c: seq<byte>)
    ensures IdAt(a + IdBytes(h) + c, |a|, h)
  {
    IdHasBytes(h);
    hide IdBytes, Pow256;
    var b := a + IdBytes(h) + c;
    forall i | |a| <= i < |a| + 64
      ensures b[i] == h / Pow256(|a| + 63 - i) % 256
    {
      assert b[i] == IdBytes(h)[i - |a|];
    }
  }

  // ---------- Entries ----------

  /** A block: its id, its size, its offset, its counter. */
  lemma BlockLayout(h: Hash, b: BlockRec)
    ensures var bytes := BlockBytes(h, b);
            && |bytes| == 88
            && IdAt(bytes, 0, h) && WordAt(bytes, 64, b.size) && WordAt(bytes, 72, b.offset) && WordAt(bytes, 80, b.counter)
  {
    var bytes, id := BlockBytes(h, b), IdBytes(h);
    hide IdAt, WordAt, Word, IdBytes;
    IdInside([], h, Word(b.size) + Word(b.offset) + Word(b.counter));
    assert bytes == [] + id + (Word(b.size) + Word(b.offset) + Word(b.counter));
    WordInside(id, b.size, Word(b.offset) + Word(b.counter));
    assert bytes == id + Word(b.size) + (Word(b.offset) + Word(b.counter));
    WordInside(id + Word(b.size), b.offset, Word(b.counter));
    WordInside(id + Word(b.size) + Word(b.offset), b.counter, []);
    assert bytes == id + Word(b.size) + Word(b.offset) + Word(b.counter) + [];
  }

  /** A file: the length of its path, the path, its real size, its logical size, the number of its blocks, their ids. */
  lemma FileLayout(p: Path, f: FileRec)
    requires IsPath(p)
    ensures var bytes, n := FileBytes(p, f), |p|;
            && |bytes| == 32 + n + 64 * |f.list|
            && WordAt(bytes, 0, n)
            && (forall i :: 0 <= i < n ==> bytes[8 + i] as int == p[i] as int)
            && WordAt(bytes, 8 + n, f.realSize) && WordAt(bytes, 16 + n, f.logicalSize) && WordAt(bytes, 24 + n, |f.list|)
            && forall j :: 0 <= j < |f.list| ==> IdAt(bytes, 32 + n + 64 * j, f.list[j])
  {
    hide IdAt, WordAt, Word, IdBytes, IdsBytes, IsPath;
    var bytes, n := FileBytes(p, f), |p|;
    HeadLayout(p, f);
    forall j | 0 <= j < |f.list|
      ensures IdAt(bytes, 32 + n + 64 * j, f.list[j])
    {
      IdsLayout(FileHead(p, f), f.list, j);
    }
  }

  lemma HeadLayout(p: Path, f: FileRec)
    requires IsPath(p)
    ensures var bytes, n := FileBytes(p, f), |p|;
            && |FileHead(p, f)| == 32 + n && |bytes| == 32 + n + 64 * |f.list|
            && WordAt(bytes, 0, n)
            && (forall i :: 0 <= i < n ==> bytes[8 + i] as int == p[i] as int)
            && WordAt(bytes, 8 + n, f.realSize) && WordAt(bytes, 16 + n, f.logicalSize) && WordAt(bytes, 24 + n, |f.list|)
  {
    hide WordAt, Word, IdsBytes, IsPath;
    var bytes, n, path, ids := FileBytes(p, f), |p|, PathBytes(p), IdsBytes(f.list);
    var w1, w2, w3 := Word(f.realSize), Word(f.logicalSize), Word(|f.list|);
    WordInside([], n, path + w1 + w2 + w3 + ids);
    assert bytes == [] + Word(n) + (path + w1 + w2 + w3 + ids);
    WordInside(Word(n) + path, f.realSize, w2 + w3 + ids);
    assert bytes == (Word(n) + path) + w1 + (w2 + w3 + ids);
    WordInside(Word(n) + path + w1, f.logicalSize, w3 + ids);
    assert bytes == (Word(n) + path + w1) + w2 + (w3 + ids);
    WordInside(Word(n) + path + w1 + w2, |f.list|, ids);
  }

  lemma {:induction false} IdsLayout(head: seq<byte>, list: seq<Hash>, j: nat)
    requires j < |list|
    ensures IdAt(head + IdsBytes(list), |head| + 64 * j, list[j])
    decreases |list|
  {
    hide IdAt, IdBytes;
    if j == 0 {
      IdInside(head, list[0], IdsBytes(list[1..]));
      assert head + IdsBytes(list) == head + IdBytes(list[0]) + IdsBytes(list[1..]);
    } else {
      IdsLayout(head + IdBytes(list[0]), list[1..], j - 1);
      assert head + IdsBytes(list) == (head + IdBytes(list[0])) + IdsBytes(list[1..]);
    }
  }

  // ---------- The whole image ----------

  /** The high-water offset, the number of blocks, the blocks of 88 bytes each, the number of files, the files, the
      number of free offsets and the offsets. */
  lemma ImageLayout(t: Tables, blockOrder: seq<Hash>, fileOrder: seq<Path>)
    requires Fits(t) && Walks(blockOrder, t.blocks) && Walks(fileOrder, t.files)
    ensures var bytes, n := ImageOf(t, blockOrder, fileOrder), |blockOrder|;
            && WordAt(bytes, 0, t.next) && WordAt(bytes, 8, |t.blocks|)
            && (forall i :: 0 <= i < n ==> 16 + 88 * i + 88 <= |bytes| && bytes[16 + 88 * i..16 + 88 * i + 88] == BlockBytes(blockOrder[i], t.blocks[blockOrder[i]]))
            && WordAt(bytes, 16 + 88 * n, |t.files|)
            && |bytes| >= 32 + 88 * n + 8 * |t.free| && WordAt(bytes, |bytes| - 8 * |t.free| - 8, |t.free|)
            && forall i :: 0 <= i < |t.free| ==> WordAt(bytes, |bytes| - 8 * |t.free| + 8 * i, t.free[i])
  {
    hide WordAt, Word, BlockBytes, FilesBytes, BlocksBytes, WordsBytes, Fits, IsPath;
    FilesFit(t, fileOrder);
    var blocks, files, free := BlocksBytes(blockOrder, t.blocks), FilesBytes(fileOrder, t.files), WordsBytes(t.free);
    var rest := Word(|t.files|) + files + Word(|t.free|) + free;
    var front := Word(t.next) + Word(|t.blocks|) + blocks + Word(|t.files|) + files + Word(|t.free|);
    Sections(t.next, |t.blocks|, blocks, |t.files|, files, |t.free|, free);
    BlocksLayout(Word(t.next) + Word(|t.blocks|), blockOrder, t.blocks, rest);
    WordsLayout(front, t.free);
  }

  lemma Sections(next: int, nb: int, blocks: seq<byte>, nf: int, files: seq<byte>, nfree: int, free: seq<byte>)
    ensures var bytes := Word(next) + (Word(nb) + (blocks + (Word(nf) + (files + (Word(nfree) + free)))));
            && WordAt(bytes, 0, next) && WordAt(bytes, 8, nb) && WordAt(bytes, 16 + |blocks|, nf)
            && |bytes| == 32 + |blocks| + |files| + |free| && WordAt(bytes, |bytes| - |free| - 8, nfree)
            && bytes == (Word(next) + Word(nb)) + blocks + (Word(nf) + files + Word(nfree) + free)
            && bytes == (Word(next) + Word(nb) + blocks + Word(nf) + files + Word(nfree)) + free
  {
    hide WordAt, Word;
    var w0, w1, w2, w3 := Word(next), Word(nb), Word(nf), Word(nfree);
    var bytes := w0 + (w1 + (blocks + (w2 + (files + (w3 + free)))));
    WordInside([], next, w1 + blocks + w2 + files + w3 + free);
    assert bytes == [] + w0 + (w1 + blocks + w2 + files + w3 + free);
    WordInside(w0, nb, blocks + w2 + files + w3 + free);
    assert bytes == w0 + w1 + (blocks + w2 + files + w3 + free);
    WordInside(w0 + w1 + blocks, nf, files + w3 + free);
    assert bytes == (w0 + w1 + blocks) + w2 + (files + w3 + free);
    WordInside(w0 + w1 + blocks + w2 + files, nfree, free);
    assert bytes == (w0 + w1 + blocks + w2 + files) + w3 + free;
  }

  lemma FilesFit(t: Tables, fileOrder: seq<Path>)
    requires Fits(t) && Walks(fileOrder, t.files)
    ensures forall p :: p in fileOrder ==> p in t.files && IsPath(p)
  {
    forall p | p in fileOrder
      ensures p in t.files && IsPath(p)
    {
      assert FileFits(p, t.files[p], t.blocks);
    }
  }

  lemma {:induction false} BlockInside(head: seq<byte>, order: seq<Hash>, blocks: map<Hash, BlockRec>, rest: seq<byte>, i: nat)
    requires i < |order| && forall h :: h in order ==> h in blocks
    ensures var bytes, at := head + BlocksBytes(order, blocks) + rest, |head| + 88 * i;
            at + 88 <= |bytes| && bytes[at..at + 88] == BlockBytes(order[i], blocks[order[i]])
    decreases |order|
  {
    hide BlockBytes;
    var first := BlockBytes(order[0], blocks[order[0]]);
    if i > 0 {
      BlockInside(head + first, order[1..], blocks, rest, i - 1);
    }
    assert head + BlocksBytes(order, blocks) + rest == (head + first) + BlocksBytes(order[1..], blocks) + rest;
  }

  lemma BlocksLayout(head: seq<byte>, order: seq<Hash>, blocks: map<Hash, BlockRec>, rest: seq<byte>)
    requires forall h :: h in order ==> h in blocks
    ensures var bytes, at := head + BlocksBytes(order, blocks) + rest, |head|;
            forall i :: 0 <= i < |order| ==>
                          at + 88 * i + 88 <= |bytes| && bytes[at + 88 * i..at + 88 * i + 88] == BlockBytes(order[i], blocks[order[i]])
  {
    hide BlockBytes, BlocksBytes;
    var bytes, at := head + BlocksBytes(order, blocks) + rest, |head|;
    forall i | 0 <= i < |order|
      ensures at + 88 * i + 88 <= |bytes| && bytes[at + 88 * i..at + 88 * i + 88] == BlockBytes(order[i], blocks[order[i]])
    {
      BlockInside(head, order, blocks, rest, i);
    }
  }

  lemma {:induction false} WordOfMany(head: seq<byte>, vs: seq<int>, i: nat)
    requires i < |vs|
    ensures WordAt(head + WordsBytes(vs), |head| + 8 * i, vs[i])
    decreases |vs|
  {
    hide WordAt, Word;
    if i == 0 {
      WordInside(head, vs[0], WordsBytes(vs[1..]));
      assert head + WordsBytes(vs) == head + Word(vs[0]) + WordsBytes(vs[1..]);
    } else {
      WordOfMany(head + Word(vs[0]), vs[1..], i - 1);
      assert head + WordsBytes(vs) == (head + Word(vs[0])) + WordsBytes(vs[1..]);
    }
  }

  lemma WordsLayout(head: seq<byte>, vs: seq<int>)
    ensures forall i :: 0 <= i < |vs| ==> WordAt(head + WordsBytes(vs), |head| + 8 * i, vs[i])
  {
    hide WordAt, WordsBytes;
    forall i | 0 <= i < |vs|
      ensures WordAt(head + WordsBytes(vs), |head| + 8 * i, vs[i])
    {
      WordOfMany(head, vs, i);
    }
  }
}

/** Loading an image: a whole one rebuilds the tables that were saved, and one that was cut off anywhere
    rebuilds a part of them in which everything is complete. */
module Loading {
  import opened Basics
  import opened Image

  // ---------- The parser ----------

  /** What a counted loop of the loader has inserted, what is left to read, and whether it got through. */
  datatype Section<T> = Section(acc: T, rest: seq<byte>, ok: bool)

  function ReadBlock(b: seq<byte>): (Hash, BlockRec)
    requires |b| >= 88
  {
    (FromBig(b[..64]), BlockRec(AsUnsigned(b[64..72]), AsSigned(b[72..80]), ToInt(AsUnsigned(b[80..88]))))
  }

  function ReadBlocks(b: seq<byte>, n: nat, acc: map<Hash, BlockRec>): Section<map<Hash, BlockRec>> {
    if n == 0 then Section(acc, b, true)
    else if |b| < 88 then Section(acc, b, false)
    else
      var (h, r) := ReadBlock(b);
      ReadBlocks(b[88..], n - 1, acc[h := r])
  }

  /** The ids of a file's blocks: each must lead to a block of the index. */
  function ReadIds(b: seq<byte>, n: nat, blocks: map<Hash, BlockRec>, acc: seq<Hash>): Section<seq<Hash>> {
    if n == 0 then Section(acc, b, true)
    else if |b| < 64 then Section(acc, b, false)
    else
      var h := FromBig(b[..64]);
      if h !in blocks then Section(acc, b, false) else ReadIds(b[64..], n - 1, blocks, acc + [h])
  }

  /** The string that starts here: it ends before the first 0. */
  function CString(b: seq<byte>): Path {
    if b == [] || b[0] == 0 then [] else [b[0] as int as char] + CString(b[1..])
  }

  datatype Parsed = Parsed(path: Path, file: FileRec, rest: seq<byte>) | Short

  function ReadFile(b: seq<byte>, blocks: map<Hash, BlockRec>): Parsed {
    if |b| < 8 then Short
    else
      var len := AsUnsigned(b[..8]);
      var b1 := b[8..];
      if |b1| < len + 24 then Short
      else
        var path, head, b2 := CString(b1[..len]), b1[len..len + 24], b1[len + 24..];
        var ids := ReadIds(b2, AsUnsigned(head[16..24]), blocks, []);
        if !ids.ok then Short
        else Parsed(path, FileRec(AsSigned(head[..8]), AsSigned(head[8..16]), ids.acc), ids.rest)
  }

  function ReadFiles(b: seq<byte>, n: nat, blocks: map<Hash, BlockRec>, acc: map<Path, FileRec>): Section<map<Path, FileRec>>
    decreases n
  {
    if n == 0 then Section(acc, b, true)
    else
      match ReadFile(b, blocks)
      case Short => Section(acc, b, false)
      case Parsed(path, file, rest) => ReadFiles(rest, n - 1, blocks, acc[path := file])
  }

  function ReadFree(b: seq<byte>, n: nat, acc: seq<int>): Section<seq<int>> {
    if n == 0 then Section(acc, b, true)
    else if |b| < 8 then Section(acc, b, false)
    else ReadFree(b[8..], n - 1, acc + [AsSigned(b[..8])])
  }

  datatype Loaded = Loaded(t: Tables, rest: seq<byte>, ok: bool)

  /** Empty tables and `next` are what the loader starts from. */
  function Load(b: seq<byte>, next: int): Loaded {
    var t := Tables(next, map[], map[], []);
    if |b| < 8 then Loaded(t, b, false) else LoadBlocks(b[8..], t.(next := AsSigned(b[..8])))
  }

  function LoadBlocks(b: seq<byte>, t: Tables): Loaded {
    if |b| < 8 then Loaded(t, b, false)
    else
      var s := ReadBlocks(b[8..], AsUnsigned(b[..8]), t.blocks);
      var t1 := t.(blocks := s.acc);
      if !s.ok then Loaded(t1, s.rest, false) else LoadFiles(s.rest, t1)
  }

  function LoadFiles(b: seq<byte>, t: Tables): Loaded {
    if |b| < 8 then Loaded(t, b, false)
    else
      var s := ReadFiles(b[8..], AsUnsigned(b[..8]), t.blocks, t.files);
      var t1 := t.(files := s.acc);
      if !s.ok then Loaded(t1, s.rest, false) else LoadFree(s.rest, t1)
  }

  function LoadFree(b: seq<byte>, t: Tables): Loaded {
    if |b| < 8 then Loaded(t, b, false)
    else
      var s := ReadFree(b[8..], AsUnsigned(b[..8]), t.free);
      Loaded(t.(free := s.acc), s.rest, s.ok)
  }

  // ---------- Repeated names ----------

  /** The loop over the blocks meets no id twice. */
  ghost predicate FreshIds(b: seq<byte>, n: nat, acc: map<Hash, BlockRec>) {
    if n == 0 || |b| < 88 then true
    else
      var (h, r) := ReadBlock(b);
      h !in acc && FreshIds(b[88..], n - 1, acc[h := r])
  }

  /** The loop over the files meets no path twice. */
  ghost predicate FreshPaths(b: seq<byte>, n: nat, blocks: map<Hash, BlockRec>, acc: map<Path, FileRec>)
    decreases n
  {
    if n == 0 then true
    else
      match ReadFile(b, blocks)
      case Short => true
      case Parsed(path, file, rest) => path !in acc && FreshPaths(rest, n - 1, blocks, acc[path := file])
  }

  /** As far as the loader gets, no name comes twice. */
  ghost predicate Clean(b: seq<byte>) {
    |b| < 8 || CleanBlocks(b[8..])
  }

  ghost predicate CleanBlocks(b: seq<byte>) {
    || |b| < 8
    || var s := ReadBlocks(b[8..], AsUnsigned(b[..8]), map[]);
       FreshIds(b[8..], AsUnsigned(b[..8]), map[]) && (s.ok ==> CleanFiles(s.rest, s.acc))
  }

  ghost predicate CleanFiles(b: seq<byte>, blocks: map<Hash, BlockRec>) {
    |b| < 8 || FreshPaths(b[8..], AsUnsigned(b[..8]), blocks, map[])
  }

  // ---------- Cutting an image ----------

  /** A cut behind the first part, or inside it. */
  lemma Cut(a: seq<byte>, r: seq<byte>, k: nat)
    requires k <= |a| + |r|
    ensures k >= |a| ==> var c := (a + r)[..k]; c == a + r[..k - |a|] && c[..|a|] == a && c[|a|..] == r[..k - |a|]
    ensures |(a + r)[..k]| == k
  {
  }

  lemma BlockRoundTrip(h: Hash, b: BlockRec, r: seq<byte>)
    requires BlockFits(h, b)
    ensures ReadBlock(BlockBytes(h, b) + r) == (h, b) && (BlockBytes(h, b) + r)[88..] == r
  {
    hide Word, AsUnsigned, AsSigned, ToInt, Big, FromBig;
    var c := BlockBytes(h, b) + r;
    assert c[..64] == IdBytes(h) && c[64..72] == Word(b.size) && c[72..80] == Word(b.offset) && c[80..88] == Word(b.counter);
    BigRoundTrip(h, 64);
    WordRoundTrip(b.size);
    WordRoundTrip(b.offset);
    WordRoundTrip(b.counter);
  }

  ghost predicate Part<K, V>(a: map<K, V>, b: map<K, V>) {
    forall k <- a.Keys :: k in b && a[k] == b[k]
  }

  /** The loop over the blocks gets through exactly if no block is cut off; before that it has inserted
      some of the blocks, each as it was. */
  lemma {:induction false} BlocksCut(order: seq<Hash>, blocks: map<Hash, BlockRec>, tail: seq<byte>, k: nat, acc: map<Hash, BlockRec>)
    requires forall h :: h in order ==> h in blocks && BlockFits(h, blocks[h])
    requires k <= 88 * |order| + |tail| && Part(acc, blocks)
    ensures var s := ReadBlocks((BlocksBytes(order, blocks) + tail)[..k], |order|, acc);
            && (s.ok <==> k >= 88 * |order|) && Part(s.acc, blocks)
            && (s.ok ==> s.rest == tail[..k - 88 * |order|] && s.acc.Keys == acc.Keys + (set h | h in order))
    decreases |order|
  {
    hide ReadBlock, BlockBytes, BlockFits;
    if order == [] {
      assert BlocksBytes(order, blocks) + tail == tail;
      assert acc.Keys + (set h | h in order) == acc.Keys;
    } else {
      var h := order[0];
      var head, more := BlockBytes(h, blocks[h]), BlocksBytes(order[1..], blocks) + tail;
      assert BlocksBytes(order, blocks) + tail == head + more;
      Cut(head, more, k);
      if k >= 88 {
        BlockRoundTrip(h, blocks[h], more[..k - 88]);
        BlocksCut(order[1..], blocks, tail, k - 88, acc[h := blocks[h]]);
        assert (set g | g in order) == {h} + (set g | g in order[1..]);
      }
    }
  }

  lemma {:induction false} IdsCut(list: seq<Hash>, blocks: map<Hash, BlockRec>, tail: seq<byte>, k: nat, acc: seq<Hash>)
    requires forall h :: h in list ==> h in blocks && IsId(h)
    requires k <= 64 * |list| + |tail|
    ensures var s := ReadIds((IdsBytes(list) + tail)[..k], |list|, blocks, acc);
            && (s.ok <==> k >= 64 * |list|)
            && (s.ok ==> s.rest == tail[..k - 64 * |list|] && s.acc == acc + list)
    decreases |list|
  {
    hide Big, FromBig, Pow256;
    if list == [] {
      assert IdsBytes(list) + tail == tail;
    } else {
      var head, more := IdBytes(list[0]), IdsBytes(list[1..]) + tail;
      assert IdsBytes(list) + tail == head + more;
      Cut(head, more, k);
      if k >= 64 {
        assert IsId(list[0]);
        BigRoundTrip(list[0], 64);
        IdsCut(list[1..], blocks, tail, k - 64, acc + [list[0]]);
        assert acc + [list[0]] + list[1..] == acc + list;
      }
    }
  }

  lemma {:induction false} PathRoundTrip(p: Path)
    requires IsPath(p)
    ensures CString(PathBytes(p)) == p
  {
    if p != [] {
      PathRoundTrip(p[1..]);
      assert PathBytes(p)[1..] == PathBytes(p[1..]);
    }
  }

  /** The fixed part of a file entry, once it is all there. */
  lemma HeadRoundTrip(p: Path, f: FileRec, r: seq<byte>)
    requires IsPath(p) && IsInt64(f.realSize) && IsInt64(f.logicalSize) && |f.list| < TWO64
    ensures var b := FileHead(p, f) + r;
            && |FileHead(p, f)| == 32 + |p|
            && AsUnsigned(b[..8]) == |p| && CString(b[8..][..|p|]) == p && b[8..][|p| + 24..] == r
            && var head := b[8..][|p|..|p| + 24];
               AsSigned(head[..8]) == f.realSize && AsSigned(head[8..16]) == f.logicalSize && AsUnsigned(head[16..24]) == |f.list|
  {
    hide Word, AsUnsigned, AsSigned, PathBytes, CString;
    var b := FileHead(p, f) + r;
    WordRoundTrip(|p|);
    WordRoundTrip(f.realSize);
    WordRoundTrip(f.logicalSize);
    WordRoundTrip(|f.list|);
    PathRoundTrip(p);
    assert b[..8] == Word(|p|);
    assert b[8..] == PathBytes(p) + Word(f.realSize) + Word(f.logicalSize) + Word(|f.list|) + r;
    assert b[8..][..|p|] == PathBytes(p);
    var head := b[8..][|p|..|p| + 24];
    assert head == Word(f.realSize) + Word(f.logicalSize) + Word(|f.list|);
    assert head[..8] == Word(f.realSize) && head[8..16] == Word(f.logicalSize) && head[16..24] == Word(|f.list|);
  }

  lemma StringLength(p: Path, f: FileRec, tail: seq<byte>, k: nat)
    requires IsPath(p) && 8 <= k <= |FileHead(p, f)| + |tail|
    ensures AsUnsigned((FileHead(p, f) + tail)[..k][..8]) == |p| && |FileHead(p, f)| == 32 + |p|
  {
    hide AsUnsigned, Word, PathBytes;
    WordRoundTrip(|p|);
    assert (FileHead(p, f) + tail)[..k][..8] == Word(|p|);
  }

  /** With its fixed part complete, an entry loads exactly if its ids do. */
  lemma FileFromHead(p: Path, f: FileRec, blocks: map<Hash, BlockRec>, r: seq<byte>)
    requires IsPath(p) && IsInt64(f.realSize) && IsInt64(f.logicalSize) && |f.list| < TWO64
    ensures |FileHead(p, f)| == 32 + |p|
    ensures var ids := ReadIds(r, |f.list|, blocks, []);
            ReadFile(FileHead(p, f) + r, blocks) ==
            if ids.ok then Parsed(p, f.(list := ids.acc), ids.rest) else Short
  {
    hide AsUnsigned, AsSigned, FileHead, CString, ReadIds, IsPath;
    HeadRoundTrip(p, f, r);
    assert f.(list := ReadIds(r, |f.list|, blocks, []).acc) ==
           FileRec(f.realSize, f.logicalSize, ReadIds(r, |f.list|, blocks, []).acc);
  }

  /** A file entry loads exactly if it is all there. */
  lemma FileCut(p: Path, f: FileRec, blocks: map<Hash, BlockRec>, tail: seq<byte>, k: nat)
    requires FileFits(p, f, blocks) && k <= |FileBytes(p, f)| + |tail|
    ensures ReadFile((FileBytes(p, f) + tail)[..k], blocks) ==
            if k >= |FileBytes(p, f)| then Parsed(p, f, tail[..k - |FileBytes(p, f)|]) else Short
  {
    hide FileHead, IdsBytes, ReadIds;
    var head, more := FileHead(p, f), IdsBytes(f.list) + tail;
    assert FileBytes(p, f) + tail == head + more;
    Cut(head, more, k);
    if k >= |head| {
      hide ReadFile;
      FileFromHead(p, f, blocks, more[..k - |head|]);
      IdsCut(f.list, blocks, tail, k - |head|, []);
      assert [] + f.list == f.list;
    } else {
      FileFromHead(p, f, blocks, []);
      ShortHead(p, f, more, blocks, k);
    }
  }

  lemma ShortHead(p: Path, f: FileRec, more: seq<byte>, blocks: map<Hash, BlockRec>, k: nat)
    requires IsPath(p) && k < |FileHead(p, f)|
    ensures ReadFile((FileHead(p, f) + more)[..k], blocks) == Short
  {
    hide AsUnsigned, AsSigned, FileHead, CString, ReadIds;
    if k >= 8 {
      StringLength(p, f, more, k);
    }
  }

  lemma {:induction false} FilesCut(order: seq<Path>, files: map<Path, FileRec>, blocks: map<Hash, BlockRec>, tail: seq<byte>, k: nat, acc: map<Path, FileRec>)
    requires forall p :: p in order ==> p in files && IsPath(p) && FileFits(p, files[p], blocks)
    requires k <= |FilesBytes(order, files)| + |tail| && Part(acc, files)
    ensures var s := ReadFiles((FilesBytes(order, files) + tail)[..k], |order|, blocks, acc);
            && (s.ok <==> k >= |FilesBytes(order, files)|) && Part(s.acc, files)
            && (s.ok ==> s.rest == tail[..k - |FilesBytes(order, files)|] && s.acc.Keys == acc.Keys + (set p | p in order))
    decreases |order|
  {
    hide ReadFile, FileBytes, FileFits, IsPath;
    if order == [] {
      assert FilesBytes(order, files) + tail == tail;
      assert acc.Keys + (set p | p in order) == acc.Keys;
    } else {
      var p := order[0];
      var head, more := FileBytes(p, files[p]), FilesBytes(order[1..], files) + tail;
      assert FilesBytes(order, files) + tail == head + more;
      FileCut(p, files[p], blocks, more, k);
      if k >= |head| {
        FilesCut(order[1..], files, blocks, tail, k - |head|, acc[p := files[p]]);
        assert (set q | q in order) == {p} + (set q | q in order[1..]);
      }
    }
  }

  lemma {:induction false} FreeCut(free: seq<int>, k: nat, acc: seq<int>)
    requires (forall i :: 0 <= i < |free| ==> IsInt64(free[i])) && k <= 8 * |free|
    ensures var s := ReadFree(WordsBytes(free)[..k], |free|, acc);
            && (s.ok <==> k == 8 * |free|) && s.acc == acc + free[..k / 8]
            && (s.ok ==> s.rest == [])
    decreases |free|
  {
    hide Word, AsSigned;
    if free != [] {
      var head, more := Word(free[0]), WordsBytes(free[1..]);
      assert WordsBytes(free) == head + more;
      Cut(head, more, k);
      if k >= 8 {
        WordRoundTrip(free[0]);
        FreeCut(free[1..], k - 8, acc + [free[0]]);
        assert acc + [free[0]] + free[1..][..(k - 8) / 8] == acc + free[..k / 8];
      }
    }
  }

  // ---------- The whole image ----------

  ghost function FreePart(t: Tables): seq<byte> {
    Word(|t.free|) + WordsBytes(t.free)
  }

  ghost function FilesPart(t: Tables, fileOrder: seq<Path>): seq<byte>
    requires forall p :: p in fileOrder ==> p in t.files && IsPath(p)
  {
    Word(|t.files|) + (FilesBytes(fileOrder, t.files) + FreePart(t))
  }

  ghost function BlocksPart(t: Tables, blockOrder: seq<Hash>, fileOrder: seq<Path>): seq<byte>
    requires forall p :: p in fileOrder ==> p in t.files && IsPath(p)
    requires forall h :: h in blockOrder ==> h in t.blocks
  {
    Word(|t.blocks|) + (BlocksBytes(blockOrder, t.blocks) + FilesPart(t, fileOrder))
  }

  /** The tables l are what loading the first k bytes of a part of n bytes makes of t. */
  ghost predicate Loads(l: Loaded, t: Tables, k: nat, n: nat) {
    && l.t.next == t.next && Part(l.t.blocks, t.blocks) && Part(l.t.files, t.files) && l.t.free <= t.free
    && (l.t.files != map[] ==> l.t.blocks == t.blocks) && (l.t.free != [] ==> l.t.files == t.files && l.t.blocks == t.blocks)
    && (l.ok <==> k == n) && (l.ok ==> l.t == t && l.rest == [])
  }

  lemma FreeLoads(t: Tables, k: nat)
    requires |t.free| < TWO64 && (forall i :: 0 <= i < |t.free| ==> IsInt64(t.free[i])) && k <= |FreePart(t)|
    ensures Loads(LoadFree(FreePart(t)[..k], t.(free := [])), t, k, |FreePart(t)|)
  {
    hide Word, WordsBytes, AsUnsigned, ReadFree;
    Cut(Word(|t.free|), WordsBytes(t.free), k);
    if k >= 8 {
      WordRoundTrip(|t.free|);
      FreeCut(t.free, k - 8, []);
      assert [] + t.free[..(k - 8) / 8] == t.free[..(k - 8) / 8] && t.free[..|t.free|] == t.free;
    }
  }

  lemma PartIsAll<K, V>(a: map<K, V>, b: map<K, V>)
    requires Part(a, b) && a.Keys == b.Keys
    ensures a == b
  {
  }

  /** A walk visits as many entries as there are. */
  lemma {:induction false} WalkLength<K(!new), V>(order: seq<K>, m: map<K, V>)
    requires Walks(order, m)
    ensures |order| == |m| && (set k | k in order) == m.Keys
    decreases |order|
  {
    assert (set k | k in order) == m.Keys;
    if order == [] {
      assert m.Keys == {};
    } else {
      var n := |order| - 1;
      assert order == order[..n] + [order[n]];
      assert order[n] !in order[..n];
      WalkLength(order[..n], m - {order[n]});
    }
  }

  /** The loader stops: in the count or the entries of a table. */
  lemma StopsEarly(t: Tables, acc: map<Path, FileRec>, blocks: map<Hash, BlockRec>, rest: seq<byte>, k: nat, n: nat)
    requires Part(acc, t.files) && Part(blocks, t.blocks) && (acc != map[] ==> blocks == t.blocks) && k < n
    ensures Loads(Loaded(Tables(t.next, blocks, acc, []), rest, false), t, k, n)
  {
  }

  lemma LoadsFurther(l: Loaded, t: Tables, k: nat, n: nat, d: nat)
    requires Loads(l, t, k, n)
    ensures Loads(l, t, k + d, n + d)
  {
  }

  lemma FilesStep(t: Tables, fileOrder: seq<Path>, k: nat)
    requires |t.files| < TWO64 && (forall p :: p in fileOrder ==> p in t.files && IsPath(p))
    requires k <= |FilesPart(t, fileOrder)|
    ensures k < 8 ==> LoadFiles(FilesPart(t, fileOrder)[..k], Tables(t.next, t.blocks, map[], [])) == Loaded(Tables(t.next, t.blocks, map[], []), FilesPart(t, fileOrder)[..k], false)
    ensures |FilesPart(t, fileOrder)| == 8 + |FilesBytes(fileOrder, t.files)| + |FreePart(t)|
    ensures k >= 8 ==>
            var s := ReadFiles((FilesBytes(fileOrder, t.files) + FreePart(t))[..k - 8], |t.files|, t.blocks, map[]);
            LoadFiles(FilesPart(t, fileOrder)[..k], Tables(t.next, t.blocks, map[], [])) ==
            if s.ok then LoadFree(s.rest, Tables(t.next, t.blocks, s.acc, [])) else Loaded(Tables(t.next, t.blocks, s.acc, []), s.rest, false)
  {
    hide Word, AsUnsigned, ReadFiles, FilesBytes, FreePart, IsPath, LoadFree;
    var more := FilesBytes(fileOrder, t.files) + FreePart(t);
    Cut(Word(|t.files|), more, k);
    WordRoundTrip(|t.files|);
  }

  lemma FilesLoad(t: Tables, fileOrder: seq<Path>, k: nat)
    requires |t.free| < TWO64 && (forall i :: 0 <= i < |t.free| ==> IsInt64(t.free[i]))
    requires Walks(fileOrder, t.files) && |t.files| < TWO64
    requires forall p :: p in fileOrder ==> p in t.files && IsPath(p) && FileFits(p, t.files[p], t.blocks)
    requires k <= |FilesPart(t, fileOrder)|
    ensures Loads(LoadFiles(FilesPart(t, fileOrder)[..k], Tables(t.next, t.blocks, map[], [])), t, k, |FilesPart(t, fileOrder)|)
  {
    hide Word, ReadFiles, FilesBytes, FreePart, FileFits, IsPath, Walks, Loads, LoadFree, LoadFiles, FilesPart, Part;
    WalkLength(fileOrder, t.files);
    FilesStep(t, fileOrder, k);
    EmptyPart(t.files);
    WholePart(t.blocks);
    var n, size := |FilesBytes(fileOrder, t.files)|, |FilesPart(t, fileOrder)|;
    if k < 8 {
      StopsEarly(t, map[], t.blocks, FilesPart(t, fileOrder)[..k], k, size);
    } else {
      FilesCut(fileOrder, t.files, t.blocks, FreePart(t), k - 8, map[]);
      var s := ReadFiles((FilesBytes(fileOrder, t.files) + FreePart(t))[..k - 8], |t.files|, t.blocks, map[]);
      if s.ok {
        assert s.acc.Keys == t.files.Keys;
        PartIsAll(s.acc, t.files);
        FreeLoads(t, k - 8 - n);
        LoadsFurther(LoadFree(s.rest, t.(free := [])), t, k - 8 - n, |FreePart(t)|, 8 + n);
      } else {
        StopsEarly(t, s.acc, t.blocks, s.rest, k, size);
      }
    }
  }

  lemma EmptyPart<K, V>(m: map<K, V>)
    ensures Part(map[], m)
  {
  }

  lemma WholePart<K, V>(m: map<K, V>)
    ensures Part(m, m)
  {
  }

  lemma BlocksStep(t: Tables, blockOrder: seq<Hash>, fileOrder: seq<Path>, k: nat)
    requires |t.blocks| < TWO64 && (forall p :: p in fileOrder ==> p in t.files && IsPath(p)) && (forall h :: h in blockOrder ==> h in t.blocks)
    requires k <= |BlocksPart(t, blockOrder, fileOrder)|
    ensures k < 8 ==> LoadBlocks(BlocksPart(t, blockOrder, fileOrder)[..k], Tables(t.next, map[], map[], [])) == Loaded(Tables(t.next, map[], map[], []), BlocksPart(t, blockOrder, fileOrder)[..k], false)
    ensures |BlocksPart(t, blockOrder, fileOrder)| == 8 + 88 * |blockOrder| + |FilesPart(t, fileOrder)|
    ensures k >= 8 ==>
            var s := ReadBlocks((BlocksBytes(blockOrder, t.blocks) + FilesPart(t, fileOrder))[..k - 8], |t.blocks|, map[]);
            LoadBlocks(BlocksPart(t, blockOrder, fileOrder)[..k], Tables(t.next, map[], map[], [])) ==
            if s.ok then LoadFiles(s.rest, Tables(t.next, s.acc, map[], [])) else Loaded(Tables(t.next, s.acc, map[], []), s.rest, false)
  {
    hide Word, AsUnsigned, ReadBlocks, BlocksBytes, FilesPart, IsPath, LoadFiles;
    var more := BlocksBytes(blockOrder, t.blocks) + FilesPart(t, fileOrder);
    Cut(Word(|t.blocks|), more, k);
    WordRoundTrip(|t.blocks|);
  }

  lemma BlocksLoad(t: Tables, blockOrder: seq<Hash>, fileOrder: seq<Path>, k: nat)
    requires |t.free| < TWO64 && (forall i :: 0 <= i < |t.free| ==> IsInt64(t.free[i])) && |t.blocks| < TWO64 && |t.files| < TWO64
    requires Walks(blockOrder, t.blocks) && Walks(fileOrder, t.files)
    requires forall p :: p in fileOrder ==> p in t.files && IsPath(p) && FileFits(p, t.files[p], t.blocks)
    requires forall h :: h in blockOrder ==> h in t.blocks && BlockFits(h, t.blocks[h])
    requires k <= |BlocksPart(t, blockOrder, fileOrder)|
    ensures Loads(LoadBlocks(BlocksPart(t, blockOrder, fileOrder)[..k], Tables(t.next, map[], map[], [])), t, k,
                  |BlocksPart(t, blockOrder, fileOrder)|)
  {
    hide Word, ReadBlocks, BlocksBytes, FilesPart, FileFits, BlockFits, IsPath, Walks, Loads, LoadFiles, LoadBlocks, BlocksPart, Part;
    hide IsInt64, FreshIds;
    WalkLength(blockOrder, t.blocks);
    BlocksStep(t, blockOrder, fileOrder, k);
    EmptyPart(t.files);
    EmptyPart(t.blocks);
    var n, size := 88 * |blockOrder|, |BlocksPart(t, blockOrder, fileOrder)|;
    if k < 8 {
      StopsEarly(t, map[], map[], BlocksPart(t, blockOrder, fileOrder)[..k], k, size);
    } else {
      BlocksCut(blockOrder, t.blocks, FilesPart(t, fileOrder), k - 8, map[]);
      var s := ReadBlocks((BlocksBytes(blockOrder, t.blocks) + FilesPart(t, fileOrder))[..k - 8], |t.blocks|, map[]);
      if s.ok {
        assert s.acc.Keys == t.blocks.Keys;
        PartIsAll(s.acc, t.blocks);
        FilesLoad(t, fileOrder, k - 8 - n);
        LoadsFurther(LoadFiles(s.rest, Tables(t.next, t.blocks, map[], [])), t, k - 8 - n, |FilesPart(t, fileOrder)|, 8 + n);
      } else {
        StopsEarly(t, map[], s.acc, s.rest, k, size);
      }
    }
  }

  lemma WalksFit(t: Tables, blockOrder: seq<Hash>, fileOrder: seq<Path>)
    requires Fits(t) && Walks(blockOrder, t.blocks) && Walks(fileOrder, t.files)
    ensures forall p :: p in fileOrder ==> p in t.files && IsPath(p) && FileFits(p, t.files[p], t.blocks)
    ensures forall h :: h in blockOrder ==> h in t.blocks && BlockFits(h, t.blocks[h])
    ensures ImageOf(t, blockOrder, fileOrder) == Word(t.next) + BlocksPart(t, blockOrder, fileOrder) && IsInt64(t.next)
    ensures |t.free| < TWO64 && (forall i :: 0 <= i < |t.free| ==> IsInt64(t.free[i])) && |t.blocks| < TWO64 && |t.files| < TWO64
  {
    hide BlockFits, IsPath, Word, BlocksBytes, FilesBytes;
  }

  /** Loading the first k bytes of an image. */
  lemma CutImageLoads(t: Tables, blockOrder: seq<Hash>, fileOrder: seq<Path>, k: nat, next: int)
    requires Fits(t) && Walks(blockOrder, t.blocks) && Walks(fileOrder, t.files)
    requires k <= |ImageOf(t, blockOrder, fileOrder)|
    ensures var image := ImageOf(t, blockOrder, fileOrder);
            if k < 8 then Load(image[..k], next) == Loaded(Tables(next, map[], map[], []), image[..k], false)
            else Loads(Load(image[..k], next), t, k, |image|)
  {
    WalksFit(t, blockOrder, fileOrder);
    hide Fits, Walks, Word, AsSigned, BlocksPart, ImageOf, LoadBlocks, Loads, IsPath, FileFits, BlockFits;
    var more := BlocksPart(t, blockOrder, fileOrder);
    Cut(Word(t.next), more, k);
    if k >= 8 {
      WordRoundTrip(t.next);
      BlocksLoad(t, blockOrder, fileOrder, k - 8);
      LoadsFurther(LoadBlocks(more[..k - 8], Tables(t.next, map[], map[], [])), t, k - 8, |more|, 8);
    }
  }

  // ---------- Images have no repeated names ----------

  ghost predicate NewTo<K(!new), V>(order: seq<K>, acc: map<K, V>) {
    (forall i, j :: 0 <= i < j < |order| ==> order[i] != order[j]) && forall k :: k in order ==> k !in acc
  }

  lemma OneEntered<K(!new), V>(order: seq<K>, acc: map<K, V>, v: V)
    requires order != [] && NewTo(order, acc)
    ensures order[0] !in acc && NewTo(order[1..], acc[order[0] := v])
  {
    assert order[0] in order;
    assert forall k :: k in order[1..] ==> k in order && k != order[0];
  }

  lemma {:induction false} BlocksFresh(order: seq<Hash>, blocks: map<Hash, BlockRec>, tail: seq<byte>, k: nat, acc: map<Hash, BlockRec>)
    requires forall h :: h in order ==> h in blocks && BlockFits(h, blocks[h])
    requires k <= 88 * |order| + |tail| && NewTo(order, acc)
    ensures FreshIds((BlocksBytes(order, blocks) + tail)[..k], |order|, acc)
    decreases |order|
  {
    hide ReadBlock, BlockBytes, BlockFits, NewTo;
    if order != [] {
      var h := order[0];
      var head, more := BlockBytes(h, blocks[h]), BlocksBytes(order[1..], blocks) + tail;
      assert BlocksBytes(order, blocks) + tail == head + more;
      Cut(head, more, k);
      if k >= 88 {
        BlockRoundTrip(h, blocks[h], more[..k - 88]);
        OneEntered(order, acc, blocks[h]);
        BlocksFresh(order[1..], blocks, tail, k - 88, acc[h := blocks[h]]);
      }
    }
  }

  lemma {:induction false} FilesFresh(order: seq<Path>, files: map<Path, FileRec>, blocks: map<Hash, BlockRec>, tail: seq<byte>, k: nat, acc: map<Path, FileRec>)
    requires forall p :: p in order ==> p in files && IsPath(p) && FileFits(p, files[p], blocks)
    requires k <= |FilesBytes(order, files)| + |tail| && NewTo(order, acc)
    ensures FreshPaths((FilesBytes(order, files) + tail)[..k], |order|, blocks, acc)
    decreases |order|
  {
    hide ReadFile, FileBytes, FileFits, IsPath, NewTo;
    if order != [] {
      var p := order[0];
      var head, more := FileBytes(p, files[p]), FilesBytes(order[1..], files) + tail;
      assert FilesBytes(order, files) + tail == head + more;
      FileCut(p, files[p], blocks, more, k);
      if k >= |head| {
        OneEntered(order, acc, files[p]);
        FilesFresh(order[1..], files, blocks, tail, k - |head|, acc[p := files[p]]);
      }
    }
  }

  lemma WalkIsNew<K(!new), V>(order: seq<K>, m: map<K, V>)
    requires Walks(order, m)
    ensures NewTo<K, V>(order, map[])
  {
  }

  lemma FilesPartIsClean(t: Tables, fileOrder: seq<Path>, k: nat)
    requires Walks(fileOrder, t.files) && |t.files| < TWO64
    requires forall p :: p in fileOrder ==> p in t.files && IsPath(p) && FileFits(p, t.files[p], t.blocks)
    requires k <= |FilesPart(t, fileOrder)|
    ensures CleanFiles(FilesPart(t, fileOrder)[..k], t.blocks)
  {
    WalkLength(fileOrder, t.files);
    WalkIsNew(fileOrder, t.files);
    hide Word, AsUnsigned, FilesBytes, FreePart, FileFits, IsPath, Walks, FreshPaths, NewTo;
    Cut(Word(|t.files|), FilesBytes(fileOrder, t.files) + FreePart(t), k);
    if k >= 8 {
      WordRoundTrip(|t.files|);
      FilesFresh(fileOrder, t.files, t.blocks, FreePart(t), k - 8, map[]);
    }
  }

  lemma BlocksEntered(t: Tables, blockOrder: seq<Hash>, tail: seq<byte>, k: nat)
    requires Walks(blockOrder, t.blocks) && forall h :: h in blockOrder ==> h in t.blocks && BlockFits(h, t.blocks[h])
    requires k <= 88 * |t.blocks| + |tail|
    ensures |blockOrder| == |t.blocks|
    ensures var b := (BlocksBytes(blockOrder, t.blocks) + tail)[..k];
            var s := ReadBlocks(b, |t.blocks|, map[]);
            && FreshIds(b, |t.blocks|, map[])
            && (s.ok ==> k >= 88 * |t.blocks| && s.rest == tail[..k - 88 * |t.blocks|] && s.acc == t.blocks)
  {
    WalkLength(blockOrder, t.blocks);
    WalkIsNew(blockOrder, t.blocks);
    EmptyPart(t.blocks);
    hide BlocksBytes, BlockFits, Walks, FreshIds, NewTo, ReadBlocks, Part;
    BlocksFresh(blockOrder, t.blocks, tail, k, map[]);
    BlocksCut(blockOrder, t.blocks, tail, k, map[]);
    var s := ReadBlocks((BlocksBytes(blockOrder, t.blocks) + tail)[..k], |t.blocks|, map[]);
    if s.ok { PartIsAll(s.acc, t.blocks); }
  }

  lemma BlocksPartIsClean(t: Tables, blockOrder: seq<Hash>, fileOrder: seq<Path>, k: nat)
    requires Walks(blockOrder, t.blocks) && Walks(fileOrder, t.files) && |t.blocks| < TWO64 && |t.files| < TWO64
    requires forall p :: p in fileOrder ==> p in t.files && IsPath(p) && FileFits(p, t.files[p], t.blocks)
    requires forall h :: h in blockOrder ==> h in t.blocks && BlockFits(h, t.blocks[h])
    requires k <= |BlocksPart(t, blockOrder, fileOrder)|
    ensures CleanBlocks(BlocksPart(t, blockOrder, fileOrder)[..k])
  {
    hide Word, AsUnsigned, BlocksBytes, FilesPart, BlockFits, IsPath, FileFits, Walks, FreshIds, ReadBlocks, CleanFiles;
    WalkLength(blockOrder, t.blocks);
    var more := BlocksBytes(blockOrder, t.blocks) + FilesPart(t, fileOrder);
    Cut(Word(|t.blocks|), more, k);
    if k >= 8 {
      WordRoundTrip(|t.blocks|);
      BlocksEntered(t, blockOrder, FilesPart(t, fileOrder), k - 8);
      if ReadBlocks(more[..k - 8], |t.blocks|, map[]).ok {
        FilesPartIsClean(t, fileOrder, k - 8 - 88 * |t.blocks|);
      }
    }
  }

  // ---------- Main results ----------

  /** An image with the same block twice is not clean. */
  lemma SameBlockTwice(h: Hash, b: BlockRec)
    requires BlockFits(h, b)
    ensures !Clean(Word(0) + (Word(2) + (BlockBytes(h, b) + BlockBytes(h, b))))
  {
    hide Word, AsUnsigned, ReadBlock, BlockBytes, BlockFits;
    var block := BlockBytes(h, b);
    var blocks := Word(2) + (block + block);
    assert (Word(0) + blocks)[8..] == blocks && blocks[8..] == block + block && blocks[..8] == Word(2);
    WordRoundTrip(2);
    BlockRoundTrip(h, b, block);
    BlockRoundTrip(h, b, []);
    assert block + [] == block;
    assert FreshIds(block, 1, map[h := b]) == false;
  }

  /** A saved image, whole or cut off anywhere, never makes the loader enter a name twice. */
  lemma ImagesAreClean(t: Tables, blockOrder: seq<Hash>, fileOrder: seq<Path>, k: nat)
    requires Fits(t) && Walks(blockOrder, t.blocks) && Walks(fileOrder, t.files)
    requires k <= |ImageOf(t, blockOrder, fileOrder)|
    ensures Clean(ImageOf(t, blockOrder, fileOrder)[..k])
  {
    WalksFit(t, blockOrder, fileOrder);
    hide Fits, Walks, Word, BlocksPart, ImageOf, CleanBlocks, IsPath, FileFits, BlockFits;
    Cut(Word(t.next), BlocksPart(t, blockOrder, fileOrder), k);
    if k >= 8 {
      BlocksPartIsClean(t, blockOrder, fileOrder, k - 8);
    }
  }

  /** Save and load: whatever the order in which the hash tables are walked, the loader consumes the whole
      image and rebuilds the same blocks, files, sizes, free list and high-water offset. */
  lemma ImageRoundTrip(t: Tables, blockOrder: seq<Hash>, fileOrder: seq<Path>, next: int)
    requires Fits(t) && Walks(blockOrder, t.blocks) && Walks(fileOrder, t.files)
    ensures Load(ImageOf(t, blockOrder, fileOrder), next) == Loaded(t, [], true)
  {
    var image := ImageOf(t, blockOrder, fileOrder);
    assert |image| >= 8;
    hide ImageOf;
    assert image[..|image|] == image;
    CutImageLoads(t, blockOrder, fileOrder, |image|, next);
  }

  /** A cut-off image: the loader stops, with blocks and files that are all as they were saved, every entry
      of a loaded file leading to a loaded block, and the free list cut off at its end. */
  lemma PrefixLoadsPart(t: Tables, blockOrder: seq<Hash>, fileOrder: seq<Path>, k: nat, next: int)
    requires Fits(t) && Walks(blockOrder, t.blocks) && Walks(fileOrder, t.files)
    requires k < |ImageOf(t, blockOrder, fileOrder)|
    ensures var l := Load(ImageOf(t, blockOrder, fileOrder)[..k], next);
            && !l.ok && Part(l.t.blocks, t.blocks) && Part(l.t.files, t.files) && l.t.free <= t.free
            && (forall p, h :: p in l.t.files && h in l.t.files[p].list ==> h in l.t.blocks)
            && l.t.next == (if k < 8 then next else t.next)
  {
    hide ImageOf, Load;
    CutImageLoads(t, blockOrder, fileOrder, k, next);
    var l := Load(ImageOf(t, blockOrder, fileOrder)[..k], next);
    hide Fits;
    forall p, h | p in l.t.files && h in l.t.files[p].list
      ensures h in l.t.blocks
    {
      assert p in t.files && l.t.files[p] == t.files[p];
      ListsFit(t, p);
    }
  }

  lemma ListsFit(t: Tables, p: Path)
    requires Fits(t) && p in t.files
    ensures forall h :: h in t.files[p].list ==> h in t.blocks
  {
  }
}

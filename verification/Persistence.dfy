/** Saving the tables to a stream and loading them into an empty store. */
module Persistence {
  import opened Basics
  import opened StoreModel
  import opened DedupStore
  import Image
  import Loading
  import Runs

  // ---------- The stream that is written ----------

  /** What of `all` fits into `room` bytes. */
  function Cut(all: seq<byte>, room: nat): seq<byte> {
    if |all| <= room then all else all[..room]
  }

  /** What has been written to a file, on a device that takes so many bytes. */
  datatype Stream = Stream(bytes: seq<byte>, room: nat)

  /** The stream holds what fits of `all`; ok tells whether that is everything. */
  ghost predicate Holds(f: Stream, all: seq<byte>, ok: bool) {
    f.bytes == Cut(all, f.room) && ok == (|all| <= f.room)
  }

  /** fwrite, unless a call before it failed: what does not fit is lost, and the call says so. */
  method Put(f: Stream, data: seq<byte>, ghost all: seq<byte>, before: bool) returns (g: Stream, ok: bool)
    requires Holds(f, all, before)
    ensures Holds(g, all + data, ok) && g.room == f.room
  {
    g, ok := f, before;
    if ok {
      ok := |f.bytes| + |data| <= f.room;
      g := f.(bytes := Cut(f.bytes + data, f.room));
    }
  }

  lemma Associates(a: seq<byte>, b: seq<byte>, c: seq<byte>)
    ensures a + b + c == a + (b + c)
  {
  }

  // ---------- Saving ----------

  method SaveBlock(f0: Stream, block: BlockMeta, ghost all: seq<byte>, before: bool) returns (f: Stream, ok: bool)
    requires Holds(f0, all, before)
    ensures Holds(f, all + Image.BlockBytes(block.id, Runs.RecOf(block.Value())), ok) && f.room == f0.room
  {
    hide Image.Word, Image.Big, Holds;
    ghost var a1 := all + Image.IdBytes(block.id);
    ghost var a2 := a1 + Image.Word(block.size);
    ghost var a3 := a2 + Image.Word(block.offset);
    f, ok := Put(f0, Image.IdBytes(block.id), all, before);
    f, ok := Put(f, Image.Word(block.size), a1, ok);
    f, ok := Put(f, Image.Word(block.offset), a2, ok);
    f, ok := Put(f, Image.Word(block.counter), a3, ok);
    assert a3 + Image.Word(block.counter) == all + Image.BlockBytes(block.id, Runs.RecOf(block.Value()));
  }

  method SaveHead(f0: Stream, file: FileMeta, ghost all: seq<byte>, before: bool) returns (f: Stream, ok: bool)
    requires Holds(f0, all, before) && Image.IsPath(file.path)
    ensures Holds(f, all + Image.FileHead(file.path, Runs.FileRecOf(file.Value())), ok) && f.room == f0.room
  {
    hide Image.Word, Image.PathBytes, Holds, Image.IsPath;
    ghost var a1 := all + Image.Word(|file.path|);
    ghost var a2 := a1 + Image.PathBytes(file.path);
    ghost var a3 := a2 + Image.Word(file.realSize);
    ghost var a4 := a3 + Image.Word(file.logicalSize);
    f, ok := Put(f0, Image.Word(|file.path|), all, before);
    if |file.path| > 0 {
      f, ok := Put(f, Image.PathBytes(file.path), a1, ok);
    } else {
      assert a2 == a1;
    }
    f, ok := Put(f, Image.Word(file.realSize), a2, ok);
    f, ok := Put(f, Image.Word(file.logicalSize), a3, ok);
    f, ok := Put(f, Image.Word(|file.blockList|), a4, ok);
    assert a4 + Image.Word(|file.blockList|) == all + Image.FileHead(file.path, Runs.FileRecOf(file.Value()));
  }

  method SaveFile(f0: Stream, file: FileMeta, ghost all: seq<byte>, before: bool) returns (f: Stream, ok: bool)
    requires Holds(f0, all, before) && Image.IsPath(file.path)
    ensures Holds(f, all + Image.FileBytes(file.path, Runs.FileRecOf(file.Value())), ok) && f.room == f0.room
  {
    hide Image.IdBytes, Image.FileHead, Image.IdsBytes, Image.IsPath, Holds;
    ghost var ids, head := Ids(file.blockList), Image.FileHead(file.path, Runs.FileRecOf(file.Value()));
    f, ok := SaveHead(f0, file, all, before);
    NoIds(all + head);
    for i := 0 to |file.blockList|
      invariant Holds(f, all + head + Image.IdsBytes(ids[..i]), ok) && f.room == f0.room
    {
      IdsMore(all + head, ids, i);
      f, ok := Put(f, Image.IdBytes(file.blockList[i].id), all + head + Image.IdsBytes(ids[..i]), ok);
    }
    assert ids[..|file.blockList|] == ids;
    Associates(all, head, Image.IdsBytes(ids));
  }

  lemma NoIds(all: seq<byte>)
    ensures all + Image.IdsBytes([]) == all
  {
  }

  lemma {:induction false} IdsSplit(ids: seq<Hash>, i: nat)
    requires i <= |ids|
    ensures Image.IdsBytes(ids) == Image.IdsBytes(ids[..i]) + Image.IdsBytes(ids[i..])
  {
    hide Image.IdBytes;
    if i == 0 {
      assert ids[0..] == ids;
    } else {
      IdsSplit(ids[1..], i - 1);
      assert ids[1..][..i - 1] == ids[..i][1..] && ids[1..][i - 1..] == ids[i..];
    }
  }

  lemma IdsMore(all: seq<byte>, ids: seq<Hash>, i: nat)
    requires i < |ids|
    ensures all + Image.IdsBytes(ids[..i + 1]) == all + Image.IdsBytes(ids[..i]) + Image.IdBytes(ids[i])
  {
    hide Image.IdBytes;
    IdsSplit(ids[..i + 1], i);
    assert ids[..i + 1][..i] == ids[..i] && ids[..i + 1][i..] == [ids[i]];
    assert Image.IdsBytes([ids[i]]) == Image.IdBytes(ids[i]) + Image.IdsBytes([]);
  }

  lemma {:induction false} BlocksSplit(order: seq<Hash>, blocks: map<Hash, Image.BlockRec>, i: nat)
    requires i <= |order| && forall h :: h in order ==> h in blocks
    ensures Image.BlocksBytes(order, blocks) == Image.BlocksBytes(order[..i], blocks) + Image.BlocksBytes(order[i..], blocks)
  {
    hide Image.BlockBytes;
    if i == 0 {
      assert order[0..] == order;
    } else {
      BlocksSplit(order[1..], blocks, i - 1);
      assert order[1..][..i - 1] == order[..i][1..] && order[1..][i - 1..] == order[i..];
    }
  }

  lemma BlocksMore(all: seq<byte>, order: seq<Hash>, blocks: map<Hash, Image.BlockRec>, i: nat)
    requires i < |order| && forall h :: h in order ==> h in blocks
    ensures all + Image.BlocksBytes(order[..i + 1], blocks) ==
            all + Image.BlocksBytes(order[..i], blocks) + Image.BlockBytes(order[i], blocks[order[i]])
  {
    hide Image.BlockBytes;
    BlocksSplit(order[..i + 1], blocks, i);
    assert order[..i + 1][..i] == order[..i] && order[..i + 1][i..] == [order[i]];
    assert Image.BlocksBytes([order[i]], blocks) == Image.BlockBytes(order[i], blocks[order[i]]) + Image.BlocksBytes([], blocks);
  }

  lemma {:induction false} FilesSplit(order: seq<Path>, files: map<Path, Image.FileRec>, i: nat)
    requires i <= |order| && forall p :: p in order ==> p in files && Image.IsPath(p)
    ensures Image.FilesBytes(order, files) == Image.FilesBytes(order[..i], files) + Image.FilesBytes(order[i..], files)
    decreases |order|
  {
    hide Image.FileBytes, Image.IsPath;
    if i == 0 {
      assert order[0..] == order;
    } else {
      FilesSplit(order[1..], files, i - 1);
      assert order[1..][..i - 1] == order[..i][1..] && order[1..][i - 1..] == order[i..];
    }
  }

  lemma FilesMore(all: seq<byte>, order: seq<Path>, files: map<Path, Image.FileRec>, i: nat)
    requires i < |order| && forall p :: p in order ==> p in files && Image.IsPath(p)
    ensures all + Image.FilesBytes(order[..i + 1], files) ==
            all + Image.FilesBytes(order[..i], files) + Image.FileBytes(order[i], files[order[i]])
  {
    hide Image.FileBytes, Image.IsPath;
    FilesSplit(order[..i + 1], files, i);
    assert order[..i + 1][..i] == order[..i] && order[..i + 1][i..] == [order[i]];
    assert Image.FilesBytes([order[i]], files) == Image.FileBytes(order[i], files[order[i]]) + Image.FilesBytes([], files);
  }

  lemma {:induction false} WordsSplit(vs: seq<int>, i: nat)
    requires i <= |vs|
    ensures Image.WordsBytes(vs) == Image.WordsBytes(vs[..i]) + Image.WordsBytes(vs[i..])
  {
    hide Image.Word;
    if i == 0 {
      assert vs[0..] == vs;
    } else {
      WordsSplit(vs[1..], i - 1);
      assert vs[1..][..i - 1] == vs[..i][1..] && vs[1..][i - 1..] == vs[i..];
    }
  }

  lemma WordsMore(all: seq<byte>, vs: seq<int>, i: nat)
    requires i < |vs|
    ensures all + Image.WordsBytes(vs[..i + 1]) == all + Image.WordsBytes(vs[..i]) + Image.Word(vs[i])
  {
    hide Image.Word;
    WordsSplit(vs[..i + 1], i);
    assert vs[..i + 1][..i] == vs[..i] && vs[..i + 1][i..] == [vs[i]];
    assert Image.WordsBytes([vs[i]]) == Image.Word(vs[i]) + Image.WordsBytes([]);
  }

  /** t is what the store's tables hold. */
  ghost predicate Shows(s: Store, t: Image.Tables)
    reads s, s.fileIndex.Values, s.blockIndex.Values
  {
    s.Valid() && t == Runs.TablesOf(s.View())
  }

  /** Walk the block table. Entries after a failure are skipped. */
  method SaveBlocks(s: Store, f0: Stream, order: seq<Hash>, ghost t: Image.Tables, ghost all: seq<byte>, before: bool) returns (f: Stream, ok: bool)
    requires Shows(s, t) && Holds(f0, all, before) && forall h :: h in order ==> h in t.blocks
    ensures Holds(f, all + Image.BlocksBytes(order, t.blocks), ok) && f.room == f0.room
  {
    hide Image.BlocksBytes, Image.BlockBytes, Holds;
    ghost var blocks := t.blocks;
    f, ok := f0, before;
    assert all + Image.BlocksBytes([], blocks) == all by { NoBlocks(blocks); }
    for i := 0 to |order|
      invariant Holds(f, all + Image.BlocksBytes(order[..i], blocks), ok) && f.room == f0.room
    {
      BlocksMore(all, order, blocks, i);
      var block := s.blockIndex[order[i]];
      assert blocks[order[i]] == Runs.RecOf(block.Value());
      f, ok := SaveBlock(f, block, all + Image.BlocksBytes(order[..i], blocks), ok);
    }
    assert order[..|order|] == order;
  }

  lemma NoBlocks(blocks: map<Hash, Image.BlockRec>)
    ensures Image.BlocksBytes([], blocks) == []
  {
  }

  method SaveFiles(s: Store, f0: Stream, order: seq<Path>, ghost t: Image.Tables, ghost all: seq<byte>, before: bool) returns (f: Stream, ok: bool)
    requires Shows(s, t) && Holds(f0, all, before) && forall p :: p in order ==> p in t.files && Image.IsPath(p)
    ensures Holds(f, all + Image.FilesBytes(order, t.files), ok) && f.room == f0.room
  {
    hide Image.FilesBytes, Image.FileBytes, Holds, Image.IsPath;
    ghost var files := t.files;
    f, ok := f0, before;
    assert all + Image.FilesBytes([], files) == all by { NoFiles(files); }
    for i := 0 to |order|
      invariant Holds(f, all + Image.FilesBytes(order[..i], files), ok) && f.room == f0.room
    {
      FilesMore(all, order, files, i);
      assert order[i] in files.Keys && order[i] in s.Files();
      var file := s.fileIndex[order[i]];
      assert files[order[i]] == Runs.FileRecOf(file.Value());
      f, ok := SaveFile(f, file, all + Image.FilesBytes(order[..i], files), ok);
    }
    assert order[..|order|] == order;
  }

  lemma NoFiles(files: map<Path, Image.FileRec>)
    ensures Image.FilesBytes([], files) == []
  {
  }

  method SaveFree(f0: Stream, free: seq<nat>, ghost all: seq<byte>, before: bool) returns (f: Stream, ok: bool)
    requires Holds(f0, all, before)
    ensures Holds(f, all + Image.WordsBytes(free), ok) && f.room == f0.room
  {
    hide Image.WordsBytes, Image.Word, Holds;
    f, ok := f0, before;
    assert all + Image.WordsBytes([]) == all by { NoWords(); }
    for i := 0 to |free|
      invariant Holds(f, all + Image.WordsBytes(free[..i]), ok) && f.room == f0.room
    {
      WordsMore(all, free, i);
      f, ok := Put(f, Image.Word(free[i]), all + Image.WordsBytes(free[..i]), ok);
    }
    assert free[..|free|] == free;
  }

  lemma NoWords()
    ensures Image.WordsBytes([]) == []
  {
  }

  lemma TablesSizes(s: Store, t: Image.Tables)
    requires Shows(s, t)
    ensures |t.blocks| == |s.blockIndex| && |t.files| == |s.fileIndex| && t.free == s.freeList && t.next == s.nextFree
  {
    assert t.blocks.Keys == s.blockIndex.Keys && t.files.Keys == s.fileIndex.Keys;
    assert |t.blocks| == |t.blocks.Keys| && |t.files| == |t.files.Keys|;
    assert |s.blockIndex| == |s.blockIndex.Keys| && |s.fileIndex| == |s.fileIndex.Keys|;
  }

  /** The image, put together from the left. */
  lemma ImageFromLeft(t: Image.Tables, blockOrder: seq<Hash>, fileOrder: seq<Path>)
    requires Image.Fits(t) && Image.Walks(blockOrder, t.blocks) && Image.Walks(fileOrder, t.files)
    ensures (forall h :: h in blockOrder ==> h in t.blocks) && (forall p :: p in fileOrder ==> p in t.files && Image.IsPath(p))
    ensures [] + Image.Word(t.next) + Image.Word(|t.blocks|) + Image.BlocksBytes(blockOrder, t.blocks) + Image.Word(|t.files|) +
            Image.FilesBytes(fileOrder, t.files) + Image.Word(|t.free|) + Image.WordsBytes(t.free) ==
            Image.ImageOf(t, blockOrder, fileOrder)
  {
    hide Image.Word, Image.BlocksBytes, Image.FilesBytes, Image.WordsBytes;
  }

  /** save_metadata: the file ends up with the image, or with what fits of it. */
  method Save(s: Store, room: nat, blockOrder: seq<Hash>, fileOrder: seq<Path>) returns (image: seq<byte>)
    requires s.Valid() && Runs.CanSave(s.View(), blockOrder, fileOrder)
    ensures image == Cut(Image.ImageOf(Runs.TablesOf(s.View()), blockOrder, fileOrder), room) && Loading.Clean(image)
  {
    hide Runs.TablesOf, Image.ImageOf, Image.Fits, Image.Walks, Loading.Clean;
    CutIsClean(Runs.TablesOf(s.View()), blockOrder, fileOrder, room);
    image := SaveShown(s, room, blockOrder, fileOrder, Runs.TablesOf(s.View()));
  }

  lemma CutIsClean(t: Image.Tables, blockOrder: seq<Hash>, fileOrder: seq<Path>, room: nat)
    requires Image.Fits(t) && Image.Walks(blockOrder, t.blocks) && Image.Walks(fileOrder, t.files)
    ensures Loading.Clean(Cut(Image.ImageOf(t, blockOrder, fileOrder), room))
  {
    hide Image.ImageOf, Image.Fits, Image.Walks, Loading.Clean;
    var all := Image.ImageOf(t, blockOrder, fileOrder);
    assert all[..|all|] == all;
    Loading.ImagesAreClean(t, blockOrder, fileOrder, if |all| <= room then |all| else room);
  }

  method SaveShown(s: Store, room: nat, blockOrder: seq<Hash>, fileOrder: seq<Path>, ghost t: Image.Tables) returns (image: seq<byte>)
    requires Shows(s, t) && Image.Fits(t) && Image.Walks(blockOrder, t.blocks) && Image.Walks(fileOrder, t.files)
    ensures image == Cut(Image.ImageOf(t, blockOrder, fileOrder), room)
  {
    TablesSizes(s, t);
    ImageFromLeft(t, blockOrder, fileOrder);
    hide Shows, Image.Fits, Image.Walks, Image.ImageOf, Image.Word, Image.BlocksBytes, Image.FilesBytes, Image.WordsBytes, Image.IsPath;
    hide Holds, Cut, Runs.TablesOf;
    ghost var a1 := [] + Image.Word(t.next);
    ghost var a2 := a1 + Image.Word(|t.blocks|);
    ghost var a3 := a2 + Image.BlocksBytes(blockOrder, t.blocks);
    ghost var a4 := a3 + Image.Word(|t.files|);
    ghost var a5 := a4 + Image.FilesBytes(fileOrder, t.files);
    ghost var a6 := a5 + Image.Word(|t.free|);
    var f, ok := Stream([], room), true;
    StartsEmpty(f);
    f, ok := Put(f, Image.Word(s.nextFree), [], ok);
    f, ok := Put(f, Image.Word(|s.blockIndex|), a1, ok);
    f, ok := SaveBlocks(s, f, blockOrder, t, a2, ok);
    f, ok := Put(f, Image.Word(|s.fileIndex|), a3, ok);
    f, ok := SaveFiles(s, f, fileOrder, t, a4, ok);
    f, ok := Put(f, Image.Word(|s.freeList|), a5, ok);
    f, ok := SaveFree(f, s.freeList, a6, ok);
    HeldIsCut(f, Image.ImageOf(t, blockOrder, fileOrder), ok);
    image := f.bytes;
  }

  lemma StartsEmpty(f: Stream)
    requires f.bytes == []
    ensures Holds(f, [], true)
  {
  }

  lemma HeldIsCut(f: Stream, all: seq<byte>, ok: bool)
    requires Holds(f, all, ok)
    ensures f.bytes == Cut(all, f.room)
  {
  }

  // ---------- Loading ----------

  /** Blocks go into the index as they are read. Each entry is four reads; the first that comes short ends it. The
      table shows what was read as long as no id is repeated: then it is left with a freed key. */
  method LoadBlocks(s: Store, b: seq<byte>, n: nat) returns (rest: seq<byte>, ok: bool, ghost acc: map<Hash, Image.BlockRec>)
    requires s.Named() && s.blockIndex == map[] && !s.stale
    modifies s`blockIndex, s`stale
    ensures s.Named() && acc.Keys == s.blockIndex.Keys
    ensures !s.stale ==> s.Index() == Runs.IndexOf(acc)
    ensures !s.stale <==> Loading.FreshIds(b, n, map[])
    ensures Loading.ReadBlocks(b, n, map[]) == Loading.Section(acc, rest, ok)
  {
    hide Loading.ReadBlock;
    rest, ok, acc := b, true, map[];
    var left := n;
    while left > 0 && ok
      invariant s.Named() && s.Index() == Runs.IndexOf(acc)
      invariant Loading.FreshIds(b, n, map[]) <==> !s.stale && (ok ==> Loading.FreshIds(rest, left, acc))
      invariant Loading.ReadBlocks(b, n, map[]) ==
                if ok then Loading.ReadBlocks(rest, left, acc) else Loading.Section(acc, rest, false)
      decreases left, ok
    {
      if |rest| < 88 {
        ok := false;
      } else {
        var (id, r) := Loading.ReadBlock(rest);
        InsertBlock(s, id, r, acc);
        acc := acc[id := r];
        rest := rest[88..];
        left := left - 1;
      }
    }
    assert s.Index().Keys == s.blockIndex.Keys && Runs.IndexOf(acc).Keys == acc.Keys;
  }

  method InsertBlock(s: Store, id: Hash, r: Image.BlockRec, ghost acc: map<Hash, Image.BlockRec>)
    requires s.Named() && s.Index() == Runs.IndexOf(acc)
    modifies s`blockIndex, s`stale
    ensures s.Named() && s.Index() == Runs.IndexOf(acc[id := r])
    ensures s.stale == (old(s.stale) || id in acc)
  {
    assert s.Index().Keys == s.blockIndex.Keys && Runs.IndexOf(acc).Keys == acc.Keys;
    var block := new BlockMeta(id, Runs.Natural(r.size), Runs.Natural(r.offset), r.counter);
    s.stale := s.stale || id in s.blockIndex;
    s.blockIndex := s.blockIndex[id := block];
    assert s.Index() == old(s.Index())[id := Runs.BlockOf(r)];
  }

  /** The ids of a file lead to the block objects of the index. */
  method LoadIds(s: Store, b: seq<byte>, n: nat, ghost blocks: map<Hash, Image.BlockRec>) returns (list: seq<BlockMeta>, rest: seq<byte>, ok: bool)
    requires s.Named() && blocks.Keys == s.blockIndex.Keys
    ensures Loading.ReadIds(b, n, blocks, []) == Loading.Section(Ids(list), rest, ok)
    ensures forall x :: x in list ==> x.id in s.blockIndex && s.blockIndex[x.id] == x
  {
    hide Image.FromBig;
    list, rest, ok := [], b, true;
    var left := n;
    while left > 0 && ok
      invariant forall x :: x in list ==> x.id in s.blockIndex && s.blockIndex[x.id] == x
      invariant Loading.ReadIds(b, n, blocks, []) ==
                if ok then Loading.ReadIds(rest, left, blocks, Ids(list)) else Loading.Section(Ids(list), rest, false)
      decreases left, ok
    {
      if |rest| < 64 || Image.FromBig(rest[..64]) !in s.blockIndex {
        ok := false;
      } else {
        var block := s.blockIndex[Image.FromBig(rest[..64])];
        assert Ids(list + [block]) == Ids(list) + [block.id];
        list := list + [block];
        rest := rest[64..];
        left := left - 1;
      }
    }
  }

  /** A file object is complete before it is entered into the index. */
  method LoadFile(s: Store, b: seq<byte>, ghost blocks: map<Hash, Image.BlockRec>) returns (file: FileMeta?, rest: seq<byte>)
    requires s.Named() && blocks.Keys == s.blockIndex.Keys
    ensures match Loading.ReadFile(b, blocks)
            case Short => file == null
            case Parsed(path, f, r) =>
              && file != null && fresh(file) && file.path == path && file.Value() == Runs.FileOf(f) && rest == r
              && forall x :: x in file.blockList ==> x.id in s.blockIndex && s.blockIndex[x.id] == x
  {
    hide Loading.ReadIds, Loading.CString, Image.AsUnsigned, Image.AsSigned;
    file, rest := null, b;
    if |b| < 8 {
      return;
    }
    var len := Image.AsUnsigned(b[..8]);
    rest := b[8..];
    if |rest| < len + 24 {
      return;
    }
    var path, head := Loading.CString(rest[..len]), rest[len..len + 24];
    var list, ok;
    list, rest, ok := LoadIds(s, rest[len + 24..], Image.AsUnsigned(head[16..24]), blocks);
    if ok {
      file := new FileMeta(path, Runs.Natural(Image.AsSigned(head[..8])), Runs.Natural(Image.AsSigned(head[8..16])), list);
    }
  }

  method LoadFiles(s: Store, b: seq<byte>, n: nat, ghost blocks: map<Hash, Image.BlockRec>) returns (rest: seq<byte>, ok: bool, ghost acc: map<Path, Image.FileRec>)
    requires s.Named() && s.fileIndex == map[] && blocks.Keys == s.blockIndex.Keys
    modifies s`fileIndex, s`stale
    ensures s.Filed(s.blockIndex) && (!s.stale ==> s.Files() == Runs.FilesOf(acc))
    ensures !s.stale <==> !old(s.stale) && Loading.FreshPaths(b, n, blocks, map[])
    ensures Loading.ReadFiles(b, n, blocks, map[]) == Loading.Section(acc, rest, ok)
  {
    hide Loading.ReadFile;
    rest, ok, acc := b, true, map[];
    var left := n;
    while left > 0 && ok
      invariant s.Filed(s.blockIndex) && s.Files() == Runs.FilesOf(acc)
      invariant !old(s.stale) && Loading.FreshPaths(b, n, blocks, map[]) <==>
                !s.stale && (ok ==> Loading.FreshPaths(rest, left, blocks, acc))
      invariant Loading.ReadFiles(b, n, blocks, map[]) ==
                if ok then Loading.ReadFiles(rest, left, blocks, acc) else Loading.Section(acc, rest, false)
      decreases left, ok
    {
      var file, more := LoadFile(s, rest, blocks);
      if file == null {
        ok := false;
      } else {
        ghost var f := Loading.ReadFile(rest, blocks).file;
        InsertFile(s, file, f, acc);
        acc := acc[file.path := f];
        rest := more;
        left := left - 1;
      }
    }
  }

  lemma SamePaths(s: Store, acc: map<Path, Image.FileRec>)
    requires s.Files() == Runs.FilesOf(acc)
    ensures forall p :: p in s.fileIndex <==> p in acc
  {
    assert s.Files().Keys == s.fileIndex.Keys && Runs.FilesOf(acc).Keys == acc.Keys;
  }

  method InsertFile(s: Store, file: FileMeta, ghost f: Image.FileRec, ghost acc: map<Path, Image.FileRec>)
    requires s.Filed(s.blockIndex) && s.Files() == Runs.FilesOf(acc) && file.Value() == Runs.FileOf(f)
    requires forall x :: x in file.blockList ==> x.id in s.blockIndex && s.blockIndex[x.id] == x
    modifies s`fileIndex, s`stale
    ensures s.Filed(s.blockIndex) && s.Files() == Runs.FilesOf(acc[file.path := f])
    ensures s.stale == (old(s.stale) || file.path in acc)
  {
    SamePaths(s, acc);
    s.stale := s.stale || file.path in s.fileIndex;
    s.fileIndex := s.fileIndex[file.path := file];
    assert s.Files() == old(s.Files())[file.path := Runs.FileOf(f)];
  }

  method LoadFree(s: Store, b: seq<byte>, n: nat) returns (rest: seq<byte>, ok: bool, ghost acc: seq<int>)
    requires s.freeList == []
    modifies s`freeList
    ensures s.freeList == Runs.Naturals(acc)
    ensures Loading.ReadFree(b, n, []) == Loading.Section(acc, rest, ok)
  {
    hide Image.AsSigned;
    rest, ok, acc := b, true, [];
    var left := n;
    while left > 0 && ok
      invariant s.freeList == Runs.Naturals(acc)
      invariant Loading.ReadFree(b, n, []) ==
                if ok then Loading.ReadFree(rest, left, acc) else Loading.Section(acc, rest, false)
      decreases left, ok
    {
      if |rest| < 8 {
        ok := false;
      } else {
        var v := Image.AsSigned(rest[..8]);
        s.freeList := s.freeList + [Runs.Natural(v)];
        acc := acc + [v];
        rest := rest[8..];
        left := left - 1;
      }
    }
  }

  /** load_metadata, into the empty tables of a store: what could be read stays, whatever follows. The store is
      valid exactly if no id or path has been read twice. */
  method Load(s: Store, image: seq<byte>)
    requires s.fileIndex == map[] && s.blockIndex == map[] && s.freeList == [] && !s.stale
    modifies s`fileIndex, s`blockIndex, s`freeList, s`nextFree, s`stale
    ensures s.Valid() <==> Loading.Clean(image)
    ensures s.Valid() ==> s.View() == Runs.StateOf(Loading.Load(image, old(s.nextFree)).t, s.disk)
  {
    hide Loading.ReadBlocks, Loading.ReadFiles, Loading.ReadFree, Loading.FreshIds, Loading.FreshPaths, Image.AsSigned, Image.AsUnsigned;
    if |image| < 8 {
      return;
    }
    s.nextFree := Runs.Natural(Image.AsSigned(image[..8]));
    var b := image[8..];
    if |b| < 8 {
      return;
    }
    var ok;
    ghost var blocks, files, free;
    b, ok, blocks := LoadBlocks(s, b[8..], Image.AsUnsigned(b[..8]));
    if !ok || |b| < 8 {
      return;
    }
    b, ok, files := LoadFiles(s, b[8..], Image.AsUnsigned(b[..8]), blocks);
    if !ok || |b| < 8 {
      return;
    }
    b, ok, free := LoadFree(s, b[8..], Image.AsUnsigned(b[..8]));
  }

  /** xmp_init: an empty store on the backend file, and the tables loaded into it. */
  method Start(hash: HashFunction, disk: seq<byte>, image: seq<byte>) returns (s: Store)
    ensures fresh(s) && s.hash == hash && (s.Valid() <==> Loading.Clean(image))
    ensures s.Valid() ==> s.View() == Runs.StateOf(Loading.Load(image, |disk|).t, disk)
  {
    hide Runs.StateOf, Loading.Load, Loading.Clean, Store.Valid, Store.Files, Store.Index;
    s := new Store(hash, disk);
    Load(s, image);
  }

  /** Stop and start again: xmp_destroy saves, xmp_init loads into an empty store on the same backend file.
      The new store holds the same as the old one, with every list leading to shared block objects. */
  method Remount(s: Store, room: nat, blockOrder: seq<Hash>, fileOrder: seq<Path>) returns (s1: Store)
    requires s.Valid() && Runs.CanSave(s.View(), blockOrder, fileOrder)
    requires |Image.ImageOf(Runs.TablesOf(s.View()), blockOrder, fileOrder)| <= room
    ensures s1.Valid() && s1.View() == s.View() && fresh(s1) && s1.hash == s.hash
  {
    hide Runs.TablesOf, Runs.StateOf, Image.Fits, Image.Walks, Image.ImageOf, Loading.Load, Loading.Clean, Store.Valid, Store.Files, Store.Index;
    Runs.RemountIsIdentity(s.View(), blockOrder, fileOrder);
    var image := Save(s, room, blockOrder, fileOrder);
    s1 := Start(s.hash, s.disk, image);
  }
}

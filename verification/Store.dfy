/** The store as the C program keeps it: tables of shared block and file objects, updated in place. */
module DedupStore {
  import opened Basics
  import opened Collections
  import opened Disk
  import opened Space
  import opened StoreModel
  import opened UnlinkEffect
  import Runs

  class BlockMeta {
    const id: Hash
    const size: nat
    var offset: nat
    var counter: int

    constructor (id: Hash, size: nat, offset: nat, counter: int)
      ensures this.id == id && this.size == size && this.offset == offset && this.counter == counter
    {
      this.id, this.size, this.offset, this.counter := id, size, offset, counter;
    }

    ghost function Value(): BlockV
      reads this
    {
      BlockV(offset, counter, size)
    }
  }

  class FileMeta {
    const path: Path
    var realSize: nat
    var logicalSize: nat
    var blockList: seq<BlockMeta>

    constructor (path: Path, realSize: nat, logicalSize: nat, blockList: seq<BlockMeta>)
      ensures this.path == path && this.realSize == realSize && this.logicalSize == logicalSize && this.blockList == blockList
    {
      this.path, this.realSize, this.logicalSize, this.blockList := path, realSize, logicalSize, blockList;
    }

    ghost function Value(): FileV
      reads this
    {
      FileV(realSize, logicalSize, Ids(blockList))
    }
  }

  function Ids(bs: seq<BlockMeta>): (hs: seq<Hash>)
    ensures |hs| == |bs| && forall i :: 0 <= i < |bs| ==> hs[i] == bs[i].id
  {
    seq(|bs|, i requires 0 <= i < |bs| => bs[i].id)
  }

  class Store {
    const hash: HashFunction
    var fileIndex: map<Path, FileMeta>
    var blockIndex: map<Hash, BlockMeta>
    var freeList: seq<nat>
    var nextFree: nat
    var disk: seq<byte>

    /** A table has been left with a key that was freed together with the entry it belonged to. The tables free
        values but not keys, and an insertion under a name that is already there keeps the old key. */
    ghost var stale: bool

    /** An empty store on a backend file: what xmp_init has before it loads. */
    constructor (hash: HashFunction, disk: seq<byte>)
      ensures this.hash == hash && this.disk == disk && nextFree == |disk|
      ensures fileIndex == map[] && blockIndex == map[] && freeList == [] && !stale
    {
      this.hash, this.disk, nextFree, stale := hash, disk, |disk|, false;
      fileIndex, blockIndex, freeList := map[], map[], [];
    }

    /** No key dangles, objects are filed under their own names, and every entry of a list is the block object that the
        index has for its id: equal blocks are one object. */
    ghost predicate Valid()
      reads this`stale, this`fileIndex, this`blockIndex, fileIndex.Values
    {
      !stale && Named() && Filed(blockIndex)
    }

    ghost predicate Filed(blocks: map<Hash, BlockMeta>)
      reads this`fileIndex, fileIndex.Values
    {
      && (forall p :: p in fileIndex ==> fileIndex[p].path == p)
      && (forall p, b :: p in fileIndex && b in fileIndex[p].blockList ==> b.id in blocks && blocks[b.id] == b)
    }

    ghost predicate Named()
      reads this`blockIndex
    {
      forall h :: h in blockIndex ==> blockIndex[h].id == h
    }

    ghost function Index(): map<Hash, BlockV>
      reads this`blockIndex, blockIndex.Values
    {
      map h | h in blockIndex :: blockIndex[h].Value()
    }

    ghost function Files(): map<Path, FileV>
      reads this`fileIndex, fileIndex.Values
    {
      map p | p in fileIndex :: fileIndex[p].Value()
    }

    ghost function View(): State
      reads this, fileIndex.Values, blockIndex.Values
    {
      State(Files(), Index(), freeList, nextFree, disk)
    }

    // ---------- Write ----------

    /** Look a hash up, or insert a block for it, and count one more reference. */
    method CountBlock(h: Hash) returns (block: BlockMeta, isNew: bool)
      requires Valid()
      modifies this`blockIndex, if h in blockIndex then {blockIndex[h]} else {}
      ensures Valid() && Index() == CountOne(old(Index()), h) && Files() == old(Files())
      ensures block.id == h && isNew == (h !in old(blockIndex)) && blockIndex == old(blockIndex)[h := block]
      ensures if isNew then fresh(block) && block.size == BLOCK else block == old(blockIndex)[h]
    {
      hide Filed;
      isNew := h !in blockIndex;
      if isNew {
        block := new BlockMeta(h, BLOCK, 0, 1);
        FiledWithMore(block);
        blockIndex := blockIndex[h := block];
      } else {
        block := blockIndex[h];
        block.counter := block.counter + 1;
      }
      assert Index() == CountOne(old(Index()), h);
    }

    lemma FiledWithMore(block: BlockMeta)
      requires Filed(blockIndex) && block.id !in blockIndex
      ensures Filed(blockIndex[block.id := block])
    {
    }

    /** A created block gets its offset: the last one freed, or the end of the file. */
    method PlaceBlock(block: BlockMeta)
      requires Valid() && block.id in blockIndex && blockIndex[block.id] == block
      modifies this`freeList, this`nextFree, block`offset
      ensures Valid() && Files() == old(Files())
      ensures var t := Take(Space(map[], old(freeList), old(nextFree)), block.id);
              && freeList == t.free && nextFree == t.next
              && Index() == old(Index())[block.id := old(Index())[block.id].(offset := t.offs[block.id])]
    {
      hide Files;
      if |freeList| > 0 {
        block.offset := freeList[|freeList| - 1];
        freeList := freeList[..|freeList| - 1];
      } else {
        block.offset := nextFree;
        nextFree := nextFree + BLOCK;
      }
    }

    /** Count all blocks of a write; `locked` lists the distinct ones, `created` those that are new. */
    method CountAll(hs: seq<Hash>) returns (got: seq<BlockMeta>, created: set<BlockMeta>, locked: map<Hash, BlockMeta>)
      requires Valid()
      modifies this`blockIndex, blockIndex.Values
      ensures Valid() && Index() == Counted(old(Index()), hs) && Files() == old(Files())
      ensures forall h :: h in blockIndex ==> (h in old(blockIndex) && blockIndex[h] == old(blockIndex)[h]) || fresh(blockIndex[h])
      ensures Counting(old(blockIndex), blockIndex, hs, got, created, locked)
    {
      hide Valid, Index, Files, Counted, CountOne, Counting;
      got, created, locked := [], {}, map[];
      CountOneMore(Index(), [], 0);
      CountingNone(blockIndex);
      for i := 0 to |hs|
        invariant Valid() && Index() == Counted(old(Index()), hs[..i]) && Files() == old(Files())
        invariant forall h :: h in blockIndex ==> (h in old(blockIndex) && blockIndex[h] == old(blockIndex)[h]) || fresh(blockIndex[h])
        invariant Counting(old(blockIndex), blockIndex, hs[..i], got, created, locked)
      {
        ghost var before := blockIndex;
        var block, isNew := CountBlock(hs[i]);
        CountOneMore(old(Index()), hs[..i], hs[i]);
        CountingMore(old(blockIndex), before, hs[..i], got, created, locked, block);
        assert hs[..i + 1] == hs[..i] + [hs[i]];
        if isNew {
          created := created + {block};
        }
        if block.id !in locked {
          locked := locked[block.id := block];
        }
        got := got + [block];
      }
      assert hs[..|hs|] == hs;
    }

    lemma IndexFacts(h: Hash)
      requires Valid() && h in blockIndex
      ensures h in Index() && Index()[h] == blockIndex[h].Value() && blockIndex[h].id == h
    {
    }

    lemma KeysShown()
      ensures Index().Keys == blockIndex.Keys && Files().Keys == fileIndex.Keys
    {
    }

    lemma FileShown(file: FileMeta)
      requires file.path in fileIndex && fileIndex[file.path] == file
      ensures file.path in Files() && Files()[file.path] == file.Value()
    {
    }

    lemma StartPlacing(base: Space<Hash>)
      requires forall h :: h in base.offs ==> h in blockIndex && base.offs[h] == blockIndex[h].offset
      ensures WithOffsets(Index(), TakeAll(base, []).offs) == Index() && TakeAll(base, []) == base
    {
    }

    /** Walk the locked blocks by ascending id, and place those that this write created. */
    method PlaceAll(order: seq<Hash>, locked: map<Hash, BlockMeta>, created: set<BlockMeta>, ghost base: Space<Hash>)
      requires Valid() && base.free == freeList && base.next == nextFree
      requires forall h :: h in base.offs ==> h in blockIndex && base.offs[h] == blockIndex[h].offset
      requires forall h :: h in order ==> h in locked && h in blockIndex && locked[h] == blockIndex[h]
      modifies this`freeList, this`nextFree, blockIndex.Values`offset
      ensures Valid() && Files() == old(Files())
      ensures var t := TakeAll(base, Picked(order, locked, created));
              freeList == t.free && nextFree == t.next && Index() == WithOffsets(old(Index()), t.offs)
    {
      hide Valid, Index, Files, Picked, WithOffsets, TakeAll, Take;
      KeysShown();
      StartPlacing(base);
      PickNone(locked, created);
      for i := 0 to |order|
        invariant Valid() && Files() == old(Files())
        invariant var t := TakeAll(base, Picked(order[..i], locked, created));
                  freeList == t.free && nextFree == t.next && Index() == WithOffsets(old(Index()), t.offs)
      {
        var block := locked[order[i]];
        PickNext(order, locked, created, i);
        if block in created {
          ghost var t := TakeAll(base, Picked(order[..i], locked, created));
          IndexFacts(order[i]);
          PlaceBlock(block);
          PlaceMore(old(Index()), t, block.id);
          TakeMore(base, Picked(order[..i], locked, created), block.id);
        }
      }
      assert order[..|order|] == order;
    }

    /** One entry of a write: a new block goes out to the backend file and onto the file's bill. */
    method EmitBlock(file: FileMeta, block: BlockMeta, data: Block, isNew: bool)
      requires Valid() && file.path in fileIndex && fileIndex[file.path] == file
      requires block.id in blockIndex && blockIndex[block.id] == block && (isNew ==> block.size == BLOCK)
      modifies this`disk, file`realSize, file`blockList
      ensures Valid()
      ensures disk == if isNew then PWrite(old(disk), block.offset, data) else old(disk)
      ensures var f := old(Files())[file.path];
              Files() == old(Files())[file.path := f.(realSize := f.realSize + if isNew then BLOCK else 0, list := f.list + [block.id])]
    {
      hide PWrite;
      if isNew {
        disk := PWrite(disk, block.offset, data);
        file.realSize := file.realSize + block.size;
      }
      file.blockList := file.blockList + [block];
      forall p, b | p in fileIndex && b in fileIndex[p].blockList
        ensures b.id in blockIndex && blockIndex[b.id] == b
      {
        assert b == block || b in old(fileIndex[p].blockList);
      }
      assert Ids(file.blockList) == old(Ids(file.blockList)) + [block.id];
    }

    /** Write the created blocks out, each when it is met first, and append all entries to the file. */
    method EmitAll(file: FileMeta, got: seq<BlockMeta>, created: set<BlockMeta>, bs: seq<Block>, ghost ids: set<Hash>)
      requires Valid() && file.path in fileIndex && fileIndex[file.path] == file && ids <= blockIndex.Keys
      requires |got| == |bs| && forall i :: 0 <= i < |got| ==> got[i].id in blockIndex && blockIndex[got[i].id] == got[i]
      requires Leaves(blockIndex, ids, [], created)
      modifies this`disk, file`realSize, file`blockList
      ensures Valid() && Index() == old(Index())
      ensures disk == WrittenOut(old(disk), Index(), ids, Ids(got), bs)
      ensures var f := old(Files())[file.path];
              (forall h <- ids :: h in Ids(got)) ==>
              Files() == old(Files())[file.path := f.(realSize := f.realSize + BLOCK * |created|, list := f.list + Ids(got))]
    {
      KeysShown();
      hide Valid, Index, WrittenOut, PWrite, Files, Leaves;
      var left := created;
      ghost var hs, files0, f := Ids(got), Files(), Files()[file.path];
      WrittenNone(disk, Index(), ids);
      SameFile(files0, file.path);
      for i := 0 to |got|
        invariant Valid() && Index() == old(Index())
        invariant left <= created && |left| <= |created| && Leaves(blockIndex, ids, hs[..i], left)
        invariant disk == WrittenOut(old(disk), Index(), ids, hs[..i], bs[..i])
        invariant Files() == files0[file.path := f.(realSize := f.realSize + BLOCK * (|created| - |left|), list := f.list + hs[..i])]
      {
        var block := got[i];
        IndexFacts(block.id);
        WrittenMore(old(disk), Index(), ids, hs, bs, i);
        LeavesMore(blockIndex, ids, hs, i, left, block);
        EmitBlock(file, block, bs[i], block in left);
        left := left - {block};
        assert hs[..i + 1] == hs[..i] + [hs[i]];
        assert f.list + hs[..i + 1] == f.list + hs[..i] + [hs[i]];
      }
      assert hs[..|got|] == hs && bs[..|got|] == bs;
      if forall h <- ids :: h in hs {
        LeavesNone(blockIndex, ids, hs, left);
      }
    }

    /** SHA-512 of every block of the buffer, before any lock is taken. */
    method HashBlocks(buf: seq<byte>) returns (hs: seq<Hash>)
      requires |buf| % BLOCK == 0
      ensures hs == HashAll(hash, Split(buf))
    {
      hs := [];
      for i := 0 to |buf| / BLOCK
        invariant |hs| == i && forall j :: 0 <= j < i ==> hs[j] == hash(BlockAt(buf, j))
      {
        hs := hs + [hash(buf[BLOCK * i..BLOCK * i + BLOCK])];
      }
    }

    /** The file object of a path, created empty if there is none. */
    method OpenFile(path: Path) returns (file: FileMeta)
      requires Valid()
      modifies this`fileIndex
      ensures Valid() && View() == Opened(old(View()), path)
      ensures path in fileIndex && fileIndex[path] == file && (file in old(fileIndex.Values) || fresh(file))
    {
      if path !in fileIndex {
        file := new FileMeta(path, 0, 0, []);
        fileIndex := fileIndex[path := file];
        assert Files() == old(Files())[path := FileV(0, 0, [])];
      } else {
        file := fileIndex[path];
      }
    }

    lemma IsFiled(path: Path)
      requires Valid() && path in fileIndex
      ensures fileIndex[path].path == path
    {
    }

    /** The position behind what was written becomes the size, if it is larger. */
    method Grow(file: FileMeta, end: nat)
      requires Valid() && file.path in fileIndex && fileIndex[file.path] == file
      modifies file`logicalSize
      ensures Valid()
      ensures var f := old(Files())[file.path];
              Files() == old(Files())[file.path := f.(logicalSize := if end > f.logicalSize then end else f.logicalSize)]
    {
      if end > file.logicalSize {
        file.logicalSize := end;
      }
    }

    lemma BaseShown(index0: map<Hash, BlockV>, hs: seq<Hash>)
      requires Index() == Counted(index0, hs)
      ensures forall h :: h in index0 ==> h in blockIndex && blockIndex[h].offset == index0[h].offset
    {
      forall h | h in index0
        ensures h in blockIndex && blockIndex[h].offset == index0[h].offset
      {
        assert h in Index();
      }
    }

    lemma IdsShown()
      requires Valid()
      ensures forall h :: h in blockIndex ==> blockIndex[h].id == h
    {
    }

    /** Everything a write does to the index and to the free space. */
    method CountAndPlace(hs: seq<Hash>) returns (got: seq<BlockMeta>, created: set<BlockMeta>)
      requires Valid()
      modifies this`blockIndex, this`freeList, this`nextFree, blockIndex.Values
      ensures Valid() && Files() == old(Files()) && Ids(got) == hs
      ensures forall i :: 0 <= i < |got| ==> got[i].id in blockIndex && blockIndex[got[i].id] == got[i]
      ensures var ids := Created(old(Index()), hs);
              && ids <= blockIndex.Keys && Leaves(blockIndex, ids, [], created) && |created| == |ids|
              && var t := TakeAll(old(SpaceOf(View())), Sorted(ids));
                 freeList == t.free && nextFree == t.next && Index() == WithOffsets(Counted(old(Index()), hs), t.offs)
    {
      hide Valid, Index, Files, Counting, Leaves, Picked, TakeAll, WithOffsets, Counted, Offsets, Ids, Sorted;
      ghost var index0, blockIndex0, base := Index(), blockIndex, SpaceOf(View());
      KeysShown();
      var locked;
      got, created, locked := CountAll(hs);
      IdsShown();
      CountingFacts(blockIndex0, blockIndex, hs, got, created, locked, Created(index0, hs));
      BaseShown(index0, hs);
      OffsetsAre(index0);
      var order := Sorted(locked.Keys);
      PlaceAll(order, locked, created, base);
      PickedIsCreated(order, locked, created, Created(index0, hs));
    }

    /** Everything a write does to the backend file and to its own file. */
    method EmitAndGrow(file: FileMeta, got: seq<BlockMeta>, created: set<BlockMeta>, bs: seq<Block>, off: nat, ghost ids: set<Hash>)
      requires Valid() && file.path in fileIndex && fileIndex[file.path] == file && ids <= blockIndex.Keys
      requires |got| == |bs| && forall i :: 0 <= i < |got| ==> got[i].id in blockIndex && blockIndex[got[i].id] == got[i]
      requires Leaves(blockIndex, ids, [], created) && (forall h <- ids :: h in Ids(got)) && off == file.logicalSize
      modifies this`disk, file
      ensures Valid() && Index() == old(Index()) && ids <= Index().Keys && file.path in old(Files())
      ensures disk == WrittenOut(old(disk), Index(), ids, Ids(got), bs)
      ensures var f := old(Files())[file.path];
              Files() == old(Files())[file.path := FileV(f.realSize + BLOCK * |created|, off + BLOCK * |got|, f.list + Ids(got))]
    {
      hide Valid, Index, Files, Leaves, WrittenOut;
      KeysShown();
      FileShown(file);
      EmitAll(file, got, created, bs, ids);
      Grow(file, off + BLOCK * |got|);
    }

    /** The part of a write that follows the check of its position. */
    method AppendBlocks(file: FileMeta, hs: seq<Hash>, bs: seq<Block>, off: nat)
      requires Valid() && file.path in fileIndex && fileIndex[file.path] == file && |hs| == |bs| && off == file.logicalSize
      modifies this`blockIndex, this`freeList, this`nextFree, this`disk, file, blockIndex.Values
      ensures Valid() && View() == Appended(old(View()), file.path, hs, bs)
    {
      hide Valid, Index, Files, Leaves, TakeAll, WithOffsets, Counted, WrittenOut, Appended, Created, SpaceOf, Sorted, Ids;
      ghost var s0 := View();
      KeysShown();
      FileShown(file);
      var got, created := CountAndPlace(hs);
      CreatedAreMet(s0.index, hs);
      EmitAndGrow(file, got, created, bs, off, Created(s0.index, hs));
      AppendedWhole(s0, View(), file.path, hs, bs);
    }

    method Write(path: Path, buf: seq<byte>, off: nat) returns (r: Outcome)
      requires Valid()
      modifies this`fileIndex, this`blockIndex, this`freeList, this`nextFree, this`disk, fileIndex.Values, blockIndex.Values
      ensures Valid() && (View(), r) == StoreModel.Write(hash, old(View()), path, buf, off)
    {
      hide Valid, Index, Files, Appended, Opened, Split, HashAll;
      if |buf| % BLOCK != 0 {
        return Failed(EINVAL);
      }
      var hs := HashBlocks(buf);
      OpenedShown(View(), path);
      var file := OpenFile(path);
      IsFiled(path);
      FileShown(file);
      if off != file.logicalSize {
        return Failed(ENOTSUP);
      }
      AppendBlocks(file, hs, Split(buf), off);
      r := Done(|buf|);
    }

    // ---------- Unlink ----------

    /** Count the entries of a list by block object. */
    method Tally(bs: seq<BlockMeta>) returns (counts: map<BlockMeta, nat>)
      ensures forall b <- bs :: b in counts && counts[b] == multiset(bs)[b]
    {
      counts := map[];
      for i := 0 to |bs|
        invariant forall b <- bs[..i] :: b in counts && counts[b] == multiset(bs[..i])[b]
        invariant forall b <- counts :: b in bs[..i]
      {
        assert bs[..i + 1] == bs[..i] + [bs[i]];
        var n := if bs[i] in counts then counts[bs[i]] else 0;
        assert n == multiset(bs[..i])[bs[i]];
        counts := counts[bs[i] := n + 1];
      }
      assert bs[..|bs|] == bs;
    }

    /** A block loses n references; with the last one it goes from the index, and its slot to the free list. */
    method ReleaseBlock(block: BlockMeta, n: nat)
      requires Named() && block.id in blockIndex && blockIndex[block.id] == block
      modifies this`blockIndex, this`freeList, block`counter
      ensures Named() && blockIndex.Keys <= old(blockIndex.Keys) && forall h :: h in blockIndex ==> blockIndex[h] == old(blockIndex)[h]
      ensures (Index(), freeList) == ReleaseOne(old(Index()), old(freeList), block.id, n)
    {
      block.counter := block.counter - n;
      if block.counter == 0 {
        blockIndex := blockIndex - {block.id};
        freeList := freeList + [block.offset];
        assert Index() == old(Index()) - {block.id};
      } else {
        assert Index() == old(Index())[block.id := block.Value()];
      }
    }

    lemma OrderShown(order: seq<BlockMeta>)
      requires forall b :: b in order ==> b.id in blockIndex
      ensures |Ids(order)| == |order| && forall i :: 0 <= i < |order| ==> Ids(order)[i] == order[i].id
      ensures forall h :: h in Ids(order) ==> h in Index()
    {
    }

    /** The released blocks of a prefix of the order are gone or lighter, the others wait. */
    ghost predicate Releasing(index0: map<Hash, BlockV>, blocks0: map<Hash, BlockMeta>, free0: seq<nat>, hs: seq<Hash>, lost: multiset<Hash>, i: nat)
      requires i <= |hs| && Distinct(hs[..i]) && forall h :: h in hs ==> h in index0
      reads this, blockIndex.Values
    {
      && Named() && (forall h :: h in blockIndex ==> h in blocks0 && blockIndex[h] == blocks0[h])
      && (Index(), freeList) == Released(index0, free0, hs[..i], lost)
    }

    /** Release the blocks of a file in the order of the table that counts them. */
    method ReleaseAll(order: seq<BlockMeta>, counts: map<BlockMeta, nat>, ghost lost: multiset<Hash>)
      requires Named() && Distinct(Ids(order))
      requires forall b :: b in order ==> b in counts && b.id in blockIndex && blockIndex[b.id] == b && counts[b] == lost[b.id]
      modifies this`blockIndex, this`freeList, blockIndex.Values`counter
      ensures Named() && forall h :: h in blockIndex ==> h in old(blockIndex) && blockIndex[h] == old(blockIndex)[h]
      ensures forall h :: h in Ids(order) ==> h in old(Index())
      ensures (Index(), freeList) == Released(old(Index()), old(freeList), Ids(order), lost)
    {
      hide Index, ReleaseOne, Released, Distinct, Ids;
      ghost var index0, hs := Index(), Ids(order);
      OrderShown(order);
      DistinctSoFar(hs);
      ReleasedNone(index0, freeList, lost);
      for i := 0 to |order|
        invariant Releasing(index0, old(blockIndex), old(freeList), hs, lost, i)
      {
        ReleasedMore(index0, old(freeList), hs, lost, i);
        KeysShown();
        assert order[i] in order;
        ReleaseBlock(order[i], counts[order[i]]);
      }
      assert hs[..|order|] == hs;
    }

    lemma ListsShown(path: Path)
      requires Valid() && path in fileIndex
      ensures path in Files() && Files()[path].list == Ids(fileIndex[path].blockList)
      ensures forall b :: b in fileIndex[path].blockList ==> b.id in blockIndex && blockIndex[b.id] == b
    {
    }

    /** Take a file's entries off the counters, block by block. */
    method ReleaseFile(list: seq<BlockMeta>, order: seq<BlockMeta>)
      requires Named() && OrderOf(Ids(order), Ids(list))
      requires forall b :: b in list || b in order ==> b.id in blockIndex && blockIndex[b.id] == b
      modifies this`blockIndex, this`freeList, blockIndex.Values`counter
      ensures Named() && forall h :: h in blockIndex ==> h in old(blockIndex) && blockIndex[h] == old(blockIndex)[h]
      ensures forall h :: h in Ids(order) ==> h in old(Index())
      ensures (Index(), freeList) == Released(old(Index()), old(freeList), Ids(order), multiset(Ids(list)))
    {
      hide Index, Released, Ids;
      var counts := Tally(list);
      forall b | b in order
        ensures b in counts && counts[b] == multiset(Ids(list))[b.id]
      {
        SameCount(list, order, blockIndex, b);
      }
      ReleaseAll(order, counts, multiset(Ids(list)));
    }

    /** What remains is valid again, when all blocks that the remaining files list are still indexed. */
    lemma StillValid(blocks0: map<Hash, BlockMeta>)
      requires Named() && (forall h :: h in blockIndex ==> h in blocks0 && blockIndex[h] == blocks0[h])
      requires !stale && Filed(blocks0) && CountersOk(View())
      ensures Valid()
    {
      hide CountersOk;
      KeysShown();
      forall p, b | p in fileIndex && b in fileIndex[p].blockList
        ensures b.id in blockIndex
      {
        ListedIsIndexed(View(), p);
        ListHas(fileIndex[p].blockList, b);
      }
    }

    /** The rest of an unlink, once the file is out of the index. */
    method RemoveFile(file: FileMeta, order: seq<BlockMeta>, ghost s0: State)
      requires !stale && Named() && Filed(blockIndex) && OrderOf(Ids(order), Ids(file.blockList)) && CountersOk(s0)
      requires forall b :: b in file.blockList || b in order ==> b.id in blockIndex && blockIndex[b.id] == b
      requires s0 == View().(files := s0.files) && file.path in s0.files
      requires s0.files[file.path].list == Ids(file.blockList) && Files() == s0.files - {file.path}
      modifies this`blockIndex, this`freeList, blockIndex.Values`counter
      ensures Valid() && CanUnlink(s0, file.path, None, Ids(order)) && View() == Removed(s0, file.path, Ids(order))
    {
      hide CountersOk, OrderOf, Ids, Index, Files, Released, Filed, Valid, Removed;
      ghost var blocks0, path := blockIndex, file.path;
      ListedIsIndexed(s0, path);
      ReleaseFile(file.blockList, order);
      RemovedWhole(s0, View(), path, Ids(order));
      RemovedCounters(s0, path, Ids(order));
      StillValid(blocks0);
    }

    method Unlink(path: Path, backend: Option<nat>, order: seq<BlockMeta>) returns (r: Outcome)
      requires Valid() && CountersOk(View()) && CanUnlink(View(), path, backend, Ids(order))
      requires forall b :: b in order ==> b.id in blockIndex && blockIndex[b.id] == b
      modifies this`fileIndex, this`blockIndex, this`freeList, blockIndex.Values`counter
      ensures Valid() && (View(), r) == StoreModel.Unlink(old(View()), path, backend, Ids(order))
      ensures path == "/backend/.metadata" || path == "/backend/.sysdata" ==> r == Failed(EPERM) && View() == old(View())
    {
      hide CountersOk, OrderOf, Ids, Index, Removed;
      ghost var s0 := View();
      KeysShown();
      if Reserved(path) {
        return Failed(EPERM);
      }
      if path !in fileIndex {
        return Failed(ENOENT);
      }
      var file := fileIndex[path];
      ListsShown(path);
      fileIndex := fileIndex - {path};
      if backend.Some? {
        fileIndex := fileIndex[path := file];
        assert fileIndex == old(fileIndex);
        return Failed(Other(backend.value));
      }
      RemoveFile(file, order, s0);
      r := Done(0);
    }

    // ---------- Getattr and read ----------

    /** lstat(2) answers first; for a path of the index the size and the blocks come from there. */
    method Getattr(path: Path, lstat: Runs.Stat) returns (r: Runs.Reply)
      requires Valid()
      ensures r == Runs.Step(hash, View(), Runs.GetattrCall(path, lstat)).1
      ensures path == "/backend/.metadata" || path == "/backend/.sysdata" ==> r == Runs.Status(Failed(ENOENT))
    {
      if Reserved(path) {
        return Runs.Status(Failed(ENOENT));
      }
      if lstat.NoStat? {
        return Runs.Status(Failed(Other(lstat.code)));
      }
      r := Runs.Attr(lstat.size, lstat.blocks);
      if path in fileIndex {
        var size := fileIndex[path].logicalSize;
        r := Runs.Attr(size, (size + 511) / 512);
      }
    }

    /** The block object at a place of a file's list, as the model sees it. */
    lemma BlockShown(path: Path, i: nat)
      requires Valid() && path in fileIndex && i < |fileIndex[path].blockList|
      requires forall h :: h in View().files[path].list ==> Readable(View(), h)
      ensures var b := fileIndex[path].blockList[i];
              && b.offset + BLOCK <= |disk| && BLOCK * (i + 1) <= |FileBytes(View(), path)|
              && PRead(disk, b.offset) == BlockAt(FileBytes(View(), path), i)
    {
      hide PRead;
      var b := fileIndex[path].blockList[i];
      var list := View().files[path].list;
      assert list[i] == b.id && b.id in list && View().index[b.id] == b.Value();
      FlattenAt(Contents(View(), list), i);
    }

    /** Copy the asked part of one block behind what was read before. */
    method CopyOut(buf: array<byte>, total: nat, data: Block, from: nat, n: nat)
      requires total + n <= buf.Length && from + n <= BLOCK
      modifies buf
      ensures buf[..] == old(buf[..total]) + data[from..from + n] + old(buf[total + n..])
    {
      forall k | 0 <= k < n {
        buf[total + k] := data[from + k];
      }
    }

    method Read(path: Path, buf: array<byte>, size: nat, off: nat) returns (r: Outcome)
      requires Valid() && size <= buf.Length
      requires path in View().files ==> forall h :: h in View().files[path].list ==> Readable(View(), h)
      requires path in View().files ==> View().files[path].logicalSize == |FileBytes(View(), path)|
      modifies buf
      ensures match Runs.Read(View(), path, size, off)
              case Status(o) => r == o && buf[..] == old(buf[..])
              case Data(bytes) => r == Done(|bytes|) && |bytes| <= size && buf[..] == bytes + old(buf[|bytes|..])
              case _ => false
      ensures size % 4096 != 0 ==> r == Failed(EINVAL)
      ensures size % 4096 == 0 && path !in View().files ==> r == Failed(ENOENT)
      ensures size % 4096 == 0 && path in View().files ==>
                var data := FileBytes(View(), path);
                var n := if off >= |data| then 0 else if size <= |data| - off then size else |data| - off;
                && r == Done(n)
                && (forall k :: 0 <= k < n ==> buf[k] == data[off + k])
                && forall k :: n <= k < buf.Length ==> buf[k] == old(buf[k])
    {
      hide Readable, FileBytes;
      if size % BLOCK != 0 {
        return Failed(EINVAL);
      }
      if path !in fileIndex {
        return Failed(ENOENT);
      }
      var file := fileIndex[path];
      if off >= file.logicalSize {
        return Done(0);
      }
      var asked := if off + size > file.logicalSize then file.logicalSize - off else size;
      ListsShown(path);
      var total := CopyBlocks(path, buf, asked, off);
      r := Done(total);
    }

    /** The blocks that hold the asked bytes, from the first to the last. */
    method CopyBlocks(path: Path, buf: array<byte>, asked: nat, off: nat) returns (total: nat)
      requires Valid() && path in fileIndex && asked <= buf.Length
      requires path in View().files && forall h :: h in View().files[path].list ==> Readable(View(), h)
      requires off + asked <= |FileBytes(View(), path)|
      modifies buf
      ensures total == asked && buf[..] == old(FileBytes(View(), path))[off..off + asked] + old(buf[asked..])
    {
      hide Valid, FileBytes, PRead, Flatten, Files, Index, View, Readable, BlockAt, StartIndex, EndIndex, Covered;
      ghost var data, buf0 := FileBytes(View(), path), buf[..];
      assert buf0[asked..] == old(buf[asked..]);
      DataShown(path);
      CoveredEnds(off, asked);
      var i, end := StartIndex(off), EndIndex(off, asked);
      total := 0;
      while i < end
        invariant StartIndex(off) <= i <= end && total == Covered(off, asked, i) <= asked
        invariant buf[..] == data[off..off + total] + buf0[total..]
      {
        total := CopyBlock(path, buf, asked, off, i, total, data, buf0);
        i := i + 1;
      }
    }

    /** What is asked of block i goes behind the bytes copied before. */
    method CopyBlock(path: Path, buf: array<byte>, asked: nat, off: nat, i: nat, total: nat, ghost data: seq<byte>, ghost buf0: seq<byte>)
      returns (more: nat)
      requires Valid() && path in fileIndex && asked <= buf.Length == |buf0|
      requires path in View().files && forall h :: h in View().files[path].list ==> Readable(View(), h)
      requires data == FileBytes(View(), path)
      requires off + asked <= |data| == BLOCK * |fileIndex[path].blockList|
      requires StartIndex(off) <= i < EndIndex(off, asked) && total == Covered(off, asked, i) <= asked
      requires buf[..] == data[off..off + total] + buf0[total..]
      modifies buf
      ensures more == Covered(off, asked, i + 1) <= asked && buf[..] == data[off..off + more] + buf0[more..]
    {
      hide Valid, FileBytes, PRead, Flatten, Files, Index, View, Readable, BlockAt, StartIndex, EndIndex, Covered, Skipped, Piece;
      BlockInRange(off, asked, i, |fileIndex[path].blockList|);
      BlockShown(path, i);
      CoveredMore(off, asked, i);
      var block := fileIndex[path].blockList[i];
      var from, n := Skipped(off, i), Piece(off, asked, i, total);
      CopiedMore(data, off, i, total, from, n, buf[..], buf0);
      CopyOut(buf, total, PRead(disk, block.offset), from, n);
      more := total + n;
    }

    lemma DataShown(path: Path)
      requires path in fileIndex && path in View().files && forall h :: h in View().files[path].list ==> Readable(View(), h)
      ensures |FileBytes(View(), path)| == BLOCK * |fileIndex[path].blockList|
    {
    }
  }

  /** How many of the asked bytes lie before block i. */
  ghost function Covered(off: nat, asked: nat, i: nat): nat {
    if BLOCK * i <= off then 0 else if BLOCK * i - off <= asked then BLOCK * i - off else asked
  }

  lemma CoveredEnds(off: nat, asked: nat)
    ensures StartIndex(off) <= EndIndex(off, asked)
    ensures Covered(off, asked, StartIndex(off)) == 0 && Covered(off, asked, EndIndex(off, asked)) == asked
  {
  }

  lemma BlockInRange(off: nat, asked: nat, i: nat, n: nat)
    requires i < EndIndex(off, asked) && off + asked <= BLOCK * n
    ensures i < n
  {
  }

  function StartIndex(off: nat): nat {
    off / BLOCK
  }

  /** What of block i lies before the asked bytes. */
  function Skipped(off: nat, i: nat): nat {
    if off > BLOCK * i then off - BLOCK * i else 0
  }

  /** How much of block i is asked for, when `total` bytes have been copied. */
  function Piece(off: nat, asked: nat, i: nat, total: nat): int {
    var n := BLOCK - Skipped(off, i);
    if total + n > asked then asked - total else n
  }

  lemma CoveredMore(off: nat, asked: nat, i: nat)
    requires StartIndex(off) <= i < EndIndex(off, asked)
    ensures var t := Covered(off, asked, i);
            var from, n := Skipped(off, i), Piece(off, asked, i, t);
            && 0 <= n && t + n == Covered(off, asked, i + 1) <= asked && from + n <= BLOCK
            && (n > 0 ==> BLOCK * i + from == off + t)
  {
  }

  lemma CopiedMore(data: seq<byte>, off: nat, i: nat, t: nat, from: nat, n: nat, was: seq<byte>, buf0: seq<byte>)
    requires off + t + n <= |data| && t + n <= |buf0| && BLOCK * (i + 1) <= |data| && from + n <= BLOCK
    requires was == data[off..off + t] + buf0[t..] && (n > 0 ==> BLOCK * i + from == off + t)
    ensures was[..t] + BlockAt(data, i)[from..from + n] + was[t + n..] == data[off..off + t + n] + buf0[t + n..]
  {
    assert was[..t] == data[off..off + t] && was[t + n..] == buf0[t + n..];
    if n > 0 {
      assert BlockAt(data, i)[from..from + n] == data[off + t..off + t + n] by { BlockAtHas(data, i, from, n); }
    }
  }

  lemma BlockAtHas(data: seq<byte>, i: nat, from: nat, n: nat)
    requires BLOCK * (i + 1) <= |data| && from + n <= BLOCK
    ensures BlockAt(data, i)[from..from + n] == data[BLOCK * i + from..BLOCK * i + from + n]
  {
    SliceOfSlice(data, BLOCK * i, BLOCK * i + BLOCK, from, n);
  }

  lemma SliceOfSlice(s: seq<byte>, a: nat, b: nat, from: nat, n: nat)
    requires a <= b <= |s| && from + n <= b - a
    ensures s[a..b][from..from + n] == s[a + from..a + from + n]
  {
    var x, y := s[a..b][from..from + n], s[a + from..a + from + n];
    forall k | 0 <= k < n
      ensures x[k] == y[k]
    {
      assert s[a..b][from + k] == s[a + from + k];
    }
  }

  lemma OffsetsAre(index: map<Hash, BlockV>)
    ensures Offsets(index).Keys == index.Keys && forall h :: h in index ==> Offsets(index)[h] == index[h].offset
  {
  }

  lemma CreatedAreMet(index: map<Hash, BlockV>, hs: seq<Hash>)
    ensures forall h <- Created(index, hs) :: h in hs
  {
  }

  /** What a write knows about its blocks once hs are counted: the objects in order, the new ones, and the
      distinct ones by id. */
  ghost predicate Counting(index0: map<Hash, BlockMeta>, index: map<Hash, BlockMeta>, hs: seq<Hash>,
                           got: seq<BlockMeta>, created: set<BlockMeta>, locked: map<Hash, BlockMeta>) {
    && (forall h :: h in index <==> h in index0 || h in hs)
    && (forall h :: h in index0 ==> h in index && index[h] == index0[h])
    && |got| == |hs| && (forall j :: 0 <= j < |hs| ==> got[j].id == hs[j] && hs[j] in index && got[j] == index[hs[j]])
    && (forall b <- created :: b.id in hs && b.id !in index0 && b.id in index && b == index[b.id] && b.size == BLOCK)
    && (forall h :: h in hs && h !in index0 ==> h in index && index[h] in created)
    && (forall h :: h in locked <==> h in hs)
    && (forall h :: h in locked ==> h in index && locked[h] == index[h])
  }

  lemma CountingNone(index: map<Hash, BlockMeta>)
    ensures Counting(index, index, [], [], {}, map[])
  {
  }

  lemma CountingMore(index0: map<Hash, BlockMeta>, index: map<Hash, BlockMeta>, hs: seq<Hash>, got: seq<BlockMeta>,
                     created: set<BlockMeta>, locked: map<Hash, BlockMeta>, block: BlockMeta)
    requires Counting(index0, index, hs, got, created, locked)
    requires if block.id in index then index[block.id] == block else block.size == BLOCK
    ensures var h := block.id;
            Counting(index0, index[h := block], hs + [h], got + [block], if h in index then created else created + {block},
                     if h in locked then locked else locked[h := block])
  {
  }

  ghost function CountOne(index: map<Hash, BlockV>, h: Hash): map<Hash, BlockV> {
    index[h := if h in index then index[h].(counter := index[h].counter + 1) else BlockV(0, 1, BLOCK)]
  }

  lemma CountOneMore(index: map<Hash, BlockV>, hs: seq<Hash>, h: Hash)
    ensures CountOne(Counted(index, hs), h) == Counted(index, hs + [h])
    ensures Counted(index, []) == index
  {
  }

  /** Those hashes of a list whose blocks were created. */
  ghost function Picked(order: seq<Hash>, locked: map<Hash, BlockMeta>, created: set<BlockMeta>): seq<Hash>
    requires forall h :: h in order ==> h in locked
    decreases |order|
  {
    if order == [] then []
    else
      var n := |order| - 1;
      var q := Picked(order[..n], locked, created);
      if locked[order[n]] in created then q + [order[n]] else q
  }

  lemma PickNone(locked: map<Hash, BlockMeta>, created: set<BlockMeta>)
    ensures Picked([], locked, created) == []
  {
  }

  lemma PickNext(order: seq<Hash>, locked: map<Hash, BlockMeta>, created: set<BlockMeta>, i: nat)
    requires i < |order| && forall h :: h in order ==> h in locked
    ensures Picked(order[..i + 1], locked, created) ==
            var q := Picked(order[..i], locked, created);
            if locked[order[i]] in created then q + [order[i]] else q
  {
    assert order[..i + 1][..i] == order[..i];
  }

  lemma TakeMore(base: Space<Hash>, order: seq<Hash>, h: Hash)
    ensures TakeAll(base, order + [h]) == Take(TakeAll(base, order), h)
  {
    assert (order + [h])[..|order|] == order;
  }

  lemma PlaceMore(index: map<Hash, BlockV>, t: Space<Hash>, h: Hash)
    requires h in index
    ensures var index1, t1 := WithOffsets(index, t.offs), Take(Space(map[], t.free, t.next), h);
            && h in index1 && h in t1.offs
            && index1[h := index1[h].(offset := t1.offs[h])] == WithOffsets(index, Take(t, h).offs)
            && t1.free == Take(t, h).free && t1.next == Take(t, h).next
  {
  }

  /** `left` are the blocks with these ids that have not been met among hs. */
  ghost predicate Leaves(index: map<Hash, BlockMeta>, ids: set<Hash>, hs: seq<Hash>, left: set<BlockMeta>) {
    && (forall b <- left :: b.id in ids && b.id !in hs && b.id in index && index[b.id] == b && b.size == BLOCK)
    && (forall h <- ids :: h in index && index[h].id == h && (h in hs || index[h] in left))
  }

  lemma LeavesMore(index: map<Hash, BlockMeta>, ids: set<Hash>, hs: seq<Hash>, i: nat, left: set<BlockMeta>, block: BlockMeta)
    requires i < |hs| && Leaves(index, ids, hs[..i], left) && block.id == hs[i] && block.id in index && index[block.id] == block
    ensures Leaves(index, ids, hs[..i + 1], left - {block})
    ensures (block in left <==> hs[i] in ids && hs[i] !in hs[..i]) && (block in left ==> block.size == BLOCK)
  {
    assert hs[..i + 1] == hs[..i] + [hs[i]];
  }

  lemma WrittenNone(disk: seq<byte>, index: map<Hash, BlockV>, ids: set<Hash>)
    requires ids <= index.Keys
    ensures WrittenOut(disk, index, ids, [], []) == disk
  {
  }

  lemma WrittenMore(disk: seq<byte>, index: map<Hash, BlockV>, ids: set<Hash>, hs: seq<Hash>, bs: seq<Block>, i: nat)
    requires ids <= index.Keys && i < |hs| == |bs|
    ensures var d := WrittenOut(disk, index, ids, hs[..i], bs[..i]);
            WrittenOut(disk, index, ids, hs[..i + 1], bs[..i + 1]) ==
            if hs[i] in ids && hs[i] !in hs[..i] then PWrite(d, index[hs[i]].offset, bs[i]) else d
  {
    assert hs[..i + 1][..i] == hs[..i] && bs[..i + 1][..i] == bs[..i];
  }

  lemma LeavesNone(index: map<Hash, BlockMeta>, ids: set<Hash>, hs: seq<Hash>, left: set<BlockMeta>)
    requires Leaves(index, ids, hs, left) && forall h <- ids :: h in hs
    ensures left == {}
  {
  }

  lemma CountingFacts(index0: map<Hash, BlockMeta>, index: map<Hash, BlockMeta>, hs: seq<Hash>, got: seq<BlockMeta>,
                      created: set<BlockMeta>, locked: map<Hash, BlockMeta>, ids: set<Hash>)
    requires Counting(index0, index, hs, got, created, locked) && ids == Elements(hs) - index0.Keys
    requires forall h :: h in index ==> index[h].id == h
    ensures forall h :: h in locked ==> h in index && locked[h] == index[h]
    ensures locked.Keys == Elements(hs) && ids <= index.Keys && Leaves(index, ids, [], created)
    ensures Ids(got) == hs && forall i :: 0 <= i < |got| ==> got[i].id in index && index[got[i].id] == got[i]
    ensures |created| == |ids| && (forall h <- ids :: h in hs)
    ensures forall h :: h in locked ==> (locked[h] in created <==> h in ids)
  {
    assert ids == set b | b in created :: b.id;
    SameNumber(created, ids);
  }

  lemma {:induction false} SameNumber(created: set<BlockMeta>, ids: set<Hash>)
    requires ids == set b | b in created :: b.id
    requires forall a, b :: a in created && b in created && a.id == b.id ==> a == b
    ensures |created| == |ids|
    decreases |created|
  {
    if created == {} {
      assert ids == {};
    } else {
      var b :| b in created;
      SameNumber(created - {b}, ids - {b.id});
    }
  }

  lemma {:induction false} PickedIs(order: seq<Hash>, locked: map<Hash, BlockMeta>, created: set<BlockMeta>)
    requires Ascending(order) && forall h :: h in order ==> h in locked
    ensures Ascending(Picked(order, locked, created))
    ensures forall h :: h in Picked(order, locked, created) <==> h in order && locked[h] in created
    decreases |order|
  {
    if order != [] {
      var n := |order| - 1;
      PickedIs(order[..n], locked, created);
      assert order == order[..n] + [order[n]];
      var q := Picked(order[..n], locked, created);
      forall i | 0 <= i < |q|
        ensures q[i] < order[n]
      {
        assert q[i] in q;
      }
    }
  }

  lemma PickedIsCreated(order: seq<Hash>, locked: map<Hash, BlockMeta>, created: set<BlockMeta>, ids: set<Hash>)
    requires order == Sorted(locked.Keys) && ids <= locked.Keys
    requires forall h :: h in locked ==> (locked[h] in created <==> h in ids)
    ensures Picked(order, locked, created) == Sorted(ids)
  {
    PickedIs(order, locked, created);
    AscendingIsUnique(Picked(order, locked, created), Sorted(ids));
  }

  lemma AppendedWhole(s: State, s1: State, path: Path, hs: seq<Hash>, bs: seq<Block>)
    requires path in s.files && |hs| == |bs|
    requires var created := Created(s.index, hs);
             var t, f := TakeAll(SpaceOf(s), Sorted(created)), s.files[path];
             && s1.free == t.free && s1.next == t.next && s1.index == WithOffsets(Counted(s.index, hs), t.offs)
             && created <= s1.index.Keys && s1.disk == WrittenOut(s.disk, s1.index, created, hs, bs)
             && s1.files == s.files[path := FileV(f.realSize + BLOCK * |created|, f.logicalSize + BLOCK * |hs|, f.list + hs)]
    ensures s1 == Appended(s, path, hs, bs)
  {
    hide TakeAll, WithOffsets, Counted, WrittenOut, SpaceOf, Created, Sorted;
    var a := Appended(s, path, hs, bs);
    assert a.free == s1.free && a.next == s1.next;
    assert a.index == s1.index;
    assert a.files == s1.files;
    assert a.disk == s1.disk;
  }

  lemma SameFile(files: map<Path, FileV>, path: Path)
    requires path in files
    ensures files[path := files[path].(realSize := files[path].realSize + 0, list := files[path].list + [])] == files
  {
    assert files[path].list + [] == files[path].list;
  }

  lemma OpenedShown(s: State, path: Path)
    ensures path in Opened(s, path).files
  {
  }

  lemma DistinctSoFar(hs: seq<Hash>)
    requires Distinct(hs)
    ensures forall i :: 0 <= i <= |hs| ==> Distinct(hs[..i])
  {
  }

  lemma ReleasedNone(index: map<Hash, BlockV>, free: seq<nat>, lost: multiset<Hash>)
    ensures Distinct<Hash>([]) && Released(index, free, [], lost) == (index, free)
  {
  }

  lemma ReleasedMore(index: map<Hash, BlockV>, free: seq<nat>, hs: seq<Hash>, lost: multiset<Hash>, i: nat)
    requires Distinct(hs) && i < |hs| && forall h :: h in hs ==> h in index
    ensures Distinct(hs[..i]) && Distinct(hs[..i + 1])
    ensures var r := Released(index, free, hs[..i], lost);
            hs[i] in r.0 && Released(index, free, hs[..i + 1], lost) == ReleaseOne(r.0, r.1, hs[i], lost[hs[i]])
  {
    assert hs[..i + 1][..i] == hs[..i];
    assert hs[i] !in hs[..i];
  }

  lemma ListHas(bs: seq<BlockMeta>, b: BlockMeta)
    requires b in bs
    ensures b.id in Ids(bs)
  {
    var i :| 0 <= i < |bs| && bs[i] == b;
    assert Ids(bs)[i] == b.id;
  }

  lemma {:induction false} CountByObject(list: seq<BlockMeta>, b: BlockMeta)
    requires forall c :: c in list && c.id == b.id ==> c == b
    ensures multiset(list)[b] == multiset(Ids(list))[b.id]
  {
    if list != [] {
      var n := |list| - 1;
      CountByObject(list[..n], b);
      assert list == list[..n] + [list[n]];
      assert Ids(list) == Ids(list[..n]) + [list[n].id];
    }
  }

  /** Counting by object is counting by id, because equal ids are one object. */
  lemma SameCount(list: seq<BlockMeta>, order: seq<BlockMeta>, index: map<Hash, BlockMeta>, b: BlockMeta)
    requires OrderOf(Ids(order), Ids(list)) && b in order
    requires forall c :: c in list || c in order ==> c.id in index && index[c.id] == c
    ensures b in list && multiset(list)[b] == multiset(Ids(list))[b.id]
  {
    ListHas(order, b);
    assert b.id in Elements(Ids(list));
    var i :| 0 <= i < |Ids(list)| && Ids(list)[i] == b.id;
    assert list[i].id == b.id && list[i] in list;
    CountByObject(list, b);
  }

  lemma RemovedWhole(s: State, s1: State, path: Path, order: seq<Hash>)
    requires path in s.files && OrderOf(order, s.files[path].list)
    requires (forall h :: h in s.files[path].list ==> h in s.index) && (forall h :: h in order ==> h in s.index)
    requires (s1.index, s1.free) == Released(s.index, s.free, order, multiset(s.files[path].list))
    requires s1.files == s.files - {path} && s1.next == s.next && s1.disk == s.disk
    ensures s1 == Removed(s, path, order)
  {
    hide Released;
  }
}

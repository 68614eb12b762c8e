/** What an accepted write does: it appends its buffer to one file and changes nothing else that can be seen. */
module WriteEffect {
  import opened Basics
  import opened Collections
  import opened Disk
  import opened Space
  import opened StoreModel

  // ---------- The backend file ----------

  /** The block at the first occurrence of a hash. */
  ghost function First(hs: seq<Hash>, bs: seq<Block>, h: Hash): Block
    requires |hs| == |bs| && h in hs
    decreases |hs|
  {
    var n := |hs| - 1;
    if h in hs[..n] then First(hs[..n], bs[..n], h)
    else
      assert hs == hs[..n] + [hs[n]];
      bs[n]
  }

  lemma {:induction false} FirstIsThere(hs: seq<Hash>, bs: seq<Block>, h: Hash) returns (i: nat)
    requires |hs| == |bs| && h in hs
    ensures i < |hs| && hs[i] == h && bs[i] == First(hs, bs, h)
    ensures forall k :: 0 <= k < i ==> hs[k] != h
    decreases |hs|
  {
    var n := |hs| - 1;
    if h in hs[..n] {
      i := FirstIsThere(hs[..n], bs[..n], h);
      assert forall k :: 0 <= k < n ==> hs[..n][k] == hs[k];
    } else {
      i := n;
      assert hs == hs[..n] + [hs[n]];
      assert forall k :: 0 <= k < n ==> hs[k] in hs[..n];
    }
  }

  lemma {:induction false} WrittenGrows(disk: seq<byte>, index: map<Hash, BlockV>, created: set<Hash>, hs: seq<Hash>, bs: seq<Block>)
    requires |hs| == |bs| && created <= index.Keys
    ensures |WrittenOut(disk, index, created, hs, bs)| >= |disk|
    decreases |hs|
  {
    if hs != [] {
      WrittenGrows(disk, index, created, hs[..|hs| - 1], bs[..|hs| - 1]);
    }
  }

  ghost predicate Aligned(index: map<Hash, BlockV>) {
    (forall h :: h in index ==> index[h].offset % BLOCK == 0) && Injective(Offsets(index))
  }

  lemma OffsetsApart(index: map<Hash, BlockV>, g: Hash, h: Hash)
    requires Aligned(index) && g in index && h in index && g != h
    ensures index[g].offset + BLOCK <= index[h].offset || index[h].offset + BLOCK <= index[g].offset
  {
    assert Offsets(index)[g] != Offsets(index)[h];
    SlotsApart(index[g].offset, index[h].offset);
  }

  /** A created block holds what stood at the first place its hash was met. */
  lemma {:induction false} WrittenHas(disk: seq<byte>, index: map<Hash, BlockV>, created: set<Hash>, hs: seq<Hash>, bs: seq<Block>, h: Hash)
    requires |hs| == |bs| && created <= index.Keys && Aligned(index) && h in created && h in hs
    ensures var d := WrittenOut(disk, index, created, hs, bs);
            index[h].offset + BLOCK <= |d| && PRead(d, index[h].offset) == First(hs, bs, h)
    decreases |hs|
  {
    var n := |hs| - 1;
    var d0 := WrittenOut(disk, index, created, hs[..n], bs[..n]);
    assert hs == hs[..n] + [hs[n]];
    if h in hs[..n] {
      WrittenHas(disk, index, created, hs[..n], bs[..n], h);
      if hs[n] in created && hs[n] !in hs[..n] {
        OffsetsApart(index, h, hs[n]);
        hide First, PWrite, PRead, Aligned;
        ReadElsewhere(d0, index[hs[n]].offset, bs[n], index[h].offset);
      }
    } else {
      ReadBack(d0, index[h].offset, bs[n]);
    }
  }

  /** A slot that belongs to no created block keeps what it holds. */
  lemma {:induction false} WrittenKeeps(disk: seq<byte>, index: map<Hash, BlockV>, created: set<Hash>, hs: seq<Hash>, bs: seq<Block>, o: nat)
    requires |hs| == |bs| && created <= index.Keys && Aligned(index)
    requires o % BLOCK == 0 && o + BLOCK <= |disk| && forall h :: h in created ==> index[h].offset != o
    ensures var d := WrittenOut(disk, index, created, hs, bs);
            o + BLOCK <= |d| && PRead(d, o) == PRead(disk, o)
    decreases |hs|
  {
    WrittenGrows(disk, index, created, hs, bs);
    if hs != [] {
      var n := |hs| - 1;
      var d0 := WrittenOut(disk, index, created, hs[..n], bs[..n]);
      WrittenKeeps(disk, index, created, hs[..n], bs[..n], o);
      if hs[n] in created && hs[n] !in hs[..n] {
        hide PWrite, PRead, WrittenOut;
        SlotsApart(o, index[hs[n]].offset);
        ReadElsewhere(d0, index[hs[n]].offset, bs[n], o);
      }
    }
  }

  // ---------- The space ----------

  lemma TakenSpace(s: State, hs: seq<Hash>)
    requires Partitioned(SpaceOf(s))
    ensures var created := Created(s.index, hs);
            var t := TakeAll(SpaceOf(s), Sorted(created));
            && Partitioned(t) && t.offs.Keys == s.index.Keys + Elements(hs)
            && forall h :: h in s.index ==> h in t.offs && t.offs[h] == s.index[h].offset
  {
    hide TakeAll, Partitioned, Slot;
    var created := Created(s.index, hs);
    var order := Sorted(created);
    AscendingIsDistinct(order);
    assert Elements(order) == created;
    TakeAllKeepsPartition(SpaceOf(s), order);
    TakeAllSlots(SpaceOf(s), order);
    forall h | h in s.index
      ensures h in SpaceOf(s).offs && SpaceOf(s).offs[h] == s.index[h].offset && h !in order
    {
      assert h !in created;
    }
  }

  lemma CountedKeys(index: map<Hash, BlockV>, hs: seq<Hash>)
    ensures Counted(index, hs).Keys == index.Keys + Elements(hs)
  {
  }

  lemma OffsetsGiven(index: map<Hash, BlockV>, offs: map<Hash, nat>)
    requires offs.Keys == index.Keys
    ensures Offsets(WithOffsets(index, offs)) == offs && WithOffsets(index, offs).Keys == index.Keys
    ensures forall h :: h in index ==> WithOffsets(index, offs)[h].offset == offs[h]
  {
  }

  lemma CreatedOffsets(s: State, hs: seq<Hash>)
    requires Partitioned(SpaceOf(s))
    ensures var t := TakeAll(SpaceOf(s), Sorted(Created(s.index, hs)));
            var index := WithOffsets(Counted(s.index, hs), t.offs);
            && Partitioned(t) && Offsets(index) == t.offs && index.Keys == s.index.Keys + Elements(hs)
            && (forall h :: h in s.index ==> index[h].offset == s.index[h].offset)
  {
    hide TakeAll, Partitioned, Offsets, WithOffsets, Counted, Elements;
    TakenSpace(s, hs);
    CountedKeys(s.index, hs);
    OffsetsGiven(Counted(s.index, hs), TakeAll(SpaceOf(s), Sorted(Created(s.index, hs))).offs);
  }

  /** The tables after an accepted write, without the counters and the disk. */
  lemma AppendedShape(s: State, path: Path, hs: seq<Hash>, bs: seq<Block>)
    requires path in s.files && |hs| == |bs| && Partitioned(SpaceOf(s))
    ensures var s1, created := Appended(s, path, hs, bs), Created(s.index, hs);
            && s1.next == NextAfter(s.free, s.next, |created|) && s1.index.Keys == s.index.Keys + created
            && s1.files.Keys == s.files.Keys && (forall p :: p in s.files && p != path ==> s1.files[p] == s.files[p])
            && s1.files[path].realSize == s.files[path].realSize + BLOCK * |created|
            && s1.files[path].list == s.files[path].list + hs
  {
    hide Partitioned, WrittenOut, TakeAll, WithOffsets, Counted, Offsets;
    CreatedOffsets(s, hs);
    TakeAllSpace(SpaceOf(s), Sorted(Created(s.index, hs)));
  }

  lemma AscendingIsDistinct(q: seq<nat>)
    requires Ascending(q)
    ensures Distinct(q)
  {
  }

  lemma PartitionedIsAligned(index: map<Hash, BlockV>, free: seq<nat>, next: nat)
    requires Partitioned(Space(Offsets(index), free, next))
    ensures Aligned(index) && forall h :: h in index ==> index[h].offset + BLOCK <= next
  {
    forall h | h in index
      ensures index[h].offset % BLOCK == 0 && index[h].offset + BLOCK <= next
    {
      OffsetsAreSlots(Space(Offsets(index), free, next), h);
    }
  }

  // ---------- Contents ----------

  /** What the store holds for each block after the write: what it held before, or the first block of
      the buffer with that hash. */
  lemma AppendedContent(hash: HashFunction, s: State, path: Path, hs: seq<Hash>, bs: seq<Block>, h: Hash)
    requires Partitioned(SpaceOf(s)) && DiskOk(hash, s) && path in s.files && |hs| == |bs|
    requires h in s.index || h in hs
    ensures var s1 := Appended(s, path, hs, bs);
            Readable(s1, h) && Content(s1, h) == if h in s.index then Content(s, h) else First(hs, bs, h)
  {
    var s1 := Appended(s, path, hs, bs);
    var created := Created(s.index, hs);
    CreatedOffsets(s, hs);
    assert SpaceOf(s1) == TakeAll(SpaceOf(s), Sorted(created));
    PartitionedIsAligned(s1.index, s1.free, s1.next);
    hide Partitioned, TakeAll, WithOffsets, Counted, Offsets;
    if h in s.index {
      forall g | g in created
        ensures s1.index[g].offset != s1.index[h].offset
      {
        OffsetsApart(s1.index, g, h);
      }
      WrittenKeeps(s.disk, s1.index, created, hs, bs, s1.index[h].offset);
    } else {
      WrittenHas(s.disk, s1.index, created, hs, bs, h);
    }
  }

  // ---------- The invariant ----------

  lemma FileRefs(files: map<Path, FileV>, path: Path, file: FileV)
    requires path in files
    ensures Total(ListMap(files[path := file])) + multiset(files[path].list) == Total(ListMap(files)) + multiset(file.list)
  {
    assert ListMap(files[path := file]) == ListMap(files)[path := multiset(file.list)];
    TotalUpdate(ListMap(files), path, multiset(file.list));
  }

  lemma NewFileRefs(files: map<Path, FileV>, path: Path, file: FileV)
    requires path !in files && file.list == []
    ensures Total(ListMap(files[path := file])) == Total(ListMap(files))
  {
    assert ListMap(files[path := file]) == ListMap(files)[path := multiset{}];
    TotalInsert(ListMap(files), path, multiset{});
  }

  lemma LongerList(refs: multiset<Hash>, refs1: multiset<Hash>, list: seq<Hash>, hs: seq<Hash>)
    requires refs1 + multiset(list) == refs + multiset(list + hs)
    ensures refs1 == refs + multiset(hs)
  {
    assert multiset(list + hs) == multiset(hs) + multiset(list);
    assert refs1 + multiset(list) == (refs + multiset(hs)) + multiset(list);
    CancelRight(refs1, refs + multiset(hs), multiset(list));
  }

  lemma AppendedRefs(s: State, path: Path, hs: seq<Hash>, bs: seq<Block>)
    requires path in s.files && |hs| == |bs|
    ensures Refs(Appended(s, path, hs, bs)) == Refs(s) + multiset(hs)
  {
    hide ListMap, WithOffsets, Counted, Created, WrittenOut, TakeAll;
    var s1 := Appended(s, path, hs, bs);
    FileRefs(s.files, path, s1.files[path]);
    LongerList(Refs(s), Refs(s1), s.files[path].list, hs);
  }

  lemma CountedOk(index: map<Hash, BlockV>, refs: multiset<Hash>, hs: seq<Hash>, offs: map<Hash, nat>, h: Hash)
    requires h in index <==> h in refs
    requires h in index ==> index[h].counter == refs[h]
    ensures var index1 := WithOffsets(Counted(index, hs), offs);
            (h in index1 <==> h in refs + multiset(hs)) && (h in index1 ==> index1[h].counter == (refs + multiset(hs))[h])
  {
    assert h in multiset(hs) <==> h in hs;
    assert h in Elements(hs) <==> h in hs;
  }

  lemma AppendedCounters(s: State, path: Path, hs: seq<Hash>, bs: seq<Block>)
    requires path in s.files && |hs| == |bs| && CountersOk(s)
    ensures CountersOk(Appended(s, path, hs, bs))
  {
    hide Refs, TakeAll, WrittenOut, WithOffsets, Counted, Created;
    var s1 := Appended(s, path, hs, bs);
    AppendedRefs(s, path, hs, bs);
    forall h
      ensures (h in s1.index <==> h in Refs(s1)) && (h in s1.index ==> s1.index[h].counter == Refs(s1)[h])
    {
      CountedOk(s.index, Refs(s), hs, TakeAll(SpaceOf(s), Sorted(Created(s.index, hs))).offs, h);
    }
  }

  lemma AppendedSizes(s: State, path: Path, hs: seq<Hash>, bs: seq<Block>)
    requires path in s.files && |hs| == |bs| && SizesOk(s)
    ensures SizesOk(Appended(s, path, hs, bs))
  {
  }

  lemma AppendedIsGood(hash: HashFunction, s: State, path: Path, bs: seq<Block>)
    requires Good(hash, s) && path in s.files
    ensures Good(hash, Appended(s, path, HashAll(hash, bs), bs))
  {
    var hs := HashAll(hash, bs);
    var s1 := Appended(s, path, hs, bs);
    AppendedCounters(s, path, hs, bs);
    AppendedSizes(s, path, hs, bs);
    CreatedOffsets(s, hs);
    assert SpaceOf(s1) == TakeAll(SpaceOf(s), Sorted(Created(s.index, hs)));
    hide CountersOk, SizesOk, Partitioned, TakeAll, Offsets, WithOffsets, Counted;
    forall h | h in s1.index
      ensures Readable(s1, h) && hash(Content(s1, h)) == h
    {
      assert h in s.index.Keys + Elements(hs);
      AppendedContent(hash, s, path, hs, bs, h);
      if h !in s.index {
        var i := FirstIsThere(hs, bs, h);
      }
    }
  }

  lemma OpenedIsGood(hash: HashFunction, s: State, path: Path)
    requires Good(hash, s)
    ensures Good(hash, Opened(s, path)) && Refs(Opened(s, path)) == Refs(s)
  {
    hide ListMap, Partitioned;
    var s1 := Opened(s, path);
    if path !in s.files {
      NewFileRefs(s.files, path, FileV(0, 0, []));
    }
    hide Refs;
    assert CountersOk(s1) && SizesOk(s1) && SpaceOf(s1) == SpaceOf(s);
    SameBlocks(hash, s, s1);
  }

  lemma SameBlocks(hash: HashFunction, s: State, s1: State)
    requires DiskOk(hash, s) && s1.index == s.index && s1.disk == s.disk
    ensures DiskOk(hash, s1) && forall h :: Readable(s, h) ==> Readable(s1, h) && Content(s1, h) == Content(s, h)
  {
  }

  // ---------- Refinement of one write ----------

  /** No block of the write has the hash of a different one: not of a stored block, not of an earlier
      block of the buffer. */
  ghost predicate NoClash(s: State, hs: seq<Hash>, bs: seq<Block>)
    requires |hs| == |bs|
  {
    && (forall i :: 0 <= i < |hs| && Readable(s, hs[i]) ==> Content(s, hs[i]) == bs[i])
    && (forall i, j :: 0 <= i < j < |hs| && hs[i] == hs[j] && hs[i] !in s.index ==> bs[i] == bs[j])
  }

  /** Files that a write does not name keep their bytes, and the named one keeps those it had, whether
      blocks are shared, reused or clash. */
  lemma AppendKeepsOld(hash: HashFunction, s: State, path: Path, bs: seq<Block>, p: Path)
    requires Good(hash, s) && path in s.files && p in s.files
    ensures var s1 := Appended(s, path, HashAll(hash, bs), bs);
            forall h :: h in s.files[p].list ==> Readable(s, h) && Readable(s1, h) && Content(s1, h) == Content(s, h)
    ensures p != path ==> Appended(s, path, HashAll(hash, bs), bs).files[p] == s.files[p]
  {
    var hs := HashAll(hash, bs);
    ListedIsIndexed(s, p);
    hide CountersOk, SizesOk, Partitioned;
    forall h | h in s.files[p].list
      ensures Readable(s, h)
      ensures Readable(Appended(s, path, hs, bs), h) && Content(Appended(s, path, hs, bs), h) == Content(s, h)
    {
      AppendedContent(hash, s, path, hs, bs, h);
    }
  }

  /** What the file of the write holds afterwards. */
  lemma AppendedContents(hash: HashFunction, s: State, path: Path, bs: seq<Block>)
    requires Good(hash, s) && path in s.files
    ensures var hs := HashAll(hash, bs);
            var s1 := Appended(s, path, hs, bs);
            && (forall h :: h in s1.files[path].list ==> Readable(s1, h)) && (forall h :: h in hs ==> Readable(s1, h))
            && (forall h :: h in s.files[path].list ==> Readable(s, h))
            && Contents(s1, s1.files[path].list) == Contents(s, s.files[path].list) + Contents(s1, hs)
  {
    var hs := HashAll(hash, bs);
    var s1 := Appended(s, path, hs, bs);
    AppendKeepsOld(hash, s, path, bs, path);
    hide CountersOk, SizesOk, Partitioned, Content, Readable;
    forall h | h in hs
      ensures Readable(s1, h)
    {
      AppendedContent(hash, s, path, hs, bs, h);
    }
    assert s1.files[path].list == s.files[path].list + hs;
    hide Appended, Good;
    ContentsJoin(s, s1, s.files[path].list, hs);
  }

  lemma ContentsJoin(s: State, s1: State, list: seq<Hash>, hs: seq<Hash>)
    requires forall h :: h in list ==> Readable(s, h) && Readable(s1, h) && Content(s1, h) == Content(s, h)
    requires forall h :: h in hs ==> Readable(s1, h)
    ensures forall h :: h in list + hs ==> Readable(s1, h)
    ensures Contents(s1, list + hs) == Contents(s, list) + Contents(s1, hs)
  {
    hide Readable, Content;
  }

  /** The new entries read back as the buffer exactly if no block of it clashes. */
  lemma NewEntriesReadBack(hash: HashFunction, s: State, path: Path, bs: seq<Block>)
    requires Good(hash, s) && path in s.files
    ensures var hs := HashAll(hash, bs);
            var s1 := Appended(s, path, hs, bs);
            && (forall h :: h in hs ==> Readable(s1, h))
            && (Contents(s1, hs) == bs <==> NoClash(s, hs, bs))
  {
    hide CountersOk, SizesOk, Partitioned, Appended, Content, First, Readable;
    var hs := HashAll(hash, bs);
    var s1 := Appended(s, path, hs, bs);
    forall h | h in hs
      ensures Readable(s1, h) && (h in s.index ==> Readable(s, h))
      ensures Content(s1, h) == if h in s.index then Content(s, h) else First(hs, bs, h)
    {
      AppendedContent(hash, s, path, hs, bs, h);
    }
    hide Good, HashAll;
    ReadBackUnlessClash(s, s1, hs, bs);
  }

  lemma ReadableIsIndexed(s: State, h: Hash)
    requires Readable(s, h)
    ensures h in s.index
  {
  }

  lemma ReadBackUnlessClash(s: State, s1: State, hs: seq<Hash>, bs: seq<Block>)
    requires |hs| == |bs|
    requires forall h :: h in hs ==> Readable(s1, h) && (h in s.index ==> Readable(s, h)) &&
                                     Content(s1, h) == if h in s.index then Content(s, h) else First(hs, bs, h)
    ensures Contents(s1, hs) == bs <==> NoClash(s, hs, bs)
  {
    hide Readable, Content, First;
    forall i | 0 <= i < |hs| && Readable(s, hs[i])
      ensures hs[i] in s.index
    {
      ReadableIsIndexed(s, hs[i]);
    }
    if NoClash(s, hs, bs) {
      forall i | 0 <= i < |hs|
        ensures Content(s1, hs[i]) == bs[i]
      {
        if hs[i] !in s.index {
          FirstAgrees(s, hs, bs, i);
        }
      }
      assert Contents(s1, hs) == bs;
    }
    if Contents(s1, hs) == bs {
      forall i | 0 <= i < |hs|
        ensures Content(s1, hs[i]) == bs[i]
      {
        assert Content(s1, hs[i]) == Contents(s1, hs)[i];
      }
      assert NoClash(s, hs, bs);
    }
  }

  lemma FirstAgrees(s: State, hs: seq<Hash>, bs: seq<Block>, i: nat)
    requires |hs| == |bs| && NoClash(s, hs, bs) && i < |hs| && hs[i] !in s.index
    ensures First(hs, bs, hs[i]) == bs[i]
  {
    hide First, Content, Readable;
    var j := FirstIsThere(hs, bs, hs[i]);
  }

  /** An accepted write appends exactly its buffer if and only if no block of it clashes. */
  lemma WriteAppends(hash: HashFunction, s: State, path: Path, buf: seq<byte>)
    requires Good(hash, s) && path in s.files && |buf| % BLOCK == 0
    ensures var off := s.files[path].logicalSize;
            var s1 := Write(hash, s, path, buf, off).0;
            && Good(hash, s1) && Write(hash, s, path, buf, off).1 == Done(|buf|)
            && (forall h :: h in s.files[path].list ==> Readable(s, h)) && path in s1.files
            && (forall h :: h in s1.files[path].list ==> Readable(s1, h))
            && (FileBytes(s1, path) == FileBytes(s, path) + buf <==> NoClash(s, HashAll(hash, Split(buf)), Split(buf)))
  {
    var bs := Split(buf);
    var hs := HashAll(hash, bs);
    var s1 := Appended(s, path, hs, bs);
    AppendedIsGood(hash, s, path, bs);
    AppendedContents(hash, s, path, bs);
    NewEntriesReadBack(hash, s, path, bs);
    FlattenSplit(buf);
    hide Good, Appended, NoClash, Readable, Split, HashAll;
    var old0, new1 := Contents(s, s.files[path].list), Contents(s1, hs);
    FlattenAppend(old0, new1);
    if FileBytes(s1, path) == FileBytes(s, path) + buf {
      SameTail(Flatten(old0), Flatten(new1), buf);
      FlattenInjective(new1, bs);
    }
  }

  lemma SameTail(a: seq<byte>, b: seq<byte>, c: seq<byte>)
    requires a + b == a + c
    ensures b == c
  {
    assert b == (a + b)[|a|..] && c == (a + c)[|a|..];
  }
}

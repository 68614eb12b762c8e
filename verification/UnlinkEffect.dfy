/** What an unlink does: one file goes, every other file keeps its bytes, and exactly the blocks that
    nobody refers to any more give their space back. */
module UnlinkEffect {
  import opened Basics
  import opened Collections
  import opened Space
  import opened StoreModel

  /** Every block in `order` loses its references; one that loses the last goes. The order plays no role. */
  lemma {:induction false} ReleasedBlock(index: map<Hash, BlockV>, free: seq<nat>, order: seq<Hash>, lost: multiset<Hash>, h: Hash)
    requires Distinct(order) && (forall g :: g in order ==> g in index) && h in index
    ensures var r := Released(index, free, order, lost).0;
            var b := index[h].(counter := index[h].counter - lost[h]);
            if h !in order then h in r && r[h] == index[h]
            else if b.counter == 0 then h !in r
            else h in r && r[h] == b
    decreases |order|
  {
    if order != [] {
      var n := |order| - 1;
      assert order == order[..n] + [order[n]];
      assert order[n] !in order[..n];
      ReleasedBlock(index, free, order[..n], lost, h);
    }
  }

  lemma OffsetsRemove(index: map<Hash, BlockV>, h: Hash, b: BlockV)
    requires h in index && b.offset == index[h].offset
    ensures Offsets(index - {h}) == Offsets(index) - {h}
    ensures Offsets(index[h := b]) == Offsets(index)
  {
  }

  ghost predicate SamePlaces(index: map<Hash, BlockV>, index1: map<Hash, BlockV>) {
    forall h :: h in index1 ==> h in index && index1[h].offset == index[h].offset && index1[h].size == index[h].size
  }

  lemma ReleaseOneSpace(index: map<Hash, BlockV>, free: seq<nat>, next: nat, h: Hash, n: nat)
    requires h in index && Partitioned(Space(Offsets(index), free, next))
    ensures var r := ReleaseOne(index, free, h, n);
            Partitioned(Space(Offsets(r.0), r.1, next)) && free <= r.1 && SamePlaces(index, r.0)
  {
    var b := index[h].(counter := index[h].counter - n);
    OffsetsRemove(index, h, b);
    assert h in Offsets(index) && Offsets(index)[h] == b.offset;
    hide Partitioned;
    if b.counter == 0 {
      GiveKeepsPartition(Space(Offsets(index), free, next), h);
    }
  }

  /** Blocks that go leave their slots at the end of the free list. */
  lemma {:induction false} ReleasedSpace(index: map<Hash, BlockV>, free: seq<nat>, next: nat, order: seq<Hash>, lost: multiset<Hash>)
    requires Distinct(order) && (forall g :: g in order ==> g in index)
    requires Partitioned(Space(Offsets(index), free, next))
    ensures var r := Released(index, free, order, lost);
            Partitioned(Space(Offsets(r.0), r.1, next)) && free <= r.1 && SamePlaces(index, r.0)
    decreases |order|
  {
    if order != [] {
      var n := |order| - 1;
      var r := Released(index, free, order[..n], lost);
      assert order[n] !in order[..n];
      hide Partitioned, ReleaseOne;
      ReleasedSpace(index, free, next, order[..n], lost);
      ReleaseOneSpace(r.0, r.1, next, order[n], lost[order[n]]);
    }
  }

  lemma RemovedRefs(s: State, path: Path, order: seq<Hash>)
    requires path in s.files && OrderOf(order, s.files[path].list) && forall h :: h in s.files[path].list ==> h in s.index
    ensures Refs(s) == Refs(Removed(s, path, order)) + multiset(s.files[path].list)
  {
    TotalWithout(ListMap(s.files), path);
    assert ListMap(s.files - {path}) == ListMap(s.files) - {path};
  }

  lemma ReleasedCounter(index: map<Hash, BlockV>, free: seq<nat>, order: seq<Hash>, list: seq<Hash>,
                        refs: multiset<Hash>, refs1: multiset<Hash>, h: Hash)
    requires OrderOf(order, list) && (forall g :: g in order ==> g in index)
    requires refs == refs1 + multiset(list)
    requires (h in index <==> h in refs) && (h in index ==> index[h].counter == refs[h])
    ensures var r := Released(index, free, order, multiset(list)).0;
            (h in r <==> h in refs1) && (h in r ==> r[h].counter == refs1[h])
  {
    var r := Released(index, free, order, multiset(list)).0;
    assert h in order <==> h in list by {
      assert h in Elements(order) <==> h in Elements(list);
    }
    assert h in multiset(list) <==> h in list;
    if h in index {
      ReleasedBlock(index, free, order, multiset(list), h);
    }
  }

  lemma OrderIsIndexed(s: State, path: Path, order: seq<Hash>)
    requires CountersOk(s) && path in s.files && OrderOf(order, s.files[path].list)
    ensures forall h :: h in s.files[path].list ==> h in s.index
    ensures forall h :: h in order ==> h in s.index
  {
    ListedIsIndexed(s, path);
    assert forall h :: h in order ==> h in Elements(s.files[path].list);
  }

  lemma RemovedCounters(s: State, path: Path, order: seq<Hash>)
    requires CountersOk(s) && path in s.files && OrderOf(order, s.files[path].list)
    requires forall h :: h in s.files[path].list ==> h in s.index
    ensures CountersOk(Removed(s, path, order))
  {
    OrderIsIndexed(s, path, order);
    RemovedRefs(s, path, order);
    hide Refs, OrderOf, Released;
    var s1 := Removed(s, path, order);
    forall h
      ensures (h in s1.index <==> h in Refs(s1)) && (h in s1.index ==> s1.index[h].counter == Refs(s1)[h])
    {
      ReleasedCounter(s.index, s.free, order, s.files[path].list, Refs(s), Refs(s1), h);
    }
  }

  /** The index and the space after an unlink, and that what is still indexed reads as before. */
  lemma RemovedIsGood(hash: HashFunction, s: State, path: Path, order: seq<Hash>)
    requires Good(hash, s) && path in s.files && OrderOf(order, s.files[path].list)
    ensures forall h :: h in s.files[path].list ==> h in s.index
    ensures var s1 := Removed(s, path, order);
            && Good(hash, s1) && s.free <= s1.free
            && (forall h :: h in s1.index ==> Readable(s, h) && Readable(s1, h) && Content(s1, h) == Content(s, h))
  {
    OrderIsIndexed(s, path, order);
    RemovedCounters(s, path, order);
    hide CountersOk, Released;
    ReleasedSpace(s.index, s.free, s.next, order, multiset(s.files[path].list));
    hide Partitioned, OrderOf;
    var s1 := Removed(s, path, order);
    forall h | h in s1.index
      ensures Readable(s1, h) && Readable(s, h) && Content(s1, h) == Content(s, h)
    {
      assert s1.index[h].offset == s.index[h].offset;
    }
  }

  /** Every other file keeps its list and its bytes. */
  lemma UnlinkKeepsOthers(hash: HashFunction, s: State, path: Path, order: seq<Hash>, p: Path)
    requires Good(hash, s) && path in s.files && OrderOf(order, s.files[path].list) && p in s.files && p != path
    requires forall h :: h in s.files[path].list ==> h in s.index
    ensures var s1 := Removed(s, path, order);
            && s1.files.Keys == s.files.Keys - {path} && s1.files[p] == s.files[p]
            && (forall h :: h in s.files[p].list ==> Readable(s, h) && Readable(s1, h) && Content(s1, h) == Content(s, h))
            && FileBytes(s1, p) == FileBytes(s, p)
  {
    RemovedIsGood(hash, s, path, order);
    hide OrderOf, Released, Partitioned, DiskOk, SizesOk, Content, Readable;
    var s1 := Removed(s, path, order);
    ListedIsIndexed(s1, p);
    assert s1.files[p] == s.files[p];
    hide Removed;
    SameContents(s, s1, s.files[p].list);
  }

  lemma SameContents(s: State, s1: State, list: seq<Hash>)
    requires forall h :: h in list ==> Readable(s, h) && Readable(s1, h) && Content(s1, h) == Content(s, h)
    ensures Contents(s1, list) == Contents(s, list)
  {
  }
}

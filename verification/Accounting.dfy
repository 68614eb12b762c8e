/** Space and sizes: deduplication is perfect, the backend file is as long as the peak of distinct
    contents, and the sizes that files carry add up. */
module Accounting {
  import opened Basics
  import opened Collections
  import opened Disk
  import opened Space
  import opened StoreModel
  import opened WriteEffect
  import opened Runs

  // ---------- Perfect deduplication ----------

  /** The distinct blocks of a simple store. */
  ghost function DistinctBlocks(fs: Plain): set<Block> {
    set p, b | p in fs && b in Split(fs[p]) :: b
  }

  lemma {:induction false} InTotal<K, T>(m: map<K, multiset<T>>, x: T) returns (k: K)
    requires x in Total(m)
    ensures k in m && x in m[k]
    decreases |m|
  {
    k :| k in m && Total(m) == m[k] + Total(m - {k});
    if x !in m[k] {
      k := InTotal(m - {k}, x);
    }
  }

  lemma SplitFlatten(bs: seq<Block>)
    ensures Split(Flatten(bs)) == bs
  {
    FlattenSplit(Flatten(bs));
    FlattenInjective(Split(Flatten(bs)), bs);
  }

  /** Some file holds what the index has. */
  lemma IndexedIsHeld(hash: HashFunction, s: State, fs: Plain, h: Hash)
    requires Good(hash, s) && Represents(s, fs) && h in s.index
    ensures Readable(s, h) && Content(s, h) in DistinctBlocks(fs)
  {
    hide Represents, SizesOk, Partitioned, Content;
    assert h in Refs(s);
    var p := InTotal(ListMap(s.files), h);
    var list := s.files[p].list;
    RepresentedHolds(s, fs, p);
    SplitFlatten(Contents(s, list));
    var i :| 0 <= i < |list| && list[i] == h;
    assert Contents(s, list)[i] == Content(s, h);
    assert Content(s, h) in Split(fs[p]);
  }

  lemma RepresentedHolds(s: State, fs: Plain, p: Path)
    requires Represents(s, fs) && p in s.files
    ensures p in fs && (forall h :: h in s.files[p].list ==> Readable(s, h)) && fs[p] == Flatten(Contents(s, s.files[p].list))
  {
    assert Holds(s, p, fs[p]);
  }

  lemma HeldIsIndexed(hash: HashFunction, s: State, fs: Plain, b: Block)
    requires Good(hash, s) && Represents(s, fs) && b in DistinctBlocks(fs)
    ensures hash(b) in s.index && Readable(s, hash(b)) && Content(s, hash(b)) == b
  {
    var p :| p in fs && b in Split(fs[p]);
    assert p in s.files;
    ListedIsReadable(hash, s, p);
    RepresentedHolds(s, fs, p);
    hide Represents, CountersOk, SizesOk, Partitioned, Split, Content, Readable, DistinctBlocks;
    var list := s.files[p].list;
    SplitFlatten(Contents(s, list));
    var i :| 0 <= i < |list| && Contents(s, list)[i] == b;
    ReadBackHash(hash, s, list[i]);
  }

  lemma ReadBackHash(hash: HashFunction, s: State, h: Hash)
    requires DiskOk(hash, s) && Readable(s, h)
    ensures h in s.index && hash(Content(s, h)) == h
  {
  }

  /** Dedup is perfect: the index has one entry for each distinct block that some file holds, under its hash. */
  lemma IndexIsDistinctBlocks(hash: HashFunction, s: State, fs: Plain)
    requires Good(hash, s) && Represents(s, fs)
    ensures s.index.Keys == set b | b in DistinctBlocks(fs) :: hash(b)
    ensures |s.index| == |DistinctBlocks(fs)|
  {
    hide Represents, CountersOk, SizesOk, Partitioned, DistinctBlocks;
    var blocks := DistinctBlocks(fs);
    forall b | b in blocks
      ensures hash(b) in s.index && Readable(s, hash(b)) && Content(s, hash(b)) == b
    {
      HeldIsIndexed(hash, s, fs, b);
    }
    forall h | h in s.index
      ensures Readable(s, h) && Content(s, h) in blocks && hash(Content(s, h)) == h
    {
      IndexedIsHeld(hash, s, fs, h);
    }
    hide Good, Content, Readable;
    InjectiveImage(hash, blocks);
    assert s.index.Keys == set b | b in blocks :: hash(b);
    assert |s.index| == |s.index.Keys|;
  }

  lemma {:induction false} InjectiveImage(hash: HashFunction, blocks: set<Block>)
    requires forall a, b :: a in blocks && b in blocks && hash(a) == hash(b) ==> a == b
    ensures |set b | b in blocks :: hash(b)| == |blocks|
    decreases |blocks|
  {
    if blocks == {} {
      assert (set b | b in blocks :: hash(b)) == {};
    } else {
      var x :| x in blocks;
      InjectiveImage(hash, blocks - {x});
      assert (set b | b in blocks :: hash(b)) == (set b | b in blocks - {x} :: hash(b)) + {hash(x)};
      assert hash(x) !in set b | b in blocks - {x} :: hash(b);
    }
  }

  // ---------- The backend file is as long as the peak ----------

  function Max(a: nat, b: nat): nat {
    if a >= b then a else b
  }

  /** After every call the high-water offset is the larger of what it was and what the index needs. */
  lemma StepNext(hash: HashFunction, s: State, c: Call)
    requires Good(hash, s) && Legal(s, c)
    ensures Step(hash, s, c).0.next == Max(s.next, BLOCK * |Step(hash, s, c).0.index|)
  {
    IndexBelowNext(s);
    match c
    case GetattrCall(_, _) =>
    case ReadCall(_, _, _) =>
    case WriteCall(path, buf, off) =>
      hide Good, Appended, HashAll, Split;
      OpenedIsGood(hash, s, path);
      if |buf| % BLOCK == 0 && off == Opened(s, path).files[path].logicalSize {
        AppendedNext(hash, Opened(s, path), path, HashAll(hash, Split(buf)), Split(buf));
      }
    case UnlinkCall(path, backend, order) =>
      if !Reserved(path) && path in s.files && backend.None? {
        hide Good, Removed, OrderOf;
        RemovedNext(hash, s, path, order);
      }
    case Remount(blockOrder, fileOrder) => RemountIsIdentity(s, blockOrder, fileOrder);
  }

  lemma IndexBelowNext(s: State)
    requires Partitioned(SpaceOf(s))
    ensures BLOCK * (|s.index| + |s.free|) == s.next
  {
    SlotsAreUsed(SpaceOf(s));
    assert Offsets(s.index).Keys == s.index.Keys;
    assert |Offsets(s.index)| == |Offsets(s.index).Keys| && |s.index| == |s.index.Keys|;
  }

  lemma NextIsMax(live: nat, free: seq<nat>, next: nat, k: nat)
    requires BLOCK * (live + |free|) == next
    ensures NextAfter(free, next, k) == Max(next, BLOCK * (live + k))
  {
  }

  lemma AppendedNext(hash: HashFunction, s: State, path: Path, hs: seq<Hash>, bs: seq<Block>)
    requires Good(hash, s) && path in s.files && |hs| == |bs|
    ensures var s1 := Appended(s, path, hs, bs); s1.next == Max(s.next, BLOCK * |s1.index|)
  {
    hide CountersOk, SizesOk, DiskOk, Partitioned, Appended, NextAfter;
    var created := Created(s.index, hs);
    IndexBelowNext(s);
    AppendedShape(s, path, hs, bs);
    NextIsMax(|s.index|, s.free, s.next, |created|);
    assert |Appended(s, path, hs, bs).index.Keys| == |s.index.Keys| + |created|;
  }

  lemma RemovedNext(hash: HashFunction, s: State, path: Path, order: seq<Hash>)
    requires Good(hash, s) && path in s.files && OrderOf(order, s.files[path].list)
    requires forall h :: h in s.files[path].list ==> h in s.index
    ensures var s1 := Removed(s, path, order); s1.next == Max(s.next, BLOCK * |s1.index|)
  {
    IndexBelowNext(s);
    RemovedIndex(s, path, order);
    hide Good, Released, OrderOf;
    var s1 := Removed(s, path, order);
    FewerKeys(s1.index.Keys, s.index.Keys);
    assert |s1.index| == |s1.index.Keys| && |s.index| == |s.index.Keys|;
  }

  /** The largest number of distinct blocks that the simple store holds at once during a run. */
  ghost function Peak(fs: Plain, cs: seq<Call>): nat
    decreases |cs|
  {
    Max(|DistinctBlocks(fs)|, if cs == [] then 0 else Peak(PlainStep(fs, cs[0]).0, cs[1..]))
  }

  lemma {:induction false} RunNext(hash: HashFunction, s: State, fs: Plain, cs: seq<Call>, pool: set<Block>)
    requires Good(hash, s) && Represents(s, fs) && LegalRun(hash, s, cs)
    requires CollisionFree(hash, pool) && StoredIn(s, pool) && AllBlocks(cs) <= pool
    ensures Run(hash, s, cs).0.next == Max(s.next, BLOCK * Peak(fs, cs))
    decreases |cs|
  {
    hide Represents, StoredIn, Legal, Step, PlainStep, CollisionFree, DistinctBlocks;
    IndexIsDistinctBlocks(hash, s, fs);
    IndexBelowNext(s);
    hide Good;
    if cs != [] {
      var s1, fs1 := Step(hash, s, cs[0]).0, PlainStep(fs, cs[0]).0;
      StepRefines(hash, s, fs, cs[0], pool);
      StepNext(hash, s, cs[0]);
      IndexIsDistinctBlocks(hash, s1, fs1);
      RunNext(hash, s1, fs1, cs[1..], pool);
      assert Peak(fs1, cs[1..]) >= |DistinctBlocks(fs1)|;
    }
  }

  /** From a fresh backend, the high-water offset is always one block for each of the most distinct contents
      that were ever live at once. */
  lemma SpaceIsThePeak(hash: HashFunction, cs: seq<Call>)
    requires LegalRun(hash, FRESH, cs) && CollisionFree(hash, AllBlocks(cs))
    ensures Run(hash, FRESH, cs).0.next == BLOCK * Peak(map[], cs)
  {
    FreshIsGood(hash);
    hide Good, LegalRun, AllBlocks;
    RunNext(hash, FRESH, map[], cs, AllBlocks(cs));
  }
}

/** The sizes that files carry: what each file paid for is what the store holds, and no more. */
module Sizes {
  import opened Basics
  import opened Collections
  import opened Disk
  import opened Space
  import opened StoreModel
  import opened WriteEffect
  import opened UnlinkEffect
  import opened Runs

  // ---------- Sums over files and blocks ----------

  ghost function RealSizes(s: State): map<Path, nat> {
    map p | p in s.files :: s.files[p].realSize
  }

  ghost function LogicalSizes(s: State): map<Path, nat> {
    map p | p in s.files :: s.files[p].logicalSize
  }

  ghost function Lengths(s: State): map<Path, nat> {
    map p | p in s.files :: |s.files[p].list|
  }

  ghost function Counters(s: State): map<Hash, nat> {
    map h | h in s.index :: Natural(s.index[h].counter)
  }

  lemma {:induction false} SumScales<K>(m: map<K, nat>, n: map<K, nat>)
    requires m.Keys == n.Keys && forall k :: k in m ==> m[k] == BLOCK * n[k]
    ensures Sum(m) == BLOCK * Sum(n)
    decreases |m|
  {
    if m == map[] {
      assert n == map[];
    } else {
      var k :| k in m;
      SumWithout(m, k);
      SumWithout(n, k);
      SumScales(m - {k}, n - {k});
    }
  }

  lemma {:induction false} SumAtLeast<K>(m: map<K, nat>)
    requires forall k :: k in m ==> m[k] >= 1
    ensures Sum(m) >= |m|
    decreases |m|
  {
    if m != map[] {
      var k :| k in m;
      SumWithout(m, k);
      SumAtLeast(m - {k});
      assert |m - {k}| == |m| - 1;
    }
  }

  lemma {:induction false} TotalSize<K, T>(m: map<K, multiset<T>>, n: map<K, nat>)
    requires m.Keys == n.Keys && forall k :: k in m ==> |m[k]| == n[k]
    ensures |Total(m)| == Sum(n)
    decreases |m|
  {
    if m == map[] {
      assert n == map[];
    } else {
      var k :| k in m;
      TotalWithout(m, k);
      SumWithout(n, k);
      TotalSize(m - {k}, n - {k});
    }
  }

  lemma {:induction false} MultiplicitiesAddUp<T(!new)>(m: multiset<T>, n: map<T, nat>)
    requires forall x :: x in n <==> x in m
    requires forall x :: x in n ==> n[x] == m[x]
    ensures |m| == Sum(n)
    decreases |n|
  {
    if n == map[] {
      assert m == multiset{};
    } else {
      var x :| x in n;
      SumWithout(n, x);
      MultiplicitiesAddUp(m[x := 0], n - {x});
      assert m == m[x := 0] + multiset{}[x := m[x]];
    }
  }

  /** Counters and list lengths add up to the same number, and it covers every indexed block. */
  lemma CountersAddUp(s: State)
    requires CountersOk(s) && SizesOk(s)
    ensures Sum(Counters(s)) == Sum(Lengths(s))
    ensures |s.index| <= Sum(Counters(s))
    ensures Sum(LogicalSizes(s)) == BLOCK * Sum(Lengths(s))
  {
    TotalSize(ListMap(s.files), Lengths(s));
    hide ListMap;
    MultiplicitiesAddUp(Refs(s), Counters(s));
    hide Refs;
    forall h | h in Counters(s)
      ensures Counters(s)[h] >= 1
    {
    }
    SumAtLeast(Counters(s));
    assert Counters(s).Keys == s.index.Keys;
    assert |Counters(s)| == |Counters(s).Keys| && |s.index| == |s.index.Keys|;
    SumScales(LogicalSizes(s), Lengths(s));
  }

  // ---------- Who created which block ----------

  ghost function CreatedBy(owner: map<Hash, Path>, p: Path): set<Hash> {
    set h | h in owner && owner[h] == p
  }

  /** `owner` names the file that each block was created for, as long as that file lives; a file's realSize
      counts the blocks that it created. */
  ghost predicate Creators(files: map<Path, FileV>, keys: set<Hash>, owner: map<Hash, Path>) {
    owner.Keys <= keys && EntriesOwned(files, owner) && CreationsPaid(files, owner)
  }

  ghost predicate EntriesOwned(files: map<Path, FileV>, owner: map<Hash, Path>) {
    forall h :: h in owner ==> owner[h] in files && h in files[owner[h]].list
  }

  ghost predicate CreationsPaid(files: map<Path, FileV>, owner: map<Hash, Path>) {
    forall p :: p in files ==> files[p].realSize == BLOCK * |CreatedBy(owner, p)|
  }

  lemma {:induction false} CreatorsAddUp(sizes: map<Path, nat>, owner: map<Hash, Path>)
    requires forall h :: h in owner ==> owner[h] in sizes
    requires forall p :: p in sizes ==> sizes[p] == BLOCK * |CreatedBy(owner, p)|
    ensures Sum(sizes) == BLOCK * |owner|
    decreases |sizes|
  {
    hide CreatedBy;
    if sizes == map[] {
      assert owner == map[];
    } else {
      var p :| p in sizes;
      SumWithout(sizes, p);
      var rest := owner - CreatedBy(owner, p);
      WithoutCreated(owner, p);
      forall q | q in sizes - {p}
        ensures (sizes - {p})[q] == BLOCK * |CreatedBy(rest, q)|
      {
      }
      CreatorsAddUp(sizes - {p}, rest);
    }
  }

  lemma WithoutCreated(owner: map<Hash, Path>, p: Path)
    ensures var mine := CreatedBy(owner, p);
            && |owner - mine| + |mine| == |owner|
            && (forall q :: q != p ==> CreatedBy(owner - mine, q) == CreatedBy(owner, q))
            && (forall h :: h in owner - mine ==> owner[h] != p)
  {
    var mine := CreatedBy(owner, p);
    assert (owner - mine).Keys == owner.Keys - mine;
    assert |owner - mine| == |(owner - mine).Keys| && |owner| == |owner.Keys|;
    forall q | q != p
      ensures CreatedBy(owner - mine, q) == CreatedBy(owner, q)
    {
    }
  }

  /** The blocks that a write creates are its file's. */
  ghost function WriteCreators(owner: map<Hash, Path>, path: Path, created: set<Hash>): map<Hash, Path> {
    owner + map h | h in created :: path
  }

  lemma WriteCreatorsOk(files: map<Path, FileV>, keys: set<Hash>, owner: map<Hash, Path>, path: Path, created: set<Hash>, f: FileV)
    requires Creators(files, keys, owner) && path in files && created !! keys
    requires f.realSize == files[path].realSize + BLOCK * |created|
    requires forall h :: h in files[path].list || h in created ==> h in f.list
    ensures var owner1 := WriteCreators(owner, path, created);
            Creators(files[path := f], keys + created, owner1) && owner1.Keys == owner.Keys + created
  {
    hide WriteCreators, EntriesOwned, CreationsPaid;
    WriteCreatorsHas(owner, path, created);
    NewEntriesOwned(files, owner, path, created, f);
    NewCreationsPaid(files, owner, path, created, f);
  }

  lemma NewEntriesOwned(files: map<Path, FileV>, owner: map<Hash, Path>, path: Path, created: set<Hash>, f: FileV)
    requires EntriesOwned(files, owner) && path in files
    requires forall h :: h in files[path].list || h in created ==> h in f.list
    ensures EntriesOwned(files[path := f], WriteCreators(owner, path, created))
  {
    hide WriteCreators;
    WriteCreatorsHas(owner, path, created);
  }

  lemma NewCreationsPaid(files: map<Path, FileV>, owner: map<Hash, Path>, path: Path, created: set<Hash>, f: FileV)
    requires CreationsPaid(files, owner) && path in files && owner.Keys !! created
    requires f.realSize == files[path].realSize + BLOCK * |created|
    ensures CreationsPaid(files[path := f], WriteCreators(owner, path, created))
  {
    hide WriteCreators, CreatedBy;
    var files1, owner1 := files[path := f], WriteCreators(owner, path, created);
    forall p | p in files1
      ensures files1[p].realSize == BLOCK * |CreatedBy(owner1, p)|
    {
      WriteCreated(owner, path, created, p);
    }
  }

  lemma WriteCreatorsHas(owner: map<Hash, Path>, path: Path, created: set<Hash>)
    ensures var owner1 := WriteCreators(owner, path, created);
            && owner1.Keys == owner.Keys + created
            && forall h :: h in owner1 ==> owner1[h] == if h in created then path else owner[h]
  {
  }

  lemma WriteCreated(owner: map<Hash, Path>, path: Path, created: set<Hash>, p: Path)
    requires owner.Keys !! created
    ensures |CreatedBy(WriteCreators(owner, path, created), p)| == |CreatedBy(owner, p)| + if p == path then |created| else 0
  {
    hide WriteCreators;
    var owner1 := WriteCreators(owner, path, created);
    WriteCreatorsHas(owner, path, created);
    if p == path {
      assert CreatedBy(owner1, p) == CreatedBy(owner, p) + created;
      assert CreatedBy(owner, p) !! created;
    } else {
      assert CreatedBy(owner1, p) == CreatedBy(owner, p);
    }
  }

  lemma OpenCreatorsOk(s: State, keys: set<Hash>, owner: map<Hash, Path>, path: Path)
    requires Creators(s.files, keys, owner)
    ensures Creators(Opened(s, path).files, keys, owner)
  {
    if path !in s.files {
      assert CreatedBy(owner, path) == {};
    }
  }

  /** With a file go the blocks that it created, from the books. */
  ghost function UnlinkCreators(owner: map<Hash, Path>, path: Path): map<Hash, Path> {
    owner - CreatedBy(owner, path)
  }

  lemma UnlinkCreatorsOk(files: map<Path, FileV>, keys: set<Hash>, keys1: set<Hash>, owner: map<Hash, Path>, path: Path)
    requires Creators(files, keys, owner) && path in files
    requires forall p, h :: p in files && p != path && h in files[p].list ==> h in keys1
    ensures Creators(files - {path}, keys1, UnlinkCreators(owner, path))
  {
    var owner1 := UnlinkCreators(owner, path);
    forall p | p in files && p != path
      ensures CreatedBy(owner1, p) == CreatedBy(owner, p)
    {
    }
  }

  // ---------- Runs ----------

  ghost predicate CreatorsOk(s: State, owner: map<Hash, Path>) {
    Creators(s.files, s.index.Keys, owner)
  }

  lemma AppendCreators(hash: HashFunction, s: State, owner: map<Hash, Path>, path: Path, bs: seq<Block>) returns (owner1: map<Hash, Path>)
    requires Good(hash, s) && CreatorsOk(s, owner) && path in s.files
    ensures var s1 := Appended(s, path, HashAll(hash, bs), bs);
            && CreatorsOk(s1, owner1) && Good(hash, s1)
            && (owner.Keys == s.index.Keys ==> owner1.Keys == s1.index.Keys)
  {
    var hs := HashAll(hash, bs);
    var s1, created := Appended(s, path, hs, bs), Created(s.index, hs);
    AppendedIsGood(hash, s, path, bs);
    hide Good, Creators, HashAll, Appended;
    AppendedShape(s, path, hs, bs) by { GoodIsPartitioned(hash, s); }
    assert s1.files == s.files[path := s1.files[path]];
    owner1 := WriteCreators(owner, path, created);
    WriteCreatorsOk(s.files, s.index.Keys, owner, path, created, s1.files[path]);
  }

  lemma GoodIsPartitioned(hash: HashFunction, s: State)
    requires Good(hash, s)
    ensures Partitioned(SpaceOf(s))
  {
  }

  lemma RemoveCreators(hash: HashFunction, s: State, owner: map<Hash, Path>, path: Path, order: seq<Hash>) returns (owner1: map<Hash, Path>)
    requires Good(hash, s) && CreatorsOk(s, owner) && path in s.files && OrderOf(order, s.files[path].list)
    requires forall h :: h in s.files[path].list ==> h in s.index
    ensures CreatorsOk(Removed(s, path, order), owner1) && Good(hash, Removed(s, path, order))
  {
    var s1 := Removed(s, path, order);
    RemovedIsGood(hash, s, path, order);
    hide Partitioned, CountersOk, DiskOk, SizesOk, OrderOf, Released, Creators;
    forall p, h | p in s.files && p != path && h in s.files[p].list
      ensures h in s1.index.Keys
    {
      assert p in s1.files && s1.files[p] == s.files[p];
      ListedIsIndexed(s1, p);
    }
    owner1 := UnlinkCreators(owner, path);
    UnlinkCreatorsOk(s.files, s.index.Keys, s1.index.Keys, owner, path);
  }

  lemma WriteStepCreators(hash: HashFunction, s: State, owner: map<Hash, Path>, path: Path, buf: seq<byte>, off: nat) returns (owner1: map<Hash, Path>)
    requires Good(hash, s) && CreatorsOk(s, owner)
    ensures var s1 := Write(hash, s, path, buf, off).0;
            && CreatorsOk(s1, owner1) && Good(hash, s1)
            && (owner.Keys == s.index.Keys ==> owner1.Keys == s1.index.Keys)
  {
    hide Appended, HashAll, Split, Good, Creators;
    OpenedIsGood(hash, s, path);
    OpenCreatorsOk(s, s.index.Keys, owner, path);
    var s0 := Opened(s, path);
    owner1 := owner;
    if |buf| % BLOCK == 0 && off == s0.files[path].logicalSize {
      owner1 := AppendCreators(hash, s0, owner, path, Split(buf));
    }
  }

  lemma StepCreators(hash: HashFunction, s: State, owner: map<Hash, Path>, c: Call) returns (owner1: map<Hash, Path>)
    requires Good(hash, s) && CreatorsOk(s, owner) && Legal(s, c)
    ensures CreatorsOk(Step(hash, s, c).0, owner1) && Good(hash, Step(hash, s, c).0)
    ensures !c.UnlinkCall? && owner.Keys == s.index.Keys ==> owner1.Keys == Step(hash, s, c).0.index.Keys
  {
    owner1 := owner;
    hide CreatorsOk, Good, Reserved, Write, Removed, OrderOf, CanSave, Remounted;
    match c
    case GetattrCall(_, _) =>
    case ReadCall(_, _, _) =>
    case WriteCall(path, buf, off) =>
      owner1 := WriteStepCreators(hash, s, owner, path, buf, off);
    case UnlinkCall(path, backend, order) =>
      if !Reserved(path) && path in s.files && backend.None? {
        owner1 := RemoveCreators(hash, s, owner, path, order);
      }
    case Remount(blockOrder, fileOrder) =>
      RemountIsIdentity(s, blockOrder, fileOrder);
  }

  ghost predicate NoUnlink(cs: seq<Call>) {
    forall i :: 0 <= i < |cs| ==> !cs[i].UnlinkCall?
  }

  lemma {:induction false} RunCreators(hash: HashFunction, s: State, owner: map<Hash, Path>, cs: seq<Call>) returns (owner1: map<Hash, Path>)
    requires Good(hash, s) && CreatorsOk(s, owner) && LegalRun(hash, s, cs)
    ensures CreatorsOk(Run(hash, s, cs).0, owner1) && Good(hash, Run(hash, s, cs).0)
    ensures NoUnlink(cs) && owner.Keys == s.index.Keys ==> owner1.Keys == Run(hash, s, cs).0.index.Keys
    decreases |cs|
  {
    hide Good, CreatorsOk, Legal, Step;
    owner1 := owner;
    if cs != [] {
      var owner0 := StepCreators(hash, s, owner, cs[0]);
      owner1 := RunCreators(hash, Step(hash, s, cs[0]).0, owner0, cs[1..]);
    }
  }

  /** After any run from a fresh store, whatever collides: the real sizes of all files add up to no more
      than the indexed blocks take, and these to no more than the logical sizes; the counters add up to the
      lengths of the lists. Without an unlink the real sizes are exactly what the blocks take. */
  lemma SizesAddUp(hash: HashFunction, cs: seq<Call>)
    requires LegalRun(hash, FRESH, cs)
    ensures var s := Run(hash, FRESH, cs).0;
            && Sum(RealSizes(s)) <= BLOCK * |s.index| <= Sum(LogicalSizes(s))
            && Sum(Counters(s)) == Sum(Lengths(s))
            && (NoUnlink(cs) ==> Sum(RealSizes(s)) == BLOCK * |s.index|)
  {
    FreshIsGood(hash);
    assert CreatorsOk(FRESH, map[]);
    hide LegalRun, Run;
    var s := Run(hash, FRESH, cs).0;
    var owner := RunCreators(hash, FRESH, map[], cs);
    assert owner.Keys <= s.index.Keys by { CreatorsAreIndexed(s, owner); }
    CreatorsAddUp(RealSizes(s), owner) by { CreatorsAreIndexed(s, owner); }
    hide Partitioned, DiskOk, Creators;
    CountersAddUp(s);
    assert |owner| == |owner.Keys| && |s.index| == |s.index.Keys|;
    FewerKeys(owner.Keys, s.index.Keys);
  }

  lemma CreatorsAreIndexed(s: State, owner: map<Hash, Path>)
    requires CreatorsOk(s, owner)
    ensures owner.Keys <= s.index.Keys
    ensures forall h :: h in owner ==> owner[h] in RealSizes(s)
    ensures forall p :: p in RealSizes(s) ==> RealSizes(s)[p] == BLOCK * |CreatedBy(owner, p)|
  {
  }
}

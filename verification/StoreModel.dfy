/** The store as a value, and what write, read, unlink and getattr make of it when they run one after
    another. SHA-512 is the parameter `hash`. */
module StoreModel {
  import opened Basics
  import opened Collections
  import opened Disk
  import opened Space

  type HashFunction = Block -> Hash

  /** Blocks are named by their hash: the index maps every hash to at most one block object. */
  datatype FileV = FileV(realSize: nat, logicalSize: nat, list: seq<Hash>)

  datatype BlockV = BlockV(offset: nat, counter: int, size: nat)

  datatype State = State(
    files: map<Path, FileV>, index: map<Hash, BlockV>, free: seq<nat>, next: nat, disk: seq<byte>)

  /** The tables and the backend file of a store that was never used. */
  const FRESH := State(map[], map[], [], 0, [])

  datatype Errno = EINVAL | ENOENT | ENOTSUP | EPERM | Other(code: nat)

  datatype Outcome = Done(n: nat) | Failed(e: Errno)

  // ---------- Hashing ----------

  function HashAll(hash: HashFunction, bs: seq<Block>): (hs: seq<Hash>)
    ensures |hs| == |bs| && forall i :: 0 <= i < |bs| ==> hs[i] == hash(bs[i])
  {
    seq(|bs|, i requires 0 <= i < |bs| => hash(bs[i]))
  }

  // ---------- Write ----------

  /** The index once the hashes of a write have been looked up or inserted and counted; a new block has
      no offset yet, only the 0 that it was allocated with. */
  ghost function Counted(index: map<Hash, BlockV>, hs: seq<Hash>): map<Hash, BlockV> {
    map h | h in index.Keys + Elements(hs) ::
      if h in index then index[h].(counter := index[h].counter + multiset(hs)[h])
      else BlockV(0, multiset(hs)[h], BLOCK)
  }

  ghost function Created(index: map<Hash, BlockV>, hs: seq<Hash>): set<Hash> {
    Elements(hs) - index.Keys
  }

  ghost function Offsets(index: map<Hash, BlockV>): map<Hash, nat> {
    map h | h in index :: index[h].offset
  }

  ghost function SpaceOf(s: State): Space<Hash> {
    Space(Offsets(s.index), s.free, s.next)
  }

  /** Blocks with an offset in `offs` get it. */
  ghost function WithOffsets(index: map<Hash, BlockV>, offs: map<Hash, nat>): map<Hash, BlockV> {
    map h | h in index :: if h in offs then index[h].(offset := offs[h]) else index[h]
  }

  /** The backend file once the first len(hs) blocks are out: a block is written where its hash is met
      first, if this write created it. */
  ghost function WrittenOut(disk: seq<byte>, index: map<Hash, BlockV>, created: set<Hash>, hs: seq<Hash>, bs: seq<Block>): seq<byte>
    requires |hs| == |bs| && created <= index.Keys
    decreases |hs|
  {
    if hs == [] then disk
    else
      var n := |hs| - 1;
      var d := WrittenOut(disk, index, created, hs[..n], bs[..n]);
      if hs[n] in created && hs[n] !in hs[..n] then PWrite(d, index[hs[n]].offset, bs[n]) else d
  }

  /** An accepted write: created blocks get offsets in the order of their hashes. */
  ghost function Appended(s: State, path: Path, hs: seq<Hash>, bs: seq<Block>): State
    requires path in s.files && |hs| == |bs|
  {
    var created := Created(s.index, hs);
    var space := TakeAll(SpaceOf(s), Sorted(created));
    var index := WithOffsets(Counted(s.index, hs), space.offs);
    var f := s.files[path];
    State(s.files[path := FileV(f.realSize + BLOCK * |created|, f.logicalSize + BLOCK * |hs|, f.list + hs)],
          index, space.free, space.next, WrittenOut(s.disk, index, created, hs, bs))
  }

  ghost function Opened(s: State, path: Path): State {
    if path in s.files then s else s.(files := s.files[path := FileV(0, 0, [])])
  }

  /** A rejected write at a wrong position leaves an empty file behind if the path was unknown. */
  ghost function Write(hash: HashFunction, s: State, path: Path, buf: seq<byte>, off: nat): (State, Outcome) {
    if |buf| % BLOCK != 0 then (s, Failed(EINVAL))
    else
      var s1 := Opened(s, path);
      if off != s1.files[path].logicalSize then (s1, Failed(ENOTSUP))
      else (Appended(s1, path, HashAll(hash, Split(buf)), Split(buf)), Done(|buf|))
  }

  // ---------- Unlink ----------

  /** A block loses n references, and goes with the last one. */
  ghost function ReleaseOne(index: map<Hash, BlockV>, free: seq<nat>, h: Hash, n: nat): (map<Hash, BlockV>, seq<nat>)
    requires h in index
  {
    var b := index[h].(counter := index[h].counter - n);
    if b.counter == 0 then (index - {h}, free + [b.offset]) else (index[h := b], free)
  }

  /** The index and the free list after the blocks in `order` have lost `lost` references each. */
  ghost function Released(index: map<Hash, BlockV>, free: seq<nat>, order: seq<Hash>, lost: multiset<Hash>)
    : (r: (map<Hash, BlockV>, seq<nat>))
    requires Distinct(order) && forall h :: h in order ==> h in index
    ensures r.0.Keys <= index.Keys && forall h :: h in index && h !in order ==> h in r.0 && r.0[h] == index[h]
    decreases |order|
  {
    if order == [] then (index, free)
    else
      var n := |order| - 1;
      assert order[n] !in order[..n];
      var r := Released(index, free, order[..n], lost);
      ReleaseOne(r.0, r.1, order[n], lost[order[n]])
  }

  /** `order` lists the distinct blocks of the file in the arbitrary order of a hash table. */
  ghost predicate OrderOf(order: seq<Hash>, list: seq<Hash>) {
    Distinct(order) && Elements(order) == Elements(list)
  }

  ghost function Removed(s: State, path: Path, order: seq<Hash>): State
    requires path in s.files && OrderOf(order, s.files[path].list)
    requires forall h :: h in s.files[path].list ==> h in s.index
  {
    assert forall h :: h in order ==> h in Elements(s.files[path].list);
    var r := Released(s.index, s.free, order, multiset(s.files[path].list));
    s.(files := s.files - {path}, index := r.0, free := r.1)
  }

  /** If the unlink comes to release blocks, `order` is one in which their table can be walked. */
  ghost predicate CanUnlink(s: State, path: Path, backend: Option<nat>, order: seq<Hash>) {
    !Reserved(path) && path in s.files && backend.None? ==>
      OrderOf(order, s.files[path].list) && forall h :: h in s.files[path].list ==> h in s.index
  }

  /** `backend` is the error, other than ENOENT, with which unlink(2) on the path fails. */
  ghost function Unlink(s: State, path: Path, backend: Option<nat>, order: seq<Hash>): (State, Outcome)
    requires CanUnlink(s, path, backend, order)
  {
    if Reserved(path) then (s, Failed(EPERM))
    else if path !in s.files then (s, Failed(ENOENT))
    else if backend.Some? then (s, Failed(Other(backend.value)))
    else (Removed(s, path, order), Done(0))
  }

  // ---------- What a file holds ----------

  /** Every block of the file has a whole block of the backend file behind it. */
  ghost predicate Readable(s: State, h: Hash) {
    h in s.index && s.index[h].offset + BLOCK <= |s.disk|
  }

  ghost function Content(s: State, h: Hash): Block
    requires Readable(s, h)
  {
    PRead(s.disk, s.index[h].offset)
  }

  ghost function Contents(s: State, list: seq<Hash>): (bs: seq<Block>)
    requires forall h :: h in list ==> Readable(s, h)
    ensures |bs| == |list| && forall i :: 0 <= i < |bs| ==> bs[i] == Content(s, list[i])
  {
    seq(|list|, i requires 0 <= i < |list| => Content(s, list[i]))
  }

  ghost function FileBytes(s: State, path: Path): seq<byte>
    requires path in s.files && forall h :: h in s.files[path].list ==> Readable(s, h)
  {
    Flatten(Contents(s, s.files[path].list))
  }

  // ---------- The invariant ----------

  ghost function ListMap(files: map<Path, FileV>): map<Path, multiset<Hash>> {
    map p | p in files :: multiset(files[p].list)
  }

  /** All entries of all block lists. */
  ghost function Refs(s: State): multiset<Hash> {
    Total(ListMap(s.files))
  }

  /** Counters count, and only what is referred to is indexed. */
  ghost predicate CountersOk(s: State) {
    && (forall h :: h in s.index <==> h in Refs(s))
    && (forall h :: h in s.index ==> s.index[h].counter == Refs(s)[h])
  }

  ghost predicate SizesOk(s: State) {
    && (forall p :: p in s.files ==> s.files[p].logicalSize == BLOCK * |s.files[p].list|)
    && (forall h :: h in s.index ==> s.index[h].size == BLOCK)
  }

  /** What the backend file holds for a block has the block's id as its hash. */
  ghost predicate DiskOk(hash: HashFunction, s: State) {
    forall h :: h in s.index ==> Readable(s, h) && hash(Content(s, h)) == h
  }

  ghost predicate Good(hash: HashFunction, s: State) {
    CountersOk(s) && SizesOk(s) && Partitioned(SpaceOf(s)) && DiskOk(hash, s)
  }

  lemma FreshIsGood(hash: HashFunction)
    ensures Good(hash, FRESH)
  {
    assert ListMap(FRESH.files) == map[];
    assert Range<Hash>(map[]) == {} && Elements<nat>([]) == {} && SlotsBelow(0) == {};
    assert SpaceOf(FRESH) == Space(map[], [], 0);
  }

  /** The entries of every file are indexed. */
  lemma ListedIsIndexed(s: State, path: Path)
    requires CountersOk(s) && path in s.files
    ensures multiset(s.files[path].list) <= Refs(s)
    ensures forall h :: h in s.files[path].list ==> h in s.index
  {
    TotalWithout(ListMap(s.files), path);
    hide Refs, CountersOk;
    forall h | h in s.files[path].list
      ensures h in s.index
    {
      assert h in multiset(s.files[path].list);
      InRefs(s, h);
    }
  }

  lemma InRefs(s: State, h: Hash)
    requires CountersOk(s)
    ensures h in s.index <==> h in Refs(s)
  {
  }

  lemma ListedIsReadable(hash: HashFunction, s: State, path: Path)
    requires Good(hash, s) && path in s.files
    ensures forall h :: h in s.files[path].list ==> Readable(s, h)
  {
    ListedIsIndexed(s, path);
  }
}

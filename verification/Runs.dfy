/** Deduplication is invisible: operations that run one after another, with remounts in between, answer
    as if the store were a map from paths to bytes. */
module Runs {
  import opened Basics
  import opened Collections
  import opened Disk
  import opened Space
  import opened StoreModel
  import opened WriteEffect
  import opened UnlinkEffect
  import Image
  import Loading

  // ---------- Calls and replies ----------

  /** What lstat(2) says about the backend path. */
  datatype Stat = NoStat(code: nat) | Stat(size: nat, blocks: nat)

  datatype Call =
    | GetattrCall(path: Path, lstat: Stat)
    | ReadCall(path: Path, size: nat, off: nat)
    | WriteCall(path: Path, buf: seq<byte>, off: nat)
    | UnlinkCall(path: Path, backend: Option<nat>, order: seq<Hash>)
    | Remount(blockOrder: seq<Hash>, fileOrder: seq<Path>)

  datatype Reply = Status(outcome: Outcome) | Data(bytes: seq<byte>) | Attr(size: nat, blocks: nat) | Silent

  // ---------- The store ----------

  ghost function TablesOf(s: State): Image.Tables {
    Image.Tables(s.next, map h | h in s.index :: RecOf(s.index[h]), map p | p in s.files :: FileRecOf(s.files[p]), s.free)
  }

  function RecOf(b: BlockV): Image.BlockRec {
    Image.BlockRec(b.size, b.offset, b.counter)
  }

  function FileRecOf(f: FileV): Image.FileRec {
    Image.FileRec(f.realSize, f.logicalSize, f.list)
  }

  /** A saved number is never negative. */
  function Natural(v: int): nat {
    if v >= 0 then v else 0
  }

  function FileOf(f: Image.FileRec): FileV {
    FileV(Natural(f.realSize), Natural(f.logicalSize), f.list)
  }

  function BlockOf(b: Image.BlockRec): BlockV {
    BlockV(Natural(b.offset), b.counter, Natural(b.size))
  }

  ghost function FilesOf(files: map<Path, Image.FileRec>): map<Path, FileV> {
    map p | p in files :: FileOf(files[p])
  }

  ghost function IndexOf(blocks: map<Hash, Image.BlockRec>): map<Hash, BlockV> {
    map h | h in blocks :: BlockOf(blocks[h])
  }

  function Naturals(vs: seq<int>): (ns: seq<nat>)
    ensures |ns| == |vs|
  {
    seq(|vs|, i requires 0 <= i < |vs| => Natural(vs[i]))
  }

  ghost function StateOf(t: Image.Tables, disk: seq<byte>): State {
    State(FilesOf(t.files), IndexOf(t.blocks), Naturals(t.free), Natural(t.next), disk)
  }

  /** Saving on exit, and loading into an empty store on the next start; the backend file stays. */
  ghost function Remounted(s: State, blockOrder: seq<Hash>, fileOrder: seq<Path>): State
    requires CanSave(s, blockOrder, fileOrder)
  {
    StateOf(Loading.Load(Image.ImageOf(TablesOf(s), blockOrder, fileOrder), |s.disk|).t, s.disk)
  }

  ghost predicate CanSave(s: State, blockOrder: seq<Hash>, fileOrder: seq<Path>) {
    var t := TablesOf(s);
    Image.Fits(t) && Image.Walks(blockOrder, t.blocks) && Image.Walks(fileOrder, t.files)
  }

  ghost function Getattr(size: Option<nat>, path: Path, lstat: Stat): Reply {
    if Reserved(path) then Status(Failed(ENOENT))
    else if lstat.NoStat? then Status(Failed(Other(lstat.code)))
    else if size.Some? then Attr(size.value, (size.value + 511) / 512)
    else Attr(lstat.size, lstat.blocks)
  }

  /** The bytes a read returns: none past the end, and never more than there are. */
  function Sliced(data: seq<byte>, size: nat, off: nat): seq<byte> {
    if off >= |data| then []
    else if off + size > |data| then data[off..]
    else data[off..off + size]
  }

  ghost function Read(s: State, path: Path, size: nat, off: nat): Reply
    requires path in s.files ==> forall h :: h in s.files[path].list ==> Readable(s, h)
  {
    if size % BLOCK != 0 then Status(Failed(EINVAL))
    else if path !in s.files then Status(Failed(ENOENT))
    else Data(Sliced(FileBytes(s, path), size, off))
  }

  /** The walk orders a call comes with fit the tables. */
  ghost predicate Legal(s: State, c: Call) {
    match c
    case UnlinkCall(path, backend, order) => CanUnlink(s, path, backend, order)
    case Remount(blockOrder, fileOrder) => CanSave(s, blockOrder, fileOrder)
    case ReadCall(path, _, _) => path in s.files ==> forall h :: h in s.files[path].list ==> Readable(s, h)
    case _ => true
  }

  ghost function Step(hash: HashFunction, s: State, c: Call): (State, Reply)
    requires Legal(s, c)
  {
    match c
    case GetattrCall(path, lstat) =>
      (s, Getattr(if path in s.files then Some(s.files[path].logicalSize) else None, path, lstat))
    case ReadCall(path, size, off) => (s, Read(s, path, size, off))
    case WriteCall(path, buf, off) =>
      var r := Write(hash, s, path, buf, off);
      (r.0, Status(r.1))
    case UnlinkCall(path, backend, order) =>
      var r := Unlink(s, path, backend, order);
      (r.0, Status(r.1))
    case Remount(blockOrder, fileOrder) => (Remounted(s, blockOrder, fileOrder), Silent)
  }

  // ---------- The simple store ----------

  type Plain = map<Path, seq<byte>>

  function PlainStep(fs: Plain, c: Call): (Plain, Reply) {
    match c
    case GetattrCall(path, lstat) =>
      if Reserved(path) then (fs, Status(Failed(ENOENT)))
      else if lstat.NoStat? then (fs, Status(Failed(Other(lstat.code))))
      else if path in fs then (fs, Attr(|fs[path]|, (|fs[path]| + 511) / 512))
      else (fs, Attr(lstat.size, lstat.blocks))
    case ReadCall(path, size, off) =>
      if size % BLOCK != 0 then (fs, Status(Failed(EINVAL)))
      else if path !in fs then (fs, Status(Failed(ENOENT)))
      else (fs, Data(Sliced(fs[path], size, off)))
    case WriteCall(path, buf, off) =>
      if |buf| % BLOCK != 0 then (fs, Status(Failed(EINVAL)))
      else
        var old0 := if path in fs then fs[path] else [];
        if off != |old0| then (fs[path := old0], Status(Failed(ENOTSUP)))
        else (fs[path := old0 + buf], Status(Done(|buf|)))
    case UnlinkCall(path, backend, _) =>
      if Reserved(path) then (fs, Status(Failed(EPERM)))
      else if path !in fs then (fs, Status(Failed(ENOENT)))
      else if backend.Some? then (fs, Status(Failed(Other(backend.value))))
      else (fs - {path}, Status(Done(0)))
    case Remount(_, _) => (fs, Silent)
  }

  ghost predicate Holds(s: State, path: Path, data: seq<byte>) {
    path in s.files && (forall h :: h in s.files[path].list ==> Readable(s, h)) && FileBytes(s, path) == data
  }

  ghost predicate Represents(s: State, fs: Plain) {
    fs.Keys == s.files.Keys && forall p :: p in s.files ==> Holds(s, p, fs[p])
  }

  // ---------- No collisions ----------

  /** SHA-512 takes different values on different blocks of the pool. */
  ghost predicate CollisionFree(hash: HashFunction, pool: set<Block>) {
    forall a, b :: a in pool && b in pool && hash(a) == hash(b) ==> a == b
  }

  /** What the store holds comes from the pool. */
  ghost predicate StoredIn(s: State, pool: set<Block>) {
    forall h :: h in s.index && Readable(s, h) ==> Content(s, h) in pool
  }

  ghost function BlocksOf(c: Call): set<Block> {
    if c.WriteCall? then Elements(Split(c.buf)) else {}
  }

  lemma NoCollisionNoClash(hash: HashFunction, s: State, bs: seq<Block>, pool: set<Block>)
    requires CollisionFree(hash, pool) && StoredIn(s, pool) && DiskOk(hash, s) && Elements(bs) <= pool
    ensures NoClash(s, HashAll(hash, bs), bs)
  {
    hide Content;
    forall i | 0 <= i < |bs|
      ensures bs[i] in pool
    {
      assert bs[i] in Elements(bs);
    }
  }

  lemma AppendedIsStored(hash: HashFunction, s: State, path: Path, bs: seq<Block>, pool: set<Block>, h: Hash)
    requires Good(hash, s) && path in s.files && StoredIn(s, pool) && Elements(bs) <= pool
    requires h in Appended(s, path, HashAll(hash, bs), bs).index
    ensures var s1 := Appended(s, path, HashAll(hash, bs), bs);
            Readable(s1, h) && Content(s1, h) in pool
  {
    hide Appended, Content, CountersOk, SizesOk, Partitioned, First;
    var hs := HashAll(hash, bs);
    AppendedHas(s, path, hs, bs, h);
    AppendedContent(hash, s, path, hs, bs, h);
    if h !in s.index {
      var i := FirstIsThere(hs, bs, h);
      assert bs[i] in Elements(bs);
    }
  }

  lemma AppendedStoredIn(hash: HashFunction, s: State, path: Path, bs: seq<Block>, pool: set<Block>)
    requires Good(hash, s) && path in s.files && StoredIn(s, pool) && Elements(bs) <= pool
    ensures StoredIn(Appended(s, path, HashAll(hash, bs), bs), pool)
  {
    var s1 := Appended(s, path, HashAll(hash, bs), bs);
    hide Good, Content, Readable, Appended;
    forall h | h in s1.index && Readable(s1, h)
      ensures Content(s1, h) in pool
    {
      AppendedIsStored(hash, s, path, bs, pool, h);
    }
  }

  lemma AppendedHas(s: State, path: Path, hs: seq<Hash>, bs: seq<Block>, h: Hash)
    requires path in s.files && |hs| == |bs|
    ensures h in Appended(s, path, hs, bs).index <==> h in s.index || h in hs
  {
  }

  // ---------- Remounting changes nothing ----------

  lemma TablesRoundTrip(s: State)
    ensures StateOf(TablesOf(s), s.disk) == s
  {
    var t := StateOf(TablesOf(s), s.disk);
    assert t.free == s.free;
    assert t.files == s.files;
    assert t.index == s.index;
  }

  lemma RemountIsIdentity(s: State, blockOrder: seq<Hash>, fileOrder: seq<Path>)
    requires CanSave(s, blockOrder, fileOrder)
    ensures Remounted(s, blockOrder, fileOrder) == s
  {
    hide TablesOf, StateOf, Image.Fits, Image.Walks, Image.ImageOf, Loading.Load;
    Loading.ImageRoundTrip(TablesOf(s), blockOrder, fileOrder, |s.disk|);
    TablesRoundTrip(s);
  }

  // ---------- One call ----------

  lemma FileSize(hash: HashFunction, s: State, path: Path)
    requires Good(hash, s) && path in s.files
    ensures forall h :: h in s.files[path].list ==> Readable(s, h)
    ensures |FileBytes(s, path)| == s.files[path].logicalSize
  {
    ListedIsReadable(hash, s, path);
  }

  lemma OpenedHolds(s: State, path: Path, p: Path, data: seq<byte>)
    ensures Holds(s, p, data) ==> Holds(Opened(s, path), p, data)
    ensures path !in s.files ==> Holds(Opened(s, path), path, [])
  {
    if Holds(s, p, data) {
      SameBlocksRead(s, Opened(s, path), s.files[p].list);
    }
  }

  lemma SameBlocksRead(s: State, s1: State, list: seq<Hash>)
    requires s1.index == s.index && s1.disk == s.disk && forall h :: h in list ==> Readable(s, h)
    ensures (forall h :: h in list ==> Readable(s1, h)) && Contents(s1, list) == Contents(s, list)
  {
  }

  lemma OpenedRepresents(s: State, fs: Plain, path: Path)
    requires Represents(s, fs)
    ensures Represents(Opened(s, path), fs[path := if path in fs then fs[path] else []])
  {
    hide Holds;
    forall p | p in s.files
      ensures Holds(Opened(s, path), p, fs[p])
    {
      OpenedHolds(s, path, p, fs[p]);
    }
    OpenedHolds(s, path, path, []);
  }

  lemma AppendedHolds(hash: HashFunction, s: State, path: Path, buf: seq<byte>, p: Path, data: seq<byte>)
    requires Good(hash, s) && path in s.files && |buf| % BLOCK == 0 && Holds(s, p, data)
    requires NoClash(s, HashAll(hash, Split(buf)), Split(buf))
    ensures Holds(Appended(s, path, HashAll(hash, Split(buf)), Split(buf)), p, if p == path then data + buf else data)
  {
    hide Good, Readable, Content, Appended, NoClash, Split, HashAll;
    var s1 := Appended(s, path, HashAll(hash, Split(buf)), Split(buf));
    if p == path {
      WriteAppends(hash, s, path, buf);
      AppendedIsWrite(hash, s, path, buf);
    } else {
      AppendKeepsOld(hash, s, path, Split(buf), p);
      AppendedFiles(s, path, HashAll(hash, Split(buf)), Split(buf));
      SameContents(s, s1, s.files[p].list);
    }
  }

  lemma AppendedIsWrite(hash: HashFunction, s: State, path: Path, buf: seq<byte>)
    requires path in s.files && |buf| % BLOCK == 0
    ensures Write(hash, s, path, buf, s.files[path].logicalSize) ==
            (Appended(s, path, HashAll(hash, Split(buf)), Split(buf)), Done(|buf|))
  {
  }

  lemma AppendedFiles(s: State, path: Path, hs: seq<Hash>, bs: seq<Block>)
    requires path in s.files && |hs| == |bs|
    ensures Appended(s, path, hs, bs).files.Keys == s.files.Keys
  {
  }

  lemma AppendedRepresents(hash: HashFunction, s: State, fs: Plain, path: Path, buf: seq<byte>)
    requires Good(hash, s) && Represents(s, fs) && path in s.files && |buf| % BLOCK == 0
    requires NoClash(s, HashAll(hash, Split(buf)), Split(buf))
    ensures Represents(Appended(s, path, HashAll(hash, Split(buf)), Split(buf)), fs[path := fs[path] + buf])
  {
    hide Good, Holds, Appended, NoClash, Split, HashAll;
    AppendedFiles(s, path, HashAll(hash, Split(buf)), Split(buf));
    forall p | p in s.files
      ensures Holds(Appended(s, path, HashAll(hash, Split(buf)), Split(buf)), p, fs[path := fs[path] + buf][p])
    {
      AppendedHolds(hash, s, path, buf, p, fs[p]);
    }
  }

  lemma RemovedRepresents(hash: HashFunction, s: State, fs: Plain, path: Path, order: seq<Hash>)
    requires Good(hash, s) && Represents(s, fs) && path in s.files && OrderOf(order, s.files[path].list)
    requires forall h :: h in s.files[path].list ==> h in s.index
    ensures Represents(Removed(s, path, order), fs - {path})
  {
    var s1 := Removed(s, path, order);
    hide Good, OrderOf, Readable, Content, Released;
    assert s1.files.Keys == s.files.Keys - {path};
    hide Removed;
    forall p | p in s1.files
      ensures Holds(s1, p, fs[p])
    {
      UnlinkKeepsOthers(hash, s, path, order, p);
      assert Holds(s, p, fs[p]);
    }
  }

  lemma HeldSize(hash: HashFunction, s: State, path: Path, data: seq<byte>)
    requires Good(hash, s) && Holds(s, path, data)
    ensures s.files[path].logicalSize == |data|
  {
    FileSize(hash, s, path);
  }

  /** A write answers and acts like the simple store's, if the bytes it is given do not collide. */
  lemma WriteRefines(hash: HashFunction, s: State, fs: Plain, path: Path, buf: seq<byte>, off: nat)
    requires Good(hash, s) && Represents(s, fs)
    requires |buf| % BLOCK == 0 ==> NoClash(Opened(s, path), HashAll(hash, Split(buf)), Split(buf))
    ensures var r, c := Write(hash, s, path, buf, off), PlainStep(fs, WriteCall(path, buf, off));
            Good(hash, r.0) && Represents(r.0, c.0) && Status(r.1) == c.1
  {
    hide Good, NoClash, Split, HashAll, Appended, Opened, Holds;
    var old0 := if path in fs then fs[path] else [];
    if |buf| % BLOCK == 0 {
      var s1 := Opened(s, path);
      OpenedIsGood(hash, s, path);
      OpenedRepresents(s, fs, path);
      OpenedHas(s, path);
      assert Holds(s1, path, old0);
      HeldSize(hash, s1, path, old0);
      if off == |old0| {
        AppendedRepresents(hash, s1, fs[path := old0], path, buf);
        AppendedIsGood(hash, s1, path, Split(buf));
        assert fs[path := old0][path := old0 + buf] == fs[path := old0 + buf];
      }
    }
  }

  lemma OpenedHas(s: State, path: Path)
    ensures path in Opened(s, path).files
  {
  }

  lemma UnlinkRefines(hash: HashFunction, s: State, fs: Plain, path: Path, backend: Option<nat>, order: seq<Hash>)
    requires Good(hash, s) && Represents(s, fs) && Legal(s, UnlinkCall(path, backend, order))
    ensures var r, c := Unlink(s, path, backend, order), PlainStep(fs, UnlinkCall(path, backend, order));
            Good(hash, r.0) && Represents(r.0, c.0) && Status(r.1) == c.1
  {
    hide Good, OrderOf, Removed, Holds, Reserved;
    if !Reserved(path) && path in s.files && backend.None? {
      RemovedIsGood(hash, s, path, order);
      RemovedRepresents(hash, s, fs, path, order);
    }
  }

  /** What a call adds to what the store holds. */
  lemma StepStoredIn(hash: HashFunction, s: State, c: Call, pool: set<Block>)
    requires Good(hash, s) && Legal(s, c) && StoredIn(s, pool) && BlocksOf(c) <= pool
    ensures StoredIn(Step(hash, s, c).0, pool)
  {
    hide Good, OrderOf, Removed, Holds, Reserved, Appended, CanSave, Remounted, Split, HashAll, StoredIn;
    match c
    case WriteCall(path, buf, off) =>
      OpenedIsGood(hash, s, path);
      OpenedStoredIn(s, path, pool);
      OpenedHas(s, path);
      if |buf| % BLOCK == 0 {
        AppendedStoredIn(hash, Opened(s, path), path, Split(buf), pool);
      }
    case UnlinkCall(path, backend, order) =>
      if !Reserved(path) && path in s.files && backend.None? {
        RemovedStoredIn(hash, s, path, order, pool);
      }
    case Remount(blockOrder, fileOrder) => RemountIsIdentity(s, blockOrder, fileOrder);
    case _ =>
  }

  lemma OpenedStoredIn(s: State, path: Path, pool: set<Block>)
    requires StoredIn(s, pool)
    ensures StoredIn(Opened(s, path), pool)
  {
    forall h | h in s.index && Readable(Opened(s, path), h)
      ensures Content(Opened(s, path), h) in pool
    {
      assert Readable(s, h);
    }
  }

  lemma RemovedStoredIn(hash: HashFunction, s: State, path: Path, order: seq<Hash>, pool: set<Block>)
    requires Good(hash, s) && path in s.files && OrderOf(order, s.files[path].list) && StoredIn(s, pool)
    requires forall h :: h in s.files[path].list ==> h in s.index
    ensures StoredIn(Removed(s, path, order), pool)
  {
    RemovedIsGood(hash, s, path, order);
    hide Good, Readable, Content, OrderOf;
    RemovedIndex(s, path, order);
    hide Removed;
  }

  lemma RemovedIndex(s: State, path: Path, order: seq<Hash>)
    requires path in s.files && OrderOf(order, s.files[path].list) && forall h :: h in s.files[path].list ==> h in s.index
    ensures Removed(s, path, order).index.Keys <= s.index.Keys
  {
  }

  /** Calls that change nothing. */
  lemma LookRefines(hash: HashFunction, s: State, fs: Plain, c: Call)
    requires (c.GetattrCall? || c.ReadCall?) && Good(hash, s) && Represents(s, fs) && Legal(s, c)
    ensures Step(hash, s, c) == (s, PlainStep(fs, c).1) && PlainStep(fs, c).0 == fs
  {
    hide Good, Reserved;
    if c.path in s.files {
      assert Holds(s, c.path, fs[c.path]);
      HeldSize(hash, s, c.path, fs[c.path]);
    }
  }

  /** Every call answers and acts like the simple store's. */
  lemma StepRefines(hash: HashFunction, s: State, fs: Plain, c: Call, pool: set<Block>)
    requires Good(hash, s) && Represents(s, fs) && Legal(s, c)
    requires CollisionFree(hash, pool) && StoredIn(s, pool) && BlocksOf(c) <= pool
    ensures var r := Step(hash, s, c);
            && Good(hash, r.0) && StoredIn(r.0, pool) && Represents(r.0, PlainStep(fs, c).0) && r.1 == PlainStep(fs, c).1
  {
    StepStoredIn(hash, s, c, pool);
    match c
    case GetattrCall(_, _) =>
      hide Good, Represents, StoredIn;
      LookRefines(hash, s, fs, c);
    case ReadCall(_, _, _) =>
      hide Good, Represents, StoredIn;
      LookRefines(hash, s, fs, c);
    case WriteCall(path, buf, off) =>
      OpenedIsGood(hash, s, path);
      OpenedStoredIn(s, path, pool);
      if |buf| % BLOCK == 0 { NoCollisionNoClash(hash, Opened(s, path), Split(buf), pool); }
      hide Good, Represents, StoredIn, Write, NoClash, Opened;
      WriteRefines(hash, s, fs, path, buf, off);
    case UnlinkCall(path, backend, order) =>
      hide Good, Represents, StoredIn, Unlink;
      UnlinkRefines(hash, s, fs, path, backend, order);
    case Remount(blockOrder, fileOrder) =>
      hide Good, Represents, StoredIn, Remounted, CanSave;
      RemountIsIdentity(s, blockOrder, fileOrder);
  }

  // ---------- Runs ----------

  ghost predicate LegalRun(hash: HashFunction, s: State, cs: seq<Call>)
    decreases |cs|
  {
    cs == [] || (Legal(s, cs[0]) && LegalRun(hash, Step(hash, s, cs[0]).0, cs[1..]))
  }

  ghost function Run(hash: HashFunction, s: State, cs: seq<Call>): (State, seq<Reply>)
    requires LegalRun(hash, s, cs)
    decreases |cs|
  {
    if cs == [] then (s, [])
    else
      var r := Step(hash, s, cs[0]);
      var more := Run(hash, r.0, cs[1..]);
      (more.0, [r.1] + more.1)
  }

  ghost function PlainRun(fs: Plain, cs: seq<Call>): (Plain, seq<Reply>)
    decreases |cs|
  {
    if cs == [] then (fs, [])
    else
      var r := PlainStep(fs, cs[0]);
      var more := PlainRun(r.0, cs[1..]);
      (more.0, [r.1] + more.1)
  }

  ghost function AllBlocks(cs: seq<Call>): set<Block> {
    if cs == [] then {} else BlocksOf(cs[0]) + AllBlocks(cs[1..])
  }

  lemma StepIsGood(hash: HashFunction, s: State, c: Call)
    requires Good(hash, s) && Legal(s, c)
    ensures Good(hash, Step(hash, s, c).0)
  {
    hide Good, Reserved, Removed, OrderOf, CanSave, Remounted, Appended, HashAll, Split, Opened;
    match c
    case WriteCall(path, buf, off) =>
      OpenedIsGood(hash, s, path);
      OpenedHas(s, path);
      if |buf| % BLOCK == 0 { AppendedIsGood(hash, Opened(s, path), path, Split(buf)); }
    case UnlinkCall(path, backend, order) =>
      if !Reserved(path) && path in s.files && backend.None? { RemovedIsGood(hash, s, path, order); }
    case Remount(blockOrder, fileOrder) => RemountIsIdentity(s, blockOrder, fileOrder);
    case _ =>
  }

  /** After every run from a fresh store, whatever collides: counters count, only what is referred to is
      indexed, and live blocks and the free list partition the space below the high-water offset. */
  lemma {:induction false} RunIsGood(hash: HashFunction, s: State, cs: seq<Call>)
    requires Good(hash, s) && LegalRun(hash, s, cs)
    ensures Good(hash, Run(hash, s, cs).0)
    decreases |cs|
  {
    hide Good, Legal, Step;
    if cs != [] {
      StepIsGood(hash, s, cs[0]);
      RunIsGood(hash, Step(hash, s, cs[0]).0, cs[1..]);
    }
  }

  lemma {:induction false} RunRefines(hash: HashFunction, s: State, fs: Plain, cs: seq<Call>, pool: set<Block>)
    requires Good(hash, s) && Represents(s, fs) && LegalRun(hash, s, cs)
    requires CollisionFree(hash, pool) && StoredIn(s, pool) && AllBlocks(cs) <= pool
    ensures var r := Run(hash, s, cs);
            && Good(hash, r.0) && StoredIn(r.0, pool) && Represents(r.0, PlainRun(fs, cs).0) && r.1 == PlainRun(fs, cs).1
    decreases |cs|
  {
    hide Good, Represents, StoredIn, Legal, Step, PlainStep, CollisionFree;
    if cs != [] {
      StepRefines(hash, s, fs, cs[0], pool);
      RunRefines(hash, Step(hash, s, cs[0]).0, PlainStep(fs, cs[0]).0, cs[1..], pool);
    }
  }

  /** From a fresh store, any run answers as the simple store does, as long as no two different blocks
      that it writes have the same hash. */
  lemma DedupIsInvisible(hash: HashFunction, cs: seq<Call>)
    requires LegalRun(hash, FRESH, cs) && CollisionFree(hash, AllBlocks(cs))
    ensures Run(hash, FRESH, cs).1 == PlainRun(map[], cs).1
    ensures Represents(Run(hash, FRESH, cs).0, PlainRun(map[], cs).0) && Good(hash, Run(hash, FRESH, cs).0)
  {
    FreshIsGood(hash);
    hide Good, LegalRun, AllBlocks;
    RunRefines(hash, FRESH, map[], cs, AllBlocks(cs));
  }

  // ---------- Remounts ----------

  /** The same calls without the remounts. */
  ghost function Unbroken(cs: seq<Call>): seq<Call> {
    if cs == [] then [] else (if cs[0].Remount? then [] else [cs[0]]) + Unbroken(cs[1..])
  }

  ghost function Spoken(rs: seq<Reply>): seq<Reply> {
    if rs == [] then [] else (if rs[0].Silent? then [] else [rs[0]]) + Spoken(rs[1..])
  }

  lemma OnlyRemountsAreSilent(hash: HashFunction, s: State, c: Call)
    requires Legal(s, c)
    ensures Step(hash, s, c).1.Silent? <==> c.Remount?
    ensures c.Remount? ==> Step(hash, s, c).0 == s
  {
    hide Write, Unlink, Remounted, CanSave, OrderOf;
    if c.Remount? {
      RemountIsIdentity(s, c.blockOrder, c.fileOrder);
    }
  }

  /** Stopping, saving, loading and going on, any number of times and at any points, leads to the same
      replies and to the same store as never stopping: counters, sharing, free list and all. */
  lemma {:induction false} RemountsAreInvisible(hash: HashFunction, s: State, cs: seq<Call>)
    requires LegalRun(hash, s, cs)
    ensures LegalRun(hash, s, Unbroken(cs))
    ensures Run(hash, s, Unbroken(cs)).0 == Run(hash, s, cs).0
    ensures Run(hash, s, Unbroken(cs)).1 == Spoken(Run(hash, s, cs).1)
    decreases |cs|
  {
    hide Legal, Step;
    if cs != [] {
      OnlyRemountsAreSilent(hash, s, cs[0]);
      RemountsAreInvisible(hash, Step(hash, s, cs[0]).0, cs[1..]);
      if !cs[0].Remount? {
        assert Unbroken(cs)[1..] == Unbroken(cs[1..]);
      } else {
        assert Unbroken(cs) == Unbroken(cs[1..]);
      }
      var r := Run(hash, s, cs).1;
      assert r[0] == Step(hash, s, cs[0]).1 && r[1..] == Run(hash, Step(hash, s, cs[0]).0, cs[1..]).1;
    }
  }
}

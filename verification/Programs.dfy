/** The four operations that take locks, as programs of atomic instructions.

    A lock call, an unlock call and every access to shared data between them is one instruction.
    A program lists what an operation still has to do; where the C code branches on shared data,
    the last instruction of the list computes how it goes on. */
module Programs {
  import opened Basics
  import opened Collections
  import Space
  import opened TicketLock

  type Fid = nat   // a file object; never reused

  /** A block object: its id, and which of the objects created with this id it is. */
  datatype Ref = Ref(hash: Hash, gen: nat)

  datatype LockId = FileIndex | FileLock(f: Fid) | BlockIndex | BlockLock(b: Ref) | FreeList | NextOffset

  /** The last two are plain mutexes, the others ticket locks. */
  predicate IsMutex(l: LockId) {
    l == FreeList || l == NextOffset
  }

  function Tier(l: LockId): nat {
    match l
    case FileIndex => 0
    case FileLock(_) => 1
    case BlockIndex => 2
    case BlockLock(_) => 3
    case FreeList => 4
    case NextOffset => 5
  }

  /** The lock order: by tier, and block locks by hash. */
  predicate Below(x: LockId, y: LockId) {
    Tier(x) < Tier(y) || (x.BlockLock? && y.BlockLock? && x.b.hash < y.b.hash)
  }

  datatype Instr =
    | Acq(l: LockId, m: Mode)
    | Rel(l: LockId)
    // xmp_getattr
    | GLookup(path: Path)
    | GStat(f: Fid)
    // xmp_read
    | RLookup(path: Path, off: nat, size: nat)
    | RRange(f: Fid, off: nat, size: nat)
    | RCollect(f: Fid, start: nat, end: nat)  // blocks start up to but excluding end
    | RPread(b: Ref)
    // xmp_write
    | WLookup(path: Path, off: nat, hashes: seq<Hash>)
    | WCreate(path: Path, off: nat, hashes: seq<Hash>)
    | WCheck(f: Fid, off: nat, hashes: seq<Hash>)
    | WCount(f: Fid, off: nat, rest: seq<Hash>, got: seq<Ref>, created: set<Ref>)
    | WInsert(f: Fid, off: nat, rest: seq<Hash>, got: seq<Ref>, created: set<Ref>)
    | WAlloc(bs: seq<Ref>)
    | WAppend(f: Fid, b: Ref)
    | WSize(f: Fid, size: nat)
    // xmp_unlink
    | ULookup(path: Path)
    | UTally(f: Fid)
    | ULoad(b: Ref, n: nat)
    | UStore(b: Ref, v: int, n: nat)
    | UTest(b: Ref)
    | UFree(b: Ref)
    | UFreeBlock(b: Ref)
    | UFreeFile(f: Fid)

  datatype Prog = Done | Do(i: Instr, next: Prog)

  datatype Op =
    | GetattrOp(path: Path)
    | ReadOp(path: Path, off: nat, size: nat)
    | WriteOp(path: Path, off: nat, hashes: seq<Hash>)
    | UnlinkOp(path: Path)

  /** Reads of a size that is no multiple of a block, and names of the store's own files, end before
      any lock is taken. A write is given as the hashes of its blocks, computed before the first lock. */
  function Code(op: Op): Prog {
    match op
    case GetattrOp(path) =>
      if Reserved(path) then Done else Do(Acq(FileIndex, Read), Do(GLookup(path), Done))
    case ReadOp(path, off, size) =>
      if size % 4096 != 0 then Done else Do(Acq(FileIndex, Read), Do(RLookup(path, off, size), Done))
    case WriteOp(path, off, hashes) =>
      Do(Acq(FileIndex, Read), Do(WLookup(path, off, hashes), Done))
    case UnlinkOp(path) =>
      if Reserved(path) then Done else Do(Acq(FileIndex, Write), Do(ULookup(path), Done))
  }

  // ---------- Program fragments ----------

  function LockAll(bs: seq<Ref>, m: Mode, next: Prog): Prog {
    if bs == [] then next else Do(Acq(BlockLock(bs[0]), m), LockAll(bs[1..], m, next))
  }

  function UnlockAll(bs: seq<Ref>, next: Prog): Prog {
    if bs == [] then next else Do(Rel(BlockLock(bs[0])), UnlockAll(bs[1..], next))
  }

  function PreadAll(bs: seq<Ref>, next: Prog): Prog {
    if bs == [] then next else Do(RPread(bs[0]), PreadAll(bs[1..], next))
  }

  function AppendAll(f: Fid, bs: seq<Ref>, next: Prog): Prog {
    if bs == [] then next else Do(WAppend(f, bs[0]), AppendAll(f, bs[1..], next))
  }

  /** The loop over blockCounts: `order` is the table's iteration order. */
  function TallyAll(order: seq<Ref>, list: seq<Ref>, next: Prog): Prog {
    if order == [] then next
    else
      Do(Acq(BlockLock(order[0]), Write),
         Do(ULoad(order[0], multiset(list)[order[0]]),
            Do(UTest(order[0]), TallyAll(order[1..], list, next))))
  }

  /** A table keyed by hash after inserting bs: `uniqueBlocks` of a read keeps the last object it was
      given for a hash, `lockedBlocks` of a write the first. */
  function ByHash(bs: seq<Ref>, keepFirst: bool): (m: map<Hash, Ref>)
    ensures forall h :: h in m ==> m[h].hash == h && m[h] in bs
    ensures forall b :: b in bs ==> b.hash in m
    ensures |m| <= |bs|
  {
    if bs == [] then map[]
    else
      var m, b := ByHash(bs[..|bs| - 1], keepFirst), bs[|bs| - 1];
      if keepFirst && b.hash in m then m else m[b.hash := b]
  }

  /** The values of such a table, sorted by compare_blocks. */
  function LockOrder(m: map<Hash, Ref>): seq<Ref> {
    ValuesAt(Sorted(m.Keys), m)
  }

  lemma LockOrderIsAscending(m: map<Hash, Ref>)
    requires forall h :: h in m ==> m[h].hash == h
    ensures AscendingRefs(LockOrder(m)) && |LockOrder(m)| == |m|
  {
    var hs, bs := Sorted(m.Keys), LockOrder(m);
    assert |m| == |m.Keys|;
    forall i, j | 0 <= i < j < |bs|
      ensures bs[i].hash < bs[j].hash
    {
      assert hs[i] in hs && hs[j] in hs;
    }
  }

  lemma LockOrderMembers(m: map<Hash, Ref>)
    requires forall h :: h in m ==> m[h].hash == h
    ensures forall b: Ref :: b in LockOrder(m) <==> b.hash in m && m[b.hash] == b
  {
    ValuesAtMembers(Sorted(m.Keys), m);
  }

  function ValuesAt(hs: seq<Hash>, m: map<Hash, Ref>): (bs: seq<Ref>)
    requires forall h :: h in hs ==> h in m.Keys
    ensures |bs| == |hs| && forall i :: 0 <= i < |bs| ==> bs[i] == m[hs[i]]
  {
    if hs == [] then [] else [m[hs[0]]] + ValuesAt(hs[1..], m)
  }

  lemma ValuesAtMembers(hs: seq<Hash>, m: map<Hash, Ref>)
    requires forall h :: h in hs ==> h in m && m[h].hash == h
    ensures forall b: Ref :: b in ValuesAt(hs, m) <==> b.hash in hs && m[b.hash] == b
  {
    var bs := ValuesAt(hs, m);
    forall b: Ref | b.hash in hs && m[b.hash] == b
      ensures b in bs
    {
      var i :| 0 <= i < |hs| && hs[i] == b.hash;
      assert bs[i] == b;
    }
  }

  ghost predicate AscendingRefs(bs: seq<Ref>) {
    forall i, j :: 0 <= i < j < |bs| ==> bs[i].hash < bs[j].hash
  }

  /** bs lists every element of s once. */
  ghost predicate Enumerates(bs: seq<Ref>, s: set<Ref>) {
    (forall i, j :: 0 <= i < j < |bs| ==> bs[i] != bs[j]) && (forall b :: b in bs <==> b in s)
  }

  // ---------- Shared data ----------

  /** `id` is the path the file was created under. `counted` records that the entries of the list are
      still part of the blocks' counters: it turns false when the unlink that stole the file has counted
      them up. */
  datatype File = File(id: Path, list: seq<Ref>, size: nat, counted: bool)

  /** A block gets its offset after it has become visible in the index. */
  datatype Block = Block(counter: int, off: Option<nat>)

  /** `files` and `blocks` are the allocated objects; `fids` and `gens` number the next ones. */
  datatype Data = Data(
    fileIndex: map<Path, Fid>, files: map<Fid, File>,
    blockIndex: map<Hash, Ref>, blocks: map<Ref, Block>,
    freeList: seq<nat>, nextFree: nat, fids: Fid, gens: nat)

  const EMPTY_DATA := Data(map[], map[], map[], map[], [], 0, 0, 0)

  /** The objects an instruction touches are still allocated; a lock is part of the object it protects. */
  predicate Defined(d: Data, i: Instr) {
    match i
    case Acq(FileLock(f), _) => f in d.files
    case Rel(FileLock(f)) => f in d.files
    case Acq(BlockLock(b), _) => b in d.blocks
    case Rel(BlockLock(b)) => b in d.blocks
    case GStat(f) => f in d.files
    case RRange(f, _, _) => f in d.files
    case RCollect(f, start, end) => f in d.files && (start < end ==> end <= |d.files[f].list|)
    case RPread(b) => b in d.blocks
    case WCheck(f, _, _) => f in d.files
    case WCount(_, _, rest, _, _) => rest != [] && rest[0] in d.blockIndex ==> d.blockIndex[rest[0]] in d.blocks
    case WInsert(_, _, rest, _, _) => rest != [] && (rest[0] in d.blockIndex ==> d.blockIndex[rest[0]] in d.blocks)
    case WAlloc(bs) => forall b :: b in bs ==> b in d.blocks
    case WAppend(f, b) => f in d.files && b in d.blocks
    case WSize(f, _) => f in d.files
    case UTally(f) => f in d.files
    case ULoad(b, _) => b in d.blocks
    case UStore(b, _, _) => b in d.blocks
    case UTest(b) => b in d.blocks
    case UFree(b) => b in d.blocks
    case UFreeBlock(b) => b in d.blocks
    case UFreeFile(f) => f in d.files
    case _ => true
  }

  // ---------- What an instruction does to the shared data ----------

  function ExecData(d: Data, i: Instr): Data
    requires Defined(d, i)
  {
    match i
    case WCreate(path, _, _) => if path in d.fileIndex then d else NewFile(d, path)
    case WCount(_, _, rest, _, _) =>
      if rest != [] && rest[0] in d.blockIndex then SetCounter(d, d.blockIndex[rest[0]], 1) else d
    case WInsert(_, _, rest, _, _) =>
      if rest[0] in d.blockIndex then SetCounter(d, d.blockIndex[rest[0]], 1) else NewBlock(d, rest[0])
    case WAlloc(bs) => AllocAll(d, bs)
    case WAppend(f, b) => d.(files := d.files[f := d.files[f].(list := d.files[f].list + [b])])
    case WSize(f, size) =>
      if size > d.files[f].size then d.(files := d.files[f := d.files[f].(size := size)]) else d
    case ULookup(path) => d.(fileIndex := d.fileIndex - {path})
    case UTally(f) => d.(files := d.files[f := d.files[f].(counted := false)])
    case UStore(b, v, n) => d.(blocks := d.blocks[b := d.blocks[b].(counter := v - n)])
    case UTest(b) => if d.blocks[b].counter == 0 then d.(blockIndex := d.blockIndex - {b.hash}) else d
    case UFree(b) => d.(freeList := d.freeList + [OffsetOf(d.blocks[b])])
    case UFreeBlock(b) => d.(blocks := d.blocks - {b})
    case UFreeFile(f) => d.(files := d.files - {f})
    case _ => d
  }

  /** `block_offset` of a block that has none yet is what g_malloc0 left there. */
  function OffsetOf(b: Block): nat {
    match b.off
    case Some(off) => off
    case None => 0
  }

  function SetCounter(d: Data, b: Ref, more: int): Data
    requires b in d.blocks
  {
    d.(blocks := d.blocks[b := d.blocks[b].(counter := d.blocks[b].counter + more)])
  }

  function NewFile(d: Data, path: Path): Data {
    d.(fileIndex := d.fileIndex[path := d.fids], files := d.files[d.fids := File(path, [], 0, true)], fids := d.fids + 1)
  }

  function NewBlock(d: Data, h: Hash): Data {
    var b := Ref(h, d.gens);
    d.(blockIndex := d.blockIndex[h := b], blocks := d.blocks[b := Block(1, None)], gens := d.gens + 1)
  }

  function AllocAll(d: Data, bs: seq<Ref>): Data
    requires forall b :: b in bs ==> b in d.blocks
    decreases |bs|
  {
    if bs == [] then d else AllocAll(Alloc(d, bs[0]), bs[1..])
  }

  function Alloc(d: Data, b: Ref): Data
    requires b in d.blocks
  {
    d.(blocks := d.blocks[b := d.blocks[b].(off := Some(Space.TopSlot(d.freeList, d.nextFree)))],
       freeList := Space.FreeLeft(d.freeList), nextFree := Space.NextLeft(d.freeList, d.nextFree))
  }

  // ---------- How the operation goes on ----------

  /** `order` is the iteration order of the hash table the instruction walks, where it walks one. */
  ghost predicate OrderOk(d: Data, i: Instr, order: seq<Ref>)
    requires Defined(d, i)
  {
    match i
    case RCollect(f, start, end) => Enumerates(order, ByHash(Slice(d.files[f].list, start, end), false).Values)
    case UTally(f) => Enumerates(order, set b | b in d.files[f].list)
    case _ => true
  }

  function Slice(list: seq<Ref>, start: nat, end: nat): seq<Ref> {
    if start <= end <= |list| then list[start..end] else []
  }

  function ExecProg(d: Data, i: Instr, next: Prog, order: seq<Ref>): Prog
    requires Defined(d, i)
  {
    match i
    case GLookup(path) =>
      if path !in d.fileIndex then Do(Rel(FileIndex), Done)
      else
        var f := d.fileIndex[path];
        Do(Acq(FileLock(f), Read), Do(GStat(f), Do(Rel(FileLock(f)), Do(Rel(FileIndex), Done))))
    case RLookup(path, off, size) =>
      if path !in d.fileIndex then Do(Rel(FileIndex), Done)
      else
        var f := d.fileIndex[path];
        Do(Acq(FileLock(f), Read), Do(Rel(FileIndex), Do(RRange(f, off, size), Done)))
    case RRange(f, off, size) =>
      var n := d.files[f].size;
      if off >= n then Do(Rel(FileLock(f)), Done)
      else
        var clipped := if off + size > n then n - off else size;
        Do(Acq(BlockIndex, Read), Do(RCollect(f, off / 4096, EndIndex(off, clipped)), Done))
    case RCollect(f, start, end) =>
      var bs := Slice(d.files[f].list, start, end);
      LockAll(LockOrder(ByHash(bs, false)), Read,
              Do(Rel(BlockIndex), PreadAll(bs, UnlockAll(order, Do(Rel(FileLock(f)), Done)))))
    case WLookup(path, off, hashes) =>
      if path !in d.fileIndex then
        Do(Rel(FileIndex), Do(Acq(FileIndex, Write), Do(WCreate(path, off, hashes), Done)))
      else
        var f := d.fileIndex[path];
        Do(Acq(FileLock(f), Write), Do(WCheck(f, off, hashes), Done))
    case WCreate(path, off, hashes) =>
      var f := if path in d.fileIndex then d.fileIndex[path] else d.fids;
      Do(Rel(FileIndex), Do(Acq(FileIndex, Read),
                            Do(Acq(FileLock(f), Write), Do(WCheck(f, off, hashes), Done))))
    case WCheck(f, off, hashes) =>
      if off != d.files[f].size then Do(Rel(FileLock(f)), Do(Rel(FileIndex), Done))
      else Do(Acq(BlockIndex, Read), Do(WCount(f, off, hashes, [], {}), Done))
    case WCount(f, off, rest, got, created) =>
      if rest == [] then WriteOut(f, off, got, created)
      else if rest[0] in d.blockIndex then
        Do(WCount(f, off, rest[1..], got + [d.blockIndex[rest[0]]], created), Done)
      else
        Do(Rel(BlockIndex), Do(Acq(BlockIndex, Write), Do(WInsert(f, off, rest, got, created), Done)))
    case WInsert(f, off, rest, got, created) =>
      var known := rest[0] in d.blockIndex;
      var b := if known then d.blockIndex[rest[0]] else Ref(rest[0], d.gens);
      Do(Rel(BlockIndex), Do(Acq(BlockIndex, Read),
                             Do(WCount(f, off, rest[1..], got + [b], if known then created else created + {b}), Done)))
    case ULookup(path) =>
      if path !in d.fileIndex then Do(Rel(FileIndex), Done)
      else
        var f := d.fileIndex[path];
        Do(Rel(FileIndex), Do(Acq(FileLock(f), Write), Do(Acq(BlockIndex, Write), Do(UTally(f), Done))))
    case UTally(f) =>
      TallyAll(order, d.files[f].list, Do(Rel(BlockIndex), Do(Rel(FileLock(f)), Do(UFreeFile(f), Done))))
    case ULoad(b, n) => Do(UStore(b, d.blocks[b].counter, n), next)
    case UTest(b) =>
      if d.blocks[b].counter == 0 then
        Do(Acq(FreeList, Write), Do(UFree(b), Do(Rel(FreeList), Do(Rel(BlockLock(b)), Do(UFreeBlock(b), next)))))
      else Do(Rel(BlockLock(b)), next)
    case _ => next
  }

  /** The rest of a write once all its blocks are counted. */
  function WriteOut(f: Fid, off: nat, got: seq<Ref>, created: set<Ref>): Prog {
    var locked := LockOrder(ByHash(got, true));
    LockAll(locked, Write,
      Do(Acq(FreeList, Write), Do(Acq(NextOffset, Write),
        Do(WAlloc(OnlyIn(locked, created)),
          Do(Rel(NextOffset), Do(Rel(FreeList), Do(Rel(BlockIndex), Do(Rel(FileIndex),
            AppendAll(f, got, Do(WSize(f, off + 4096 * |got|),
              UnlockAll(locked, Do(Rel(FileLock(f)), Done)))))))))))
    )
  }

  function OnlyIn(bs: seq<Ref>, s: set<Ref>): (r: seq<Ref>)
    ensures forall b :: b in r <==> b in bs && b in s
  {
    if bs == [] then [] else (if bs[0] in s then [bs[0]] else []) + OnlyIn(bs[1..], s)
  }
}

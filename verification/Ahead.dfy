/** The table of files as its users see it, the steps that decide about it, and what the rest of a program
    still has to do to it. */
module Ahead {
  import opened Basics
  import opened Collections
  import opened TicketLock
  import opened Programs
  import opened Discipline
  import opened RefCounts
  import opened FileSteps

  // ---------- One decisive step after another ----------

  /** What a file is to its users: the hashes of its blocks, and its size. */
  datatype Entry = Entry(hashes: seq<Hash>, size: nat)

  type Table = map<Path, Entry>

  /** The decisive steps of operations. A write first enters its path, then appends if it is at the right position;
      `Lost` is the append of a write whose path another operation has unlinked in between. */
  datatype Event =
    | Opened(path: Path)
    | Appended(path: Path, off: nat, hashes: seq<Hash>)
    | Lost(path: Path, off: nat, hashes: seq<Hash>)
    | Removed(path: Path)
    | Sized(path: Path)
    | Fetched(path: Path, off: nat, size: nat)

  /** What a getattr or a read gets to see. */
  datatype Sight = SizeSeen(size: nat) | BlockSeen(hash: Hash)

  function Apply(t: Table, e: Event): Table {
    match e
    case Opened(path) => if path in t then t else t[path := Entry([], 0)]
    case Appended(path, off, hashes) =>
      if path in t && off == t[path].size then t[path := Entry(t[path].hashes + hashes, off + 4096 * |hashes|)] else t
    case Removed(path) => t - {path}
    case _ => t
  }

  function ApplyAll(t: Table, es: seq<Event>): Table
    decreases |es|
  {
    if es == [] then t else ApplyAll(Apply(t, es[0]), es[1..])
  }

  function Part(hashes: seq<Hash>, i: nat, j: nat): seq<Hash> {
    if i <= j <= |hashes| then hashes[i..j] else []
  }

  /** The blocks that have a byte of the range, cut off at the size. */
  function Covering(e: Entry, off: nat, size: nat): seq<Hash> {
    if off >= e.size then []
    else
      var n := if size <= e.size - off then size else e.size - off;
      if off + n == 0 then [] else Part(e.hashes, off / 4096, (off + n - 1) / 4096 + 1)
  }

  function SeenBlocks(hashes: seq<Hash>): (r: seq<Sight>)
    ensures |r| == |hashes|
  {
    seq(|hashes|, i requires 0 <= i < |hashes| => BlockSeen(hashes[i]))
  }

  function Sees(t: Table, e: Event): seq<Sight> {
    match e
    case Sized(path) => if path in t then [SizeSeen(t[path].size)] else []
    case Fetched(path, off, size) => if path in t then SeenBlocks(Covering(t[path], off, size)) else []
    case _ => []
  }

  function SeesAll(t: Table, es: seq<Event>): seq<Sight>
    decreases |es|
  {
    if es == [] then [] else Sees(t, es[0]) + SeesAll(Apply(t, es[0]), es[1..])
  }

  /** The decisive steps of an operation. */
  function EventsOf(op: Op): seq<Event> {
    match op
    case GetattrOp(path) => if path == "/backend/.metadata" || path == "/backend/.sysdata" then [] else [Sized(path)]
    case ReadOp(path, off, size) => if size % 4096 != 0 then [] else [Fetched(path, off, size)]
    case WriteOp(path, off, hashes) => [Opened(path), Appended(path, off, hashes)]
    case UnlinkOp(path) => if path == "/backend/.metadata" || path == "/backend/.sysdata" then [] else [Removed(path)]
  }

  function AllEvents(ops: seq<Op>): seq<Event> {
    if ops == [] then [] else EventsOf(ops[0]) + AllEvents(ops[1..])
  }

  // ---------- What a program still has to do ----------

  function HashesOf(bs: seq<Ref>): (hs: seq<Hash>)
    ensures |hs| == |bs| && forall i :: 0 <= i < |hs| ==> hs[i] == bs[i].hash
  {
    seq(|bs|, i requires 0 <= i < |bs| => bs[i].hash)
  }

  function IdOf(d: Data, f: Fid): Path {
    if f in d.files then d.files[f].id else ""
  }

  /** The decisive steps at instruction i; a read decides when it lets go of the file index with the lock of its file. */
  function EventsAt(d: Data, i: Instr, next: Prog): seq<Event> {
    match i
    case GLookup(path) => [Sized(path)]
    case GStat(f) => [Sized(IdOf(d, f))]
    case RLookup(path, off, size) => [Fetched(path, off, size)]
    case Rel(FileIndex) =>
      if next.Do? && next.i.RRange? then [Fetched(IdOf(d, next.i.f), next.i.off, next.i.size)] else []
    case WLookup(path, off, hashes) => [Opened(path), Appended(path, off, hashes)]
    case WCreate(path, off, hashes) => [Opened(path), Appended(path, off, hashes)]
    case WCheck(f, off, hashes) => [Appended(IdOf(d, f), off, hashes)]
    case ULookup(path) => [Removed(path)]
    case _ => []
  }

  function EventsAhead(d: Data, p: Prog): seq<Event> {
    match p
    case Done => []
    case Do(i, next) => EventsAt(d, i, next) + EventsAhead(d, next)
  }

  /** What a write has still to append to its file, and the size it will give it. */
  datatype Rest = Rest(adds: seq<Hash>, size: nat)

  const NONE := Rest([], 0)

  function Larger(m: nat, n: nat): nat {
    if m >= n then m else n
  }

  function With(r: Rest, adds: seq<Hash>, size: nat): Rest {
    Rest(adds + r.adds, Larger(size, r.size))
  }

  function RestAt(f: Fid, i: Instr, r: Rest): Rest {
    match i
    case WCount(g, off, rest, got, _) => if g == f then With(r, HashesOf(got) + rest, off + 4096 * (|got| + |rest|)) else r
    case WInsert(g, off, rest, got, _) => if g == f then With(r, HashesOf(got) + rest, off + 4096 * (|got| + |rest|)) else r
    case WAppend(g, b) => if g == f then With(r, [b.hash], 0) else r
    case WSize(g, size) => if g == f then With(r, [], size) else r
    case _ => r
  }

  function RestOf(f: Fid, p: Prog): Rest {
    match p
    case Done => NONE
    case Do(i, next) => RestAt(f, i, RestOf(f, next))
  }

  /** The blocks that a read has still to fetch. */
  function Preads(p: Prog): seq<Hash> {
    match p
    case Done => []
    case Do(i, next) => (if i.RPread? then [i.b.hash] else []) + Preads(next)
  }

  predicate Looking(i: Instr) {
    i.GStat? || i.RRange? || i.RCollect?
  }

  /** The program is going to look at the size or the list of a file. */
  predicate Views(p: Prog) {
    match p
    case Done => false
    case Do(i, next) => Looking(i) || Views(next)
  }

  ghost predicate SameAhead(d: Data, f: Fid, p: Prog, q: Prog) {
    && EventsAhead(d, p) == EventsAhead(d, q) && RestOf(f, p) == RestOf(f, q) && Preads(p) == Preads(q)
    && Views(p) == Views(q)
  }

  // ---------- Program fragments ----------

  /** Instructions that neither decide nor change nor look at nor fetch anything of a file. */
  predicate IsIdle(i: Instr) {
    match i
    case Acq(_, _) => true
    case Rel(l) => l != FileIndex
    case WAlloc(_) => true
    case UTally(_) => true
    case ULoad(_, _) => true
    case UStore(_, _, _) => true
    case UTest(_) => true
    case UFree(_) => true
    case UFreeBlock(_) => true
    case UFreeFile(_) => true
    case _ => false
  }

  lemma PopOne(d: Data, f: Fid, i: Instr, next: Prog)
    ensures var p := Do(i, next);
            && EventsAhead(d, p) == EventsAt(d, i, next) + EventsAhead(d, next)
            && RestOf(f, p) == RestAt(f, i, RestOf(f, next))
            && Preads(p) == (if i.RPread? then [i.b.hash] else []) + Preads(next)
            && Views(p) == (Looking(i) || Views(next))
  {
    hide EventsAt, RestAt, Looking;
  }

  lemma PopIdle(d: Data, f: Fid, i: Instr, next: Prog)
    requires IsIdle(i)
    ensures SameAhead(d, f, Do(i, next), next)
  {
    hide EventsAhead, RestOf, Preads, Views;
    PopOne(d, f, i, next);
  }

  lemma PopIndex(d: Data, f: Fid, next: Prog)
    requires !(next.Do? && next.i.RRange?)
    ensures SameAhead(d, f, Do(Rel(FileIndex), next), next)
  {
    hide EventsAhead, RestOf, Preads, Views;
    PopOne(d, f, Rel(FileIndex), next);
  }

  lemma {:induction false} LockAllAhead(d: Data, f: Fid, bs: seq<Ref>, m: Mode, next: Prog)
    ensures SameAhead(d, f, LockAll(bs, m, next), next)
  {
    hide EventsAhead, RestOf, Preads, Views;
    if bs != [] {
      LockAllAhead(d, f, bs[1..], m, next);
      PopIdle(d, f, Acq(BlockLock(bs[0]), m), LockAll(bs[1..], m, next));
    }
  }

  lemma {:induction false} UnlockAllAhead(d: Data, f: Fid, bs: seq<Ref>, next: Prog)
    ensures SameAhead(d, f, UnlockAll(bs, next), next)
  {
    hide EventsAhead, RestOf, Preads, Views;
    if bs != [] {
      UnlockAllAhead(d, f, bs[1..], next);
      PopIdle(d, f, Rel(BlockLock(bs[0])), UnlockAll(bs[1..], next));
    }
  }

  lemma {:induction false} TallyAllAhead(d: Data, f: Fid, order: seq<Ref>, list: seq<Ref>, next: Prog)
    ensures SameAhead(d, f, TallyAll(order, list, next), next)
  {
    hide EventsAhead, RestOf, Preads, Views;
    if order != [] {
      var p := TallyAll(order[1..], list, next);
      TallyAllAhead(d, f, order[1..], list, next);
      PopIdle(d, f, UTest(order[0]), p);
      var n := multiset(list)[order[0]];
      PopIdle(d, f, ULoad(order[0], n), Do(UTest(order[0]), p));
      PopIdle(d, f, Acq(BlockLock(order[0]), Write), Do(ULoad(order[0], n), Do(UTest(order[0]), p)));
    }
  }

  lemma FirstHash(bs: seq<Ref>)
    requires bs != []
    ensures HashesOf(bs) == [bs[0].hash] + HashesOf(bs[1..])
  {
  }

  lemma NoHash()
    ensures HashesOf([]) == []
  {
  }

  lemma WithMore(r: Rest, h: Hash, hs: seq<Hash>)
    ensures With(With(r, hs, 0), [h], 0) == With(r, [h] + hs, 0)
  {
    assert [h] + (hs + r.adds) == [h] + hs + r.adds;
  }

  lemma NothingMore(r: Rest)
    ensures With(r, [], 0) == r
  {
  }

  lemma {:induction false} PreadAllAhead(d: Data, f: Fid, bs: seq<Ref>, next: Prog)
    ensures var p := PreadAll(bs, next);
            && EventsAhead(d, p) == EventsAhead(d, next) && RestOf(f, p) == RestOf(f, next)
            && Preads(p) == HashesOf(bs) + Preads(next) && Views(p) == Views(next)
  {
    hide EventsAhead, RestOf, Preads, Views, HashesOf;
    NoHash();
    if bs != [] {
      PreadAllAhead(d, f, bs[1..], next);
      PopOne(d, f, RPread(bs[0]), PreadAll(bs[1..], next));
      FirstHash(bs);
    }
  }

  lemma {:induction false} AppendAllAhead(d: Data, f: Fid, g: Fid, bs: seq<Ref>, next: Prog)
    ensures var p := AppendAll(g, bs, next);
            && EventsAhead(d, p) == EventsAhead(d, next) && Preads(p) == Preads(next) && Views(p) == Views(next)
            && RestOf(f, p) == if g == f then With(RestOf(f, next), HashesOf(bs), 0) else RestOf(f, next)
  {
    hide EventsAhead, RestOf, Preads, Views, HashesOf, With;
    NoHash();
    NothingMore(RestOf(f, next));
    if bs != [] {
      AppendAllAhead(d, f, g, bs[1..], next);
      PopOne(d, f, WAppend(g, bs[0]), AppendAll(g, bs[1..], next));
      FirstHash(bs);
      WithMore(RestOf(f, next), bs[0].hash, HashesOf(bs[1..]));
    }
  }

  lemma WriteOutAhead(d: Data, f: Fid, g: Fid, off: nat, got: seq<Ref>, created: set<Ref>)
    ensures var p := WriteOut(g, off, got, created);
            && EventsAhead(d, p) == [] && Preads(p) == [] && !Views(p)
            && RestOf(f, p) == if g == f then Rest(HashesOf(got), off + 4096 * |got|) else NONE
  {
    hide EventsAhead, RestOf, Preads, Views, LockOrder, ByHash;
    var locked := LockOrder(ByHash(got, true));
    var p4 := Do(WSize(g, off + 4096 * |got|), UnlockAll(locked, Do(Rel(FileLock(g)), Done)));
    WriteTailAhead(d, f, g, off + 4096 * |got|, locked);
    AppendAllAhead(d, f, g, got, p4);
    var p3 := AppendAll(g, got, p4);
    AppendsFirst(g, got, off + 4096 * |got|, UnlockAll(locked, Do(Rel(FileLock(g)), Done)));
    PopIndex(d, f, p3);
    var p2 := Do(Rel(FileIndex), p3);
    PopIdle(d, f, Rel(BlockIndex), p2);
    PopIdle(d, f, Rel(FreeList), Do(Rel(BlockIndex), p2));
    var p1 := Do(Rel(FreeList), Do(Rel(BlockIndex), p2));
    PopIdle(d, f, Rel(NextOffset), p1);
    PopIdle(d, f, WAlloc(OnlyIn(locked, created)), Do(Rel(NextOffset), p1));
    var p0 := Do(WAlloc(OnlyIn(locked, created)), Do(Rel(NextOffset), p1));
    PopIdle(d, f, Acq(NextOffset, Write), p0);
    PopIdle(d, f, Acq(FreeList, Write), Do(Acq(NextOffset, Write), p0));
    LockAllAhead(d, f, locked, Write, Do(Acq(FreeList, Write), Do(Acq(NextOffset, Write), p0)));
  }

  lemma AppendsFirst(g: Fid, got: seq<Ref>, size: nat, next: Prog)
    ensures var p := AppendAll(g, got, Do(WSize(g, size), next)); !(p.Do? && p.i.RRange?)
  {
  }

  lemma WriteTailAhead(d: Data, f: Fid, g: Fid, size: nat, locked: seq<Ref>)
    ensures var p := Do(WSize(g, size), UnlockAll(locked, Do(Rel(FileLock(g)), Done)));
            && EventsAhead(d, p) == [] && Preads(p) == [] && !Views(p)
            && RestOf(f, p) == if g == f then Rest([], size) else NONE
  {
    UnlockAllAhead(d, f, locked, Do(Rel(FileLock(g)), Done));
    PopIdle(d, f, Rel(FileLock(g)), Done);
  }

  // ---------- What an instruction makes of it ----------

  /** The index leads to f under the path it was created for. */
  predicate IsNamed(d: Data, f: Fid) {
    f in d.files && d.files[f].id in d.fileIndex && d.fileIndex[d.files[f].id] == f
  }

  /** The decisive steps taken by executing or releasing with instruction i. */
  function EventsBy(d: Data, i: Instr, next: Prog): seq<Event> {
    match i
    case GLookup(path) => if path in d.fileIndex then [] else [Sized(path)]
    case RLookup(path, off, size) => if path in d.fileIndex then [] else [Fetched(path, off, size)]
    case WLookup(path, off, hashes) => if path in d.fileIndex then [Opened(path)] else []
    case WCreate(path, off, hashes) => [Opened(path)]
    case WCheck(f, off, hashes) => if IsNamed(d, f) then [Appended(IdOf(d, f), off, hashes)] else [Lost(IdOf(d, f), off, hashes)]
    case _ => EventsAt(d, i, next)
  }

  /** The step that an operation meant to take. */
  function Meant(e: Event): Event {
    match e
    case Lost(path, off, hashes) => Appended(path, off, hashes)
    case _ => e
  }

  function AllMeant(es: seq<Event>): (r: seq<Event>)
    ensures |r| == |es| && forall i :: 0 <= i < |r| ==> r[i] == Meant(es[i])
  {
    seq(|es|, i requires 0 <= i < |es| => Meant(es[i]))
  }

  /** The decisive steps left after an instruction that computes the rest of its program. */
  function EventsAfter(d: Data, i: Instr): seq<Event>
    requires Branches(i)
  {
    match i
    case GLookup(path) => if path in d.fileIndex then [Sized(path)] else []
    case RLookup(path, off, size) => if path in d.fileIndex then [Fetched(path, off, size)] else []
    case WLookup(path, off, hashes) =>
      if path in d.fileIndex then [Appended(path, off, hashes)] else [Opened(path), Appended(path, off, hashes)]
    case WCreate(path, off, hashes) => [Appended(path, off, hashes)]
    case _ => []
  }

  /** Only the check of the position brings new entries to append. */
  function RestAfter(d: Data, f: Fid, i: Instr): Rest
    requires Branches(i) && Defined(d, i)
  {
    match i
    case WCheck(g, off, hashes) => if g == f && off == d.files[g].size then Rest(hashes, off + 4096 * |hashes|) else NONE
    case _ => RestOf(f, Do(i, Done))
  }

  function ReadsAfter(d: Data, i: Instr): seq<Hash>
    requires Branches(i) && Defined(d, i)
  {
    if i.RCollect? then HashesOf(Slice(d.files[i.f].list, i.start, i.end)) else []
  }

  predicate ViewsAfter(d: Data, i: Instr)
    requires Branches(i) && Defined(d, i)
  {
    match i
    case GLookup(path) => path in d.fileIndex
    case RLookup(path, _, _) => path in d.fileIndex
    case RRange(f, off, _) => off < d.files[f].size
    case _ => false
  }

  /** What instruction i has left behind. */
  ghost predicate LeavesAhead(d: Data, f: Fid, i: Instr, q: Prog)
    requires Branches(i) && Defined(d, i)
  {
    && EventsAhead(ExecData(d, i), q) == EventsAfter(d, i) && RestOf(f, q) == RestAfter(d, f, i)
    && Preads(q) == ReadsAfter(d, i) && Views(q) == ViewsAfter(d, i)
  }

  lemma NothingAhead(d: Data, f: Fid)
    ensures EventsAhead(d, Done) == [] && RestOf(f, Done) == NONE && Preads(Done) == [] && !Views(Done)
  {
  }

  lemma GetattrLeaves(d: Data, f: Fid, i: Instr, order: seq<Ref>)
    requires i.GLookup? && FilesOk(d)
    ensures LeavesAhead(d, f, i, ExecProg(d, i, Done, order))
  {
    hide EventsAhead, RestOf, Preads, Views;
    NothingAhead(d, f);
    RestOfOne(f, i);
    PopIndex(d, f, Done);
    if i.path in d.fileIndex {
      var g := d.fileIndex[i.path];
      PopIdle(d, f, Rel(FileLock(g)), Do(Rel(FileIndex), Done));
      StatAhead(d, f, g, Do(Rel(FileLock(g)), Do(Rel(FileIndex), Done)));
      PopIdle(d, f, Acq(FileLock(g), Read), Do(GStat(g), Do(Rel(FileLock(g)), Do(Rel(FileIndex), Done))));
    }
  }

  lemma LookupLeaves(d: Data, f: Fid, i: Instr, order: seq<Ref>)
    requires i.RLookup? && FilesOk(d)
    ensures LeavesAhead(d, f, i, ExecProg(d, i, Done, order))
  {
    hide EventsAhead, RestOf, Preads, Views;
    NothingAhead(d, f);
    RestOfOne(f, i);
    PopIndex(d, f, Done);
    if i.path in d.fileIndex {
      var g := d.fileIndex[i.path];
      PopOne(d, f, RRange(g, i.off, i.size), Done);
      FetchAhead(d, f, Do(RRange(g, i.off, i.size), Done));
      PopIdle(d, f, Acq(FileLock(g), Read), Do(Rel(FileIndex), Do(RRange(g, i.off, i.size), Done)));
    }
  }

  lemma StealLeaves(d: Data, f: Fid, i: Instr, order: seq<Ref>)
    requires i.ULookup?
    ensures LeavesAhead(d, f, i, ExecProg(d, i, Done, order))
  {
    hide EventsAhead, RestOf, Preads, Views;
    var d1 := ExecData(d, i);
    NothingAhead(d1, f);
    RestOfOne(f, i);
    PopIndex(d1, f, Done);
    if i.path in d.fileIndex {
      var g := d.fileIndex[i.path];
      PopIdle(d1, f, UTally(g), Done);
      PopIdle(d1, f, Acq(BlockIndex, Write), Do(UTally(g), Done));
      PopIdle(d1, f, Acq(FileLock(g), Write), Do(Acq(BlockIndex, Write), Do(UTally(g), Done)));
      PopIndex(d1, f, Do(Acq(FileLock(g), Write), Do(Acq(BlockIndex, Write), Do(UTally(g), Done))));
    }
  }

  lemma StatAhead(d: Data, f: Fid, g: Fid, next: Prog)
    ensures EventsAhead(d, Do(GStat(g), next)) == [Sized(IdOf(d, g))] + EventsAhead(d, next)
    ensures RestOf(f, Do(GStat(g), next)) == RestOf(f, next) && Preads(Do(GStat(g), next)) == Preads(next)
    ensures Views(Do(GStat(g), next))
  {
    hide EventsAhead, RestOf, Preads, Views;
    PopOne(d, f, GStat(g), next);
  }

  lemma FetchAhead(d: Data, f: Fid, next: Prog)
    requires next.Do? && next.i.RRange?
    ensures var p := Do(Rel(FileIndex), next);
            && EventsAhead(d, p) == [Fetched(IdOf(d, next.i.f), next.i.off, next.i.size)] + EventsAhead(d, next)
            && RestOf(f, p) == RestOf(f, next) && Preads(p) == Preads(next) && Views(p)
  {
    hide EventsAhead, RestOf, Preads, Views;
    PopOne(d, f, Rel(FileIndex), next);
    PopOne(d, f, next.i, next.next);
  }

  lemma RestOfOne(f: Fid, i: Instr)
    ensures !i.WCount? && !i.WInsert? && !i.WAppend? && !i.WSize? ==> RestOf(f, Do(i, Done)) == NONE
    ensures i.WCount? || i.WInsert? ==>
              RestOf(f, Do(i, Done)) == if i.f == f then Rest(HashesOf(i.got) + i.rest, i.off + 4096 * (|i.got| + |i.rest|)) else NONE
  {
  }

  lemma ReadLeaves(d: Data, f: Fid, i: Instr, order: seq<Ref>)
    requires (i.RRange? || i.RCollect?) && Defined(d, i)
    ensures LeavesAhead(d, f, i, ExecProg(d, i, Done, order))
  {
    hide EventsAhead, RestOf, Preads, Views, EndIndex, LockOrder, ByHash;
    NothingAhead(d, f);
    PopIdle(d, f, Rel(FileLock(i.f)), Done);
    RestOfOne(f, i);
    match i
    case RRange(g, off, size) =>
      var n := d.files[g].size;
      if off < n {
        var clipped := if off + size > n then n - off else size;
        PopOne(d, f, RCollect(g, off / 4096, EndIndex(off, clipped)), Done);
        PopIdle(d, f, Acq(BlockIndex, Read), Do(RCollect(g, off / 4096, EndIndex(off, clipped)), Done));
      }
    case RCollect(g, start, end) =>
      var bs := Slice(d.files[g].list, start, end);
      UnlockAllAhead(d, f, order, Do(Rel(FileLock(g)), Done));
      PreadAllAhead(d, f, bs, UnlockAll(order, Do(Rel(FileLock(g)), Done)));
      var p := PreadAll(bs, UnlockAll(order, Do(Rel(FileLock(g)), Done)));
      PopIdle(d, f, Rel(BlockIndex), p);
      LockAllAhead(d, f, LockOrder(ByHash(bs, false)), Read, Do(Rel(BlockIndex), p));
      assert HashesOf(bs) + [] == HashesOf(bs);
  }

  lemma CheckAhead(d: Data, f: Fid, g: Fid, off: nat, hashes: seq<Hash>)
    ensures var p := Do(Acq(FileLock(g), Write), Do(WCheck(g, off, hashes), Done));
            EventsAhead(d, p) == [Appended(IdOf(d, g), off, hashes)] && RestOf(f, p) == NONE && Preads(p) == [] && !Views(p)
  {
    hide EventsAhead, RestOf, Preads, Views;
    NothingAhead(d, f);
    PopOne(d, f, WCheck(g, off, hashes), Done);
    PopIdle(d, f, Acq(FileLock(g), Write), Do(WCheck(g, off, hashes), Done));
  }

  lemma CreateAhead(d: Data, f: Fid, path: Path, off: nat, hashes: seq<Hash>)
    ensures var p := Do(WCreate(path, off, hashes), Done);
            EventsAhead(d, p) == [Opened(path), Appended(path, off, hashes)] && RestOf(f, p) == NONE && Preads(p) == [] && !Views(p)
  {
    hide EventsAhead, RestOf, Preads, Views;
    NothingAhead(d, f);
    PopOne(d, f, WCreate(path, off, hashes), Done);
  }

  lemma OpenLeaves(d: Data, f: Fid, i: Instr, order: seq<Ref>)
    requires (i.WLookup? || i.WCreate?) && FilesOk(d)
    ensures LeavesAhead(d, f, i, ExecProg(d, i, Done, order))
  {
    hide EventsAhead, RestOf, Preads, Views;
    var d1 := ExecData(d, i);
    RestOfOne(f, i);
    match i
    case WLookup(path, off, hashes) =>
      if path in d.fileIndex {
        CheckAhead(d1, f, d.fileIndex[path], off, hashes);
      } else {
        CreateAhead(d1, f, path, off, hashes);
        PopIdle(d1, f, Acq(FileIndex, Write), Do(WCreate(path, off, hashes), Done));
        PopIndex(d1, f, Do(Acq(FileIndex, Write), Do(WCreate(path, off, hashes), Done)));
      }
    case WCreate(path, off, hashes) =>
      var g := if path in d.fileIndex then d.fileIndex[path] else d.fids;
      var p := Do(Acq(FileLock(g), Write), Do(WCheck(g, off, hashes), Done));
      CheckAhead(d1, f, g, off, hashes);
      PopIdle(d1, f, Acq(FileIndex, Read), p);
      PopIndex(d1, f, Do(Acq(FileIndex, Read), p));
  }

  lemma CountAhead(d: Data, f: Fid, i: Instr)
    requires i.WCount? || i.WInsert?
    ensures EventsAhead(d, Do(i, Done)) == [] && Preads(Do(i, Done)) == [] && !Views(Do(i, Done))
  {
  }

  lemma CheckLeaves(d: Data, f: Fid, i: Instr, order: seq<Ref>)
    requires i.WCheck? && Defined(d, i)
    ensures LeavesAhead(d, f, i, ExecProg(d, i, Done, order))
  {
    hide EventsAhead, RestOf, Preads, Views;
    var g := i.f;
    NothingAhead(d, f);
    PopIndex(d, f, Done);
    PopIdle(d, f, Rel(FileLock(g)), Do(Rel(FileIndex), Done));
    var j := WCount(g, i.off, i.hashes, [], {});
    CountAhead(d, f, j);
    RestOfOne(f, j);
    assert HashesOf([]) + i.hashes == i.hashes;
    PopIdle(d, f, Acq(BlockIndex, Read), Do(j, Done));
  }

  /** The index leads from a hash to a block with that hash. */
  ghost predicate HashesRight(d: Data) {
    forall h :: h in d.blockIndex ==> d.blockIndex[h].hash == h
  }

  lemma CountLeaves(d: Data, f: Fid, i: Instr, order: seq<Ref>)
    requires (i.WCount? || i.WInsert?) && Defined(d, i) && HashesRight(d)
    ensures LeavesAhead(d, f, i, ExecProg(d, i, Done, order))
  {
    hide EventsAhead, RestOf, Preads, Views, WriteOut;
    var d1 := ExecData(d, i);
    RestOfOne(f, i);
    if i.rest == [] {
      WriteOutAhead(d1, f, i.f, i.off, i.got, i.created);
      assert HashesOf(i.got) + [] == HashesOf(i.got);
    } else {
      var known := i.rest[0] in d.blockIndex;
      var b := if known then d.blockIndex[i.rest[0]] else Ref(i.rest[0], d.gens);
      var j := WCount(i.f, i.off, i.rest[1..], i.got + [b], if known then i.created else i.created + {b});
      var k := WInsert(i.f, i.off, i.rest, i.got, i.created);
      CountAhead(d1, f, j);
      CountAhead(d1, f, k);
      RestOfOne(f, j);
      RestOfOne(f, k);
      assert HashesOf(i.got + [b]) + i.rest[1..] == HashesOf(i.got) + i.rest;
      PopIdle(d1, f, Acq(BlockIndex, Read), Do(j, Done));
      PopIdle(d1, f, Rel(BlockIndex), Do(Acq(BlockIndex, Read), Do(j, Done)));
      PopIdle(d1, f, Acq(BlockIndex, Write), Do(k, Done));
      PopIdle(d1, f, Rel(BlockIndex), Do(Acq(BlockIndex, Write), Do(k, Done)));
    }
  }

  lemma TallyLeaves(d: Data, f: Fid, i: Instr, order: seq<Ref>)
    requires i.UTally? && Defined(d, i)
    ensures LeavesAhead(d, f, i, ExecProg(d, i, Done, order))
  {
    hide EventsAhead, RestOf, Preads, Views;
    var d1 := ExecData(d, i);
    RestOfOne(f, i);
    NothingAhead(d1, f);
    PopIdle(d1, f, UFreeFile(i.f), Done);
    PopIdle(d1, f, Rel(FileLock(i.f)), Do(UFreeFile(i.f), Done));
    var p := Do(Rel(FileLock(i.f)), Do(UFreeFile(i.f), Done));
    PopIdle(d1, f, Rel(BlockIndex), p);
    TallyAllAhead(d1, f, order, d.files[i.f].list, Do(Rel(BlockIndex), p));
  }

  lemma BranchLeaves(d: Data, f: Fid, i: Instr, order: seq<Ref>)
    requires Branches(i) && Defined(d, i) && FilesOk(d) && HashesRight(d)
    ensures LeavesAhead(d, f, i, ExecProg(d, i, Done, order))
  {
    hide LeavesAhead, FilesOk, HashesRight;
    match i
    case GLookup(_) => GetattrLeaves(d, f, i, order);
    case RLookup(_, _, _) => LookupLeaves(d, f, i, order);
    case ULookup(_) => StealLeaves(d, f, i, order);
    case RRange(_, _, _) => ReadLeaves(d, f, i, order);
    case RCollect(_, _, _) => ReadLeaves(d, f, i, order);
    case WLookup(_, _, _) => OpenLeaves(d, f, i, order);
    case WCreate(_, _, _) => OpenLeaves(d, f, i, order);
    case WCheck(_, _, _) => CheckLeaves(d, f, i, order);
    case WCount(_, _, _, _, _) => CountLeaves(d, f, i, order);
    case WInsert(_, _, _, _, _) => CountLeaves(d, f, i, order);
    case UTally(_) => TallyLeaves(d, f, i, order);
  }

  /** Ids of files that a program points to are all it needs of the data. */
  lemma {:induction false} IdsStay(d: Data, d1: Data, p: Prog)
    requires forall f :: f in FootOf(p).files ==> IdOf(d1, f) == IdOf(d, f)
    ensures EventsAhead(d1, p) == EventsAhead(d, p)
  {
    if p.Do? {
      assert FootOf(p).files == InstrFoot(p.i).files + FootOf(p.next).files;
      hide IdOf;
      IdsStay(d, d1, p.next);
      EventStays(d, d1, p.i, p.next);
    }
  }

  lemma EventStays(d: Data, d1: Data, i: Instr, next: Prog)
    requires forall f :: f in InstrFoot(i).files || f in FootOf(next).files ==> IdOf(d1, f) == IdOf(d, f)
    ensures EventsAt(d1, i, next) == EventsAt(d, i, next)
  {
    hide IdOf;
    if next.Do? { assert FootOf(next).files == InstrFoot(next.i).files + FootOf(next.next).files; }
  }

  /** Instructions other than those that compute the rest of their program. */
  lemma StepAhead(d: Data, d1: Data, f: Fid, i: Instr, next: Prog, order: seq<Ref>)
    requires Defined(d, i) && !Branches(i) && !i.Acq? && !i.Rel?
    ensures SameAhead(d1, f, ExecProg(d, i, next, order), next)
  {
    hide EventsAhead, RestOf, Preads, Views;
    if i.ULoad? {
      PopIdle(d1, f, UStore(i.b, d.blocks[i.b].counter, i.n), next);
    } else if i.UTest? {
      var b := i.b;
      PopIdle(d1, f, Rel(BlockLock(b)), next);
      PopIdle(d1, f, UFreeBlock(b), next);
      PopIdle(d1, f, Rel(BlockLock(b)), Do(UFreeBlock(b), next));
      PopIdle(d1, f, Rel(FreeList), Do(Rel(BlockLock(b)), Do(UFreeBlock(b), next)));
      PopIdle(d1, f, UFree(b), Do(Rel(FreeList), Do(Rel(BlockLock(b)), Do(UFreeBlock(b), next))));
      PopIdle(d1, f, Acq(FreeList, Write), Do(UFree(b), Do(Rel(FreeList), Do(Rel(BlockLock(b)), Do(UFreeBlock(b), next)))));
    }
  }

  /** Every decisive step that was ahead is taken now or still ahead. */
  lemma BranchEvents(d: Data, i: Instr, order: seq<Ref>)
    requires Branches(i) && Defined(d, i) && FilesOk(d) && HashesRight(d)
    ensures AllMeant(EventsBy(d, i, Done)) + EventsAhead(ExecData(d, i), ExecProg(d, i, Done, order)) == EventsAhead(d, Do(i, Done))
  {
    BranchLeaves(d, 0, i, order);
    hide EventsAhead, RestOf, Preads, Views, ExecProg, ExecData, FilesOk, HashesRight, EventsBy, EventsAt, EventsAfter, AllMeant;
    NothingAhead(d, 0);
    PopOne(d, 0, i, Done);
    NoneIsLost(d, i);
  }

  lemma NoneIsLost(d: Data, i: Instr)
    requires Branches(i)
    ensures AllMeant(EventsBy(d, i, Done)) + EventsAfter(d, i) == EventsAt(d, i, Done) == EventsAt(d, i, Done) + []
  {
    hide IdOf, IsNamed;
    var now := AllMeant(EventsBy(d, i, Done));
    assert now == if |now| == 0 then [] else [Meant(EventsBy(d, i, Done)[0])];
  }

  /** The same for the other instructions. */
  lemma StepEvents(d: Data, i: Instr, next: Prog)
    requires !Branches(i)
    ensures AllMeant(EventsBy(d, i, next)) + EventsAhead(d, next) == EventsAhead(d, Do(i, next))
  {
    hide EventsAhead, RestOf, Preads, Views;
    PopOne(d, 0, i, next);
    assert AllMeant(EventsBy(d, i, next)) == EventsAt(d, i, next);
  }

  lemma CodeAhead(d: Data, f: Fid, op: Op)
    ensures var p := Code(op);
            EventsAhead(d, p) == EventsOf(op) && RestOf(f, p) == NONE && Preads(p) == [] && !Views(p)
  {
    hide EventsAhead, RestOf, Preads, Views;
    NothingAhead(d, f);
    var p := Code(op);
    if p.Do? {
      PopIdle(d, f, p.i, p.next);
      PopOne(d, f, p.next.i, Done);
    }
  }
}

/** Instructions that only look at shared data: what the rest of the program points to afterwards. */
module QuietSteps {
  import opened Basics
  import opened Collections
  import opened TicketLock
  import opened Programs
  import opened Discipline
  import opened Interleaving
  import opened RefCounts

  lemma GetattrFoot(f: Fid)
    ensures FootOf(Do(Acq(FileLock(f), Read), Do(GStat(f), Do(Rel(FileLock(f)), Do(Rel(FileIndex), Done))))) == FileFoot(f)
  {
    FileInstrs(f, Read);
    JoinFile(f);
    ReleaseOnlyFoot(f);
    hide FootOf, InstrFoot, Join, FileFoot;
    var p := Do(Rel(FileLock(f)), Do(Rel(FileIndex), Done));
    FootOfMore(GStat(f), p);
    FootOfMore(Acq(FileLock(f), Read), Do(GStat(f), p));
  }

  lemma ReadLookupFoot(f: Fid, off: nat, size: nat)
    ensures FootOf(Do(Acq(FileLock(f), Read), Do(Rel(FileIndex), Do(RRange(f, off, size), Done)))) == FileFoot(f)
  {
    FileInstrs(f, Read);
    JoinFile(f);
    assert InstrFoot(RRange(f, off, size)) == FileFoot(f);
    hide FootOf, InstrFoot, Join, FileFoot;
    FootOfOne(RRange(f, off, size));
    FootOfMore(Rel(FileIndex), Do(RRange(f, off, size), Done));
    FootOfMore(Acq(FileLock(f), Read), Do(Rel(FileIndex), Do(RRange(f, off, size), Done)));
  }

  lemma ReadRangeFoot(f: Fid, start: nat, end: nat)
    ensures FootOf(Do(Acq(BlockIndex, Read), Do(RCollect(f, start, end), Done))) == InstrFoot(RCollect(f, start, end))
  {
    FileInstrs(f, Read);
    JoinNothing(InstrFoot(RCollect(f, start, end)));
    hide FootOf, InstrFoot, Join;
    FootOfOne(RCollect(f, start, end));
    FootOfMore(Acq(BlockIndex, Read), Do(RCollect(f, start, end), Done));
  }

  lemma CountFoot(i: Instr, m: Mode)
    requires Branches(i)
    ensures FootOf(Do(Acq(BlockIndex, m), Do(i, Done))) == InstrFoot(i)
    ensures FootOf(Do(Rel(BlockIndex), Do(Acq(BlockIndex, m), Do(i, Done)))) == InstrFoot(i)
  {
    FileInstrs(0, m);
    JoinNothing(InstrFoot(i));
    hide FootOf, InstrFoot, Join;
    FootOfOne(i);
    FootOfMore(Acq(BlockIndex, m), Do(i, Done));
    FootOfMore(Rel(BlockIndex), Do(Acq(BlockIndex, m), Do(i, Done)));
  }

  lemma ReadBlocksFoot(f: Fid, bs: seq<Ref>, order: seq<Ref>)
    requires Enumerates(order, ByHash(bs, false).Values)
    ensures var p := LockAll(LockOrder(ByHash(bs, false)), Read,
                             Do(Rel(BlockIndex), PreadAll(bs, UnlockAll(order, Do(Rel(FileLock(f)), Done)))));
            FootOf(p).blocks <= Elements(bs) && FootOf(p) == FileFoot(f).(blocks := FootOf(p).blocks)
  {
    var locked := LockOrder(ByHash(bs, false));
    SameBlocks(bs, false, order);
    BlocksOfTable(bs, false);
    hide LockOrder, ByHash;
    ReleaseOnlyFoot(f);
    var p1 := UnlockAll(order, Do(Rel(FileLock(f)), Done));
    UnlockAllFoot(order, Do(Rel(FileLock(f)), Done));
    PreadAllFoot(bs, p1);
    FileInstrs(f, Read);
    hide FootOf, InstrFoot;
    var p2 := PreadAll(bs, p1);
    JoinNothing(FootOf(p2));
    FootOfMore(Rel(BlockIndex), p2);
    LockAllFoot(locked, Read, Do(Rel(BlockIndex), p2));
  }

  lemma BlocksOfTable(bs: seq<Ref>, keepFirst: bool)
    ensures Elements(LockOrder(ByHash(bs, keepFirst))) <= Elements(bs)
  {
    var m := ByHash(bs, keepFirst);
    hide LockOrder;
    LockOrderMembers(m);
    assert forall b: Ref :: b.hash in m && m[b.hash] == b ==> b in bs;
  }

  ghost function WriteFoot(f: Fid, off: nat, got: seq<Ref>): Foot {
    FileFoot(f).(blocks := Elements(got), pending := multiset(got), sizes := {(f, off + 4096 * |got|)})
  }

  lemma JoinBlocks(bs: seq<Ref>, a: Foot)
    requires Elements(bs) <= a.blocks
    ensures Join(BlocksFoot(bs), a) == a
  {
    assert Elements(bs) + a.blocks == a.blocks;
  }

  ghost function SizeFoot(f: Fid, size: nat): Foot {
    FileFoot(f).(sizes := {(f, size)})
  }

  lemma JoinTail(f: Fid, off: nat, locked: seq<Ref>, got: seq<Ref>)
    requires Elements(locked) <= Elements(got)
    ensures var x := SizeFoot(f, off + 4096 * |got|).(blocks := Elements(locked));
            && Join(SizeFoot(f, off + 4096 * |got|), Join(BlocksFoot(locked), FileFoot(f))) == x
            && Join(AppendFoot(f, got), x) == WriteFoot(f, off, got)
  {
    assert Elements(got) + Elements(locked) == Elements(got);
  }

  lemma WriteOutFoot(f: Fid, off: nat, got: seq<Ref>, created: set<Ref>)
    ensures FootOf(WriteOut(f, off, got, created)) == WriteFoot(f, off, got)
  {
    var locked := LockOrder(ByHash(got, true));
    BlocksOfTable(got, true);
    assert Elements(OnlyIn(locked, created)) <= Elements(locked);
    var p3 := AppendAll(f, got, Do(WSize(f, off + 4096 * |got|), UnlockAll(locked, Do(Rel(FileLock(f)), Done))));
    assert WriteOut(f, off, got, created) == LockAll(locked, Write, AllocAndRelease(locked, created, p3));
    hide LockOrder, ByHash, OnlyIn, FootOf, WriteOut, Join, BlocksFoot, LockAll, AppendAll, UnlockAll, AllocAndRelease;
    WriteTailFoot(f, off, got, locked);
    AllocFoot(locked, created, p3);
    LockAllFoot(locked, Write, AllocAndRelease(locked, created, p3));
    JoinBlocks(OnlyIn(locked, created), WriteFoot(f, off, got));
    JoinBlocks(locked, WriteFoot(f, off, got));
  }

  lemma WriteTailFoot(f: Fid, off: nat, got: seq<Ref>, locked: seq<Ref>)
    requires Elements(locked) <= Elements(got)
    ensures FootOf(AppendAll(f, got, Do(WSize(f, off + 4096 * |got|), UnlockAll(locked, Do(Rel(FileLock(f)), Done))))) ==
            WriteFoot(f, off, got)
  {
    var p4 := UnlockAll(locked, Do(Rel(FileLock(f)), Done));
    assert InstrFoot(WSize(f, off + 4096 * |got|)) == SizeFoot(f, off + 4096 * |got|);
    hide FootOf, Join, BlocksFoot, AppendFoot, InstrFoot, FileFoot, SizeFoot, WriteFoot;
    ReleaseOnlyFoot(f);
    UnlockAllFoot(locked, Do(Rel(FileLock(f)), Done));
    FootOfMore(WSize(f, off + 4096 * |got|), p4);
    AppendAllFoot(f, got, Do(WSize(f, off + 4096 * |got|), p4));
    JoinTail(f, off, locked, got);
  }

  lemma AllocFoot(locked: seq<Ref>, created: set<Ref>, p: Prog)
    ensures FootOf(AllocAndRelease(locked, created, p)) == Join(BlocksFoot(OnlyIn(locked, created)), FootOf(p))
  {
    hide FootOf;
    var p1 := Do(Rel(BlockIndex), Do(Rel(FileIndex), p));
    JoinNothing(FootOf(p));
    FootOfMore(Rel(FileIndex), p);
    FootOfMore(Rel(BlockIndex), Do(Rel(FileIndex), p));
    var p2 := Do(Rel(NextOffset), Do(Rel(FreeList), p1));
    FootOfMore(Rel(FreeList), p1);
    FootOfMore(Rel(NextOffset), Do(Rel(FreeList), p1));
    var x := Join(BlocksFoot(OnlyIn(locked, created)), FootOf(p));
    FootOfMore(WAlloc(OnlyIn(locked, created)), p2);
    JoinNothing(x);
    hide Join;
    FootOfMore(Acq(NextOffset, Write), Do(WAlloc(OnlyIn(locked, created)), p2));
    FootOfMore(Acq(FreeList, Write), Do(Acq(NextOffset, Write), Do(WAlloc(OnlyIn(locked, created)), p2)));
  }

  // ---------- The footprint stays sound ----------

  /** The thread still accounts for the same entries, and points to nothing it must not point to. */
  ghost predicate GoesOn(s: Sys, t: Tid, p: Prog, p1: Prog)
    requires t in s.threads
  {
    && FootOk(s.d, s.threads[t].held, FootOf(p1))
    && FootOf(p1).pending == FootOf(p).pending
    && FootMoves(s, t, FootOf(p), FootOf(p1))
  }

  /** Pointing to a file of the index, or to nothing. */
  lemma PointerIsOk(s: Sys, t: Tid, p: Prog, p1: Prog, f: Fid)
    requires t in s.threads && FilesOk(s.d) && FootOf(p).pending == multiset{}
    requires FootOf(p1) == NOTHING || (Linked(s.d, f) && FootOf(p1) == FileFoot(f))
    ensures GoesOn(s, t, p, p1)
  {
    hide FootOf;
  }

  lemma LookupGoesOn(s: Sys, t: Tid, i: Instr, order: seq<Ref>)
    requires t in s.threads && FilesOk(s.d) && (i.GLookup? || i.RLookup? || i.WLookup? || (i.ULookup? && i.path !in s.d.fileIndex))
    ensures GoesOn(s, t, Do(i, Done), ExecProg(s.d, i, Done, order))
  {
    FootOfOne(i);
    hide FootOf, FilesOk, GoesOn;
    var path := i.path;
    if path in s.d.fileIndex {
      var f := s.d.fileIndex[path];
      assert Linked(s.d, f);
      match i {
        case GLookup(_) => GetattrFoot(f);
        case RLookup(_, off, size) => ReadLookupFoot(f, off, size);
        case WLookup(_, off, hashes) => WriteLookupFoot(f, path, off, hashes);
      }
      PointerIsOk(s, t, Do(i, Done), ExecProg(s.d, i, Done, order), f);
    } else {
      ReleaseOnlyFoot(0);
      if i.WLookup? { WriteLookupFoot(0, path, i.off, i.hashes); }
      PointerIsOk(s, t, Do(i, Done), ExecProg(s.d, i, Done, order), 0);
    }
  }

  /** The thread keeps its pointer to a file and adds nothing else. */
  lemma SameFileGoesOn(s: Sys, t: Tid, p: Prog, p1: Prog, f: Fid)
    requires t in s.threads && FootOk(s.d, s.threads[t].held, FootOf(p))
    requires FootOf(p) == FileFoot(f) && FootOf(p1) == FileFoot(f)
    ensures GoesOn(s, t, p, p1)
  {
    hide FootOf;
  }

  /** Nothing but other blocks, ranges or loaded values. */
  lemma SamePointersGoOn(s: Sys, t: Tid, p: Prog, p1: Prog, x: Foot, y: Foot)
    requires t in s.threads && FootOf(p) == x && FootOf(p1) == y
    requires FootOk(s.d, s.threads[t].held, y)
    requires y == x.(blocks := y.blocks, ranges := y.ranges, stores := y.stores, sizes := y.sizes)
    ensures GoesOn(s, t, p, p1)
  {
    hide FootOf, FootOk;
  }

  lemma RangeIsOk(d: Data, held: Held, f: Fid, x: Foot)
    requires FootOk(d, held, FileFoot(f)) && f in d.files
    requires x == FileFoot(f).(ranges := x.ranges) && forall z :: z in x.ranges ==> z.0 == f && z.1 <= |d.files[f].list|
    ensures FootOk(d, held, x)
  {
  }

  lemma RangeGoesOn(s: Sys, t: Tid, f: Fid, off: nat, size: nat, order: seq<Ref>)
    requires t in s.threads && FilesOk(s.d) && FootOk(s.d, s.threads[t].held, FootOf(Do(RRange(f, off, size), Done)))
    requires f in s.d.files
    ensures GoesOn(s, t, Do(RRange(f, off, size), Done), ExecProg(s.d, RRange(f, off, size), Done, order))
  {
    hide FootOf, FootOk, GoesOn, EndIndex;
    var p, n := Do(RRange(f, off, size), Done), s.d.files[f].size;
    assert n <= 4096 * |s.d.files[f].list|;
    FootOfOne(RRange(f, off, size));
    assert FootOf(p) == FileFoot(f);
    hide FilesOk;
    if off >= n {
      ReleaseOnlyFoot(f);
      SameFileGoesOn(s, t, p, Do(Rel(FileLock(f)), Done), f);
    } else {
      var clipped := if off + size > n then n - off else size;
      var start, end := off / 4096, EndIndex(off, clipped);
      ReadRangeFoot(f, start, end);
      RangeFits(off, clipped, |s.d.files[f].list|);
      var foot := InstrFoot(RCollect(f, start, end));
      RangeIsOk(s.d, s.threads[t].held, f, foot);
      SamePointersGoOn(s, t, p, ExecProg(s.d, RRange(f, off, size), Done, order), FileFoot(f), foot);
    }
  }

  lemma RangeFits(off: nat, clipped: nat, n: nat)
    requires off + clipped <= 4096 * n
    ensures EndIndex(off, clipped) <= n
  {
  }

  lemma EntriesAreOk(d: Data, held: Held, f: Fid, x: Foot)
    requires FootOk(d, held, FileFoot(f)) && FileLock(f) in held && f in d.files
    requires forall b :: b in d.files[f].list ==> b in d.blocks
    requires x == FileFoot(f).(blocks := x.blocks) && forall b :: b in x.blocks ==> b in d.files[f].list
    ensures FootOk(d, held, x)
  {
    assert d.files[f].counted;
    assert forall b :: b in x.blocks ==> InLockedFile(d, held, b);
  }

  /** The blocks a read is about to lock are entries of the file it has locked. */
  lemma CollectGoesOn(s: Sys, t: Tid, f: Fid, start: nat, end: nat, bs: seq<Ref>, order: seq<Ref>, p1: Prog)
    requires Sound(s) && t in s.threads && s.threads[t].prog == Do(RCollect(f, start, end), Done)
    requires FileLock(f) in s.threads[t].held && f in s.d.files
    requires Enumerates(order, ByHash(bs, false).Values) && forall b :: b in bs ==> b in s.d.files[f].list
    requires p1 == LockAll(LockOrder(ByHash(bs, false)), Read,
                           Do(Rel(BlockIndex), PreadAll(bs, UnlockAll(order, Do(Rel(FileLock(f)), Done)))))
    ensures GoesOn(s, t, s.threads[t].prog, p1)
  {
    hide LockOrder, ByHash, FootOf, FootOk, GoesOn;
    var p := s.threads[t].prog;
    ReadBlocksFoot(f, bs, order);
    FootOfOne(RCollect(f, start, end));
    SoundThread(s, t);
    hide Sound;
    WithoutRanges(s, t, f, FootOf(p));
    ListedBlocksExist(s, f);
    EntriesAreOk(s.d, s.threads[t].held, f, FootOf(p1));
    SamePointersGoOn(s, t, p, p1, FootOf(p), FootOf(p1));
  }

  lemma WithoutRanges(s: Sys, t: Tid, f: Fid, x: Foot)
    requires t in s.threads && FootOk(s.d, s.threads[t].held, x) && x == FileFoot(f).(ranges := x.ranges)
    ensures FootOk(s.d, s.threads[t].held, FileFoot(f)) && f in s.d.files && s.d.files[f].counted
  {
  }

  lemma ListedBlocksExist(s: Sys, f: Fid)
    requires Sound(s) && f in s.d.files && s.d.files[f].counted
    ensures forall b :: b in s.d.files[f].list ==> b in s.d.blocks && Indexed(s.d, b) && b in References(s)
  {
    EntriesAreReferences(s, f);
    hide References;
    forall b | b in s.d.files[f].list
      ensures b in References(s)
    {
      assert b in Entries(s.d.files[f]);
    }
  }

  lemma SizeIsOk(d: Data, held: Held, f: Fid, off: nat)
    requires FootOk(d, held, FileFoot(f)) && f in d.files && off <= 4096 * |d.files[f].list|
    ensures FootOk(d, held, WriteFoot(f, off, []))
  {
  }

  lemma CheckGoesOn(s: Sys, t: Tid, f: Fid, off: nat, hashes: seq<Hash>, order: seq<Ref>)
    requires t in s.threads && FootOk(s.d, s.threads[t].held, FootOf(Do(WCheck(f, off, hashes), Done))) && f in s.d.files
    requires s.d.files[f].size <= 4096 * |s.d.files[f].list|
    ensures GoesOn(s, t, Do(WCheck(f, off, hashes), Done), ExecProg(s.d, WCheck(f, off, hashes), Done, order))
  {
    hide FootOf, FootOk, GoesOn;
    var p, p1 := Do(WCheck(f, off, hashes), Done), ExecProg(s.d, WCheck(f, off, hashes), Done, order);
    FootOfOne(WCheck(f, off, hashes));
    if off != s.d.files[f].size {
      ReleaseOnlyFoot(f);
      SameFileGoesOn(s, t, p, p1, f);
    } else {
      CountFoot(WCount(f, off, hashes, [], {}), Read);
      WriteInstrFoot(f, off, hashes, [], {});
      SizeIsOk(s.d, s.threads[t].held, f, off);
      SamePointersGoOn(s, t, p, p1, FileFoot(f), WriteFoot(f, off, []));
    }
  }

  /** The block is not indexed yet, or all blocks are counted. */
  lemma CountGoesOn(s: Sys, t: Tid, f: Fid, off: nat, rest: seq<Hash>, got: seq<Ref>, created: set<Ref>, p1: Prog)
    requires t in s.threads && FootOk(s.d, s.threads[t].held, FootOf(Do(WCount(f, off, rest, got, created), Done)))
    requires created <= Elements(got)
    requires p1 == WriteOut(f, off, got, created) ||
             p1 == Do(Rel(BlockIndex), Do(Acq(BlockIndex, Write), Do(WInsert(f, off, rest, got, created), Done)))
    ensures GoesOn(s, t, Do(WCount(f, off, rest, got, created), Done), p1)
  {
    hide FootOf, WriteOut, FootOk, GoesOn, InstrFoot;
    var i := WCount(f, off, rest, got, created);
    FootOfOne(i);
    WriteInstrFoot(f, off, rest, got, created);
    WriteOutFoot(f, off, got, created);
    CountFoot(WInsert(f, off, rest, got, created), Write);
    SamePointersGoOn(s, t, Do(i, Done), p1, WriteFoot(f, off, got), WriteFoot(f, off, got));
  }

  lemma WriteInstrFoot(f: Fid, off: nat, rest: seq<Hash>, got: seq<Ref>, created: set<Ref>)
    requires created <= Elements(got)
    ensures InstrFoot(WCount(f, off, rest, got, created)) == WriteFoot(f, off, got) == InstrFoot(WInsert(f, off, rest, got, created))
  {
    assert Elements(got) + created == Elements(got);
  }

  /** Instructions that only fall away. */
  lemma PopGoesOn(s: Sys, t: Tid, i: Instr, next: Prog)
    requires t in s.threads && FootOk(s.d, s.threads[t].held, FootOf(Do(i, next))) && (i.GStat? || i.RPread?)
    ensures GoesOn(s, t, Do(i, next), next)
  {
    FootOfMore(i, next);
    hide FootOf;
    LeftOverIsOk(s.d, s.threads[t].held, FootOf(Do(i, next)), s.threads[t].held, FootOf(next));
  }

  lemma LoadedIsOk(d: Data, held: Held, x: Foot, y: Foot)
    requires FootOk(d, held, x) && y == x.(stores := y.stores)
    requires forall z :: z in y.stores ==> z in x.stores || (z.0 in d.blocks && z.1 == d.blocks[z.0].counter)
    ensures FootOk(d, held, y)
  {
  }

  lemma LoadFoot(b: Ref, v: int, n: nat, a: Foot)
    ensures var x, y := Join(InstrFoot(ULoad(b, n)), a), Join(InstrFoot(UStore(b, v, n)), a);
            y == x.(stores := y.stores) && forall z :: z in y.stores ==> z == (b, v) || z in x.stores
  {
  }

  lemma LoadGoesOn(s: Sys, t: Tid, b: Ref, n: nat, next: Prog)
    requires t in s.threads && FootOk(s.d, s.threads[t].held, FootOf(Do(ULoad(b, n), next)))
    requires b in s.d.blocks
    ensures GoesOn(s, t, Do(ULoad(b, n), next), Do(UStore(b, s.d.blocks[b].counter, n), next))
  {
    var v := s.d.blocks[b].counter;
    hide FootOf, FootOk, GoesOn, InstrFoot, Join;
    FootOfMore(ULoad(b, n), next);
    FootOfMore(UStore(b, v, n), next);
    LoadFoot(b, v, n, FootOf(next));
    var x, y := FootOf(Do(ULoad(b, n), next)), FootOf(Do(UStore(b, v, n), next));
    LoadedIsOk(s.d, s.threads[t].held, x, y);
    SamePointersGoOn(s, t, Do(ULoad(b, n), next), Do(UStore(b, v, n), next), x, y);
  }

  lemma KeepBlockGoesOn(s: Sys, t: Tid, b: Ref, next: Prog)
    requires t in s.threads && FootOk(s.d, s.threads[t].held, FootOf(Do(UTest(b), next)))
    ensures GoesOn(s, t, Do(UTest(b), next), Do(Rel(BlockLock(b)), next))
  {
    hide FootOf, FootOk, LeftOver, FootMoves;
    KeepBlockFoot(b, next);
    LeftOverMoves(s, t, FootOf(Do(UTest(b), next)), FootOf(Do(Rel(BlockLock(b)), next)));
    LeftOverIsOk(s.d, s.threads[t].held, FootOf(Do(UTest(b), next)), s.threads[t].held, FootOf(Do(Rel(BlockLock(b)), next)));
  }

  lemma KeepBlockFoot(b: Ref, next: Prog)
    ensures LeftOver(FootOf(Do(UTest(b), next)), FootOf(Do(Rel(BlockLock(b)), next)))
  {
    FootOfMore(UTest(b), next);
    FootOfMore(Rel(BlockLock(b)), next);
    hide FootOf;
  }

  // ---------- All of them ----------

  /** The instruction leaves the shared data as it is. */
  predicate IsQuiet(d: Data, i: Instr)
    requires Defined(d, i)
  {
    match i
    case GLookup(_) => true
    case GStat(_) => true
    case RLookup(_, _, _) => true
    case RRange(_, _, _) => true
    case RCollect(_, _, _) => true
    case RPread(_) => true
    case WLookup(_, _, _) => true
    case WCheck(_, _, _) => true
    case WCount(_, _, rest, _, _) => !(rest != [] && rest[0] in d.blockIndex)
    case ULookup(path) => path !in d.fileIndex
    case ULoad(_, _) => true
    case UTest(b) => d.blocks[b].counter != 0
    case _ => false
  }

  lemma QuietExecGoesOn(s: Sys, t: Tid, i: Instr, next: Prog, order: seq<Ref>)
    requires Sound(s) && t in s.threads && s.threads[t].prog == Do(i, next) && Disciplined(s.threads[t].held, Do(i, next))
    requires Defined(s.d, i) && OrderOk(s.d, i, order) && IsQuiet(s.d, i)
    ensures GoesOn(s, t, Do(i, next), ExecProg(s.d, i, next, order))
  {
    hide Disciplined, Sound, FootOf, FootOk, GoesOn, FilesOk, WriteOut, LockAll, LockOrder, ByHash, Needs, EndIndex;
    SoundThread(s, t);
    SoundFiles(s);
    BranchFacts(s.threads[t].held, i, next);
    if i.GLookup? || i.RLookup? || i.WLookup? || i.ULookup? {
      LookupGoesOn(s, t, i, order);
    } else if i.GStat? || i.RPread? {
      PopGoesOn(s, t, i, next);
    } else if i.RRange? {
      RangeGoesOn(s, t, i.f, i.off, i.size, order);
    } else if i.RCollect? {
      CollectGoesOn(s, t, i.f, i.start, i.end, Slice(s.d.files[i.f].list, i.start, i.end), order,
                    ExecProg(s.d, i, next, order));
    } else {
      WriteOrUnlinkGoesOn(s, t, i, next, order);
    }
  }

  lemma WriteOrUnlinkGoesOn(s: Sys, t: Tid, i: Instr, next: Prog, order: seq<Ref>)
    requires t in s.threads && FootOk(s.d, s.threads[t].held, FootOf(Do(i, next))) && Defined(s.d, i) && IsQuiet(s.d, i)
    requires i.WCheck? || i.WCount? || i.ULoad? || i.UTest?
    requires i.WCheck? || i.WCount? ==> next == Done
    requires i.WCount? ==> i.created <= Elements(i.got)
    requires i.WCheck? ==> s.d.files[i.f].size <= 4096 * |s.d.files[i.f].list|
    ensures GoesOn(s, t, Do(i, next), ExecProg(s.d, i, next, order))
  {
    hide FootOf, FootOk, GoesOn, WriteOut;
    match i
    case WCheck(f, off, hashes) => CheckGoesOn(s, t, f, off, hashes, order);
    case WCount(f, off, rest, got, created) =>
      CountGoesOn(s, t, f, off, rest, got, created, ExecProg(s.d, i, next, order));
    case ULoad(b, n) => LoadGoesOn(s, t, b, n, next);
    case UTest(b) => KeepBlockGoesOn(s, t, b, next);
  }

  lemma SoundFiles(s: Sys)
    requires Sound(s)
    ensures FilesOk(s.d) && forall f :: f in s.d.files ==> s.d.files[f].size <= 4096 * |s.d.files[f].list|
  {
  }

  lemma BranchFacts(held: Held, i: Instr, next: Prog)
    requires Disciplined(held, Do(i, next))
    ensures Branches(i) ==> next == Done && held == Needs(i)
    ensures i.RCollect? ==> FileLock(i.f) in held
    ensures i.WCount? || i.WInsert? ==> i.created <= Elements(i.got)
  {
  }

  /** Looking at shared data keeps the system sound. */
  lemma QuietExecIsSound(s: Sys, t: Tid, order: seq<Ref>)
    requires Sound(s) && ThreadsAreDisciplined(s) && CanMove(s, Exec(t, order)) && IsQuiet(s.d, s.threads[t].prog.i)
    ensures Sound(Moved(s, Exec(t, order)))
  {
    hide Sound, ExecProg, Disciplined, FootMoves, FootOf, OrderOk;
    var s1, th := Moved(s, Exec(t, order)), s.threads[t];
    assert th.prog == Do(th.prog.i, th.prog.next);
    QuietExecGoesOn(s, t, th.prog.i, th.prog.next, order);
    assert s1.d == s.d && s1.threads == s.threads[t := th.(prog := ExecProg(s.d, th.prog.i, th.prog.next, order))];
    hide ExecData, CanMove, Moved, ThreadsAreDisciplined;
    QuietMoveIsSound(s, s1, t);
  }
}

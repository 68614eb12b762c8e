/** A measure that every progress move lowers: operations end because an unlink's list is fixed once it
    holds the file, and everything else an operation does is bounded by its own arguments. */
module Completion {
  import opened Basics
  import opened Collections
  import opened TicketLock
  import opened Programs
  import opened Discipline
  import opened Interleaving
  import opened Progress

  // ---------- Work left in a program ----------

  /** More than the rest of the program that the instruction can make of itself. */
  function Weight(i: Instr): nat {
    match i
    case Acq(_, _) => 2
    case Rel(_) => 1
    case GLookup(_) => 6
    case RLookup(_, _, size) => 15 + 4 * size
    case RRange(_, _, size) => 11 + 4 * size
    case RCollect(_, start, end) => 4 * Gap(start, end) + 3
    case WLookup(_, _, hashes) => 35 + 13 * |hashes|
    case WCreate(_, _, hashes) => 29 + 13 * |hashes|
    case WCheck(_, _, hashes) => 20 + 13 * |hashes|
    case WCount(_, _, rest, got, _) => 4 * (|got| + |rest|) + 9 * |rest| + 14
    case WInsert(_, _, rest, got, _) => 4 * (|got| + |rest|) + 9 * |rest| + 10
    case ULookup(_) => 8
    case ULoad(_, _) => 2
    case UTest(_) => 7
    case _ => 1
  }

  function Gap(start: nat, end: nat): nat {
    if start <= end then end - start else 0
  }

  function Work(p: Prog): nat {
    match p
    case Done => 0
    case Do(i, next) => Weight(i) + Work(next)
  }

  /** Tallies still to come: how long they are is not known before. */
  function Tallies(p: Prog): nat {
    match p
    case Done => 0
    case Do(i, next) => (if i.ULookup? || i.UTally? then 1 else 0) + Tallies(next)
  }

  lemma {:induction false} LockAllWork(bs: seq<Ref>, m: Mode, next: Prog)
    ensures Work(LockAll(bs, m, next)) == 2 * |bs| + Work(next)
    ensures Tallies(LockAll(bs, m, next)) == Tallies(next)
  {
    if bs != [] {
      LockAllWork(bs[1..], m, next);
    }
  }

  lemma {:induction false} UnlockAllWork(bs: seq<Ref>, next: Prog)
    ensures Work(UnlockAll(bs, next)) == |bs| + Work(next)
    ensures Tallies(UnlockAll(bs, next)) == Tallies(next)
  {
    if bs != [] {
      UnlockAllWork(bs[1..], next);
    }
  }

  lemma {:induction false} PreadAllWork(bs: seq<Ref>, next: Prog)
    ensures Work(PreadAll(bs, next)) == |bs| + Work(next)
    ensures Tallies(PreadAll(bs, next)) == Tallies(next)
  {
    if bs != [] {
      PreadAllWork(bs[1..], next);
    }
  }

  lemma {:induction false} AppendAllWork(f: Fid, bs: seq<Ref>, next: Prog)
    ensures Work(AppendAll(f, bs, next)) == |bs| + Work(next)
    ensures Tallies(AppendAll(f, bs, next)) == Tallies(next)
  {
    if bs != [] {
      AppendAllWork(f, bs[1..], next);
    }
  }

  lemma {:induction false} TallyAllTallies(order: seq<Ref>, list: seq<Ref>, next: Prog)
    ensures Tallies(TallyAll(order, list, next)) == Tallies(next)
  {
    if order != [] {
      var rest := TallyAll(order[1..], list, next);
      TallyAllTallies(order[1..], list, next);
      var p := Do(ULoad(order[0], multiset(list)[order[0]]), Do(UTest(order[0]), rest));
      assert Tallies(p) == Tallies(rest);
      assert TallyAll(order, list, next) == Do(Acq(BlockLock(order[0]), Write), p);
    }
  }

  lemma {:induction false} DistinctCount(bs: seq<Ref>)
    requires forall i, j :: 0 <= i < j < |bs| ==> bs[i] != bs[j]
    ensures |Elements(bs)| == |bs|
  {
    if bs != [] {
      DistinctCount(bs[1..]);
      HeadAndTail(bs);
      assert bs[0] !in bs[1..];
    }
  }

  lemma BlocksInTable(bs: seq<Ref>, keepFirst: bool)
    ensures |LockOrder(ByHash(bs, keepFirst))| <= |bs|
  {
    LockOrderIsAscending(ByHash(bs, keepFirst));
  }

  lemma OrderLength(bs: seq<Ref>, keepFirst: bool, order: seq<Ref>)
    requires Enumerates(order, ByHash(bs, keepFirst).Values)
    ensures |order| <= |bs|
  {
    var locked := LockOrder(ByHash(bs, keepFirst));
    SameBlocks(bs, keepFirst, order);
    LockOrderIsAscending(ByHash(bs, keepFirst));
    hide LockOrder;
    DistinctCount(order);
    DistinctCount(locked);
  }

  lemma WriteOutWork(f: Fid, off: nat, got: seq<Ref>, created: set<Ref>)
    ensures Work(WriteOut(f, off, got, created)) <= 4 * |got| + 11
    ensures Tallies(WriteOut(f, off, got, created)) == 0
  {
    hide ByHash, LockOrder, LockAll, UnlockAll, AppendAll, OnlyIn;
    var locked := LockOrder(ByHash(got, true));
    BlocksInTable(got, true);
    var p4 := UnlockAll(locked, Do(Rel(FileLock(f)), Done));
    UnlockAllWork(locked, Do(Rel(FileLock(f)), Done));
    var p3 := AppendAll(f, got, Do(WSize(f, off + 4096 * |got|), p4));
    AppendAllWork(f, got, Do(WSize(f, off + 4096 * |got|), p4));
    var p2 := Do(Rel(NextOffset), Do(Rel(FreeList), Do(Rel(BlockIndex), Do(Rel(FileIndex), p3))));
    assert Work(Do(Rel(BlockIndex), Do(Rel(FileIndex), p3))) == 2 + Work(p3);
    assert Work(p2) == 4 + Work(p3) && Tallies(Do(Rel(BlockIndex), Do(Rel(FileIndex), p3))) == Tallies(p3);
    var p1 := AllocAndRelease(locked, created, p3);
    assert Work(Do(WAlloc(OnlyIn(locked, created)), p2)) == 1 + Work(p2);
    assert Work(p1) == 5 + Work(p2);
    assert Tallies(Do(WAlloc(OnlyIn(locked, created)), p2)) == Tallies(p2);
    assert Tallies(p2) == Tallies(p3) && Tallies(p1) == Tallies(p2);
    LockAllWork(locked, Write, p1);
  }

  lemma CollectWork(f: Fid, bs: seq<Ref>, order: seq<Ref>)
    requires Enumerates(order, ByHash(bs, false).Values)
    ensures var p := LockAll(LockOrder(ByHash(bs, false)), Read,
                             Do(Rel(BlockIndex), PreadAll(bs, UnlockAll(order, Do(Rel(FileLock(f)), Done)))));
            Work(p) <= 4 * |bs| + 2 && Tallies(p) == 0
  {
    hide ByHash, LockOrder, LockAll, UnlockAll, PreadAll;
    OrderLength(bs, false, order);
    BlocksInTable(bs, false);
    UnlockAllWork(order, Do(Rel(FileLock(f)), Done));
    var p1 := UnlockAll(order, Do(Rel(FileLock(f)), Done));
    PreadAllWork(bs, p1);
    LockAllWork(LockOrder(ByHash(bs, false)), Read, Do(Rel(BlockIndex), PreadAll(bs, p1)));
  }

  /** A clipped read spans at most one block more than it has bytes. */
  lemma RangeIsShort(off: nat, clipped: nat)
    ensures Gap(off / 4096, EndIndex(off, clipped)) <= clipped + 1
  {
  }

  /** An instruction leaves less work than it announced, or takes away a tally. */
  ghost predicate Shrinks(before: Prog, after: Prog) {
    Tallies(after) < Tallies(before) || (Tallies(after) <= Tallies(before) && Work(after) < Work(before))
  }

  lemma ExecShrinks(d: Data, i: Instr, next: Prog, order: seq<Ref>)
    requires Defined(d, i) && OrderOk(d, i, order) && !i.Acq? && !i.Rel?
    requires Branches(i) ==> next == Done
    ensures Shrinks(Do(i, next), ExecProg(d, i, next, order))
  {
    if Branches(i) {
      BranchShrinks(d, i, order);
    } else if i.UTest? {
      var q := Do(Rel(FreeList), Do(Rel(BlockLock(i.b)), Do(UFreeBlock(i.b), next)));
      assert Work(Do(Rel(BlockLock(i.b)), Do(UFreeBlock(i.b), next))) == 2 + Work(next);
      assert Work(q) == 3 + Work(next) && Tallies(q) == Tallies(next) by {
        assert Tallies(Do(Rel(BlockLock(i.b)), Do(UFreeBlock(i.b), next))) == Tallies(next);
      }
      assert Work(Do(UFree(i.b), q)) == 1 + Work(q) && Tallies(Do(UFree(i.b), q)) == Tallies(q);
    }
  }

  lemma BranchShrinks(d: Data, i: Instr, order: seq<Ref>)
    requires Defined(d, i) && OrderOk(d, i, order) && Branches(i)
    ensures Shrinks(Do(i, Done), ExecProg(d, i, Done, order))
  {
    hide TallyAll, WriteOut, LockAll, UnlockAll, PreadAll, LockOrder, ByHash, EndIndex;
    match i
    case GLookup(path) =>
      if path in d.fileIndex { GetattrWork(d.fileIndex[path]); }
    case RLookup(path, off, size) =>
      if path in d.fileIndex { ReadWork(d.fileIndex[path], off, size); }
    case RRange(f, off, size) =>
      var n := d.files[f].size;
      var clipped := if off + size > n && off < n then n - off else size;
      RangeIsShort(off, clipped);
      RangeWork(f, off / 4096, EndIndex(off, clipped));
    case RCollect(f, start, end) =>
      CollectWork(f, Slice(d.files[f].list, start, end), order);
    case WLookup(path, off, hashes) =>
      LookupWork(if path in d.fileIndex then d.fileIndex[path] else 0, path, off, hashes);
    case WCreate(path, off, hashes) =>
      CreateWork(if path in d.fileIndex then d.fileIndex[path] else d.fids, off, hashes);
    case WCheck(f, off, hashes) =>
      CheckWork(f, off, hashes);
    case WCount(f, off, rest, got, created) =>
      if rest == [] { WriteOutWork(f, off, got, created); } else { UpgradeWork(WInsert(f, off, rest, got, created), Write); }
    case WInsert(f, off, rest, got, created) =>
      var known := rest[0] in d.blockIndex;
      var b := if known then d.blockIndex[rest[0]] else Ref(rest[0], d.gens);
      UpgradeWork(WCount(f, off, rest[1..], got + [b], if known then created else created + {b}), Read);
    case ULookup(path) =>
      if path in d.fileIndex { StealWork(d.fileIndex[path]); }
    case UTally(f) =>
      TallyWork(f, order, d.files[f].list);
  }

  lemma GetattrWork(f: Fid)
    ensures var p := Do(Acq(FileLock(f), Read), Do(GStat(f), Do(Rel(FileLock(f)), Do(Rel(FileIndex), Done))));
            Work(p) == 5 && Tallies(p) == 0
  {
    var q := Do(Rel(FileLock(f)), Do(Rel(FileIndex), Done));
    assert Work(Do(Rel(FileIndex), Done)) == 1 && Tallies(Do(Rel(FileIndex), Done)) == 0;
    assert Work(q) == 2 && Tallies(q) == 0;
  }

  lemma ReadWork(f: Fid, off: nat, size: nat)
    ensures var p := Do(Acq(FileLock(f), Read), Do(Rel(FileIndex), Do(RRange(f, off, size), Done)));
            Work(p) == 14 + 4 * size && Tallies(p) == 0
  {
    var q := Do(RRange(f, off, size), Done);
    assert Work(q) == 11 + 4 * size && Tallies(q) == 0;
  }

  lemma RangeWork(f: Fid, start: nat, end: nat)
    ensures var p := Do(Acq(BlockIndex, Read), Do(RCollect(f, start, end), Done));
            Work(p) == 5 + 4 * Gap(start, end) && Tallies(p) == 0
  {
    var q := Do(RCollect(f, start, end), Done);
    assert Work(q) == 3 + 4 * Gap(start, end) && Tallies(q) == 0;
  }

  lemma UpgradeWork(i: Instr, m: Mode)
    requires i.WInsert? || i.WCount?
    ensures var p := Do(Rel(BlockIndex), Do(Acq(BlockIndex, m), Do(i, Done)));
            Work(p) == 3 + Weight(i) && Tallies(p) == 0
  {
    var q := Do(i, Done);
    assert Work(q) == Weight(i) && Tallies(q) == 0;
  }

  lemma CheckWork(f: Fid, off: nat, hashes: seq<Hash>)
    ensures var p := Do(Acq(BlockIndex, Read), Do(WCount(f, off, hashes, [], {}), Done));
            Work(p) == 16 + 13 * |hashes| && Tallies(p) == 0
    ensures var p := Do(Rel(FileLock(f)), Do(Rel(FileIndex), Done)); Work(p) == 2 && Tallies(p) == 0
  {
    var q := Do(WCount(f, off, hashes, [], {}), Done);
    assert Work(q) == 14 + 13 * |hashes| && Tallies(q) == 0;
    assert Work(Do(Rel(FileIndex), Done)) == 1 && Tallies(Do(Rel(FileIndex), Done)) == 0;
  }

  lemma LookupWork(f: Fid, path: Path, off: nat, hashes: seq<Hash>)
    ensures var p := Do(Rel(FileIndex), Do(Acq(FileIndex, Write), Do(WCreate(path, off, hashes), Done)));
            Work(p) == 32 + 13 * |hashes| && Tallies(p) == 0
    ensures var p := Do(Acq(FileLock(f), Write), Do(WCheck(f, off, hashes), Done));
            Work(p) == 22 + 13 * |hashes| && Tallies(p) == 0
  {
    var q := Do(WCreate(path, off, hashes), Done);
    assert Work(q) == 29 + 13 * |hashes| && Tallies(q) == 0;
    assert Work(Do(WCheck(f, off, hashes), Done)) == 20 + 13 * |hashes| && Tallies(Do(WCheck(f, off, hashes), Done)) == 0;
  }

  lemma CreateWork(f: Fid, off: nat, hashes: seq<Hash>)
    ensures var p := Do(Rel(FileIndex), Do(Acq(FileIndex, Read),
                        Do(Acq(FileLock(f), Write), Do(WCheck(f, off, hashes), Done))));
            Work(p) == 25 + 13 * |hashes| && Tallies(p) == 0
  {
    var q := Do(Acq(FileLock(f), Write), Do(WCheck(f, off, hashes), Done));
    assert Work(Do(WCheck(f, off, hashes), Done)) == 20 + 13 * |hashes| && Tallies(Do(WCheck(f, off, hashes), Done)) == 0;
    assert Work(q) == 22 + 13 * |hashes| && Tallies(q) == 0;
  }

  lemma StealWork(f: Fid)
    ensures var p := Do(Rel(FileIndex), Do(Acq(FileLock(f), Write), Do(Acq(BlockIndex, Write), Do(UTally(f), Done))));
            Work(p) == 6 && Tallies(p) == 1
  {
    var q := Do(Acq(BlockIndex, Write), Do(UTally(f), Done));
    assert Work(Do(UTally(f), Done)) == 1 && Tallies(Do(UTally(f), Done)) == 1;
    assert Work(q) == 3 && Tallies(q) == 1;
  }

  lemma TallyWork(f: Fid, order: seq<Ref>, list: seq<Ref>)
    ensures Tallies(TallyAll(order, list, Do(Rel(BlockIndex), Do(Rel(FileLock(f)), Do(UFreeFile(f), Done))))) == 0
  {
    var q := Do(Rel(FileLock(f)), Do(UFreeFile(f), Done));
    assert Tallies(Do(UFreeFile(f), Done)) == 0;
    assert Tallies(q) == 0;
    TallyAllTallies(order, list, Do(Rel(BlockIndex), q));
  }

  // ---------- The measure ----------

  function TodoTallies(todo: seq<Op>): nat {
    if todo == [] then 0 else Tallies(Code(todo[0])) + TodoTallies(todo[1..])
  }

  function TodoWork(todo: seq<Op>): nat {
    if todo == [] then 0 else 1 + Work(Code(todo[0])) + TodoWork(todo[1..])
  }

  function ThreadTallies(th: Thread): nat {
    Tallies(th.prog) + TodoTallies(th.todo)
  }

  /** A thread that has drawn its ticket has done part of its lock call. */
  ghost function ThreadWork(s: Sys, t: Tid): nat
    requires t in s.threads
  {
    var th := s.threads[t];
    Work(th.prog) + TodoWork(th.todo) - (if Queued(s, t) then 1 else 0)
  }

  ghost predicate Queued(s: Sys, t: Tid) {
    && t in s.threads && s.threads[t].prog.Do? && s.threads[t].prog.i.Acq? && !IsMutex(s.threads[t].prog.i.l)
    && t in LockOf(s, s.threads[t].prog.i.l).waiting
  }

  ghost predicate Awake(s: Sys, t: Tid) {
    Queued(s, t) && !LockOf(s, s.threads[t].prog.i.l).waiting[t].asleep
  }

  ghost function TallyMap(s: Sys): map<Tid, nat> {
    map t | t in s.threads :: ThreadTallies(s.threads[t])
  }

  ghost function WorkMap(s: Sys): map<Tid, nat> {
    map t | t in s.threads :: ThreadWork(s, t)
  }

  ghost function AwakeMap(s: Sys): map<Tid, nat> {
    map t | t in s.threads :: if Awake(s, t) then 1 else 0
  }

  /** Lexicographically: tallies to come, work left, threads awake in a wait loop. */
  ghost predicate Lower(s1: Sys, s: Sys) {
    || Sum(TallyMap(s1)) < Sum(TallyMap(s))
    || (Sum(TallyMap(s1)) <= Sum(TallyMap(s)) && Sum(WorkMap(s1)) < Sum(WorkMap(s)))
    || (Sum(TallyMap(s1)) <= Sum(TallyMap(s)) && Sum(WorkMap(s1)) <= Sum(WorkMap(s)) &&
        Sum(AwakeMap(s1)) < Sum(AwakeMap(s)))
  }

  /** What a move has to do to its own thread for the measure to fall. */
  ghost predicate OwnLower(s: Sys, s1: Sys, t: Tid)
    requires t in s.threads && t in s1.threads
  {
    var a, b := ThreadTallies(s1.threads[t]), ThreadTallies(s.threads[t]);
    || a < b
    || (a <= b && ThreadWork(s1, t) < ThreadWork(s, t))
    || (a <= b && ThreadWork(s1, t) <= ThreadWork(s, t) && Awake(s, t) && !Awake(s1, t) &&
        (forall u :: u in s.threads && u != t ==> (Awake(s1, u) <==> Awake(s, u))))
  }

  lemma TallyMapMoves(s: Sys, s1: Sys, t: Tid)
    requires t in s.threads && t in s1.threads && s1.threads == s.threads[t := s1.threads[t]]
    ensures Sum(TallyMap(s1)) - Sum(TallyMap(s)) == ThreadTallies(s1.threads[t]) - ThreadTallies(s.threads[t])
  {
    assert TallyMap(s1) == TallyMap(s)[t := ThreadTallies(s1.threads[t])];
    SumUpdate(TallyMap(s), t, ThreadTallies(s1.threads[t]));
  }

  lemma WorkMapMoves(s: Sys, s1: Sys, t: Tid)
    requires t in s.threads && t in s1.threads && s1.threads == s.threads[t := s1.threads[t]]
    requires forall u :: u in s.threads && u != t ==> (Queued(s1, u) <==> Queued(s, u))
    ensures Sum(WorkMap(s1)) - Sum(WorkMap(s)) == ThreadWork(s1, t) - ThreadWork(s, t)
  {
    hide Queued, Work, TodoWork;
    assert WorkMap(s1) == WorkMap(s)[t := ThreadWork(s1, t)];
    SumUpdate(WorkMap(s), t, ThreadWork(s1, t));
  }

  lemma AwakeMapMoves(s: Sys, s1: Sys, t: Tid)
    requires t in s.threads && t in s1.threads && s1.threads == s.threads[t := s1.threads[t]]
    requires forall u :: u in s.threads && u != t ==> (Awake(s1, u) <==> Awake(s, u))
    requires Awake(s, t) && !Awake(s1, t)
    ensures Sum(AwakeMap(s1)) < Sum(AwakeMap(s))
  {
    hide Awake;
    assert AwakeMap(s1) == AwakeMap(s)[t := 0];
    SumUpdate(AwakeMap(s), t, 0);
  }

  lemma OwnLowerLowers(s: Sys, s1: Sys, t: Tid)
    requires t in s.threads && t in s1.threads && s1.threads == s.threads[t := s1.threads[t]]
    requires forall u :: u in s.threads && u != t ==> (Queued(s1, u) <==> Queued(s, u))
    requires OwnLower(s, s1, t)
    ensures Lower(s1, s)
  {
    hide Queued, Awake, ThreadWork, ThreadTallies, TallyMap, WorkMap, AwakeMap;
    TallyMapMoves(s, s1, t);
    WorkMapMoves(s, s1, t);
    if Awake(s, t) && !Awake(s1, t) && (forall u :: u in s.threads && u != t ==> (Awake(s1, u) <==> Awake(s, u))) {
      AwakeMapMoves(s, s1, t);
    }
  }

  // ---------- Every move lowers it ----------

  /** A move of t queues or unqueues nobody else. */
  lemma OthersStayQueued(s: Sys, v: Move, u: Tid)
    requires CanMove(s, v) && u in s.threads && u != v.t
    ensures Queued(Moved(s, v), u) <==> Queued(s, u)
  {
    OthersStay(s, v);
    var th := s.threads[v.t];
    if v.Acquire? && !IsMutex(th.prog.i.l) {
      NextEffects(LockOf(s, th.prog.i.l), Arrive(v.t, th.prog.i.m));
    } else if v.Retry? {
      NextEffects(LockOf(s, th.prog.i.l), Recheck(v.t));
    } else if v.Release? && !IsMutex(th.prog.i.l) {
      NextEffects(LockOf(s, th.prog.i.l), Unlock(v.t, th.held[th.prog.i.l]));
    } else if v.Spurious? {
      NextEffects(LockOf(s, th.prog.i.l), Step.Spurious(v.t));
    }
  }

  lemma EnteringLowers(th: Thread)
    requires th.prog.Do? && th.prog.i.Acq?
    ensures Work(Entered(th).prog) + 2 == Work(th.prog) && ThreadTallies(Entered(th)) == ThreadTallies(th)
  {
  }

  lemma AcquireLowers(s: Sys, t: Tid)
    requires LocksAgree(s) && CanMove(s, Acquire(t))
    ensures OwnLower(s, Moved(s, Acquire(t)), t)
  {
    var th := s.threads[t];
    var l := th.prog.i.l;
    EnteringLowers(th);
    if !IsMutex(l) {
      LockIsSafe(s, l);
      NextOwnEffects(LockOf(s, l), Arrive(t, th.prog.i.m));
    }
    hide LocksAgree, Work, Tallies, TicketLock.Inv, Next;
  }

  lemma RetryLowers(s: Sys, t: Tid)
    requires LocksAgree(s) && CanMove(s, Retry(t))
    ensures OwnLower(s, Moved(s, Retry(t)), t)
  {
    var l := s.threads[t].prog.i.l;
    LockIsSafe(s, l);
    NextOwnEffects(LockOf(s, l), Recheck(t));
    if t in Next(LockOf(s, l), UNBOUNDED, Recheck(t)).waiting {
      RetryInVain(s, t);
    } else {
      RetryEnters(s, t);
    }
  }

  lemma RetryEnters(s: Sys, t: Tid)
    requires CanMove(s, Retry(t))
    requires var n := Next(LockOf(s, s.threads[t].prog.i.l), UNBOUNDED, Recheck(t)); t !in n.waiting && Inside(n, t)
    ensures OwnLower(s, Moved(s, Retry(t)), t)
  {
    EnteringLowers(s.threads[t]);
    hide Next, Work, Tallies;
  }

  /** s with a thread put back to sleep at lock l. */
  ghost function BackToSleep(s: Sys, t: Tid, l: LockId): Sys
    requires t in LockOf(s, l).waiting
  {
    var k := LockOf(s, l);
    s.(locks := s.locks[l := k.(waiting := k.waiting[t := k.waiting[t].(asleep := true)])])
  }

  lemma BackToSleepLowers(s: Sys, t: Tid, l: LockId)
    requires t in s.threads && s.threads[t].prog.Do? && s.threads[t].prog.i.Acq? && s.threads[t].prog.i.l == l
    requires !IsMutex(l) && t in LockOf(s, l).waiting && !LockOf(s, l).waiting[t].asleep
    ensures OwnLower(s, BackToSleep(s, t, l), t)
  {
    hide Work, Tallies, TodoWork, TodoTallies;
    assert forall u :: u in s.threads && u != t ==> (Awake(BackToSleep(s, t, l), u) <==> Awake(s, u));
  }

  /** A recheck that goes back to sleep wakes nobody. */
  lemma RetryInVain(s: Sys, t: Tid)
    requires CanMove(s, Retry(t))
    requires var n := Next(LockOf(s, s.threads[t].prog.i.l), UNBOUNDED, Recheck(t)); t in n.waiting && !Inside(n, t)
    ensures OwnLower(s, Moved(s, Retry(t)), t)
  {
    var l := s.threads[t].prog.i.l;
    RecheckInVain(LockOf(s, l), t);
    hide Next, OwnLower;
    assert s.threads[t := s.threads[t]] == s.threads;
    BackToSleepLowers(s, t, l);
  }

  lemma ReleaseLowers(s: Sys, t: Tid)
    requires CanMove(s, Release(t))
    ensures OwnLower(s, Moved(s, Release(t)), t)
  {
    var th := s.threads[t];
    assert Work(th.prog) == 1 + Work(th.prog.next) && Tallies(th.prog) == Tallies(th.prog.next);
  }

  lemma BeginLowers(s: Sys, t: Tid)
    requires CanMove(s, Begin(t))
    ensures OwnLower(s, Moved(s, Begin(t)), t)
  {
    var th := s.threads[t];
    assert TodoWork(th.todo) == 1 + Work(Code(th.todo[0])) + TodoWork(th.todo[1..]);
    assert TodoTallies(th.todo) == Tallies(Code(th.todo[0])) + TodoTallies(th.todo[1..]);
    hide Code;
  }

  lemma ExecLowers(s: Sys, t: Tid, order: seq<Ref>)
    requires ThreadsAreDisciplined(s) && CanMove(s, Exec(t, order))
    ensures OwnLower(s, Moved(s, Exec(t, order)), t)
  {
    var th := s.threads[t];
    NothingFollowsBranch(th);
    ExecShrinks(s.d, th.prog.i, th.prog.next, order);
    hide ExecProg, ExecData, Work, Tallies;
  }

  lemma NothingFollowsBranch(th: Thread)
    requires Disciplined(th.held, th.prog) && th.prog.Do?
    ensures Branches(th.prog.i) ==> th.prog.next == Done
  {
  }

  /** Every move but a spurious wakeup lowers the measure. */
  lemma MoveLowers(s: Sys, v: Move)
    requires LocksAgree(s) && ThreadsAreDisciplined(s) && Progresses(s, v)
    ensures Lower(Moved(s, v), s)
  {
    match v {
      case Begin(t) => BeginLowers(s, t);
      case Acquire(t) => AcquireLowers(s, t);
      case Retry(t) => RetryLowers(s, t);
      case Release(t) => ReleaseLowers(s, t);
      case Exec(t, order) => ExecLowers(s, t, order);
    }
    OthersStay(s, v);
    forall u | u in s.threads && u != v.t
      ensures Queued(Moved(s, v), u) <==> Queued(s, u)
    {
      OthersStayQueued(s, v, u);
    }
    hide Moved, OwnLower, Lower, Queued, LocksAgree, ThreadsAreDisciplined;
    OwnLowerLowers(s, Moved(s, v), v.t);
  }
}

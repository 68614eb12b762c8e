/** The order at the lock of a stolen file: as long as no unlink overtakes, whoever points to a file that
    an unlink has stolen gets the lock before it. */
module Turns {
  import opened Basics
  import opened TicketLock
  import opened Programs
  import opened Discipline
  import opened Interleaving
  import opened RefCounts
  import opened QuietSteps
  import opened UnlinkSteps

  // ---------- Where pointers to files come from ----------

  /** New pointers lead to files of the index or to the next file. */
  ghost predicate PointsFrom(d: Data, a: Foot, b: Foot) {
    forall f :: f in b.files ==> f in a.files || Linked(d, f) || f == d.fids
  }

  ghost predicate Steals(d: Data, i: Instr) {
    i.ULookup? && i.path in d.fileIndex
  }

  /** The file that the rest of the program is about. */
  ghost function Target(d: Data, i: Instr): set<Fid>
    requires Branches(i)
  {
    match i
    case GLookup(path) => Found(d, path)
    case RLookup(path, _, _) => Found(d, path)
    case WLookup(path, _, _) => Found(d, path)
    case WCreate(path, _, _) => if path in d.fileIndex then Found(d, path) else {d.fids}
    case ULookup(path) => Found(d, path)
    case RRange(f, _, _) => {f}
    case RCollect(f, _, _) => {f}
    case WCheck(f, _, _) => {f}
    case WCount(f, _, _, _, _) => {f}
    case WInsert(f, _, _, _, _) => {f}
    case UTally(f) => {f}
  }

  ghost function Found(d: Data, path: Path): set<Fid> {
    if path in d.fileIndex then {d.fileIndex[path]} else {}
  }

  lemma TargetIsKnown(d: Data, i: Instr)
    requires Branches(i)
    ensures forall f :: f in Target(d, i) ==> f in InstrFoot(i).files || Linked(d, f) || f == d.fids
  {
    if i.GLookup? || i.RLookup? || i.WLookup? || i.WCreate? || i.ULookup? {
      assert i.path in d.fileIndex ==> Linked(d, d.fileIndex[i.path]);
    }
  }

  lemma ReadFiles(d: Data, i: Instr, order: seq<Ref>)
    requires Defined(d, i) && OrderOk(d, i, order) && (i.GLookup? || i.RLookup? || i.RRange? || i.RCollect?)
    ensures var b := FootOf(ExecProg(d, i, Done, order)); b.files <= Target(d, i) && b.stolen == {} && b.dying == {}
  {
    hide FootOf, LockAll, LockOrder, ByHash, PreadAll, UnlockAll, EndIndex, Enumerates;
    match i
    case GLookup(path) =>
      ReleaseOnlyFoot(0);
      if path in d.fileIndex { GetattrFoot(d.fileIndex[path]); }
    case RLookup(path, off, size) =>
      ReleaseOnlyFoot(0);
      if path in d.fileIndex { ReadLookupFoot(d.fileIndex[path], off, size); }
    case RRange(f, off, size) =>
      ReleaseOnlyFoot(f);
      var n := d.files[f].size;
      var clipped := if off + size > n && off < n then n - off else size;
      ReadRangeFoot(f, off / 4096, EndIndex(off, clipped));
    case RCollect(f, start, end) =>
      ReadBlocksFoot(f, Slice(d.files[f].list, start, end), order);
  }

  lemma WriteFiles(d: Data, i: Instr, order: seq<Ref>)
    requires Defined(d, i) && (i.WLookup? || i.WCreate? || i.WCheck? || i.WCount? || i.WInsert?)
    ensures var b := FootOf(ExecProg(d, i, Done, order)); b.files <= Target(d, i) && b.stolen == {} && b.dying == {}
  {
    hide FootOf, WriteOut;
    match i
    case WLookup(path, off, hashes) =>
      WriteLookupFoot(if path in d.fileIndex then d.fileIndex[path] else 0, path, off, hashes);
    case WCreate(path, off, hashes) =>
      WriteLookupFoot(if path in d.fileIndex then d.fileIndex[path] else d.fids, path, off, hashes);
    case WCheck(f, off, hashes) =>
      ReleaseOnlyFoot(f);
      CountFoot(WCount(f, off, hashes, [], {}), Read);
    case WCount(f, off, rest, got, created) => CountFiles(d, f, off, rest, got, created, order);
    case WInsert(f, off, rest, got, created) =>
      var known := rest[0] in d.blockIndex;
      var b := if known then d.blockIndex[rest[0]] else Ref(rest[0], d.gens);
      CountFoot(WCount(f, off, rest[1..], got + [b], if known then created else created + {b}), Read);
  }

  /** Instructions that compute the rest of the program. */
  lemma BranchFiles(d: Data, i: Instr, order: seq<Ref>)
    requires Defined(d, i) && OrderOk(d, i, order) && Branches(i)
    ensures var b := FootOf(ExecProg(d, i, Done, order));
            b.files <= Target(d, i) && (Steals(d, i) || b.stolen <= InstrFoot(i).stolen) && b.dying == {}
  {
    if i.ULookup? {
      ReleaseOnlyFoot(0);
      if i.path in d.fileIndex { StealFoot(d.fileIndex[i.path], i.path); }
    } else if i.UTally? {
      TallyProgFoot(i.f, order, d.files[i.f].list);
    } else if i.GLookup? || i.RLookup? || i.RRange? || i.RCollect? {
      ReadFiles(d, i, order);
    } else {
      WriteFiles(d, i, order);
    }
    hide FootOf, ExecProg, InstrFoot;
  }

  lemma CountFiles(d: Data, f: Fid, off: nat, rest: seq<Hash>, got: seq<Ref>, created: set<Ref>, order: seq<Ref>)
    requires Defined(d, WCount(f, off, rest, got, created))
    ensures var b := FootOf(ExecProg(d, WCount(f, off, rest, got, created), Done, order));
            b.files == {f} && b.stolen == {} && b.dying == {}
  {
    hide FootOf, WriteOut;
    if rest == [] {
      WriteOutFoot(f, off, got, created);
    } else if rest[0] in d.blockIndex {
      FootOfOne(WCount(f, off, rest[1..], got + [d.blockIndex[rest[0]]], created));
    } else {
      CountFoot(WInsert(f, off, rest, got, created), Write);
    }
  }

  lemma PopFiles(i: Instr, next: Prog)
    requires !Branches(i)
    ensures FootOf(next).files <= FootOf(Do(i, next)).files && FootOf(next).stolen <= FootOf(Do(i, next)).stolen
    ensures !i.UFreeFile? ==> FootOf(Do(i, next)).stolen == FootOf(next).stolen
  {
  }

  lemma StepFiles(d: Data, i: Instr, next: Prog, order: seq<Ref>)
    requires Defined(d, i) && !Branches(i) && !i.Acq? && !i.Rel?
    ensures var q := ExecProg(d, i, next, order);
            && FootOf(q).files <= FootOf(Do(i, next)).files && FootOf(q).stolen <= FootOf(Do(i, next)).stolen
            && (!i.UFreeFile? ==> FootOf(q).stolen == FootOf(Do(i, next)).stolen)
  {
    hide FootOf;
    PopFiles(i, next);
    if i.ULoad? {
      LoadFiles(i.b, d.blocks[i.b].counter, i.n, next);
    } else if i.UTest? {
      FreeCodeFoot(i.b, next);
      KeepBlockFoot(i.b, next);
    }
  }

  lemma LoadFiles(b: Ref, v: int, n: nat, next: Prog)
    ensures FootOf(Do(UStore(b, v, n), next)).files == FootOf(next).files && FootOf(Do(UStore(b, v, n), next)).stolen == FootOf(next).stolen
  {
  }

  lemma ExecFiles(d: Data, held: Held, i: Instr, next: Prog, order: seq<Ref>)
    requires Defined(d, i) && OrderOk(d, i, order) && !i.Acq? && !i.Rel? && Disciplined(held, Do(i, next))
    ensures var a, b := FootOf(Do(i, next)), FootOf(ExecProg(d, i, next, order));
            PointsFrom(d, a, b) && (Steals(d, i) || b.stolen <= a.stolen)
  {
    hide FootOf, ExecProg, OrderOk, Needs, Disciplined;
    BranchFacts(held, i, next);
    if Branches(i) {
      FootOfOne(i);
      BranchFiles(d, i, order);
      TargetIsKnown(d, i);
    } else {
      StepFiles(d, i, next, order);
    }
  }

  /** The unlink v.t finds its file and takes it out of the index. */
  ghost predicate IsTheft(s: Sys, v: Move) {
    v.Exec? && v.t in s.threads && s.threads[v.t].prog.Do? && Steals(s.d, s.threads[v.t].prog.i)
  }

  /** What a move makes of its thread's pointers. */
  lemma MoverFiles(s: Sys, v: Move)
    requires ThreadsAreDisciplined(s) && CanMove(s, v)
    ensures var a, b := FootOf(s.threads[v.t].prog), FootOf(Moved(s, v).threads[v.t].prog);
            && PointsFrom(s.d, a, b)
            && (b.stolen <= a.stolen || IsTheft(s, v))
  {
    hide FootOf, Disciplined, Next, ExecProg, ExecData, OrderOk, Code;
    var th := s.threads[v.t];
    assert Disciplined(th.held, th.prog);
    match v
    case Begin(_) => CodePointsNowhere(th.todo[0]);
    case Acquire(_) => AcqFoot(th.prog.i.l, th.prog.i.m, th.prog.next);
    case Retry(_) => AcqFoot(th.prog.i.l, th.prog.i.m, th.prog.next);
    case Release(_) => RelFoot(th.prog.i.l, th.prog.next);
    case Exec(_, order) => ExecFiles(s.d, th.held, th.prog.i, th.prog.next, order);
    case Spurious(_) =>
  }

  // ---------- The order ----------

  /** u points to the file f that t has stolen. */
  ghost predicate Contested(s: Sys, t: Tid, u: Tid, f: Fid) {
    && t in s.threads && u in s.threads && t != u
    && f in FootOf(s.threads[t].prog).stolen && f in FootOf(s.threads[u].prog).files
  }

  /** t is not inside, and u holds f's lock, or t has not drawn yet, or u drew before t. */
  ghost predicate InOrder(s: Sys, t: Tid, u: Tid, f: Fid)
    requires t in s.threads && u in s.threads
  {
    var waiting := LockOf(s, FileLock(f)).waiting;
    && FileLock(f) !in s.threads[t].held
    && (FileLock(f) in s.threads[u].held || t !in waiting || (u in waiting && waiting[u].ticket < waiting[t].ticket))
  }

  ghost predicate InTurn(s: Sys) {
    forall t, u, f :: Contested(s, t, u, f) ==> InOrder(s, t, u, f)
  }

  /** A stolen file is not in the index, and has one thief. */
  lemma StolenFacts(s: Sys, t: Tid, f: Fid)
    requires Sound(s) && t in s.threads && f in FootOf(s.threads[t].prog).stolen
    ensures f in FootOf(s.threads[t].prog).files && f in s.d.files && f < s.d.fids && !Linked(s.d, f)
    ensures forall u :: u in s.threads && u != t ==> f !in FootOf(s.threads[u].prog).stolen
  {
    hide FootOf, Linked;
    FootIsClosed(s.threads[t].prog);
    SoundThread(s, t);
    forall u | u in s.threads && u != t
      ensures f !in FootOf(s.threads[u].prog).stolen
    {
      assert Apart(s.threads[t], s.threads[u]);
    }
  }

  /** Nobody else's place at a lock changes. */
  lemma OthersKeepPlace(s: Sys, v: Move, l: LockId, u: Tid)
    requires CanMove(s, v) && u != v.t && !IsMutex(l)
    ensures var a, b := LockOf(s, l).waiting, LockOf(Moved(s, v), l).waiting;
            (u in b <==> u in a) && (u in a ==> b[u].ticket == a[u].ticket)
  {
    var th := s.threads[v.t];
    hide Next, Enabled, ExecData, ExecProg, Code, Defined, OrderOk, Overtakes;
    match v
    case Begin(_) =>
    case Exec(_, _) =>
    case Acquire(t) =>
      if !IsMutex(th.prog.i.l) { StepKeepsPlace(s, t, th.prog.i.l, Arrive(t, th.prog.i.m), l, u); }
    case Retry(t) => StepKeepsPlace(s, t, th.prog.i.l, Recheck(t), l, u);
    case Release(t) =>
      if !IsMutex(th.prog.i.l) { StepKeepsPlace(s, t, th.prog.i.l, Unlock(t, th.held[th.prog.i.l]), l, u); }
    case Spurious(t) => StepKeepsPlace(s, t, th.prog.i.l, Step.Spurious(t), l, u);
  }

  lemma StepKeepsPlace(s: Sys, t: Tid, x: LockId, step: Step, l: LockId, u: Tid)
    requires Enabled(LockOf(s, x), step) && step.t == t && u != t
    ensures var a := LockOf(s, l).waiting;
            var b := LockOf(s.(locks := s.locks[x := Next(LockOf(s, x), UNBOUNDED, step)]), l).waiting;
            (u in b <==> u in a) && (u in a ==> b[u].ticket == a[u].ticket)
  {
    NextEffects(LockOf(s, x), step);
    hide Next, Enabled;
  }

  /** A waiting thread can only look again. */
  lemma WaiterMoves(s: Sys, v: Move, l: LockId)
    requires LocksAgree(s) && CanMove(s, v) && !IsMutex(l) && v.t in LockOf(s, l).waiting
    ensures var p := s.threads[v.t].prog; p.Do? && p.i.Acq? && p.i.l == l && (v.Retry? || v.Spurious?)
  {
    assert LockAgrees(s, l);
    hide LocksAgree, LockAgrees, OrderOk;
  }

  /** A waiting thread keeps its place at the lock, or gets in. */
  lemma WaiterKeepsPlace(s: Sys, v: Move, l: LockId)
    requires LocksAgree(s) && CanMove(s, v) && !IsMutex(l) && v.t in LockOf(s, l).waiting
    ensures var s1 := Moved(s, v);
            var a, b := LockOf(s, l).waiting, LockOf(s1, l).waiting;
            if v.t in b then b[v.t].ticket == a[v.t].ticket else l in s1.threads[v.t].held
  {
    WaiterMoves(s, v, l);
    LockIsSafe(s, l);
    var step := if v.Retry? then Recheck(v.t) else Step.Spurious(v.t);
    NextOwnEffects(LockOf(s, l), step);
    NextEffects(LockOf(s, l), step);
    hide LocksAgree, TicketLock.Inv, Next;
  }

  /** The pointing thread moves. */
  lemma PointerMoves(s: Sys, v: Move, t: Tid, f: Fid)
    requires CanMove(s, v) && Contested(Moved(s, v), t, v.t, f) && t in s.threads
    requires LocksAgree(s) && ThreadsAreDisciplined(s) && Sound(s) && InTurn(s)
    ensures InOrder(Moved(s, v), t, v.t, f)
  {
    hide FootOf, Sound, LocksAgree, ThreadsAreDisciplined, InTurn, Moved, CanMove, Linked;
    var s1, u := Moved(s, v), v.t;
    OthersStay(s, v);
    MoverFiles(s, v);
    OthersKeepPlace(s, v, FileLock(f), t);
    StolenFacts(s, t, f);
    assert Contested(s, t, u, f);
    TurnOf(s, t, u, f);
    if FileLock(f) in s.threads[u].held {
      HolderKeepsLock(s, v, f);
    } else if u in LockOf(s, FileLock(f)).waiting {
      WaiterKeepsPlace(s, v, FileLock(f));
    }
  }

  /** Whoever goes on pointing to a file that somebody else stole does not release its lock. */
  lemma HolderKeepsLock(s: Sys, v: Move, f: Fid)
    requires CanMove(s, v) && ThreadsAreDisciplined(s)
    requires FileLock(f) in s.threads[v.t].held && f in FootOf(Moved(s, v).threads[v.t].prog).files
    requires f !in FootOf(s.threads[v.t].prog).stolen
    ensures FileLock(f) in Moved(s, v).threads[v.t].held
  {
    var th := s.threads[v.t];
    if v.Release? && th.prog.i.l == FileLock(f) {
      assert Disciplined(th.held, th.prog);
      SettledNext(th.held, th.prog);
      NextFiles(s, v);
      assert false;
    } else {
      OtherLocksHeld(s, v, FileLock(f));
    }
  }

  lemma NextFiles(s: Sys, v: Move)
    requires CanMove(s, v) && v.Release?
    ensures Moved(s, v).threads[v.t].prog == s.threads[v.t].prog.next
    ensures FootOf(s.threads[v.t].prog.next).stolen <= FootOf(s.threads[v.t].prog).stolen
  {
    RelFoot(s.threads[v.t].prog.i.l, s.threads[v.t].prog.next);
    hide FootOf, Next;
  }

  lemma OtherLocksHeld(s: Sys, v: Move, l: LockId)
    requires CanMove(s, v) && l in s.threads[v.t].held && !(v.Release? && s.threads[v.t].prog.i.l == l)
    ensures l in Moved(s, v).threads[v.t].held
  {
    hide Next, ExecProg, ExecData, Overtakes, Defined, OrderOk, Code;
  }

  predicate CallsLock(s: Sys, v: Move, l: LockId)
    requires v.t in s.threads
  {
    var p := s.threads[v.t].prog;
    (v.Acquire? || v.Retry?) && p.Do? && p.i.Acq? && p.i.l == l
  }

  /** The thief takes the lock of its file for writing. */
  lemma ThiefWrites(s: Sys, v: Move, f: Fid)
    requires CanMove(s, v) && ThreadsAreDisciplined(s) && CallsLock(s, v, FileLock(f)) && f in FootOf(s.threads[v.t].prog).stolen
    ensures s.threads[v.t].prog.i.m == Write
  {
    var th := s.threads[v.t];
    assert Disciplined(th.held, th.prog);
    AcqFoot(th.prog.i.l, th.prog.i.m, th.prog.next);
    hide FootOf;
  }

  /** It does not get in while somebody else is inside. */
  lemma HolderStopsThief(s: Sys, v: Move, u: Tid, f: Fid)
    requires CanMove(s, v) && CallsLock(s, v, FileLock(f)) && f in FootOf(s.threads[v.t].prog).stolen
    requires u in s.threads && u != v.t && FileLock(f) in s.threads[u].held && FileLock(f) !in s.threads[v.t].held
    requires LocksAgree(s) && ThreadsAreDisciplined(s)
    ensures FileLock(f) !in Moved(s, v).threads[v.t].held
  {
    ThiefWrites(s, v, f);
    MoveKeepsLocks(s, v);
    OthersStay(s, v);
    hide LocksAgree, ThreadsAreDisciplined, FootOf, Next;
    if FileLock(f) in Moved(s, v).threads[v.t].held {
      Exclusion(Moved(s, v), FileLock(f), v.t, u);
    }
  }

  /** It does not get in before a thread that is queued ahead of it, and queues behind all others. */
  lemma QueueStopsThief(s: Sys, v: Move, u: Tid, f: Fid)
    requires CanMove(s, v) && CallsLock(s, v, FileLock(f)) && LocksAgree(s)
    requires u != v.t && FileLock(f) !in s.threads[v.t].held
    requires var waiting := LockOf(s, FileLock(f)).waiting;
             u in waiting && (v.t in waiting ==> waiting[u].ticket < waiting[v.t].ticket)
    ensures var s1 := Moved(s, v);
            var waiting := LockOf(s1, FileLock(f)).waiting;
            FileLock(f) !in s1.threads[v.t].held && u in waiting && (v.t in waiting ==> waiting[u].ticket < waiting[v.t].ticket)
  {
    var l, th := FileLock(f), s.threads[v.t];
    LockIsSafe(s, l);
    var step := if v.Acquire? then Arrive(v.t, th.prog.i.m) else Recheck(v.t);
    NobodyIsPassed(LockOf(s, l), step, u);
    NextEffects(LockOf(s, l), step);
    NextOwnEffects(LockOf(s, l), step);
    hide LocksAgree, TicketLock.Inv, Next, Overtakes;
  }

  /** A move that is no call of the lock leaves the thief where it is. */
  lemma ElsewhereStays(s: Sys, v: Move, f: Fid)
    requires CanMove(s, v) && !CallsLock(s, v, FileLock(f)) && LocksAgree(s)
    requires FileLock(f) !in s.threads[v.t].held
    ensures var s1 := Moved(s, v);
            var a, b := LockOf(s, FileLock(f)).waiting, LockOf(s1, FileLock(f)).waiting;
            FileLock(f) !in s1.threads[v.t].held && (v.t in b <==> v.t in a) && (v.t in a ==> a[v.t].ticket == b[v.t].ticket)
  {
    hide LocksAgree, Moved, CanMove;
    var l := FileLock(f);
    if v.t in LockOf(s, l).waiting {
      WaiterMoves(s, v, l);
      WaiterKeepsPlace(s, v, l);
      SpuriousHolds(s, v);
    } else {
      OutsiderStays(s, v, l);
    }
  }

  lemma SpuriousHolds(s: Sys, v: Move)
    requires CanMove(s, v) && v.Spurious?
    ensures Moved(s, v).threads[v.t].held == s.threads[v.t].held
  {
    hide Next;
  }

  lemma OutsiderStays(s: Sys, v: Move, l: LockId)
    requires CanMove(s, v) && !CallsLock(s, v, l) && !IsMutex(l)
    requires l !in s.threads[v.t].held && v.t !in LockOf(s, l).waiting
    ensures var s1 := Moved(s, v); l !in s1.threads[v.t].held && v.t !in LockOf(s1, l).waiting
  {
    hide Next, ExecData, ExecProg, Code, Defined, OrderOk, Overtakes;
    match v
    case Begin(_) =>
    case Acquire(_) =>
    case Retry(_) =>
    case Release(_) =>
    case Exec(_, _) =>
    case Spurious(_) =>
  }

  lemma ThiefWaits(s: Sys, v: Move, u: Tid, f: Fid)
    requires CanMove(s, v) && !(v.Acquire? && Overtakes(s, v.t)) && Contested(s, v.t, u, f) && InOrder(s, v.t, u, f)
    requires LocksAgree(s) && ThreadsAreDisciplined(s)
    ensures u in Moved(s, v).threads && InOrder(Moved(s, v), v.t, u, f)
  {
    hide LocksAgree, ThreadsAreDisciplined, Moved, CanMove, FootOf, Overtakes, CallsLock;
    OthersStay(s, v);
    OthersKeepPlace(s, v, FileLock(f), u);
    if !CallsLock(s, v, FileLock(f)) {
      ElsewhereStays(s, v, f);
    } else if FileLock(f) in s.threads[u].held {
      HolderStopsThief(s, v, u, f);
    } else {
      assert u in LockOf(s, FileLock(f)).waiting by { NotBehind(s, v, u, f); }
      QueueStopsThief(s, v, u, f);
    }
  }

  lemma NotBehind(s: Sys, v: Move, u: Tid, f: Fid)
    requires CanMove(s, v) && !(v.Acquire? && Overtakes(s, v.t)) && Contested(s, v.t, u, f) && InOrder(s, v.t, u, f)
    requires CallsLock(s, v, FileLock(f)) && FileLock(f) !in s.threads[u].held
    ensures u in LockOf(s, FileLock(f)).waiting
  {
    assert u !in LockOf(s, FileLock(f)).waiting ==> Behind(s, u, f);
  }

  /** The thief, or the thread to be, moves. */
  lemma ThiefMoves(s: Sys, v: Move, u: Tid, f: Fid)
    requires CanMove(s, v) && !(v.Acquire? && Overtakes(s, v.t)) && Contested(Moved(s, v), v.t, u, f) && u in s.threads
    requires LocksAgree(s) && ThreadsAreDisciplined(s) && InTurn(s)
    ensures InOrder(Moved(s, v), v.t, u, f)
  {
    hide FootOf, LocksAgree, ThreadsAreDisciplined, InTurn, Moved, CanMove, IsTheft, Overtakes;
    var t := v.t;
    OthersStay(s, v);
    MoverFiles(s, v);
    OthersKeepPlace(s, v, FileLock(f), u);
    if IsTheft(s, v) {
      ThiefHasNotDrawn(s, v, f);
    } else {
      assert Contested(s, t, u, f);
      assert InOrder(s, t, u, f) by { TurnOf(s, t, u, f); }
      ThiefWaits(s, v, u, f);
    }
  }

  lemma TurnOf(s: Sys, t: Tid, u: Tid, f: Fid)
    requires Contested(s, t, u, f) && InTurn(s)
    ensures InOrder(s, t, u, f)
  {
  }

  /** At the theft the thief holds the file index only. */
  lemma ThiefHasNotDrawn(s: Sys, v: Move, f: Fid)
    requires CanMove(s, v) && IsTheft(s, v) && LocksAgree(s) && ThreadsAreDisciplined(s)
    ensures FileLock(f) !in Moved(s, v).threads[v.t].held && v.t !in LockOf(Moved(s, v), FileLock(f)).waiting
  {
    var th := s.threads[v.t];
    assert Disciplined(th.held, th.prog);
    WaitsOnlyWhereStopped(s, v.t, FileLock(f));
    hide LocksAgree, ThreadsAreDisciplined, ExecProg, ExecData;
  }

  lemma ContestedThreads(s: Sys, t: Tid, u: Tid, f: Fid)
    requires Contested(s, t, u, f)
    ensures t in s.threads && u in s.threads
  {
  }

  lemma BystanderMoves(s: Sys, v: Move, t: Tid, u: Tid, f: Fid)
    requires CanMove(s, v) && v.t != t && v.t != u && Contested(Moved(s, v), t, u, f) && InTurn(s)
    requires t in s.threads && u in s.threads
    ensures InOrder(Moved(s, v), t, u, f)
  {
    OthersStay(s, v);
    OthersKeepPlace(s, v, FileLock(f), t);
    OthersKeepPlace(s, v, FileLock(f), u);
    hide InTurn, Moved, FootOf;
    assert Contested(s, t, u, f);
    TurnOf(s, t, u, f);
  }

  lemma PairStaysInOrder(s: Sys, v: Move, t: Tid, u: Tid, f: Fid)
    requires CanMove(s, v) && !(v.Acquire? && Overtakes(s, v.t)) && Contested(Moved(s, v), t, u, f)
    requires t in Moved(s, v).threads && u in Moved(s, v).threads
    requires LocksAgree(s) && ThreadsAreDisciplined(s) && Sound(s) && InTurn(s)
    ensures InOrder(Moved(s, v), t, u, f)
  {
    OthersStay(s, v);
    hide LocksAgree, ThreadsAreDisciplined, Sound, InTurn, Moved, CanMove, InOrder;
    if v.t == u {
      PointerMoves(s, v, t, f);
    } else if v.t == t {
      ThiefMoves(s, v, u, f);
    } else {
      BystanderMoves(s, v, t, u, f);
    }
  }

  /** Every move but an overtaking one keeps the order. */
  lemma MoveKeepsTurns(s: Sys, v: Move)
    requires CanMove(s, v) && !(v.Acquire? && Overtakes(s, v.t))
    requires LocksAgree(s) && ThreadsAreDisciplined(s) && Sound(s) && InTurn(s)
    ensures InTurn(Moved(s, v))
  {
    var s1 := Moved(s, v);
    hide LocksAgree, ThreadsAreDisciplined, Sound, Moved, CanMove, Contested, InOrder, Overtakes;
    forall t, u, f | Contested(s1, t, u, f)
      ensures InOrder(s1, t, u, f)
    {
      ContestedThreads(s1, t, u, f);
      PairStaysInOrder(s, v, t, u, f);
    }
  }

  /** Once the thief has the lock, nobody else points to the file. */
  lemma ThiefIsAlone(s: Sys, t: Tid, f: Fid)
    requires InTurn(s) && t in s.threads && f in FootOf(s.threads[t].prog).stolen && FileLock(f) in s.threads[t].held
    ensures NobodyElse(s, t, f)
  {
    hide FootOf, InTurn;
    forall u | u in s.threads && u != t
      ensures f !in FootOf(s.threads[u].prog).files
    {
      if f in FootOf(s.threads[u].prog).files {
        TurnOf(s, t, u, f);
      }
    }
  }

  lemma IdleTurns(s: Sys)
    requires Idle(s)
    ensures InTurn(s)
  {
    FootOfDone();
    hide FootOf;
  }
}

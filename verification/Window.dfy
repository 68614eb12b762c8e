/** An unlink can only get ahead of a write that created its file and stands between the two holds of the
    file index: everywhere else a pointer to a file is guarded by a lock. */
module Window {
  import opened TicketLock
  import opened Programs
  import opened Discipline
  import opened Interleaving
  import opened RefCounts
  import opened QuietSteps
  import opened Turns
  import opened Concurrency

  /** Every file that is pointed to is stolen, locked, or kept by the file index, or the program is in the window. */
  ghost predicate Guarded(held: Held, p: Prog) {
    forall f <- FootOf(p).files :: f in FootOf(p).stolen || FileLock(f) in held || FileIndex in held || InWindow(p, f)
  }

  ghost predicate AllGuarded(s: Sys) {
    forall t :: t in s.threads ==> Guarded(s.threads[t].held, s.threads[t].prog)
  }

  lemma FewerFilesGuarded(held: Held, p: Prog, held1: Held, q: Prog)
    requires Guarded(held, p) && FootOf(q).files <= FootOf(p).files && FootOf(p).stolen <= FootOf(q).stolen
    requires forall f :: InWindow(p, f) ==> FileIndex in held1
    requires forall l :: l == FileIndex || l.FileLock? ==> (l in held ==> l in held1)
    ensures Guarded(held1, q)
  {
    hide FootOf;
  }

  lemma AcquireGuarded(held: Held, l: LockId, m: Mode, next: Prog)
    requires Guarded(held, Do(Acq(l, m), next))
    ensures Guarded(held[l := m], next)
  {
    AcqFoot(l, m, next);
    hide FootOf;
    FewerFilesGuarded(held, Do(Acq(l, m), next), held[l := m], next);
  }

  lemma ReleaseGuarded(held: Held, l: LockId, next: Prog)
    requires Guarded(held, Do(Rel(l), next)) && Settled(held, l, next)
    ensures Guarded(held - {l}, next)
  {
    RelFoot(l, next);
    hide FootOf;
  }

  /** Instructions that compute the rest of the program. */
  lemma BranchGuarded(d: Data, i: Instr, order: seq<Ref>)
    requires Defined(d, i) && OrderOk(d, i, order) && Branches(i)
    ensures Guarded(Needs(i), ExecProg(d, i, Done, order))
  {
    BranchFiles(d, i, order);
    assert FileIndex in Needs(i) || i.RRange? || i.RCollect? || i.UTally?;
    hide FootOf, ExecProg, OrderOk;
  }

  lemma ExecGuarded(d: Data, held: Held, i: Instr, next: Prog, order: seq<Ref>)
    requires Defined(d, i) && OrderOk(d, i, order) && !i.Acq? && !i.Rel?
    requires Disciplined(held, Do(i, next)) && Guarded(held, Do(i, next))
    ensures Guarded(held, ExecProg(d, i, next, order))
  {
    hide FootOf, ExecProg, Guarded, OrderOk, Needs;
    BranchFacts(held, i, next);
    if Branches(i) {
      BranchGuarded(d, i, order);
    } else if i.UFreeFile? {
      LastInstr(held, i.f, next);
      FinishedIsGuarded(d, held, i, order);
    } else {
      StepFiles(d, i, next, order);
      FewerFilesGuarded(held, Do(i, next), held, ExecProg(d, i, next, order));
    }
  }

  lemma FinishedIsGuarded(d: Data, held: Held, i: Instr, order: seq<Ref>)
    requires Defined(d, i) && i.UFreeFile?
    ensures Guarded(held, ExecProg(d, i, Done, order))
  {
  }

  /** A lock call: the thread is in, or waits as before. */
  lemma TakeGuarded(s: Sys, v: Move)
    requires CanMove(s, v) && (v.Acquire? || v.Retry?) && Guarded(s.threads[v.t].held, s.threads[v.t].prog)
    ensures Guarded(Moved(s, v).threads[v.t].held, Moved(s, v).threads[v.t].prog)
  {
    hide Guarded, Next;
    var th := s.threads[v.t];
    AcquireGuarded(th.held, th.prog.i.l, th.prog.i.m, th.prog.next);
  }

  lemma ThreadFacts(s: Sys, t: Tid)
    requires ThreadsAreDisciplined(s) && AllGuarded(s) && t in s.threads
    ensures Disciplined(s.threads[t].held, s.threads[t].prog) && Guarded(s.threads[t].held, s.threads[t].prog)
  {
  }

  lemma MoverGuarded(s: Sys, v: Move)
    requires ThreadsAreDisciplined(s) && AllGuarded(s) && CanMove(s, v)
    ensures Guarded(Moved(s, v).threads[v.t].held, Moved(s, v).threads[v.t].prog)
  {
    hide ThreadsAreDisciplined, AllGuarded, Guarded, Disciplined, Next, ExecProg, ExecData, Overtakes, OrderOk, Code;
    var th := s.threads[v.t];
    ThreadFacts(s, v.t);
    match v
    case Begin(t) =>
      CodePointsNowhere(th.todo[0]);
      NowhereIsGuarded(th.held, Code(th.todo[0]));
    case Acquire(_) => TakeGuarded(s, v);
    case Retry(_) => TakeGuarded(s, v);
    case Release(t) =>
      SettledNext(th.held, th.prog);
      ReleaseGuarded(th.held, th.prog.i.l, th.prog.next);
    case Exec(t, order) => ExecGuarded(s.d, th.held, th.prog.i, th.prog.next, order);
    case Spurious(t) =>
  }

  lemma NowhereIsGuarded(held: Held, p: Prog)
    requires FootOf(p) == NOTHING
    ensures Guarded(held, p)
  {
  }

  lemma MoveKeepsGuarded(s: Sys, v: Move)
    requires LocksAgree(s) && ThreadsAreDisciplined(s) && AllGuarded(s) && CanMove(s, v)
    ensures AllGuarded(Moved(s, v))
  {
    MoverGuarded(s, v);
    OthersStay(s, v);
    hide LocksAgree, Guarded, Moved, CanMove;
  }

  // ---------- Everywhere, at all times ----------

  /** u writes, and is on its way to f's lock. */
  predicate Lags(p: Prog, f: Fid) {
    InWindow(p, f) || AboutToCheck(p, f)
  }

  /** Whoever points to a file that somebody else stole has its lock, or is a write on its way there. */
  ghost predicate Exposed(s: Sys) {
    forall t, u, f :: Contested(s, t, u, f) ==> IsExposed(s, u, f)
  }

  ghost predicate IsExposed(s: Sys, u: Tid, f: Fid)
    requires u in s.threads
  {
    FileLock(f) in s.threads[u].held || Lags(s.threads[u].prog, f)
  }

  lemma ExposedPair(s: Sys, t: Tid, u: Tid, f: Fid)
    requires Exposed(s) && Contested(s, t, u, f)
    ensures IsExposed(s, u, f)
  {
  }

  /** A write on its way to f's lock waits, goes on, or gets it. */
  lemma LagsOrLocks(s: Sys, v: Move, f: Fid)
    requires CanMove(s, v) && Lags(s.threads[v.t].prog, f)
    ensures IsExposed(Moved(s, v), v.t, f)
  {
    hide Next, Defined, OrderOk, Overtakes, Enabled;
  }

  lemma PointerStaysExposed(s: Sys, v: Move, t: Tid, f: Fid)
    requires CanMove(s, v) && Contested(Moved(s, v), t, v.t, f) && t in s.threads
    requires LocksAgree(s) && ThreadsAreDisciplined(s) && Sound(s) && Exposed(s)
    ensures IsExposed(Moved(s, v), v.t, f)
  {
    hide FootOf, Sound, LocksAgree, ThreadsAreDisciplined, Exposed, Moved, CanMove, Linked, Lags;
    OthersStay(s, v);
    MoverFiles(s, v);
    StolenFacts(s, t, f);
    assert Contested(s, t, v.t, f);
    ExposedPair(s, t, v.t, f);
    if FileLock(f) in s.threads[v.t].held {
      HolderKeepsLock(s, v, f);
    } else {
      LagsOrLocks(s, v, f);
    }
  }

  lemma NotGuardedByIndex(s: Sys, t: Tid, u: Tid)
    requires LocksAgree(s) && t in s.threads && u in s.threads && t != u && Has(s.threads[t].held, FileIndex, Write)
    ensures FileIndex !in s.threads[u].held
  {
    hide LocksAgree;
    if FileIndex in s.threads[u].held {
      Exclusion(s, FileIndex, t, u);
    }
  }

  lemma UnlinkHoldsIndex(s: Sys, t: Tid)
    requires ThreadsAreDisciplined(s) && t in s.threads && s.threads[t].prog.Do? && s.threads[t].prog.i.ULookup?
    ensures Has(s.threads[t].held, FileIndex, Write)
  {
    assert Disciplined(s.threads[t].held, s.threads[t].prog);
  }

  lemma WindowPoints(held: Held, p: Prog, f: Fid)
    requires Lags(p, f) && Disciplined(held, p)
    ensures f in FootOf(p).files && FileLock(f) !in held
    ensures InWindow(p, f) ==> held == map[]
    ensures forall l :: l in held ==> l == FileIndex
  {
    NextInstr(held, p);
    hide Disciplined;
    var q := if InWindow(p, f) then p.next else p;
    assert f in FootOf(q).files;
  }

  /** At a theft: who points to the file without its lock stands in the window of a write, and the other way round. */
  lemma CarelessInWindow(s: Sys, t: Tid, u: Tid, f: Fid)
    requires LocksAgree(s) && ThreadsAreDisciplined(s) && Sound(s) && AllGuarded(s)
    requires t in s.threads && u in s.threads && t != u && Linked(s.d, f)
    requires s.threads[t].prog.Do? && s.threads[t].prog.i.ULookup?
    ensures f in FootOf(s.threads[u].prog).files && FileLock(f) !in s.threads[u].held <==> InWindow(s.threads[u].prog, f)
  {
    UnlinkHoldsIndex(s, t);
    NotGuardedByIndex(s, t, u);
    hide LocksAgree, Sound, FootOf, Linked;
    SoundThread(s, u);
    FootIsClosed(s.threads[u].prog);
    assert Guarded(s.threads[u].held, s.threads[u].prog) && Disciplined(s.threads[u].held, s.threads[u].prog);
    hide Disciplined, ThreadsAreDisciplined, AllGuarded;
    if InWindow(s.threads[u].prog, f) {
      WindowPoints(s.threads[u].held, s.threads[u].prog, f);
    }
  }

  lemma TheftIsExposed(s: Sys, v: Move, u: Tid, f: Fid)
    requires CanMove(s, v) && IsTheft(s, v) && Contested(Moved(s, v), v.t, u, f) && u in s.threads
    requires LocksAgree(s) && ThreadsAreDisciplined(s) && Sound(s) && AllGuarded(s)
    ensures IsExposed(Moved(s, v), u, f)
  {
    OthersStay(s, v);
    TheftFoot(s, v);
    hide FootOf, Sound, LocksAgree, ThreadsAreDisciplined, AllGuarded, Moved, CanMove, Linked;
    CarelessInWindow(s, v.t, u, f);
  }

  /** After a theft the thief points to the file that it found. */
  lemma TheftFoot(s: Sys, v: Move)
    requires CanMove(s, v) && IsTheft(s, v) && ThreadsAreDisciplined(s)
    ensures forall f :: f in FootOf(Moved(s, v).threads[v.t].prog).stolen ==> f == s.d.fileIndex[s.threads[v.t].prog.i.path] && Linked(s.d, f)
  {
    var th := s.threads[v.t];
    assert Disciplined(th.held, th.prog);
    StealFoot(s.d.fileIndex[th.prog.i.path], th.prog.i.path);
    assert Linked(s.d, s.d.fileIndex[th.prog.i.path]);
    hide FootOf, ExecData, Linked;
  }

  lemma PairStaysExposed(s: Sys, v: Move, t: Tid, u: Tid, f: Fid)
    requires CanMove(s, v) && Contested(Moved(s, v), t, u, f) && t in Moved(s, v).threads && u in Moved(s, v).threads
    requires LocksAgree(s) && ThreadsAreDisciplined(s) && Sound(s) && AllGuarded(s) && Exposed(s)
    ensures IsExposed(Moved(s, v), u, f)
  {
    OthersStay(s, v);
    hide LocksAgree, ThreadsAreDisciplined, Sound, AllGuarded, Exposed, Moved, CanMove, IsTheft, FootOf, Lags;
    if v.t == u {
      PointerStaysExposed(s, v, t, f);
    } else if v.t == t && IsTheft(s, v) {
      TheftIsExposed(s, v, u, f);
    } else {
      MoverFiles(s, v);
      assert Contested(s, t, u, f);
      ExposedPair(s, t, u, f);
    }
  }

  lemma MoveKeepsExposed(s: Sys, v: Move)
    requires CanMove(s, v)
    requires LocksAgree(s) && ThreadsAreDisciplined(s) && Sound(s) && AllGuarded(s) && Exposed(s)
    ensures Exposed(Moved(s, v))
  {
    var s1 := Moved(s, v);
    hide LocksAgree, ThreadsAreDisciplined, Sound, AllGuarded, Moved, CanMove, Contested, IsExposed;
    forall t, u, f | Contested(s1, t, u, f)
      ensures u in s1.threads && IsExposed(s1, u, f)
    {
      ContestedThreads(s1, t, u, f);
      PairStaysExposed(s, v, t, u, f);
    }
  }

  ghost predicate WindowInv(s: Sys) {
    SysInv(s) && AllGuarded(s) && (!s.raced ==> Exposed(s))
  }

  lemma MoveKeepsWindow(s: Sys, v: Move)
    requires WindowInv(s) && CanMove(s, v)
    ensures WindowInv(Moved(s, v))
  {
    hide LocksAgree, ThreadsAreDisciplined, Sound, InTurn, AllGuarded, Exposed, Moved, CanMove;
    MoveKeepsInv(s, v);
    MoveKeepsGuarded(s, v);
    FlagMoves(s, v);
    if !s.raced {
      MoveKeepsExposed(s, v);
    }
  }

  lemma {:induction false} RunKeepsWindow(s: Sys, vs: seq<Move>)
    requires WindowInv(s) && Run(s, vs)
    ensures WindowInv(End(s, vs))
    decreases |vs|
  {
    hide WindowInv, Moved, CanMove;
    if vs != [] {
      MoveKeepsWindow(s, vs[0]);
      RunKeepsWindow(Moved(s, vs[0]), vs[1..]);
    }
  }

  lemma InitialWindow(s: Sys)
    requires Initial(s)
    ensures WindowInv(s)
  {
    InitialInv(s);
    FootOfDone();
    hide SysInv, DataOk, FootOf;
  }

  lemma ReachableWindow(s: Sys)
    requires Reachable(s)
    ensures WindowInv(s)
  {
    hide WindowInv, Run, End, Initial;
    var s0, vs :| Initial(s0) && Run(s0, vs) && End(s0, vs) == s;
    InitialWindow(s0);
    RunKeepsWindow(s0, vs);
  }

  /** When an unlink is about to steal a file, an operation that points to the file without its lock is a write
      that has let go of the file index and is about to take it again; and such a write does point to it. */
  lemma TheftsFindTheWindow(s: Sys, t: Tid, u: Tid, f: Fid)
    requires Reachable(s) && !s.raced && t in s.threads && u in s.threads && t != u
    requires s.threads[t].prog.Do? && s.threads[t].prog.i.ULookup?
    requires s.threads[t].prog.i.path in s.d.fileIndex && s.d.fileIndex[s.threads[t].prog.i.path] == f
    ensures f in FootOf(s.threads[u].prog).files && FileLock(f) !in s.threads[u].held <==> InWindow(s.threads[u].prog, f)
  {
    hide Reachable, LocksAgree, ThreadsAreDisciplined, Sound, InTurn, AllGuarded, Exposed, FootOf, InWindow;
    ReachableWindow(s);
    assert Linked(s.d, f);
    CarelessInWindow(s, t, u, f);
  }

  /** When an unlink is about to draw its ticket for the file it stole, it overtakes exactly the writes that
      are still on their way to the file's lock. */
  lemma OvertakenAreLate(s: Sys, t: Tid, f: Fid)
    requires Reachable(s) && !s.raced && t in s.threads && f in FootOf(s.threads[t].prog).stolen
    requires s.threads[t].prog.Do? && s.threads[t].prog.i.Acq? && s.threads[t].prog.i.l == FileLock(f)
    ensures Overtakes(s, t) <==> exists u :: u in s.threads && IsLate(s, u, f)
  {
    hide Reachable, LocksAgree, ThreadsAreDisciplined, Sound, InTurn, AllGuarded, Exposed, FootOf, Lags;
    ReachableWindow(s);
    forall u | u in s.threads
      ensures u != t && Behind(s, u, f) <==> IsLate(s, u, f)
    {
      BehindIsLate(s, t, u, f);
    }
  }

  /** A write on its way to f's lock that has not drawn its ticket for it. */
  ghost predicate IsLate(s: Sys, u: Tid, f: Fid)
    requires u in s.threads
  {
    Lags(s.threads[u].prog, f) && u !in LockOf(s, FileLock(f)).waiting
  }

  lemma BehindIsLate(s: Sys, t: Tid, u: Tid, f: Fid)
    requires ThreadsAreDisciplined(s) && Exposed(s) && t in s.threads && u in s.threads && f in FootOf(s.threads[t].prog).stolen
    requires s.threads[t].prog.Do? && s.threads[t].prog.i.Acq? && s.threads[t].prog.i.l == FileLock(f)
    ensures u != t && Behind(s, u, f) <==> IsLate(s, u, f)
  {
    assert Disciplined(s.threads[u].held, s.threads[u].prog);
    hide ThreadsAreDisciplined, Exposed, FootOf, Disciplined;
    if u != t && Behind(s, u, f) {
      assert Contested(s, t, u, f);
      ExposedPair(s, t, u, f);
    }
    if Lags(s.threads[u].prog, f) {
      WindowPoints(s.threads[u].held, s.threads[u].prog, f);
      WritesStealNothing(s.threads[u].prog, f);
    }
  }

  /** A write steals nothing. */
  lemma WritesStealNothing(p: Prog, f: Fid)
    requires Lags(p, f)
    ensures FootOf(p).stolen == {}
  {
    var q := if InWindow(p, f) then p.next else p;
    assert FootOf(q.next).stolen == {};
    assert FootOf(q).stolen == {};
  }
}

/** Any number of worker threads running operations over shared data, interleaved instruction by
    instruction, with one ticket lock per file, per block and per index and the two mutexes. */
module Interleaving {
  import opened TicketLock
  import opened Programs
  import opened Discipline

  /** A worker: the locks it holds, the rest of its current operation, and the operations to come. */
  datatype Thread = Thread(held: Held, prog: Prog, todo: seq<Op>)

  /** `raced` turns true when an unlink overtakes another operation on its way to the lock of a file. */
  datatype Sys = Sys(
    locks: map<LockId, Lock>, mutexes: map<LockId, Tid>,
    d: Data, threads: map<Tid, Thread>, raced: bool)

  /** A lock that was never used is as ticket_rwlock_init leaves it. */
  function LockOf(s: Sys, l: LockId): Lock {
    if l in s.locks then s.locks[l] else INIT
  }

  datatype Move =
    | Begin(t: Tid)
    | Acquire(t: Tid)
    | Retry(t: Tid)
    | Release(t: Tid)
    | Exec(t: Tid, order: seq<Ref>)
    | Spurious(t: Tid)

  predicate Inside(l: Lock, t: Tid) {
    t in l.readers || t in l.writers
  }

  ghost predicate CanMove(s: Sys, v: Move) {
    && v.t in s.threads
    && (s.threads[v.t].prog.Do? ==> Defined(s.d, s.threads[v.t].prog.i))
    && var th := s.threads[v.t];
       match v
       case Begin(_) => th.prog == Done && th.todo != []
       case Acquire(t) =>
         && th.prog.Do? && th.prog.i.Acq?
         && var l := th.prog.i.l;
            if IsMutex(l) then l !in s.mutexes else Enabled(LockOf(s, l), Arrive(t, th.prog.i.m))
       case Retry(t) =>
         th.prog.Do? && th.prog.i.Acq? && !IsMutex(th.prog.i.l) && Enabled(LockOf(s, th.prog.i.l), Recheck(t))
       case Release(t) =>
         && th.prog.Do? && th.prog.i.Rel?
         && var l := th.prog.i.l;
            if IsMutex(l) then l in s.mutexes && s.mutexes[l] == t
            else l in th.held && Enabled(LockOf(s, l), Unlock(t, th.held[l]))
       case Exec(_, order) =>
         th.prog.Do? && !th.prog.i.Acq? && !th.prog.i.Rel? && OrderOk(s.d, th.prog.i, order)
       case Spurious(t) =>
         th.prog.Do? && th.prog.i.Acq? && !IsMutex(th.prog.i.l) && Enabled(LockOf(s, th.prog.i.l), Step.Spurious(t))
  }

  /** The thread's lock call went through. */
  function Entered(th: Thread): Thread
    requires th.prog.Do? && th.prog.i.Acq?
  {
    th.(held := th.held[th.prog.i.l := th.prog.i.m], prog := th.prog.next)
  }

  /** What a step of a ticket lock does to the system. */
  ghost function LockMove(s: Sys, t: Tid, l: LockId, step: Step, th: Thread): Sys
    requires Enabled(LockOf(s, l), step)
  {
    s.(locks := s.locks[l := Next(LockOf(s, l), UNBOUNDED, step)], threads := s.threads[t := th])
  }

  ghost function Moved(s: Sys, v: Move): Sys
    requires CanMove(s, v)
  {
    var th := s.threads[v.t];
    match v
    case Begin(t) => s.(threads := s.threads[t := th.(prog := Code(th.todo[0]), todo := th.todo[1..])])
    case Acquire(t) =>
      var l := th.prog.i.l;
      if IsMutex(l) then s.(mutexes := s.mutexes[l := t], threads := s.threads[t := Entered(th)])
      else
        var step := Arrive(t, th.prog.i.m);
        LockMove(s, t, l, step, if Inside(Next(LockOf(s, l), UNBOUNDED, step), t) then Entered(th) else th)
        .(raced := s.raced || Overtakes(s, t))
    case Retry(t) =>
      var l := th.prog.i.l;
      LockMove(s, t, l, Recheck(t), if Inside(Next(LockOf(s, l), UNBOUNDED, Recheck(t)), t) then Entered(th) else th)
    case Release(t) =>
      var l := th.prog.i.l;
      var th1 := th.(held := th.held - {l}, prog := th.prog.next);
      if IsMutex(l) then s.(mutexes := s.mutexes - {l}, threads := s.threads[t := th1])
      else LockMove(s, t, l, Unlock(t, th.held[l]), th1)
    case Exec(t, order) =>
      var i := th.prog.i;
      s.(d := ExecData(s.d, i),
         threads := s.threads[t := th.(prog := ExecProg(s.d, i, th.prog.next, order))])
    case Spurious(t) => LockMove(s, t, th.prog.i.l, Step.Spurious(t), th)
  }

  /** u points to f, but has neither f's lock nor a ticket for it. */
  ghost predicate Behind(s: Sys, u: Tid, f: Fid) {
    && u in s.threads && f in FootOf(s.threads[u].prog).files
    && FileLock(f) !in s.threads[u].held && u !in LockOf(s, FileLock(f)).waiting
  }

  /** The unlink t is about to draw its ticket for the file it stole, ahead of an operation that points to the file. */
  ghost predicate Overtakes(s: Sys, t: Tid) {
    && t in s.threads && s.threads[t].prog.Do? && s.threads[t].prog.i.Acq? && s.threads[t].prog.i.l.FileLock?
    && s.threads[t].prog.i.l.f in FootOf(s.threads[t].prog).stolen
    && exists u :: u != t && Behind(s, u, s.threads[t].prog.i.l.f)
  }

  // ---------- Locks and threads agree ----------

  ghost predicate Waits(th: Thread, l: LockId, m: Mode) {
    th.prog.Do? && th.prog.i == Acq(l, m)
  }

  /** Lock l is safe, its holders are the threads that hold it, its waiters are stopped at it. */
  ghost predicate LockAgrees(s: Sys, l: LockId) {
    var k := LockOf(s, l);
    && TicketLock.Inv(k)
    && (forall t :: t in k.readers <==> t in s.threads && Has(s.threads[t].held, l, Read))
    && (forall t :: t in k.writers <==> t in s.threads && Has(s.threads[t].held, l, Write))
    && (forall t :: t in k.waiting ==> t in s.threads && Waits(s.threads[t], l, k.waiting[t].mode))
  }

  ghost predicate MutexAgrees(s: Sys, l: LockId) {
    && (l in s.mutexes ==> s.mutexes[l] in s.threads)
    && (forall t :: t in s.threads ==>
                      (l in s.threads[t].held <==> l in s.mutexes && s.mutexes[l] == t))
  }

  ghost predicate LocksAgree(s: Sys) {
    && (forall l :: !IsMutex(l) ==> LockAgrees(s, l))
    && (forall l :: IsMutex(l) ==> MutexAgrees(s, l))
  }

  ghost predicate ThreadsAreDisciplined(s: Sys) {
    forall t :: t in s.threads ==> Disciplined(s.threads[t].held, s.threads[t].prog)
  }

  /** No lock was ever used, and every worker is between operations. */
  ghost predicate Idle(s: Sys) {
    && s.locks == map[] && s.mutexes == map[] && !s.raced
    && (forall t :: t in s.threads ==> s.threads[t].held == map[] && s.threads[t].prog == Done)
  }

  // ---------- Every move keeps the agreement ----------

  lemma OtherLocksAgree(s: Sys, s1: Sys, t: Tid, x: LockId)
    requires !IsMutex(x) && LockAgrees(s, x) && t in s.threads && t !in LockOf(s, x).waiting
    requires t in s1.threads && s1.threads == s.threads[t := s1.threads[t]] && LockOf(s1, x) == LockOf(s, x)
    requires forall m :: Has(s1.threads[t].held, x, m) <==> Has(s.threads[t].held, x, m)
    ensures LockAgrees(s1, x)
  {
  }

  lemma MutexStillAgrees(s: Sys, s1: Sys, t: Tid, x: LockId)
    requires IsMutex(x) && MutexAgrees(s, x) && t in s.threads && s1.mutexes == s.mutexes
    requires t in s1.threads && s1.threads == s.threads[t := s1.threads[t]]
    requires x in s1.threads[t].held <==> x in s.threads[t].held
    ensures MutexAgrees(s1, x)
  {
  }

  /** A thread that is not stopped at lock x does not wait for it. */
  lemma WaitsOnlyWhereStopped(s: Sys, t: Tid, x: LockId)
    requires LocksAgree(s) && t in s.threads && !IsMutex(x)
    requires forall m :: !Waits(s.threads[t], x, m)
    ensures t !in LockOf(s, x).waiting
  {
  }

  lemma StoppedAtOneLock(s: Sys, t: Tid)
    requires LocksAgree(s) && t in s.threads && s.threads[t].prog.Do? && s.threads[t].prog.i.Acq?
    ensures forall x :: x != s.threads[t].prog.i.l && !IsMutex(x) ==> t !in LockOf(s, x).waiting
  {
    hide LocksAgree;
    forall x | x != s.threads[t].prog.i.l && !IsMutex(x)
      ensures t !in LockOf(s, x).waiting
    {
      WaitsOnlyWhereStopped(s, t, x);
    }
  }

  /** The lock of a move agrees with the threads again if the mover's bookkeeping matches the lock. */
  lemma MovedLockAgrees(s: Sys, t: Tid, l: LockId, step: Step, th: Thread)
    requires LockAgrees(s, l) && t in s.threads && !IsMutex(l) && step.t == t && Enabled(LockOf(s, l), step)
    requires var n := Next(LockOf(s, l), UNBOUNDED, step);
             && (t in n.readers <==> Has(th.held, l, Read)) && (t in n.writers <==> Has(th.held, l, Write))
             && (t in n.waiting ==> Waits(th, l, n.waiting[t].mode))
    ensures LockAgrees(LockMove(s, t, l, step, th), l)
  {
    hide TicketLock.Inv, Next, Enabled, Waits, Has;
    var k := LockOf(s, l);
    NextKeepsInv(k, step);
    NextEffects(k, step);
  }

  lemma LockMoveAgrees(s: Sys, t: Tid, l: LockId, step: Step, th: Thread)
    requires LocksAgree(s) && t in s.threads && !IsMutex(l) && step.t == t && Enabled(LockOf(s, l), step)
    requires var n := Next(LockOf(s, l), UNBOUNDED, step);
             && (t in n.readers <==> Has(th.held, l, Read)) && (t in n.writers <==> Has(th.held, l, Write))
             && (t in n.waiting ==> Waits(th, l, n.waiting[t].mode))
    requires forall x, m :: x != l ==> (Has(th.held, x, m) <==> Has(s.threads[t].held, x, m))
    requires forall x :: x != l && !IsMutex(x) ==> t !in LockOf(s, x).waiting
    ensures LocksAgree(LockMove(s, t, l, step, th))
  {
    var s1 := LockMove(s, t, l, step, th);
    hide LockAgrees, MutexAgrees, Next;
    forall x | !IsMutex(x)
      ensures LockAgrees(s1, x)
    {
      if x == l { MovedLockAgrees(s, t, l, step, th); } else { OtherLocksAgree(s, s1, t, x); }
    }
    forall x | IsMutex(x)
      ensures MutexAgrees(s1, x)
    {
      HasAnyMode(th.held, s.threads[t].held, x);
      MutexStillAgrees(s, s1, t, x);
    }
  }

  lemma HasAnyMode(a: Held, b: Held, x: LockId)
    requires forall m :: Has(a, x, m) <==> Has(b, x, m)
    ensures x in a <==> x in b
  {
    assert x in a ==> Has(a, x, a[x]);
    assert x in b ==> Has(b, x, b[x]);
  }

  /** A move that touches no lock: the mover's held locks stay the same and it was not stopped at one. */
  lemma QuietMoveAgrees(s: Sys, s1: Sys, t: Tid)
    requires LocksAgree(s) && t in s.threads && s1.locks == s.locks && s1.mutexes == s.mutexes
    requires t in s1.threads && s1.threads == s.threads[t := s1.threads[t]]
    requires s1.threads[t].held == s.threads[t].held
    requires forall x, m :: !Waits(s.threads[t], x, m)
    ensures LocksAgree(s1)
  {
    hide LockAgrees, MutexAgrees;
    forall x | !IsMutex(x)
      ensures LockAgrees(s1, x)
    {
      WaitsOnlyWhereStopped(s, t, x);
      OtherLocksAgree(s, s1, t, x);
    }
    forall x | IsMutex(x)
      ensures MutexAgrees(s1, x)
    {
      MutexStillAgrees(s, s1, t, x);
    }
  }

  /** What the discipline says about the next instruction. */
  lemma NextInstr(held: Held, p: Prog)
    requires Disciplined(held, p) && p.Do?
    ensures p.i.Acq? ==> Above(held, p.i.l) && p.i.l !in held && Disciplined(held[p.i.l := p.i.m], p.next)
    ensures p.i.Acq? && IsMutex(p.i.l) ==> p.i.m == Write
    ensures p.i.Rel? ==> p.i.l in held && Disciplined(held - {p.i.l}, p.next)
    ensures !p.i.Acq? && !p.i.Rel? && !p.i.UTest? ==> held == if Branches(p.i) then Needs(p.i) else HeldAfter(held, p.i)
  {
    hide Needs;
  }

  lemma AcquireAgrees(s: Sys, t: Tid)
    requires LocksAgree(s) && ThreadsAreDisciplined(s) && CanMove(s, Acquire(t))
    ensures LocksAgree(Moved(s, Acquire(t)))
  {
    hide LocksAgree, ThreadsAreDisciplined, Disciplined, Next;
    var th := s.threads[t];
    var l := th.prog.i.l;
    ThreadIsDisciplined(s, t);
    NextInstr(th.held, th.prog);
    if IsMutex(l) {
      MutexTaken(s, t, l);
    } else {
      var th1 := if Inside(Next(LockOf(s, l), UNBOUNDED, Arrive(t, th.prog.i.m)), t) then Entered(th) else th;
      TicketDrawn(s, t, l, th.prog.i.m, th1);
      FlagIsNoLock(LockMove(s, t, l, Arrive(t, th.prog.i.m), th1), s.raced || Overtakes(s, t));
    }
  }

  /** A ticket is drawn, and the thread is in or waits. */
  lemma TicketDrawn(s: Sys, t: Tid, l: LockId, m: Mode, th1: Thread)
    requires t in s.threads && Waits(s.threads[t], l, m) && !IsMutex(l) && Enabled(LockOf(s, l), Arrive(t, m))
    requires l !in s.threads[t].held
    requires th1 == if Inside(Next(LockOf(s, l), UNBOUNDED, Arrive(t, m)), t) then Entered(s.threads[t]) else s.threads[t]
    requires LocksAgree(s)
    ensures LocksAgree(LockMove(s, t, l, Arrive(t, m), th1))
  {
    LockIsSafe(s, l);
    NextOwnEffects(LockOf(s, l), Arrive(t, m));
    StoppedAtOneLock(s, t);
    hide LocksAgree, TicketLock.Inv, Next, Enabled;
    LockMoveAgrees(s, t, l, Arrive(t, m), th1);
  }

  lemma FlagIsNotTheLock(s: Sys, raced: bool, l: LockId)
    ensures LockAgrees(s, l) ==> LockAgrees(s.(raced := raced), l)
    ensures MutexAgrees(s, l) ==> MutexAgrees(s.(raced := raced), l)
  {
    hide TicketLock.Inv, Has, Waits;
    assert LockOf(s.(raced := raced), l) == LockOf(s, l);
  }

  lemma FlagIsNoLock(s: Sys, raced: bool)
    requires LocksAgree(s)
    ensures LocksAgree(s.(raced := raced))
  {
    hide LockAgrees, MutexAgrees;
    forall l
      ensures LockAgrees(s, l) ==> LockAgrees(s.(raced := raced), l)
      ensures MutexAgrees(s, l) ==> MutexAgrees(s.(raced := raced), l)
    {
      FlagIsNotTheLock(s, raced, l);
    }
  }

  lemma LockIsSafe(s: Sys, l: LockId)
    requires LocksAgree(s) && !IsMutex(l)
    ensures TicketLock.Inv(LockOf(s, l))
  {
    assert LockAgrees(s, l);
  }

  lemma MutexTaken(s: Sys, t: Tid, l: LockId)
    requires LocksAgree(s) && CanMove(s, Acquire(t)) && IsMutex(s.threads[t].prog.i.l) && s.threads[t].prog.i.l == l
    ensures LocksAgree(Moved(s, Acquire(t)))
  {
    var s1 := Moved(s, Acquire(t));
    forall x | !IsMutex(x)
      ensures LockAgrees(s1, x)
    {
      WaitsOnlyWhereStopped(s, t, x);
      OtherLocksAgree(s, s1, t, x);
    }
    forall x | IsMutex(x)
      ensures MutexAgrees(s1, x)
    {
      assert MutexAgrees(s, x);
    }
  }

  lemma WaiterFacts(s: Sys, t: Tid, l: LockId)
    requires LocksAgree(s) && !IsMutex(l) && t in LockOf(s, l).waiting
    ensures t in s.threads && Waits(s.threads[t], l, LockOf(s, l).waiting[t].mode)
  {
    assert LockAgrees(s, l);
  }

  lemma ThreadIsDisciplined(s: Sys, t: Tid)
    requires ThreadsAreDisciplined(s) && t in s.threads
    ensures Disciplined(s.threads[t].held, s.threads[t].prog)
  {
  }

  /** A waiting thread looks again, and is in or goes on waiting. */
  lemma TicketRechecked(s: Sys, t: Tid, l: LockId, m: Mode, th1: Thread)
    requires t in s.threads && Waits(s.threads[t], l, m) && !IsMutex(l) && Enabled(LockOf(s, l), Recheck(t))
    requires l !in s.threads[t].held
    requires th1 == if Inside(Next(LockOf(s, l), UNBOUNDED, Recheck(t)), t) then Entered(s.threads[t]) else s.threads[t]
    requires LocksAgree(s)
    ensures LocksAgree(LockMove(s, t, l, Recheck(t), th1))
  {
    LockIsSafe(s, l);
    WaiterFacts(s, t, l);
    NextOwnEffects(LockOf(s, l), Recheck(t));
    NextEffects(LockOf(s, l), Recheck(t));
    StoppedAtOneLock(s, t);
    hide LocksAgree, TicketLock.Inv, Next, Enabled;
    LockMoveAgrees(s, t, l, Recheck(t), th1);
  }

  lemma RetryAgrees(s: Sys, t: Tid)
    requires LocksAgree(s) && ThreadsAreDisciplined(s) && CanMove(s, Retry(t))
    ensures LocksAgree(Moved(s, Retry(t)))
  {
    hide LocksAgree, ThreadsAreDisciplined, Disciplined, Next;
    var th := s.threads[t];
    var l := th.prog.i.l;
    ThreadIsDisciplined(s, t);
    NextInstr(th.held, th.prog);
    TicketRechecked(s, t, l, th.prog.i.m, if Inside(Next(LockOf(s, l), UNBOUNDED, Recheck(t)), t) then Entered(th) else th);
  }

  lemma ReleaseAgrees(s: Sys, t: Tid)
    requires LocksAgree(s) && CanMove(s, Release(t))
    ensures LocksAgree(Moved(s, Release(t)))
  {
    var th := s.threads[t];
    var l := th.prog.i.l;
    hide LockAgrees, MutexAgrees;
    if IsMutex(l) {
      MutexReleased(s, t, l);
    } else {
      var step := Unlock(t, th.held[l]);
      LockIsSafe(s, l);
      NextOwnEffects(LockOf(s, l), step);
      forall x | !IsMutex(x)
        ensures t !in LockOf(s, x).waiting
      {
        WaitsOnlyWhereStopped(s, t, x);
      }
      LockMoveAgrees(s, t, l, step, th.(held := th.held - {l}, prog := th.prog.next));
    }
  }

  lemma MutexReleased(s: Sys, t: Tid, l: LockId)
    requires LocksAgree(s) && CanMove(s, Release(t)) && IsMutex(s.threads[t].prog.i.l) && s.threads[t].prog.i.l == l
    ensures LocksAgree(Moved(s, Release(t)))
  {
    var s1 := Moved(s, Release(t));
    forall x | !IsMutex(x)
      ensures LockAgrees(s1, x)
    {
      WaitsOnlyWhereStopped(s, t, x);
      OtherLocksAgree(s, s1, t, x);
    }
    forall x | IsMutex(x)
      ensures MutexAgrees(s1, x)
    {
      assert MutexAgrees(s, x);
    }
  }

  lemma SpuriousAgrees(s: Sys, t: Tid)
    requires LocksAgree(s) && CanMove(s, Move.Spurious(t))
    ensures LocksAgree(Moved(s, Move.Spurious(t)))
  {
    var th := s.threads[t];
    var l := th.prog.i.l;
    assert LockAgrees(s, l);
    NextOwnEffects(LockOf(s, l), Step.Spurious(t));
    NextEffects(LockOf(s, l), Step.Spurious(t));
    hide LockAgrees, MutexAgrees;
    StoppedAtOneLock(s, t);
    LockMoveAgrees(s, t, l, Step.Spurious(t), th);
  }

  lemma MoveAgrees(s: Sys, v: Move)
    requires LocksAgree(s) && ThreadsAreDisciplined(s) && CanMove(s, v)
    ensures LocksAgree(Moved(s, v))
  {
    hide LocksAgree, ThreadsAreDisciplined;
    match v
    case Begin(t) => QuietMoveAgrees(s, Moved(s, v), t);
    case Acquire(t) => AcquireAgrees(s, t);
    case Retry(t) => RetryAgrees(s, t);
    case Release(t) => ReleaseAgrees(s, t);
    case Exec(t, _) => QuietMoveAgrees(s, Moved(s, v), t);
    case Spurious(t) => SpuriousAgrees(s, t);
  }

  lemma MoverIsDisciplined(s: Sys, v: Move)
    requires ThreadsAreDisciplined(s) && CanMove(s, v)
    ensures Disciplined(Moved(s, v).threads[v.t].held, Moved(s, v).threads[v.t].prog)
  {
    var th := s.threads[v.t];
    match v
    case Begin(t) => CodeIsDisciplined(th.todo[0]);
    case Acquire(t) => NextInstr(th.held, th.prog);
    case Retry(t) => NextInstr(th.held, th.prog);
    case Release(t) => NextInstr(th.held, th.prog);
    case Exec(t, order) =>
      NextInstr(th.held, th.prog);
      ExecIsDisciplined(s.d, th.held, th.prog.i, th.prog.next, order);
    case Spurious(t) =>
  }

  lemma OthersStay(s: Sys, v: Move)
    requires CanMove(s, v)
    ensures v.t in s.threads && v.t in Moved(s, v).threads && Moved(s, v).threads == s.threads[v.t := Moved(s, v).threads[v.t]]
  {
  }

  /** Whatever the shared data looks like, every reachable state has consistent locks and disciplined threads. */
  lemma MoveKeepsLocks(s: Sys, v: Move)
    requires LocksAgree(s) && ThreadsAreDisciplined(s) && CanMove(s, v)
    ensures LocksAgree(Moved(s, v)) && ThreadsAreDisciplined(Moved(s, v))
  {
    MoveAgrees(s, v);
    MoverIsDisciplined(s, v);
    OthersStay(s, v);
    hide LocksAgree, Disciplined, Moved, CanMove;
  }

  lemma IdleLocks(s: Sys)
    requires Idle(s)
    ensures LocksAgree(s) && ThreadsAreDisciplined(s)
  {
  }

  /** Mutual exclusion: two threads hold the same ticket lock only if both hold it for reading, and never the same mutex. */
  lemma Exclusion(s: Sys, l: LockId, t: Tid, u: Tid)
    requires LocksAgree(s) && t in s.threads && u in s.threads
    requires l in s.threads[t].held && l in s.threads[u].held && t != u
    ensures !IsMutex(l) && Has(s.threads[t].held, l, Read) && Has(s.threads[u].held, l, Read)
  {
    hide LocksAgree;
    if IsMutex(l) {
      MutexHolder(s, l, t);
      MutexHolder(s, l, u);
    } else {
      TicketHolder(s, l, t);
      TicketHolder(s, l, u);
      LockIsSafe(s, l);
      hide TicketLock.Inv;
      if t in LockOf(s, l).writers {
        WriterIsAlone(LockOf(s, l), t, u);
      } else if u in LockOf(s, l).writers {
        WriterIsAlone(LockOf(s, l), u, t);
      }
    }
  }

  lemma MutexHolder(s: Sys, l: LockId, t: Tid)
    requires LocksAgree(s) && t in s.threads && IsMutex(l) && l in s.threads[t].held
    ensures l in s.mutexes && s.mutexes[l] == t
  {
    assert MutexAgrees(s, l);
  }

  lemma TicketHolder(s: Sys, l: LockId, t: Tid)
    requires LocksAgree(s) && t in s.threads && !IsMutex(l) && l in s.threads[t].held
    ensures t in LockOf(s, l).readers <==> Has(s.threads[t].held, l, Read)
    ensures t in LockOf(s, l).writers <==> Has(s.threads[t].held, l, Write)
  {
    assert LockAgrees(s, l);
  }
}

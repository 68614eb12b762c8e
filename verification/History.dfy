/** Every move of the interleaved system is a decisive step of one operation on the table of files, or leaves
    the table as it is. */
module History {
  import opened Basics
  import opened TicketLock
  import opened Programs
  import opened Discipline
  import opened Interleaving
  import opened RefCounts
  import opened QuietSteps
  import opened DataSteps
  import opened Concurrency
  import opened Ahead
  import Crossing
  import FileSteps

  // ---------- The table of a state ----------

  ghost predicate IsWriter(s: Sys, f: Fid, t: Tid) {
    t in s.threads && Has(s.threads[t].held, FileLock(f), Write)
  }

  /** What the thread with the exclusive lock of f still has to do to it. */
  ghost function WriterRest(s: Sys, f: Fid): Rest {
    if exists t :: IsWriter(s, f, t) then
      var t :| IsWriter(s, f, t);
      RestOf(f, s.threads[t].prog)
    else NONE
  }

  /** A file as it will be when r is through. */
  function Through(file: File, r: Rest): Entry {
    Entry(HashesOf(file.list) + r.adds, Larger(file.size, r.size))
  }

  /** The file as it will be when the write in progress, if there is one, is through. */
  ghost function EntryOf(s: Sys, f: Fid): Entry
    requires f in s.d.files
  {
    Through(s.d.files[f], WriterRest(s, f))
  }

  ghost function TableOf(s: Sys): Table {
    map p | p in s.d.fileIndex && s.d.fileIndex[p] in s.d.files :: EntryOf(s, s.d.fileIndex[p])
  }

  // ---------- Who has something to do to a file ----------

  /** Only the thread with the exclusive lock of a file has something left to do to it. */
  ghost predicate RestNeedsLock(held: Held, p: Prog) {
    forall f :: !Has(held, FileLock(f), Write) ==> RestOf(f, p) == NONE
  }

  /** p begins with looking at f: a getattr at its size, or a read that is about to let go of the file index. */
  predicate Looks(p: Prog, f: Fid) {
    || p == Do(GStat(f), Do(Rel(FileLock(f)), Do(Rel(FileIndex), Done)))
    || (p.Do? && p.i == Rel(FileIndex) && p.next.Do? && p.next.i.RRange? && p.next.i.f == f && p.next.next == Done)
  }

  predicate LooksSoon(p: Prog, f: Fid) {
    Looks(p, f) || (p.Do? && p.i == Acq(FileLock(f), Read) && Looks(p.next, f))
  }

  /** A read that has let go of the file index. */
  predicate AtRange(p: Prog) {
    p.Do? && p.i.RRange? && p.next == Done
  }

  predicate AtCollect(p: Prog) {
    p.Do? && p.i.RCollect? && p.next == Done
  }

  predicate CollectsSoon(p: Prog) {
    AtCollect(p) || (p.Do? && p.i == Acq(BlockIndex, Read) && AtCollect(p.next))
  }

  /** As long as a getattr or a read is about to look at a file and has not let go of the file index, its lock keeps the
      file in the index. */
  ghost predicate ViewGuarded(d: Data, held: Held, p: Prog) {
    !Views(p) || AtRange(p) || CollectsSoon(p) || exists f :: LooksSoon(p, f) && FileIndex in held && IsNamed(d, f)
  }

  ghost predicate Careful(d: Data, th: Thread) {
    RestNeedsLock(th.held, th.prog) && ViewGuarded(d, th.held, th.prog)
  }

  ghost predicate AllCareful(s: Sys) {
    forall t :: t in s.threads ==> Careful(s.d, s.threads[t])
  }

  /** A thread with something left to append steals nothing. */
  lemma {:induction false} WriterStealsNothing(held: Held, p: Prog, f: Fid)
    requires Disciplined(held, p) && RestOf(f, p) != NONE
    ensures f in FootOf(p).files && FootOf(p).stolen == {}
    decreases p
  {
    var i, next := p.i, p.next;
    assert p == Do(i, next) && FootOf(p) == Join(InstrFoot(i), FootOf(next)) && RestOf(f, p) == RestAt(f, i, RestOf(f, next));
    assert Allowed(held, i, next) && Disciplined(HeldAfter(held, i), next);
    hide Disciplined, FootOf, RestOf;
    if RestOf(f, next) != NONE {
      NoneIsDone(f);
      WriterStealsNothing(HeldAfter(held, i), next, f);
      GoesOnWriting(held, i, next);
    } else {
      BeginsToWrite(held, i, next, f);
    }
  }

  lemma NoneIsDone(f: Fid)
    ensures RestOf(f, Done) == NONE
  {
  }

  lemma GoesOnWriting(held: Held, i: Instr, next: Prog)
    requires Allowed(held, i, next) && next != Done
    ensures InstrFoot(i).stolen == {}
  {
    hide FootOf;
  }

  lemma BeginsToWrite(held: Held, i: Instr, next: Prog, f: Fid)
    requires Allowed(held, i, next) && RestAt(f, i, NONE) != NONE
    ensures f in InstrFoot(i).files && InstrFoot(i).stolen == {} && FootOf(next).stolen == {}
  {
    FootOfDone();
    hide FootOf;
  }

  lemma ReleaseLeavesNothing(held: Held, f: Fid, next: Prog)
    requires Disciplined(held, Do(Rel(FileLock(f)), next))
    ensures RestOf(f, next) == NONE
  {
    if RestOf(f, next) != NONE {
      WriterStealsNothing(held - {FileLock(f)}, next, f);
      assert false;
    }
  }

  lemma PopLockAhead(d: Data, f: Fid, i: Instr, next: Prog)
    requires i.Acq? || i.Rel?
    ensures RestOf(f, next) == RestOf(f, Do(i, next)) && Preads(next) == Preads(Do(i, next)) && (Views(next) <==> Views(Do(i, next)))
    ensures i.Acq? || i.l != FileIndex ==> SameAhead(d, f, Do(i, next), next)
  {
    hide EventsAhead, RestOf, Preads, Views;
    PopOne(d, f, i, next);
    if IsIdle(i) { PopIdle(d, f, i, next); }
  }

  lemma NoneBefore(f: Fid, i: Instr, r: Rest)
    requires RestAt(f, i, r) == NONE
    ensures r == NONE
  {
  }

  /** Executing an instruction gives something to do only to a file that is locked. */
  lemma ExecRest(d: Data, held: Held, i: Instr, next: Prog, order: seq<Ref>, f: Fid)
    requires Defined(d, i) && FilesOk(d) && HashesRight(d) && !i.Acq? && !i.Rel? && Disciplined(held, Do(i, next))
    requires !Has(held, FileLock(f), Write) && RestOf(f, Do(i, next)) == NONE
    ensures RestOf(f, ExecProg(d, i, next, order)) == NONE
  {
    hide RestOf, EventsAhead, Preads, Views, ExecProg, ExecData, FilesOk, HashesRight, Disciplined;
    BranchFacts(held, i, next);
    if Branches(i) {
      BranchLeaves(d, f, i, order);
    } else {
      StepAhead(d, d, f, i, next, order);
      PopOne(d, f, i, next);
      NoneBefore(f, i, RestOf(f, next));
    }
  }

  lemma MoverFacts(s: Sys, v: Move)
    requires CanMove(s, v) && ThreadsAreDisciplined(s) && Sound(s)
    ensures FilesOk(s.d) && HashesRight(s.d) && Disciplined(s.threads[v.t].held, s.threads[v.t].prog)
  {
    SoundBlocks(s);
    SoundFiles(s);
    hide Sound, Disciplined, OrderOk, References;
  }

  /** What move v makes of its own thread and of the shared data. */
  ghost predicate ThreadMoves(d: Data, v: Move, th: Thread, d1: Data, th1: Thread) {
    match v
    case Begin(_) =>
      th.prog == Done && th.todo != [] && d1 == d && th1 == th.(prog := Code(th.todo[0]), todo := th.todo[1..])
    case Exec(_, order) =>
      && th.prog.Do? && !th.prog.i.Acq? && !th.prog.i.Rel? && Defined(d, th.prog.i) && OrderOk(d, th.prog.i, order)
      && d1 == ExecData(d, th.prog.i) && th1 == th.(prog := ExecProg(d, th.prog.i, th.prog.next, order))
    case Release(_) =>
      th.prog.Do? && th.prog.i.Rel? && d1 == d && th1 == th.(held := th.held - {th.prog.i.l}, prog := th.prog.next)
    case _ => th.prog.Do? && th.prog.i.Acq? && d1 == d && (th1 == th || th1 == Entered(th))
  }

  lemma MoverThread(s: Sys, v: Move)
    requires CanMove(s, v)
    ensures v.t in s.threads && v.t in Moved(s, v).threads
    ensures ThreadMoves(s.d, v, s.threads[v.t], Moved(s, v).d, Moved(s, v).threads[v.t])
  {
    hide ExecData, ExecProg, Next, OrderOk, Code, Overtakes, Enabled;
  }

  /** Data and programs are in order. */
  ghost predicate Ready(d: Data, th: Thread) {
    FilesOk(d) && HashesRight(d) && Disciplined(th.held, th.prog)
  }

  lemma KeepsNeedingLock(d: Data, v: Move, th: Thread, d1: Data, th1: Thread, f: Fid)
    requires ThreadMoves(d, v, th, d1, th1) && Ready(d, th) && !Has(th1.held, FileLock(f), Write)
    requires !Has(th.held, FileLock(f), Write) ==> RestOf(f, th.prog) == NONE
    ensures RestOf(f, th1.prog) == NONE
  {
    hide RestOf, ExecProg, ExecData, FilesOk, HashesRight, Code, Defined, OrderOk, Views, EventsAhead, Preads, Disciplined;
    match v
    case Begin(_) => CodeAhead(d, f, th.todo[0]);
    case Exec(_, order) => ExecRest(d, th.held, th.prog.i, th.prog.next, order, f);
    case Release(_) =>
      PopLockAhead(d, f, th.prog.i, th.prog.next);
      if th.prog.i.l == FileLock(f) { ReleaseLeavesNothing(th.held, f, th.prog.next); }
    case _ =>
      PopLockAhead(d, f, th.prog.i, th.prog.next);
      NextInstr(th.held, th.prog);
  }

  lemma MoverNeedsLock(d: Data, v: Move, th: Thread, d1: Data, th1: Thread)
    requires ThreadMoves(d, v, th, d1, th1) && Ready(d, th) && RestNeedsLock(th.held, th.prog)
    ensures RestNeedsLock(th1.held, th1.prog)
  {
    hide ThreadMoves, Ready, RestOf;
    forall f | !Has(th1.held, FileLock(f), Write)
      ensures RestOf(f, th1.prog) == NONE
    {
      KeepsNeedingLock(d, v, th, d1, th1, f);
    }
  }

  // ---------- Who looks at a file ----------

  lemma LookingEnds(p: Prog, f: Fid)
    requires Looks(p, f)
    ensures p.Do? && (p.i == GStat(f) || p.i == Rel(FileIndex))
    ensures !Views(p.next) || AtRange(p.next)
  {
    assert !Views(Do(Rel(FileIndex), Done));
    assert !Views(Do(Rel(FileLock(f)), Do(Rel(FileIndex), Done)));
  }

  lemma SoonThenNow(p: Prog, f: Fid)
    requires LooksSoon(p, f) && p.i.Acq?
    ensures Looks(p.next, f)
  {
  }

  lemma BranchViews(d: Data, held: Held, i: Instr, order: seq<Ref>)
    requires Defined(d, i) && FilesOk(d) && HashesRight(d) && Branches(i) && held == Needs(i)
    ensures ViewGuarded(ExecData(d, i), held, ExecProg(d, i, Done, order))
  {
    hide Views, RestOf, EventsAhead, Preads, FilesOk, HashesRight;
    BranchLeaves(d, 0, i, order);
    if (i.GLookup? || i.RLookup?) && i.path in d.fileIndex {
      LookupLooks(d, i, order);
    }
  }

  lemma ExecViews(d: Data, held: Held, i: Instr, next: Prog, order: seq<Ref>)
    requires Defined(d, i) && FilesOk(d) && HashesRight(d) && !i.Acq? && !i.Rel? && Disciplined(held, Do(i, next))
    requires ViewGuarded(d, held, Do(i, next))
    ensures ViewGuarded(ExecData(d, i), held, ExecProg(d, i, next, order))
  {
    hide Views, RestOf, EventsAhead, Preads, FilesOk, HashesRight, Disciplined, ExecData, ExecProg, Needs;
    BranchFacts(held, i, next);
    if Branches(i) {
      BranchViews(d, held, i, order);
    } else {
      StepAhead(d, d, 0, i, next, order);
      PopOne(d, 0, i, next);
      if Views(Do(i, next)) {
        var f :| LooksSoon(Do(i, next), f) && FileIndex in held && IsNamed(d, f);
        LookingEnds(Do(i, next), f);
      }
    }
  }

  lemma LookupLooks(d: Data, i: Instr, order: seq<Ref>)
    requires (i.GLookup? || i.RLookup?) && i.path in d.fileIndex && FilesOk(d)
    ensures var f := d.fileIndex[i.path];
            LooksSoon(ExecProg(d, i, Done, order), f) && IsNamed(d, f) && FileIndex in Needs(i) && ExecData(d, i) == d
  {
  }

  lemma LockMoveViews(d: Data, held: Held, i: Instr, next: Prog, held1: Held)
    requires (i.Acq? && held1 == held[i.l := i.m]) || (i.Rel? && held1 == held - {i.l})
    requires ViewGuarded(d, held, Do(i, next))
    ensures ViewGuarded(d, held1, next)
  {
    hide RestOf, Views, EventsAhead, Preads, IsNamed;
    PopLockAhead(d, 0, i, next);
    var p := Do(i, next);
    if Views(p) && !CollectsSoon(p) {
      var f :| LooksSoon(p, f) && FileIndex in held && IsNamed(d, f);
      if i.Acq? {
        SoonThenNow(p, f);
        assert LooksSoon(next, f) && FileIndex in held1;
      } else {
        LookingEnds(p, f);
      }
    }
  }

  lemma MoverViews(d: Data, v: Move, th: Thread, d1: Data, th1: Thread)
    requires ThreadMoves(d, v, th, d1, th1) && Ready(d, th) && ViewGuarded(d, th.held, th.prog)
    ensures ViewGuarded(d1, th1.held, th1.prog)
  {
    hide RestOf, ExecProg, ExecData, FilesOk, HashesRight, Code, Defined, OrderOk, Views, EventsAhead, Preads, Disciplined, IsNamed;
    match v
    case Begin(_) => CodeAhead(d, 0, th.todo[0]);
    case Exec(_, order) => ExecViews(d, th.held, th.prog.i, th.prog.next, order);
    case Release(_) => LockMoveViews(d, th.held, th.prog.i, th.prog.next, th1.held);
    case _ => if th1 != th { LockMoveViews(d, th.held, th.prog.i, th.prog.next, th1.held); }
  }

  // ---------- What the others do ----------

  /** The file index changes only under its exclusive lock. */
  lemma ExecIndex(d: Data, held: Held, i: Instr, next: Prog)
    requires Defined(d, i) && Disciplined(held, Do(i, next)) && !Has(held, FileIndex, Write)
    ensures ExecData(d, i).fileIndex == d.fileIndex
  {
    BranchFacts(held, i, next);
    if i.WAlloc? { FileSteps.AllocKeepsRest(d, i.bs); }
    hide Disciplined;
  }

  lemma IndexIsKept(s: Sys, v: Move, u: Tid)
    requires CanMove(s, v) && LocksAgree(s) && ThreadsAreDisciplined(s)
    requires u in s.threads && u != v.t && FileIndex in s.threads[u].held
    ensures Moved(s, v).d.fileIndex == s.d.fileIndex
  {
    MoverThread(s, v);
    ThreadIsDisciplined(s, v.t);
    hide LocksAgree, ThreadsAreDisciplined, Disciplined, ExecData, ExecProg, CanMove, Moved;
    var th := s.threads[v.t];
    if Has(th.held, FileIndex, Write) {
      Exclusion(s, FileIndex, v.t, u);
    }
    if v.Exec? { ExecIndex(s.d, th.held, th.prog.i, th.prog.next); }
  }

  /** A file of the index stays what it is. */
  lemma NamedStays(s: Sys, v: Move, f: Fid)
    requires CanMove(s, v) && IsNamed(s.d, f) && FilesOk(s.d) && FilesOk(Moved(s, v).d)
    requires Moved(s, v).d.fileIndex == s.d.fileIndex
    ensures IsNamed(Moved(s, v).d, f)
  {
    MoverThread(s, v);
    var path := s.d.files[f].id;
    assert path in s.d.fileIndex && s.d.fileIndex[path] == f;
    hide FilesOk, ExecData, ExecProg, CanMove, Moved;
    IndexedExists(Moved(s, v).d, path);
    if v.Exec? { Crossing.ExecKeepsIds(s.d, s.threads[v.t].prog.i, f); }
  }

  lemma IndexedExists(d: Data, path: Path)
    requires FilesOk(d) && path in d.fileIndex
    ensures d.fileIndex[path] in d.files && d.files[d.fileIndex[path]].id == path
  {
  }

  lemma OtherViews(s: Sys, v: Move, u: Tid)
    requires CanMove(s, v) && LocksAgree(s) && ThreadsAreDisciplined(s) && FilesOk(s.d) && FilesOk(Moved(s, v).d)
    requires u in s.threads && u != v.t && ViewGuarded(s.d, s.threads[u].held, s.threads[u].prog)
    ensures ViewGuarded(Moved(s, v).d, s.threads[u].held, s.threads[u].prog)
  {
    hide LocksAgree, ThreadsAreDisciplined, FilesOk, CanMove, Moved, IsNamed, Views, LooksSoon, AtRange, CollectsSoon;
    var th := s.threads[u];
    if f :| LooksSoon(th.prog, f) && FileIndex in th.held && IsNamed(s.d, f) {
      IndexIsKept(s, v, u);
      NamedStays(s, v, f);
    }
  }

  lemma MoverIsCareful(s: Sys, v: Move)
    requires CanMove(s, v) && v.t in s.threads && v.t in Moved(s, v).threads
    requires Careful(s.d, s.threads[v.t])
    requires ThreadsAreDisciplined(s) && Sound(s)
    ensures Careful(Moved(s, v).d, Moved(s, v).threads[v.t])
  {
    hide ThreadsAreDisciplined, Sound, FilesOk, HashesRight, CanMove, Moved, RestNeedsLock, ViewGuarded, ThreadMoves, Disciplined;
    MoverThread(s, v);
    MoverFacts(s, v);
    var th, d1, th1 := s.threads[v.t], Moved(s, v).d, Moved(s, v).threads[v.t];
    MoverNeedsLock(s.d, v, th, d1, th1);
    MoverViews(s.d, v, th, d1, th1);
  }

  lemma OtherIsCareful(s: Sys, v: Move, u: Tid)
    requires CanMove(s, v) && LocksAgree(s) && ThreadsAreDisciplined(s) && FilesOk(s.d) && FilesOk(Moved(s, v).d)
    requires u in s.threads && u != v.t && Careful(s.d, s.threads[u])
    ensures Careful(Moved(s, v).d, s.threads[u])
  {
    hide LocksAgree, ThreadsAreDisciplined, FilesOk, CanMove, Moved, RestNeedsLock, ViewGuarded;
    OtherViews(s, v, u);
  }

  lemma MoveKeepsCare(s: Sys, v: Move)
    requires CanMove(s, v) && LocksAgree(s) && ThreadsAreDisciplined(s) && Sound(s) && Sound(Moved(s, v)) && AllCareful(s)
    ensures AllCareful(Moved(s, v))
  {
    hide LocksAgree, ThreadsAreDisciplined, Sound, FilesOk, CanMove, Moved, Careful;
    OthersStay(s, v);
    SoundFiles(s);
    SoundFiles(Moved(s, v));
    var s1 := Moved(s, v);
    forall t | t in s1.threads
      ensures Careful(s1.d, s1.threads[t])
    {
      if t == v.t { MoverIsCareful(s, v); } else { OtherIsCareful(s, v, t); }
    }
  }

  // ---------- What a move makes of a file ----------

  lemma WriterIs(s: Sys, f: Fid, t: Tid)
    requires LocksAgree(s) && IsWriter(s, f, t)
    ensures WriterRest(s, f) == RestOf(f, s.threads[t].prog)
  {
    hide LocksAgree, RestOf;
    forall u | IsWriter(s, f, u)
      ensures u == t
    {
      if u != t { Exclusion(s, FileLock(f), t, u); }
    }
  }

  /** Whoever writes, what is left to do to f is what t has left, if t has anything left at all. */
  lemma RestIs(s: Sys, f: Fid, t: Tid)
    requires LocksAgree(s) && AllCareful(s) && t in s.threads && RestOf(f, s.threads[t].prog) != NONE
    ensures IsWriter(s, f, t) && WriterRest(s, f) == RestOf(f, s.threads[t].prog)
  {
    hide LocksAgree, RestOf, ViewGuarded;
    assert Careful(s.d, s.threads[t]);
    WriterIs(s, f, t);
  }

  /** If t has nothing left to do to f before and after, neither is there a change. */
  lemma BystanderRest(s: Sys, s1: Sys, f: Fid, t: Tid)
    requires LocksAgree(s) && LocksAgree(s1)
    requires t in s.threads && t in s1.threads && s1.threads == s.threads[t := s1.threads[t]]
    requires RestOf(f, s.threads[t].prog) == NONE == RestOf(f, s1.threads[t].prog)
    ensures WriterRest(s1, f) == WriterRest(s, f)
  {
    hide LocksAgree, RestOf, WriterRest;
    if u :| IsWriter(s, f, u) && u != t {
      assert IsWriter(s1, f, u);
      WriterIs(s, f, u);
      WriterIs(s1, f, u);
    } else {
      assert forall u :: IsWriter(s1, f, u) && u != t ==> IsWriter(s, f, u);
      OnlyWriter(s, f, t);
      OnlyWriter(s1, f, t);
    }
  }

  lemma OnlyWriter(s: Sys, f: Fid, t: Tid)
    requires LocksAgree(s) && t in s.threads && RestOf(f, s.threads[t].prog) == NONE
    requires forall u :: IsWriter(s, f, u) ==> u == t
    ensures WriterRest(s, f) == NONE
  {
    hide LocksAgree, RestOf;
  }

  lemma SameRest(s: Sys, s1: Sys, f: Fid, t: Tid)
    requires LocksAgree(s) && LocksAgree(s1) && AllCareful(s) && AllCareful(s1)
    requires t in s.threads && t in s1.threads && s1.threads == s.threads[t := s1.threads[t]]
    requires RestOf(f, s.threads[t].prog) == RestOf(f, s1.threads[t].prog)
    ensures WriterRest(s1, f) == WriterRest(s, f)
  {
    hide LocksAgree, RestOf, WriterRest, AllCareful;
    if RestOf(f, s.threads[t].prog) == NONE {
      BystanderRest(s, s1, f, t);
    } else {
      RestIs(s, f, t);
      RestIs(s1, f, t);
    }
  }

  /** Moves other than executing change nothing of any file. */
  lemma LockMoveRest(d: Data, v: Move, th: Thread, d1: Data, th1: Thread, f: Fid)
    requires ThreadMoves(d, v, th, d1, th1) && !v.Exec?
    ensures RestOf(f, th1.prog) == RestOf(f, th.prog) && d1 == d
  {
    hide RestOf, ExecProg, ExecData, Code, Defined, OrderOk, Views, EventsAhead, Preads;
    if v.Begin? {
      CodeAhead(d, f, th.todo[0]);
      NothingAhead(d, f);
    } else {
      PopLockAhead(d, f, th.prog.i, th.prog.next);
    }
  }

  /** The instruction is a write's check of the position of f, and the position is right. */
  predicate Accepts(d: Data, i: Instr, f: Fid) {
    i.WCheck? && i.f == f && f in d.files && i.off == d.files[f].size
  }

  lemma AppendThrough(file: File, r: Rest, b: Ref)
    ensures Through(file.(list := file.list + [b]), r) == Through(file, With(r, [b.hash], 0))
  {
    assert HashesOf(file.list + [b]) + r.adds == HashesOf(file.list) + ([b.hash] + r.adds);
  }

  lemma SizeThrough(file: File, r: Rest, size: nat)
    ensures Through(if size > file.size then file.(size := size) else file, r) == Through(file, With(r, [], size))
  {
    assert [] + r.adds == r.adds;
  }

  /** An instruction that does not compute the rest of its program takes from what is left to do what it does. */
  lemma StepThrough(d: Data, i: Instr, f: Fid, r: Rest)
    requires Defined(d, i) && !Branches(i) && f in d.files && f in ExecData(d, i).files
    ensures Through(ExecData(d, i).files[f], r) == Through(d.files[f], RestAt(f, i, r))
  {
    hide Through, With;
    if i.WAlloc? {
      FileSteps.AllocKeepsRest(d, i.bs);
    } else if i.WAppend? && i.f == f {
      AppendThrough(d.files[f], r, i.b);
    } else if i.WSize? && i.f == f {
      SizeThrough(d.files[f], r, i.size);
    }
  }

  lemma BranchThrough(d: Data, i: Instr, f: Fid)
    requires Defined(d, i) && Branches(i) && FilesOk(d) && f in d.files
    ensures f in ExecData(d, i).files
    ensures Through(ExecData(d, i).files[f], RestAfter(d, f, i)) ==
            var e := Through(d.files[f], RestOf(f, Do(i, Done)));
            if Accepts(d, i, f) then Entry(e.hashes + i.hashes, i.off + 4096 * |i.hashes|) else e
  {
    RestOfOne(f, i);
    hide RestOf, FilesOk;
    assert f in ExecData(d, i).files && ExecData(d, i).files[f].list == d.files[f].list && ExecData(d, i).files[f].size == d.files[f].size by {
      FreshFile(d, f);
    }
  }

  lemma FreshFile(d: Data, f: Fid)
    requires FilesOk(d) && f in d.files
    ensures f != d.fids
  {
  }

  /** What executing an instruction makes of a file: nothing, unless it accepts a write. */
  lemma ExecThrough(d: Data, held: Held, i: Instr, next: Prog, order: seq<Ref>, f: Fid)
    requires Defined(d, i) && FilesOk(d) && HashesRight(d) && !i.Acq? && !i.Rel? && Disciplined(held, Do(i, next))
    requires f in d.files && f in ExecData(d, i).files
    ensures Through(ExecData(d, i).files[f], RestOf(f, ExecProg(d, i, next, order))) ==
            var e := Through(d.files[f], RestOf(f, Do(i, next)));
            if Accepts(d, i, f) then Entry(e.hashes + i.hashes, i.off + 4096 * |i.hashes|) else e
  {
    hide RestOf, EventsAhead, Preads, Views, ExecProg, ExecData, FilesOk, HashesRight, Disciplined, Through;
    BranchFacts(held, i, next);
    if Branches(i) {
      BranchLeaves(d, f, i, order);
      BranchThrough(d, i, f);
    } else {
      StepAhead(d, d, f, i, next, order);
      PopOne(d, f, i, next);
      StepThrough(d, i, f, RestOf(f, next));
    }
  }

  /** A write that has its position accepted holds the exclusive lock of its file and has nothing left to do to it yet. */
  lemma AcceptFacts(s: Sys, f: Fid, t: Tid)
    requires LocksAgree(s) && ThreadsAreDisciplined(s) && t in s.threads && s.threads[t].prog.Do?
    requires Accepts(s.d, s.threads[t].prog.i, f)
    ensures IsWriter(s, f, t) && RestOf(f, s.threads[t].prog) == NONE && WriterRest(s, f) == NONE
  {
    ThreadIsDisciplined(s, t);
    BranchFacts(s.threads[t].held, s.threads[t].prog.i, s.threads[t].prog.next);
    RestOfOne(f, s.threads[t].prog.i);
    hide LocksAgree, ThreadsAreDisciplined, Disciplined, RestOf;
    WriterIs(s, f, t);
  }

  /** The same write afterwards. */
  lemma AcceptedRest(s: Sys, f: Fid, t: Tid, r: Rest)
    requires LocksAgree(s) && IsWriter(s, f, t) && RestOf(f, s.threads[t].prog) == r
    ensures WriterRest(s, f) == r
  {
    hide LocksAgree, RestOf;
    WriterIs(s, f, t);
  }

  lemma SameThrough(a: File, b: File, r: Rest)
    requires Through(a, NONE) == Through(b, NONE)
    ensures Through(a, r) == Through(b, r)
  {
    assert HashesOf(a.list) + [] == HashesOf(a.list) && HashesOf(b.list) + [] == HashesOf(b.list);
  }

  lemma SameLocksWriter(s: Sys, s1: Sys, f: Fid, t: Tid)
    requires t in s.threads && t in s1.threads && s1.threads[t].held == s.threads[t].held
    ensures IsWriter(s1, f, t) <==> IsWriter(s, f, t)
  {
  }

  /** The state after t has executed instruction i. */
  ghost predicate Executed(s: Sys, s1: Sys, t: Tid, i: Instr, next: Prog, order: seq<Ref>) {
    && t in s.threads && t in s1.threads && s1.threads == s.threads[t := s1.threads[t]]
    && s.threads[t].prog == Do(i, next) && Defined(s.d, i) && s1.d == ExecData(s.d, i)
    && s1.threads[t] == s.threads[t].(prog := ExecProg(s.d, i, next, order))
  }

  /** Consistent locks, programs and data. */
  ghost predicate Steady(s: Sys) {
    LocksAgree(s) && AllCareful(s) && FilesOk(s.d) && HashesRight(s.d) && ThreadsAreDisciplined(s)
  }

  lemma ExecEntry(s: Sys, s1: Sys, t: Tid, i: Instr, next: Prog, order: seq<Ref>, f: Fid)
    requires Executed(s, s1, t, i, next, order) && !i.Acq? && !i.Rel?
    requires f in s.d.files && f in s1.d.files
    requires Steady(s) && LocksAgree(s1) && AllCareful(s1)
    ensures EntryOf(s1, f) ==
            if Accepts(s.d, i, f) then Entry(EntryOf(s, f).hashes + i.hashes, i.off + 4096 * |i.hashes|) else EntryOf(s, f)
  {
    hide LocksAgree, AllCareful, FilesOk, HashesRight, ThreadsAreDisciplined, ExecData, ExecProg, Defined, RestOf, WriterRest, Through, IsWriter;
    ThreadIsDisciplined(s, t);
    ExecThrough(s.d, s.threads[t].held, i, next, order, f);
    SameLocksWriter(s, s1, f, t);
    var r, r1 := RestOf(f, s.threads[t].prog), RestOf(f, s1.threads[t].prog);
    if Accepts(s.d, i, f) {
      AcceptFacts(s, f, t);
      WriterIs(s1, f, t);
    } else if r == NONE && r1 == NONE {
      BystanderRest(s, s1, f, t);
      SameThrough(s.d.files[f], s1.d.files[f], WriterRest(s, f));
    } else {
      if r != NONE { RestIs(s, f, t); } else { RestIs(s1, f, t); }
      WriterIs(s, f, t);
      WriterIs(s1, f, t);
    }
  }

  lemma LockMoveEntry(s: Sys, v: Move, f: Fid)
    requires CanMove(s, v) && !v.Exec? && f in s.d.files
    requires LocksAgree(s) && LocksAgree(Moved(s, v)) && AllCareful(s) && AllCareful(Moved(s, v))
    ensures f in Moved(s, v).d.files && EntryOf(Moved(s, v), f) == EntryOf(s, f)
  {
    hide LocksAgree, AllCareful, CanMove, Moved, RestOf, WriterRest, Through, ThreadMoves;
    MoverThread(s, v);
    OthersStay(s, v);
    var s1 := Moved(s, v);
    LockMoveRest(s.d, v, s.threads[v.t], s1.d, s1.threads[v.t], f);
    SameRest(s, s1, f, v.t);
  }

  // ---------- What a move makes of the table ----------

  ghost function EventsOfMove(s: Sys, v: Move): seq<Event>
    requires CanMove(s, v)
  {
    if v.Exec? || v.Release? then EventsBy(s.d, s.threads[v.t].prog.i, s.threads[v.t].prog.next) else []
  }

  lemma TableHas(s: Sys, path: Path)
    requires FilesOk(s.d)
    ensures path in TableOf(s) <==> path in s.d.fileIndex
    ensures path in s.d.fileIndex ==>
              s.d.fileIndex[path] in s.d.files && TableOf(s)[path] == EntryOf(s, s.d.fileIndex[path])
  {
  }

  lemma SameTable(s: Sys, s1: Sys)
    requires FilesOk(s.d) && FilesOk(s1.d) && s1.d.fileIndex == s.d.fileIndex
    requires forall f :: f in s.d.files && f in s1.d.files ==> EntryOf(s1, f) == EntryOf(s, f)
    ensures TableOf(s1) == TableOf(s)
  {
    hide EntryOf, FilesOk;
    forall path
      ensures path in TableOf(s1) <==> path in TableOf(s)
      ensures path in TableOf(s) ==> TableOf(s1)[path] == TableOf(s)[path]
    {
      TableHas(s, path);
      TableHas(s1, path);
    }
  }

  lemma IndexAfter(s: Sys, s1: Sys, t: Tid, i: Instr, next: Prog, order: seq<Ref>)
    requires Executed(s, s1, t, i, next, order)
    ensures Defined(s.d, i)
    ensures var was, index := s.d.fileIndex, s1.d.fileIndex;
            match i
            case WCreate(path, _, _) => index == if path in was then was else was[path := s.d.fids]
            case ULookup(path) => index == was - {path}
            case _ => index == was
  {
    if i.WAlloc? { FileSteps.AllocKeepsRest(s.d, i.bs); }
  }

  /** A path that goes on leading to the same file keeps its entry, unless a write to it is accepted. */
  lemma PathStays(s: Sys, s1: Sys, t: Tid, i: Instr, next: Prog, order: seq<Ref>, path: Path)
    requires Executed(s, s1, t, i, next, order) && !i.Acq? && !i.Rel?
    requires Steady(s) && LocksAgree(s1) && AllCareful(s1) && FilesOk(s1.d)
    requires path in s.d.fileIndex && path in s1.d.fileIndex && s1.d.fileIndex[path] == s.d.fileIndex[path]
    requires !Accepts(s.d, i, s.d.fileIndex[path])
    ensures path in TableOf(s1) && path in TableOf(s) && TableOf(s1)[path] == TableOf(s)[path]
  {
    hide Executed, LocksAgree, AllCareful, FilesOk, HashesRight, ThreadsAreDisciplined, EntryOf, TableOf, Accepts;
    TableHas(s, path);
    TableHas(s1, path);
    ExecEntry(s, s1, t, i, next, order, s.d.fileIndex[path]);
  }

  /** Instructions that decide nothing about the table. */
  predicate LeavesTable(d: Data, i: Instr) {
    && !i.ULookup? && (i.WCreate? ==> i.path in d.fileIndex) && (i.WCheck? ==> !IsNamed(d, i.f))
  }

  lemma NothingApplies(t: Table, d: Data, i: Instr, next: Prog)
    requires LeavesTable(d, i) && (i.WLookup? || i.WCreate? ==> (i.path in t <==> i.path in d.fileIndex))
    ensures ApplyAll(t, EventsBy(d, i, next)) == t
  {
    var es := EventsBy(d, i, next);
    hide IdOf, IsNamed;
    assert |es| <= 1;
    if |es| == 1 { assert ApplyAll(t, es) == ApplyAll(Apply(t, es[0]), []); }
  }

  /** A file that is not the one its path leads to is not in the table. */
  lemma UnnamedIsNotIndexed(d: Data, f: Fid, path: Path)
    requires FilesOk(d) && path in d.fileIndex && d.fileIndex[path] == f
    ensures IsNamed(d, f) && d.files[f].id == path
  {
  }

  lemma ExecLeavesTable(s: Sys, s1: Sys, t: Tid, i: Instr, next: Prog, order: seq<Ref>)
    requires Executed(s, s1, t, i, next, order) && !i.Acq? && !i.Rel?
    requires LeavesTable(s.d, i)
    requires Steady(s) && LocksAgree(s1) && AllCareful(s1) && FilesOk(s1.d)
    ensures TableOf(s1) == ApplyAll(TableOf(s), EventsBy(s.d, i, next))
  {
    hide Executed, LocksAgree, AllCareful, FilesOk, HashesRight, ThreadsAreDisciplined, EntryOf, IsNamed, TableOf, EventsBy, ApplyAll;
    IndexAfter(s, s1, t, i, next, order);
    if i.WLookup? || i.WCreate? { TableHas(s, i.path); }
    NothingApplies(TableOf(s), s.d, i, next);
    forall path | path in s.d.fileIndex
      ensures path in TableOf(s1) && path in TableOf(s) && TableOf(s1)[path] == TableOf(s)[path]
    {
      UnnamedIsNotIndexed(s.d, s.d.fileIndex[path], path);
      PathStays(s, s1, t, i, next, order, path);
    }
    TableKeys(s);
    TableKeys(s1);
  }

  lemma TableKeys(s: Sys)
    requires FilesOk(s.d)
    ensures TableOf(s).Keys == s.d.fileIndex.Keys
  {
    hide EntryOf;
  }

  /** An unlink takes its path out of the table. */
  lemma ExecRemoves(s: Sys, s1: Sys, t: Tid, i: Instr, next: Prog, order: seq<Ref>)
    requires Executed(s, s1, t, i, next, order) && i.ULookup?
    requires Steady(s) && LocksAgree(s1) && AllCareful(s1) && FilesOk(s1.d)
    ensures TableOf(s1) == TableOf(s) - {i.path}
  {
    hide Executed, LocksAgree, AllCareful, FilesOk, HashesRight, ThreadsAreDisciplined, EntryOf, TableOf;
    IndexAfter(s, s1, t, i, next, order);
    forall path | path in s1.d.fileIndex
      ensures path in TableOf(s1) && path in TableOf(s) && TableOf(s1)[path] == TableOf(s)[path]
    {
      PathStays(s, s1, t, i, next, order, path);
    }
    TableKeys(s);
    TableKeys(s1);
  }

  /** Nobody has anything to do to the file that is created next. */
  lemma NobodyWritesNext(s: Sys, t: Tid, f: Fid)
    requires Sound(s) && ThreadsAreDisciplined(s) && t in s.threads && f !in s.d.files
    ensures RestOf(f, s.threads[t].prog) == NONE
  {
    SoundThread(s, t);
    if RestOf(f, s.threads[t].prog) != NONE {
      WriterStealsNothing(s.threads[t].held, s.threads[t].prog, f);
      assert false;
    }
  }

  lemma NobodyWrites(s: Sys, f: Fid)
    requires forall t :: t in s.threads ==> RestOf(f, s.threads[t].prog) == NONE
    ensures WriterRest(s, f) == NONE
  {
    hide RestOf;
  }

  lemma NewFileIsEmpty(s: Sys, s1: Sys, t: Tid, i: Instr, next: Prog, order: seq<Ref>)
    requires Executed(s, s1, t, i, next, order) && i.WCreate? && i.path !in s.d.fileIndex && next == Done
    requires Sound(s) && ThreadsAreDisciplined(s) && HashesRight(s.d) && FilesOk(s.d)
    ensures s.d.fids in s1.d.files && EntryOf(s1, s.d.fids) == Entry([], 0)
  {
    hide Executed, Sound, ThreadsAreDisciplined, HashesRight, FilesOk, RestOf, WriterRest, HashesOf;
    var f := s.d.fids;
    FreshIsNew(s.d);
    CreatedNow(s, s1, t, i, next, order);
    forall u | u in s1.threads
      ensures RestOf(f, s1.threads[u].prog) == NONE
    {
      if u != t { NobodyWritesNext(s, u, f); }
    }
    NobodyWrites(s1, f);
    NoHash();
  }

  lemma CreatedNow(s: Sys, s1: Sys, t: Tid, i: Instr, next: Prog, order: seq<Ref>)
    requires Executed(s, s1, t, i, next, order) && i.WCreate? && i.path !in s.d.fileIndex && next == Done
    requires HashesRight(s.d) && FilesOk(s.d)
    ensures s1.threads.Keys == s.threads.Keys && t in s1.threads && RestOf(s.d.fids, s1.threads[t].prog) == NONE
    ensures forall u :: u in s.threads && u != t ==> s1.threads[u] == s.threads[u]
    ensures s.d.fids in s1.d.files && s1.d.files[s.d.fids] == File(i.path, [], 0, true)
  {
    hide HashesRight, FilesOk, RestOf, EventsAhead, Preads, Views, ExecProg;
    BranchLeaves(s.d, s.d.fids, i, order);
    RestOfOne(s.d.fids, i);
  }

  lemma FreshIsNew(d: Data)
    requires FilesOk(d)
    ensures d.fids !in d.files && forall p :: p in d.fileIndex ==> d.fileIndex[p] != d.fids
  {
  }

  /** A write enters its path. */
  lemma ExecCreates(s: Sys, s1: Sys, t: Tid, i: Instr, next: Prog, order: seq<Ref>)
    requires Executed(s, s1, t, i, next, order) && i.WCreate? && i.path !in s.d.fileIndex && next == Done
    requires Steady(s) && LocksAgree(s1) && AllCareful(s1) && FilesOk(s1.d) && Sound(s)
    ensures TableOf(s1) == TableOf(s)[i.path := Entry([], 0)]
  {
    hide Executed, LocksAgree, AllCareful, FilesOk, HashesRight, ThreadsAreDisciplined, EntryOf, TableOf, Sound;
    IndexAfter(s, s1, t, i, next, order);
    NewFileIsEmpty(s, s1, t, i, next, order);
    forall path | path in s1.d.fileIndex && path != i.path
      ensures path in TableOf(s1) && path in TableOf(s) && TableOf(s1)[path] == TableOf(s)[path]
    {
      PathStays(s, s1, t, i, next, order, path);
    }
    TableHas(s1, i.path);
    TableKeys(s);
    TableKeys(s1);
  }

  /** At the check of the position nothing of the file is on its way. */
  lemma CheckedEntry(s: Sys, f: Fid, t: Tid)
    requires LocksAgree(s) && ThreadsAreDisciplined(s) && t in s.threads && s.threads[t].prog.Do?
    requires s.threads[t].prog.i.WCheck? && s.threads[t].prog.i.f == f && f in s.d.files
    ensures EntryOf(s, f).size == s.d.files[f].size
  {
    ThreadIsDisciplined(s, t);
    BranchFacts(s.threads[t].held, s.threads[t].prog.i, s.threads[t].prog.next);
    RestOfOne(f, s.threads[t].prog.i);
    hide LocksAgree, ThreadsAreDisciplined, Disciplined, RestOf, WriterRest;
    WriterIs(s, f, t);
  }

  lemma ExecutedProg(s: Sys, s1: Sys, t: Tid, i: Instr, next: Prog, order: seq<Ref>)
    requires Executed(s, s1, t, i, next, order)
    ensures t in s.threads && s.threads[t].prog == Do(i, next)
  {
  }

  /** The entry of the path of a write that is checked. */
  lemma CheckedPath(s: Sys, s1: Sys, t: Tid, i: Instr, next: Prog, order: seq<Ref>)
    requires Executed(s, s1, t, i, next, order) && i.WCheck? && IsNamed(s.d, i.f)
    requires Steady(s) && LocksAgree(s1) && AllCareful(s1) && FilesOk(s1.d)
    ensures var id := s.d.files[i.f].id;
            && id in TableOf(s) && id in TableOf(s1)
            && TableOf(s1)[id] == if i.off == TableOf(s)[id].size then Entry(TableOf(s)[id].hashes + i.hashes, i.off + 4096 * |i.hashes|)
                                  else TableOf(s)[id]
  {
    hide Executed, LocksAgree, AllCareful, FilesOk, HashesRight, ThreadsAreDisciplined, EntryOf, TableOf;
    var id := s.d.files[i.f].id;
    IndexAfter(s, s1, t, i, next, order);
    ExecutedProg(s, s1, t, i, next, order);
    CheckedEntry(s, i.f, t);
    TableHas(s, id);
    TableHas(s1, id);
    ExecEntry(s, s1, t, i, next, order, i.f);
  }

  /** A write whose path is still in the index appends, or not, by its position. */
  lemma ExecChecks(s: Sys, s1: Sys, t: Tid, i: Instr, next: Prog, order: seq<Ref>)
    requires Executed(s, s1, t, i, next, order) && i.WCheck? && IsNamed(s.d, i.f)
    requires Steady(s) && LocksAgree(s1) && AllCareful(s1) && FilesOk(s1.d)
    ensures TableOf(s1) == Apply(TableOf(s), Appended(IdOf(s.d, i.f), i.off, i.hashes))
  {
    hide Executed, LocksAgree, AllCareful, FilesOk, HashesRight, ThreadsAreDisciplined, EntryOf, TableOf;
    var id := s.d.files[i.f].id;
    IndexAfter(s, s1, t, i, next, order);
    forall path | path in s.d.fileIndex && path != id
      ensures path in TableOf(s1) && path in TableOf(s) && TableOf(s1)[path] == TableOf(s)[path]
    {
      UnnamedIsNotIndexed(s.d, s.d.fileIndex[path], path);
      PathStays(s, s1, t, i, next, order, path);
    }
    CheckedPath(s, s1, t, i, next, order);
    TableKeys(s);
    TableKeys(s1);
  }

  lemma ExecIsEvent(s: Sys, s1: Sys, t: Tid, i: Instr, next: Prog, order: seq<Ref>)
    requires Executed(s, s1, t, i, next, order) && !i.Acq? && !i.Rel? && (Branches(i) ==> next == Done)
    requires Steady(s) && LocksAgree(s1) && AllCareful(s1) && FilesOk(s1.d) && Sound(s)
    ensures TableOf(s1) == ApplyAll(TableOf(s), EventsBy(s.d, i, next))
  {
    hide Steady, LocksAgree, AllCareful, FilesOk, TableOf, Executed, Sound, IsNamed, IdOf;
    if LeavesTable(s.d, i) {
      ExecLeavesTable(s, s1, t, i, next, order);
    } else {
      var e := EventsBy(s.d, i, next)[0];
      assert ApplyAll(TableOf(s), [e]) == ApplyAll(Apply(TableOf(s), e), []);
      if i.ULookup? {
        ExecRemoves(s, s1, t, i, next, order);
      } else if i.WCreate? {
        ExecCreates(s, s1, t, i, next, order);
        UnknownPath(s, i.path);
      } else {
        ExecChecks(s, s1, t, i, next, order);
      }
    }
  }

  lemma UnknownPath(s: Sys, path: Path)
    requires path !in s.d.fileIndex
    ensures path !in TableOf(s)
  {
    hide EntryOf;
  }

  /** Consistent locks, programs and data of the system. */
  ghost predicate Orderly(s: Sys) {
    LocksAgree(s) && ThreadsAreDisciplined(s) && Sound(s) && AllCareful(s)
  }

  lemma OrderlyIsSteady(s: Sys)
    requires Orderly(s)
    ensures Steady(s)
  {
    SoundBlocks(s);
    SoundFiles(s);
    hide LocksAgree, ThreadsAreDisciplined, Sound, AllCareful, References;
  }

  lemma MoveExecutes(s: Sys, v: Move)
    requires CanMove(s, v) && v.Exec? && ThreadsAreDisciplined(s)
    ensures v.t in s.threads && s.threads[v.t].prog.Do?
    ensures var p := s.threads[v.t].prog;
            && Executed(s, Moved(s, v), v.t, p.i, p.next, v.order)
            && !p.i.Acq? && !p.i.Rel? && (Branches(p.i) ==> p.next == Done)
  {
    MoverThread(s, v);
    OthersStay(s, v);
    ThreadIsDisciplined(s, v.t);
    BranchFacts(s.threads[v.t].held, s.threads[v.t].prog.i, s.threads[v.t].prog.next);
    hide CanMove, Moved, ExecData, ExecProg, Disciplined, Defined, OrderOk;
  }

  lemma ReleaseAppliesNothing(t: Table, d: Data, i: Instr, next: Prog)
    requires i.Rel?
    ensures ApplyAll(t, EventsBy(d, i, next)) == t
  {
    var es := EventsBy(d, i, next);
    hide IdOf;
    if es != [] { assert ApplyAll(t, es) == ApplyAll(Apply(t, es[0]), []); }
  }

  lemma LockMoveTable(s: Sys, v: Move)
    requires CanMove(s, v) && !v.Exec?
    requires LocksAgree(s) && LocksAgree(Moved(s, v)) && AllCareful(s) && AllCareful(Moved(s, v)) && FilesOk(s.d)
    ensures TableOf(Moved(s, v)) == TableOf(s)
  {
    hide LocksAgree, AllCareful, FilesOk, CanMove, Moved, EntryOf, TableOf;
    MoverThread(s, v);
    forall f | f in s.d.files && f in Moved(s, v).d.files
      ensures EntryOf(Moved(s, v), f) == EntryOf(s, f)
    {
      LockMoveEntry(s, v, f);
    }
    SameTable(s, Moved(s, v));
  }

  /** Every move does to the table what its decisive steps do, and nothing else. */
  lemma MoveIsEvents(s: Sys, v: Move)
    requires CanMove(s, v) && Orderly(s) && Orderly(Moved(s, v))
    ensures TableOf(Moved(s, v)) == ApplyAll(TableOf(s), EventsOfMove(s, v))
  {
    hide LocksAgree, ThreadsAreDisciplined, Sound, AllCareful, Steady, CanMove, Moved, TableOf, Executed, EventsBy, FilesOk;
    SoundFiles(s);
    SoundFiles(Moved(s, v));
    OrderlyIsSteady(s);
    if v.Exec? {
      MoveExecutes(s, v);
      var p := s.threads[v.t].prog;
      ExecIsEvent(s, Moved(s, v), v.t, p.i, p.next, v.order);
    } else {
      LockMoveTable(s, v);
      if v.Release? {
        MoverThread(s, v);
        var p := s.threads[v.t].prog;
        ReleaseAppliesNothing(TableOf(s), s.d, p.i, p.next);
      }
    }
  }

  // ---------- Every operation takes its steps ----------

  /** The decisive steps that a worker still has to take. */
  ghost function StepsAhead(d: Data, th: Thread): seq<Event> {
    EventsAhead(d, th.prog) + AllEvents(th.todo)
  }

  lemma ReleaseSteps(d: Data, th: Thread, i: Instr, next: Prog)
    requires i.Rel?
    ensures AllMeant(EventsBy(d, i, next)) + EventsAhead(d, next) == EventsAhead(d, Do(i, next))
  {
    hide EventsAhead, EventsBy;
    StepEvents(d, i, next);
  }

  /** Files a thread points to keep their paths. */
  lemma PointersKeepIds(s: Sys, v: Move, u: Tid)
    requires CanMove(s, v) && Sound(s) && Sound(Moved(s, v)) && u in s.threads && u != v.t
    ensures EventsAhead(Moved(s, v).d, s.threads[u].prog) == EventsAhead(s.d, s.threads[u].prog)
  {
    OthersStay(s, v);
    SoundThread(s, u);
    SoundThread(Moved(s, v), u);
    MoverThread(s, v);
    SoundFiles(s);
    hide Sound, CanMove, Moved, FootOf, EventsAhead, ExecData, ExecProg, FilesOk, Defined;
    var p, d1 := s.threads[u].prog, Moved(s, v).d;
    forall f | f in FootOf(p).files
      ensures IdOf(d1, f) == IdOf(s.d, f)
    {
      if v.Exec? { Crossing.ExecKeepsIds(s.d, s.threads[v.t].prog.i, f); }
    }
    IdsStay(s.d, d1, p);
  }

  lemma OtherSteps(s: Sys, v: Move, u: Tid)
    requires CanMove(s, v) && Sound(s) && Sound(Moved(s, v)) && u in s.threads && u != v.t
    ensures u in Moved(s, v).threads && StepsAhead(Moved(s, v).d, Moved(s, v).threads[u]) == StepsAhead(s.d, s.threads[u])
  {
    hide Sound, CanMove, Moved, EventsAhead, AllEvents;
    OthersStay(s, v);
    PointersKeepIds(s, v, u);
  }

  /** Executing changes no path of a file that stays. */
  lemma StepIds(d: Data, i: Instr, f: Fid)
    requires Defined(d, i) && FilesOk(d) && f in d.files && !i.UFreeFile?
    ensures f in ExecData(d, i).files && IdOf(ExecData(d, i), f) == IdOf(d, f)
  {
    if i.WAlloc? { FileSteps.AllocKeepsRest(d, i.bs); }
  }

  lemma StepKeepsEvents(d: Data, i: Instr, next: Prog)
    requires Defined(d, i) && FilesOk(d) && (i.UFreeFile? ==> next == Done)
    requires forall f :: f in FootOf(next).files ==> f in d.files
    ensures EventsAhead(ExecData(d, i), next) == EventsAhead(d, next)
  {
    hide FootOf, EventsAhead, ExecData, FilesOk, Defined, IdOf;
    if i.UFreeFile? {
      NothingAhead(d, 0);
      NothingAhead(ExecData(d, i), 0);
    } else {
      forall f | f in FootOf(next).files
        ensures IdOf(ExecData(d, i), f) == IdOf(d, f)
      {
        StepIds(d, i, f);
      }
      IdsStay(d, ExecData(d, i), next);
    }
  }

  lemma ExecSteps(d: Data, held: Held, i: Instr, next: Prog, order: seq<Ref>)
    requires Defined(d, i) && FilesOk(d) && HashesRight(d) && !i.Acq? && !i.Rel? && Disciplined(held, Do(i, next))
    requires forall f :: f in FootOf(Do(i, next)).files ==> f in d.files
    ensures AllMeant(EventsBy(d, i, next)) + EventsAhead(ExecData(d, i), ExecProg(d, i, next, order)) == EventsAhead(d, Do(i, next))
  {
    BranchFacts(held, i, next);
    FreesLast(held, i, next);
    NextPointers(i, next);
    hide EventsAhead, RestOf, Preads, Views, ExecProg, ExecData, FilesOk, HashesRight, Disciplined, EventsBy, FootOf, Defined;
    if Branches(i) {
      BranchEvents(d, i, order);
    } else {
      StepAhead(d, ExecData(d, i), 0, i, next, order);
      StepKeepsEvents(d, i, next);
      StepEvents(d, i, next);
    }
  }

  lemma FreesLast(held: Held, i: Instr, next: Prog)
    requires Disciplined(held, Do(i, next))
    ensures i.UFreeFile? ==> next == Done
  {
  }

  lemma NextPointers(i: Instr, next: Prog)
    ensures FootOf(next).files <= FootOf(Do(i, next)).files
  {
  }

  ghost function EventsOfThread(d: Data, v: Move, p: Prog): seq<Event> {
    if p.Do? && (v.Exec? || v.Release?) then EventsBy(d, p.i, p.next) else []
  }

  lemma ThreadSteps(d: Data, v: Move, th: Thread, d1: Data, th1: Thread)
    requires ThreadMoves(d, v, th, d1, th1) && Ready(d, th)
    requires forall f :: f in FootOf(th.prog).files ==> f in d.files
    ensures AllMeant(EventsOfThread(d, v, th.prog)) + StepsAhead(d1, th1) == StepsAhead(d, th)
  {
    hide RestOf, ExecProg, ExecData, FilesOk, HashesRight, Code, Defined, OrderOk, Views, EventsAhead, Preads, Disciplined, FootOf, EventsBy, EventsOf;
    var now := AllMeant(EventsOfThread(d, v, th.prog));
    match v
    case Begin(_) =>
      CodeAhead(d, 0, th.todo[0]);
      NothingAhead(d, 0);
    case Exec(_, order) => ExecSteps(d, th.held, th.prog.i, th.prog.next, order);
    case Release(_) => ReleaseSteps(d, th, th.prog.i, th.prog.next);
    case _ => PopLockAhead(d, 0, th.prog.i, th.prog.next);
    assert now + (EventsAhead(d1, th1.prog) + AllEvents(th1.todo)) == now + EventsAhead(d1, th1.prog) + AllEvents(th1.todo);
  }

  lemma MoverSteps(s: Sys, v: Move)
    requires CanMove(s, v) && v.t in s.threads && v.t in Moved(s, v).threads
    requires ThreadsAreDisciplined(s) && Sound(s)
    ensures AllMeant(EventsOfMove(s, v)) + StepsAhead(Moved(s, v).d, Moved(s, v).threads[v.t]) == StepsAhead(s.d, s.threads[v.t])
  {
    SoundThread(s, v.t);
    hide ThreadsAreDisciplined, Sound, CanMove, Moved, FilesOk, HashesRight, Disciplined, FootOf, EventsBy, StepsAhead, ThreadMoves;
    MoverFacts(s, v);
    MoverThread(s, v);
    ThreadSteps(s.d, v, s.threads[v.t], Moved(s, v).d, Moved(s, v).threads[v.t]);
    assert EventsOfThread(s.d, v, s.threads[v.t].prog) == EventsOfMove(s, v) by { MoveHasProg(s, v); }
  }

  lemma MoveHasProg(s: Sys, v: Move)
    requires CanMove(s, v)
    ensures v.t in s.threads && (v.Exec? || v.Release? ==> s.threads[v.t].prog.Do?)
  {
  }
}

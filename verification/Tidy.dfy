/** Nothing is left over: a file that is not in the index and a block that nothing refers to are on their way
    to be freed by the unlink that made them so. */
module Tidy {
  import opened Basics
  import opened Collections
  import opened TicketLock
  import opened Programs
  import opened Discipline
  import opened Interleaving
  import opened RefCounts
  import opened QuietSteps
  import opened DataSteps
  import opened UnlinkSteps
  import opened Turns
  import opened Ahead
  import opened History
  import Concurrency
  import FileSteps

  // ---------- Who is going to free what ----------

  ghost predicate WillFreeFile(s: Sys, f: Fid) {
    exists t :: t in s.threads && f in FootOf(s.threads[t].prog).stolen
  }

  /** The blocks that a program is still going to test or to free. */
  ghost function Handled(p: Prog): set<Ref> {
    FootOf(p).tested + FootOf(p).dying
  }

  ghost predicate WillHandleBlock(s: Sys, b: Ref) {
    exists t :: t in s.threads && b in Handled(s.threads[t].prog)
  }

  ghost predicate NothingLeftOver(s: Sys) {
    && (forall f :: f in s.d.files ==> Linked(s.d, f) || WillFreeFile(s, f))
    && (forall b :: b in s.d.blocks ==> s.d.blocks[b].counter != 0 || WillHandleBlock(s, b))
  }

  /** All files are in the index and all blocks are referred to. */
  ghost predicate AllInUse(d: Data) {
    (forall f :: f in d.files ==> Linked(d, f)) && (forall b :: b in d.blocks ==> d.blocks[b].counter != 0)
  }

  // ---------- What one thread keeps in hand ----------

  /** What a thread has stolen it keeps until it frees it, and a block it has to test until it is freed or in use. */
  ghost predicate KeepsInHand(p: Prog, d1: Data, p1: Prog) {
    && (forall f :: f in FootOf(p).stolen ==> f in FootOf(p1).stolen || f !in d1.files)
    && (forall b :: b in Handled(p) && b in d1.blocks && d1.blocks[b].counter == 0 ==> b in Handled(p1))
  }

  /** And what a move leaves behind it takes in hand. */
  ghost predicate TakesInHand(d: Data, d1: Data, p1: Prog) {
    && (forall f :: f in d1.files && !Linked(d1, f) ==> (f in d.files && !Linked(d, f)) || f in FootOf(p1).stolen)
    && (forall b :: b in d1.blocks && d1.blocks[b].counter == 0 ==>
                      (b in d.blocks && d.blocks[b].counter == 0) || b in Handled(p1))
  }

  lemma LockInstr(i: Instr, next: Prog)
    requires i.Acq? || i.Rel?
    ensures FootOf(Do(i, next)).stolen == FootOf(next).stolen && Handled(Do(i, next)) == Handled(next)
  {
    assert FootOf(Do(i, next)) == Join(InstrFoot(i), FootOf(next));
    hide FootOf;
    assert InstrFoot(i).stolen == {} && InstrFoot(i).tested == {} && InstrFoot(i).dying == {};
  }

  lemma PopHandled(i: Instr, next: Prog)
    ensures FootOf(Do(i, next)).stolen == InstrFoot(i).stolen + FootOf(next).stolen
    ensures Handled(Do(i, next)) == InstrFoot(i).tested + InstrFoot(i).dying + Handled(next)
  {
    assert FootOf(Do(i, next)) == Join(InstrFoot(i), FootOf(next));
    hide FootOf, InstrFoot;
  }

  /** Counters that are no longer there or no longer 0. */
  lemma CountersAfter(d: Data, i: Instr, b: Ref)
    requires Defined(d, i) && (forall c :: c in d.blocks ==> d.blocks[c].counter >= 0)
    requires b in ExecData(d, i).blocks && ExecData(d, i).blocks[b].counter == 0
    ensures (b in d.blocks && d.blocks[b].counter == 0) || (i.UStore? && i.b == b)
    ensures !(i.UFreeBlock? && i.b == b)
  {
    if i.WAlloc? { FileSteps.AllocKeepsRest(d, i.bs); }
  }

  lemma StepKeepsInHand(d: Data, held: Held, i: Instr, next: Prog, order: seq<Ref>)
    requires Defined(d, i) && !Branches(i) && !i.Acq? && !i.Rel? && Disciplined(held, Do(i, next))
    requires forall c :: c in d.blocks ==> d.blocks[c].counter >= 0
    ensures KeepsInHand(Do(i, next), ExecData(d, i), ExecProg(d, i, next, order))
    ensures forall b :: b in ExecData(d, i).blocks && ExecData(d, i).blocks[b].counter == 0 ==>
                          (b in d.blocks && d.blocks[b].counter == 0) || b in Handled(ExecProg(d, i, next, order))
  {
    var d1, q := ExecData(d, i), ExecProg(d, i, next, order);
    StepHandled(d, held, i, next, order);
    hide ExecProg, Disciplined, FootOf, Handled;
    forall b | b in d1.blocks && d1.blocks[b].counter == 0
      ensures (b in d.blocks && d.blocks[b].counter == 0) || b in Handled(q)
      ensures b in Handled(Do(i, next)) ==> b in Handled(q)
    {
      CountersAfter(d, i, b);
    }
  }

  lemma TestHandled(d: Data, b: Ref, next: Prog, order: seq<Ref>)
    requires Defined(d, UTest(b))
    ensures var q := ExecProg(d, UTest(b), next, order);
            && Handled(q) == (if d.blocks[b].counter == 0 then {b} else {}) + Handled(next) && FootOf(q).stolen == FootOf(next).stolen
  {
    hide FootOf;
    FreeCodeFoot(b, next);
    LockInstr(Rel(BlockLock(b)), next);
  }

  lemma LoadHandled(d: Data, b: Ref, n: nat, next: Prog, order: seq<Ref>)
    requires Defined(d, ULoad(b, n))
    ensures var q := ExecProg(d, ULoad(b, n), next, order); Handled(q) == {b} + Handled(next) && FootOf(q).stolen == FootOf(next).stolen
  {
    hide FootOf, Handled;
    PopHandled(UStore(b, d.blocks[b].counter, n), next);
  }

  lemma StepHandled(d: Data, held: Held, i: Instr, next: Prog, order: seq<Ref>)
    requires Defined(d, i) && !Branches(i) && !i.Acq? && !i.Rel? && Disciplined(held, Do(i, next))
    ensures var p, q := Do(i, next), ExecProg(d, i, next, order);
            && (forall b :: b in Handled(p) ==> b in Handled(q) || (i.UTest? && i.b == b && d.blocks[b].counter != 0) || (i.UFreeBlock? && i.b == b))
            && (i.UStore? ==> i.b in Handled(q))
            && (forall f :: f in FootOf(p).stolen ==> f in FootOf(q).stolen || f !in ExecData(d, i).files)
  {
    hide FootOf, Handled, Disciplined;
    DisciplinedStep(held, i, next);
    PopHandled(i, next);
    if i.ULoad? {
      LoadHandled(d, i.b, i.n, next, order);
    } else if i.UTest? {
      TestHandled(d, i.b, next, order);
    }
  }

  lemma DisciplinedStep(held: Held, i: Instr, next: Prog)
    requires Disciplined(held, Do(i, next))
    ensures i.ULoad? || i.UStore? ==> i.b in Handled(next)
    ensures i.UFree? ==> i.b in Handled(next)
    ensures i.UFreeFile? ==> next == Done
  {
    hide FootOf;
  }

  /** Instructions that compute the rest of their program: an unlink steals, and tallies what it has stolen. */
  lemma BranchKeepsInHand(d: Data, i: Instr, order: seq<Ref>)
    requires Defined(d, i) && Branches(i) && OrderOk(d, i, order)
    ensures KeepsInHand(Do(i, Done), ExecData(d, i), ExecProg(d, i, Done, order))
  {
    if i.UTally? {
      TallyProgFoot(i.f, order, d.files[i.f].list);
    }
    hide FootOf, ExecProg, ExecData, Handled;
    FootOfDone();
    PopHandled(i, Done);
    assert Handled(Done) == {} by { NothingHandled(); }
  }

  lemma NothingHandled()
    ensures Handled(Done) == {}
  {
  }

  lemma StealTakesInHand(d: Data, path: Path, order: seq<Ref>)
    requires FilesOk(d)
    ensures var d1, q := ExecData(d, ULookup(path)), ExecProg(d, ULookup(path), Done, order);
            forall f :: f in d1.files && !Linked(d1, f) ==> (f in d.files && !Linked(d, f)) || f in FootOf(q).stolen
  {
    hide FootOf;
    var d1 := ExecData(d, ULookup(path));
    if path in d.fileIndex { StealFoot(d.fileIndex[path], path); }
    forall f | Linked(d, f)
      ensures Linked(d1, f) || (path in d.fileIndex && d.fileIndex[path] == f)
    {
      var p :| p in d.fileIndex && d.fileIndex[p] == f;
      if p != path { assert d1.fileIndex[p] == f; }
    }
  }

  lemma CreateTakesInHand(d: Data, i: Instr)
    requires i.WCreate? && FilesOk(d)
    ensures var d1 := ExecData(d, i); forall f :: f in d1.files && !Linked(d1, f) ==> f in d.files && !Linked(d, f)
  {
    var d1 := ExecData(d, i);
    FreshFileIsNew(d);
    hide FilesOk;
    assert i.path in d1.fileIndex;
    forall f | f in d1.files && (f !in d.files || Linked(d, f))
      ensures Linked(d1, f)
    {
      if f in d.files {
        var p :| p in d.fileIndex && d.fileIndex[p] == f;
        assert d1.fileIndex[p] == f;
      } else {
        assert d1.fileIndex[i.path] == f;
      }
    }
  }

  lemma FreshFileIsNew(d: Data)
    requires FilesOk(d)
    ensures d.fids !in d.files
  {
  }

  /** Other instructions leave the index alone. */
  lemma SameIndexTakesInHand(d: Data, i: Instr)
    requires Defined(d, i) && !i.ULookup? && !i.WCreate?
    ensures forall f :: f in ExecData(d, i).files && !Linked(ExecData(d, i), f) ==> f in d.files && !Linked(d, f)
  {
    if i.WAlloc? { FileSteps.AllocKeepsRest(d, i.bs); }
    assert ExecData(d, i).fileIndex == d.fileIndex && ExecData(d, i).files.Keys <= d.files.Keys;
  }

  lemma BranchCounters(d: Data, i: Instr)
    requires Defined(d, i) && Branches(i) && forall c :: c in d.blocks ==> d.blocks[c].counter >= 0
    ensures forall b :: b in ExecData(d, i).blocks && ExecData(d, i).blocks[b].counter == 0 ==> b in d.blocks && d.blocks[b].counter == 0
  {
    hide ExecData;
    forall b | b in ExecData(d, i).blocks && ExecData(d, i).blocks[b].counter == 0
      ensures b in d.blocks && d.blocks[b].counter == 0
    {
      CountersAfter(d, i, b);
    }
  }

  lemma ExecInHand(d: Data, held: Held, i: Instr, next: Prog, order: seq<Ref>)
    requires Defined(d, i) && !i.Acq? && !i.Rel? && Disciplined(held, Do(i, next)) && OrderOk(d, i, order) && FilesOk(d)
    requires forall c :: c in d.blocks ==> d.blocks[c].counter >= 0
    ensures var d1, q := ExecData(d, i), ExecProg(d, i, next, order);
            KeepsInHand(Do(i, next), d1, q) && TakesInHand(d, d1, q)
  {
    hide ExecProg, ExecData, Disciplined, Handled, OrderOk, FilesOk, Linked, FootOf, KeepsInHand, Needs;
    BranchFacts(held, i, next);
    if Branches(i) {
      BranchKeepsInHand(d, i, order);
      BranchCounters(d, i);
    } else {
      StepKeepsInHand(d, held, i, next, order);
    }
    if i.ULookup? {
      StealTakesInHand(d, i.path, order);
    } else if i.WCreate? {
      CreateTakesInHand(d, i);
    } else {
      SameIndexTakesInHand(d, i);
    }
  }

  lemma ThreadInHand(d: Data, v: Move, th: Thread, d1: Data, th1: Thread)
    requires ThreadMoves(d, v, th, d1, th1) && Ready(d, th)
    requires forall c :: c in d.blocks ==> d.blocks[c].counter >= 0
    ensures KeepsInHand(th.prog, d1, th1.prog) && TakesInHand(d, d1, th1.prog)
  {
    hide ExecProg, ExecData, FilesOk, HashesRight, Code, Defined, OrderOk, Disciplined, FootOf, Linked, Handled;
    match v
    case Begin(_) =>
      NothingHandled();
      FootOfDone();
    case Exec(_, order) => ExecInHand(d, th.held, th.prog.i, th.prog.next, order);
    case _ => LockInstr(th.prog.i, th.prog.next);
  }

  lemma MoverInHand(s: Sys, v: Move)
    requires Concurrency.SysInv(s) && !s.raced && CanMove(s, v)
    ensures v.t in s.threads && v.t in Moved(s, v).threads
    ensures KeepsInHand(s.threads[v.t].prog, Moved(s, v).d, Moved(s, v).threads[v.t].prog)
    ensures TakesInHand(s.d, Moved(s, v).d, Moved(s, v).threads[v.t].prog)
  {
    hide LocksAgree, ThreadsAreDisciplined, Sound, InTurn, CanMove, Moved, FilesOk, HashesRight, Disciplined, ThreadMoves, KeepsInHand, TakesInHand, References;
    MoverFacts(s, v);
    MoverThread(s, v);
    SoundBlocks(s);
    ThreadInHand(s.d, v, s.threads[v.t], Moved(s, v).d, Moved(s, v).threads[v.t]);
  }

  lemma HandsStay(s: Sys, s1: Sys, t: Tid)
    requires t in s.threads && t in s1.threads && s1.threads == s.threads[t := s1.threads[t]]
    requires KeepsInHand(s.threads[t].prog, s1.d, s1.threads[t].prog)
    ensures forall f :: WillFreeFile(s, f) && f in s1.d.files ==> WillFreeFile(s1, f)
    ensures forall b :: WillHandleBlock(s, b) && b in s1.d.blocks && s1.d.blocks[b].counter == 0 ==> WillHandleBlock(s1, b)
  {
    hide FootOf, Handled;
    forall f | WillFreeFile(s, f) && f in s1.d.files
      ensures WillFreeFile(s1, f)
    {
      var u :| u in s.threads && f in FootOf(s.threads[u].prog).stolen;
      assert f in FootOf(s1.threads[u].prog).stolen;
    }
    forall b | WillHandleBlock(s, b) && b in s1.d.blocks && s1.d.blocks[b].counter == 0
      ensures WillHandleBlock(s1, b)
    {
      var u :| u in s.threads && b in Handled(s.threads[u].prog);
      assert b in Handled(s1.threads[u].prog);
    }
  }

  /** No move leaves a file or a block behind that nobody is going to free. */
  lemma MoveLeavesNothing(s: Sys, v: Move)
    requires Concurrency.SysInv(s) && !s.raced && CanMove(s, v) && NothingLeftOver(s)
    ensures NothingLeftOver(Moved(s, v))
  {
    hide Concurrency.SysInv, CanMove, Moved, FootOf, Handled, KeepsInHand, Linked;
    OthersStay(s, v);
    MoverInHand(s, v);
    var s1, p1 := Moved(s, v), Moved(s, v).threads[v.t].prog;
    HandsStay(s, s1, v.t);
    forall f | f in s1.d.files && !Linked(s1.d, f)
      ensures WillFreeFile(s1, f)
    {
      if f in FootOf(p1).stolen { assert v.t in s1.threads; }
    }
    forall b | b in s1.d.blocks && s1.d.blocks[b].counter == 0
      ensures WillHandleBlock(s1, b)
    {
      if b in Handled(p1) { assert v.t in s1.threads; }
    }
  }
}

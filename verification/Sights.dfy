/** Getattrs and reads see the table as it is at their decisive step. */
module Sights {
  import opened Basics
  import opened TicketLock
  import opened Programs
  import opened Discipline
  import opened Interleaving
  import opened RefCounts
  import opened QuietSteps
  import opened Ahead
  import opened History
  import FileSteps

  // ---------- What a thread sees ----------

  /** The file as it is. */
  function Current(file: File): Entry {
    Entry(HashesOf(file.list), file.size)
  }

  /** The blocks that a read still has to fetch once its decisive step is taken. */
  function Fetching(d: Data, p: Prog): seq<Hash> {
    if AtRange(p) then
      if p.i.f in d.files then Covering(Current(d.files[p.i.f]), p.i.off, p.i.size) else []
    else if CollectsSoon(p) then
      var i := if AtCollect(p) then p.i else p.next.i;
      if i.f in d.files then Part(HashesOf(d.files[i.f].list), i.start, i.end) else []
    else Preads(p)
  }

  ghost function SightsOfThread(d: Data, v: Move, p: Prog): seq<Sight> {
    if v.Exec? && p.Do? then
      match p.i
      case GStat(f) => if f in d.files then [SizeSeen(d.files[f].size)] else []
      case RPread(b) => [BlockSeen(b.hash)]
      case _ => []
    else []
  }

  /** t has every path of the index, with what a thread that has a lock on the file and nothing to do to it finds there. */
  ghost predicate Shown(d: Data, th: Thread, t: Table) {
    && t.Keys == d.fileIndex.Keys
    && forall f :: IsNamed(d, f) && FileLock(f) in th.held && RestOf(f, th.prog) == NONE ==> t[d.files[f].id] == Current(d.files[f])
  }

  /** What the move shows its thread, and what it leaves for it to fetch, is what it had to fetch and what its decisive
      steps let it see. */
  ghost predicate SeesRightly(d: Data, v: Move, th: Thread, d1: Data, th1: Thread, t: Table) {
    SightsOfThread(d, v, th.prog) + SeenBlocks(Fetching(d1, th1.prog)) ==
    SeenBlocks(Fetching(d, th.prog)) + SeesAll(t, EventsOfThread(d, v, th.prog))
  }

  lemma NoViews(p: Prog)
    requires !Views(p)
    ensures !AtRange(p) && !CollectsSoon(p)
  {
    if p.Do? && p.next.Do? { assert Views(p.next) == (Looking(p.next.i) || Views(p.next.next)); }
  }

  lemma SeesOne(t: Table, e: Event)
    ensures SeesAll(t, [e]) == Sees(t, e)
  {
    assert SeesAll(t, [e]) == Sees(t, e) + SeesAll(Apply(t, e), []);
  }

  lemma NothingSeen(t: Table)
    ensures SeesAll(t, []) == [] && SeenBlocks([]) == []
  {
  }

  lemma LooksFetchNothing(p: Prog, f: Fid)
    requires LooksSoon(p, f)
    ensures !AtRange(p) && !CollectsSoon(p) && Preads(p) == [] && RestOf(f, p) == NONE
  {
    var q := if Looks(p, f) then p else p.next;
    assert Preads(Do(Rel(FileIndex), Done)) == [] && RestOf(f, Do(Rel(FileIndex), Done)) == NONE;
    var r := Do(Rel(FileLock(f)), Do(Rel(FileIndex), Done));
    assert Preads(r) == [] && RestOf(f, r) == NONE;
    if q.i.GStat? { assert Preads(q) == [] && RestOf(f, q) == NONE; }
    else { assert Preads(q.next) == Preads(Done) && RestOf(f, q.next) == RestOf(f, Done); }
  }

  lemma LockMoveSees(d: Data, v: Move, th: Thread, th1: Thread, t: Table)
    requires ThreadMoves(d, v, th, d, th1) && !v.Exec? && !v.Begin? && !v.Release? && ViewGuarded(d, th.held, th.prog)
    ensures SeesRightly(d, v, th, d, th1, t)
  {
    hide RestOf, Views, EventsAhead, Preads, IsNamed, LooksSoon;
    NothingSeen(t);
    if th1 != th {
      PopLockAhead(d, 0, th.prog.i, th.prog.next);
      EntersToFetch(d, th.held, th.prog.i, th.prog.next);
    }
    assert SeenBlocks(Fetching(d, th.prog)) + [] == [] + SeenBlocks(Fetching(d, th.prog));
  }

  lemma EntersToFetch(d: Data, held: Held, i: Instr, next: Prog)
    requires i.Acq? && ViewGuarded(d, held, Do(i, next))
    ensures Fetching(d, next) == Fetching(d, Do(i, next))
  {
    hide RestOf, Views, EventsAhead, Preads, IsNamed;
    PopLockAhead(d, 0, i, next);
    if !Views(Do(i, next)) {
      NoViews(next);
      NoViews(Do(i, next));
    } else if !CollectsSoon(Do(i, next)) {
      var f :| LooksSoon(Do(i, next), f);
      SoonThenNow(Do(i, next), f);
      LooksFetchNothing(Do(i, next), f);
      LooksFetchNothing(next, f);
    }
  }

  lemma BeginSees(d: Data, v: Move, th: Thread, th1: Thread, t: Table)
    requires ThreadMoves(d, v, th, d, th1) && v.Begin?
    ensures SeesRightly(d, v, th, d, th1, t)
  {
    hide RestOf, Views, EventsAhead, Preads, Code;
    CodeAhead(d, 0, th.todo[0]);
    NothingAhead(d, 0);
    NothingSeen(t);
    NoViews(th1.prog);
    NoViews(th.prog);
  }

  /** A read decides when it lets go of the file index. */
  lemma ReleaseSees(d: Data, v: Move, th: Thread, th1: Thread, t: Table)
    requires ThreadMoves(d, v, th, d, th1) && v.Release? && ViewGuarded(d, th.held, th.prog) && Disciplined(th.held, th.prog)
    requires Shown(d, th, t)
    ensures SeesRightly(d, v, th, d, th1, t)
  {
    hide RestOf, Views, EventsAhead, Preads, IsNamed, Disciplined, Looks;
    var i, next := th.prog.i, th.prog.next;
    NothingSeen(t);
    PopLockAhead(d, 0, i, next);
    if !Views(th.prog) {
      NoViews(th.prog);
      NoViews(next);
      QuietRelease(d, i, next);
      assert SeenBlocks(Preads(next)) + [] == [] + SeenBlocks(Preads(next));
    } else {
      var f :| LooksSoon(th.prog, f) && FileIndex in th.held && IsNamed(d, f);
      LooksFetchNothing(th.prog, f);
      LetsGo(th.held, th.prog, f);
      FetchSees(d, th, t, f);
    }
  }

  lemma QuietRelease(d: Data, i: Instr, next: Prog)
    requires i.Rel? && !Views(Do(i, next))
    ensures EventsBy(d, i, next) == []
  {
    if next.Do? { assert Views(next) == (Looking(next.i) || Views(next.next)); }
  }

  lemma LetsGo(held: Held, p: Prog, f: Fid)
    requires LooksSoon(p, f) && p.i.Rel? && Disciplined(held, p)
    ensures p.i == Rel(FileIndex) && AtRange(p.next) && p.next.i.f == f && FileLock(f) in held
  {
    NextInstr(held, p);
    BranchFacts(held - {FileIndex}, p.next.i, p.next.next);
    hide Disciplined;
    assert FileLock(f) in held - {FileIndex};
  }

  lemma FetchSees(d: Data, th: Thread, t: Table, f: Fid)
    requires Shown(d, th, t) && IsNamed(d, f) && FileLock(f) in th.held && RestOf(f, th.prog) == NONE
    requires th.prog.Do? && th.prog.i == Rel(FileIndex) && AtRange(th.prog.next) && th.prog.next.i.f == f
    ensures SeesAll(t, EventsBy(d, th.prog.i, th.prog.next)) == SeenBlocks(Fetching(d, th.prog.next))
  {
    hide RestOf;
    var i := th.prog.next.i;
    SeesOne(t, Fetched(d.files[f].id, i.off, i.size));
  }

  lemma LookupSees(d: Data, i: Instr, order: seq<Ref>, t: Table)
    requires (i.GLookup? || i.RLookup?) && FilesOk(d) && t.Keys == d.fileIndex.Keys
    ensures Fetching(ExecData(d, i), ExecProg(d, i, Done, order)) == [] && SeesAll(t, EventsBy(d, i, Done)) == []
  {
    if i.path in d.fileIndex {
      NothingSeen(t);
      LookupLooks(d, i, order);
      LooksFetchNothing(ExecProg(d, i, Done, order), d.fileIndex[i.path]);
    } else {
      SeesOne(t, EventsBy(d, i, Done)[0]);
    }
  }

  lemma RangeSees(d: Data, i: Instr, order: seq<Ref>)
    requires i.RRange? && Defined(d, i)
    ensures Fetching(d, ExecProg(d, i, Done, order)) == Fetching(d, Do(i, Done))
  {
    var file := d.files[i.f];
    if i.off >= file.size {
      assert Preads(Do(Rel(FileLock(i.f)), Done)) == [];
    } else {
      var n := if i.off + i.size > file.size then file.size - i.off else i.size;
      var hashes := HashesOf(file.list);
      assert Covering(Current(file), i.off, i.size) == Part(hashes, i.off / 4096, EndIndex(i.off, n));
    }
  }

  lemma CollectSees(d: Data, i: Instr, order: seq<Ref>)
    requires i.RCollect? && Defined(d, i) && FilesOk(d) && HashesRight(d)
    ensures Fetching(d, ExecProg(d, i, Done, order)) == Fetching(d, Do(i, Done))
  {
    hide Views, RestOf, EventsAhead, Preads, FilesOk, HashesRight, ExecProg;
    BranchLeaves(d, 0, i, order);
    NoViews(ExecProg(d, i, Done, order));
    assert HashesOf(Slice(d.files[i.f].list, i.start, i.end)) == Part(HashesOf(d.files[i.f].list), i.start, i.end);
  }

  /** Steps of writes and unlinks show nothing. */
  lemma NothingToSee(t: Table, d: Data, i: Instr, next: Prog)
    requires !i.GStat? && !i.GLookup? && !i.RLookup? && !i.Rel?
    ensures SeesAll(t, EventsBy(d, i, next)) == []
  {
    var es := EventsBy(d, i, next);
    hide IdOf, IsNamed;
    assert |es| <= 1;
    if |es| == 1 { SeesOne(t, es[0]); }
  }

  lemma SilentFetches(d: Data, i: Instr, order: seq<Ref>)
    requires Branches(i) && !i.GLookup? && !i.RLookup? && !i.RRange? && !i.RCollect?
    requires Defined(d, i) && FilesOk(d) && HashesRight(d)
    ensures Fetching(ExecData(d, i), ExecProg(d, i, Done, order)) == [] == Fetching(d, Do(i, Done))
  {
    hide Views, RestOf, EventsAhead, Preads, FilesOk, HashesRight, ExecProg, ExecData, Defined;
    BranchLeaves(d, 0, i, order);
    NoViews(ExecProg(d, i, Done, order));
    NothingAhead(d, 0);
    PopOne(d, 0, i, Done);
  }

  lemma BranchSees(d: Data, i: Instr, order: seq<Ref>, t: Table)
    requires Branches(i) && Defined(d, i) && FilesOk(d) && HashesRight(d) && t.Keys == d.fileIndex.Keys
    ensures Fetching(ExecData(d, i), ExecProg(d, i, Done, order)) == Fetching(d, Do(i, Done)) && SeesAll(t, EventsBy(d, i, Done)) == []
  {
    hide FilesOk, HashesRight, ExecProg, Defined, Fetching, EventsBy, SeesAll;
    if i.GLookup? || i.RLookup? {
      LookupSees(d, i, order, t);
      LookupFetches(d, i);
    } else {
      NothingToSee(t, d, i, Done);
      if i.RRange? {
        RangeSees(d, i, order);
      } else if i.RCollect? {
        CollectSees(d, i, order);
      } else {
        SilentFetches(d, i, order);
      }
    }
  }

  lemma LookupFetches(d: Data, i: Instr)
    requires i.GLookup? || i.RLookup?
    ensures Fetching(d, Do(i, Done)) == []
  {
    NothingAhead(d, 0);
    PopOne(d, 0, i, Done);
    hide Preads;
  }

  lemma StatSees(d: Data, th: Thread, t: Table, f: Fid)
    requires Looks(th.prog, f) && th.prog.i == GStat(f) && Shown(d, th, t) && IsNamed(d, f) && FileLock(f) in th.held
    ensures SeesAll(t, EventsBy(d, th.prog.i, th.prog.next)) == [SizeSeen(d.files[f].size)]
  {
    LooksFetchNothing(th.prog, f);
    hide RestOf, Preads;
    SeesOne(t, Sized(d.files[f].id));
  }

  lemma StatHasLock(held: Held, f: Fid, next: Prog)
    requires Disciplined(held, Do(GStat(f), next))
    ensures FileLock(f) in held
  {
  }

  lemma StepFetches(d: Data, i: Instr, next: Prog, order: seq<Ref>)
    requires Defined(d, i) && !Branches(i) && !i.Acq? && !i.Rel? && !Views(Do(i, next))
    ensures Fetching(ExecData(d, i), ExecProg(d, i, next, order)) == Preads(next)
    ensures Fetching(d, Do(i, next)) == (if i.RPread? then [i.b.hash] else []) + Preads(next)
  {
    hide Views, RestOf, EventsAhead, Preads, ExecProg, ExecData, Defined;
    StepAhead(d, d, 0, i, next, order);
    PopOne(d, 0, i, next);
    NoViews(ExecProg(d, i, next, order));
    NoViews(Do(i, next));
  }

  lemma ExecSees(d: Data, v: Move, th: Thread, d1: Data, th1: Thread, t: Table)
    requires ThreadMoves(d, v, th, d1, th1) && v.Exec? && ViewGuarded(d, th.held, th.prog) && Ready(d, th)
    requires Shown(d, th, t)
    ensures SeesRightly(d, v, th, d1, th1, t)
  {
    hide RestOf, Views, EventsAhead, Preads, IsNamed, Disciplined, FilesOk, HashesRight, ExecData, ExecProg, Defined, OrderOk, EventsBy, Fetching, Looks;
    var i, next := th.prog.i, th.prog.next;
    assert th.prog == Do(i, next);
    BranchFacts(th.held, i, next);
    if Branches(i) {
      BranchSees(d, i, v.order, t);
      assert SeenBlocks(Fetching(d, th.prog)) + [] == [] + SeenBlocks(Fetching(d, th.prog));
    } else if Views(th.prog) {
      var f :| LooksSoon(th.prog, f) && FileIndex in th.held && IsNamed(d, f);
      StatThenNothing(d, th, f, d1, v.order);
      StatHasLock(th.held, f, next);
      StatSees(d, th, t, f);
      NothingSeen(t);
      NamedExists(d, f);
    } else {
      StepFetches(d, i, next, v.order);
      PopOne(d, 0, i, next);
      NothingToSee(t, d, i, next);
      OneSight(i, Preads(next));
    }
  }

  lemma NamedExists(d: Data, f: Fid)
    requires IsNamed(d, f)
    ensures f in d.files
  {
  }

  lemma OneSight(i: Instr, hs: seq<Hash>)
    ensures SeenBlocks((if i.RPread? then [i.b.hash] else []) + hs) + [] ==
            (if i.RPread? then [BlockSeen(i.b.hash)] else []) + SeenBlocks(hs)
  {
  }

  lemma StatThenNothing(d: Data, th: Thread, f: Fid, d1: Data, order: seq<Ref>)
    requires LooksSoon(th.prog, f) && !th.prog.i.Acq? && !th.prog.i.Rel? && Defined(d, th.prog.i)
    ensures Looks(th.prog, f) && th.prog == Do(GStat(f), th.prog.next)
    ensures Fetching(d1, ExecProg(d, th.prog.i, th.prog.next, order)) == [] && Fetching(d, th.prog) == []
  {
    LooksFetchNothing(th.prog, f);
    LookingEnds(th.prog, f);
    PopOne(d, f, th.prog.i, th.prog.next);
    hide Preads, Views, RestOf, EventsAhead;
    NoViews(th.prog.next);
  }

  lemma ThreadSees(d: Data, v: Move, th: Thread, d1: Data, th1: Thread, t: Table)
    requires ThreadMoves(d, v, th, d1, th1) && ViewGuarded(d, th.held, th.prog) && Ready(d, th)
    requires Shown(d, th, t)
    ensures SeesRightly(d, v, th, d1, th1, t)
  {
    hide ViewGuarded, Ready, Shown, SeesRightly, ExecData, ExecProg, Defined, OrderOk, Code;
    match v
    case Begin(_) => BeginSees(d, v, th, th1, t);
    case Exec(_, _) => ExecSees(d, v, th, d1, th1, t);
    case Release(_) => ReleaseSees(d, v, th, th1, t) by { assert Disciplined(th.held, th.prog) by { ReadyIs(d, th); } }
    case _ => LockMoveSees(d, v, th, th1, t);
  }

  lemma ReadyIs(d: Data, th: Thread)
    requires Ready(d, th)
    ensures Disciplined(th.held, th.prog)
  {
    hide Disciplined;
  }

  // ---------- In the system ----------

  /** A thread that has a lock on a file and nothing to do to it sees the file as the table has it. */
  lemma LockedEntry(s: Sys, f: Fid, t: Tid)
    requires LocksAgree(s) && t in s.threads && FileLock(f) in s.threads[t].held && RestOf(f, s.threads[t].prog) == NONE
    requires f in s.d.files
    ensures EntryOf(s, f) == Current(s.d.files[f])
  {
    hide LocksAgree, RestOf;
    forall u | IsWriter(s, f, u)
      ensures u == t
    {
      if u != t { Exclusion(s, FileLock(f), t, u); }
    }
    OnlyWriter(s, f, t);
    assert HashesOf(s.d.files[f].list) + [] == HashesOf(s.d.files[f].list);
  }

  lemma TableIsShown(s: Sys, t: Tid)
    requires LocksAgree(s) && FilesOk(s.d) && t in s.threads
    ensures Shown(s.d, s.threads[t], TableOf(s))
  {
    hide LocksAgree, FilesOk, RestOf, EntryOf, TableOf;
    TableKeys(s);
    forall f | IsNamed(s.d, f) && FileLock(f) in s.threads[t].held && RestOf(f, s.threads[t].prog) == NONE
      ensures TableOf(s)[s.d.files[f].id] == Current(s.d.files[f])
    {
      LockedEntry(s, f, t);
      TableHas(s, s.d.files[f].id);
    }
  }

  ghost function SightsOfMove(s: Sys, v: Move): seq<Sight>
    requires CanMove(s, v)
  {
    SightsOfThread(s.d, v, s.threads[v.t].prog)
  }

  /** Whoever moves sees what the table shows at its decisive steps, now or when it comes to fetch it. */
  lemma MoverSees(s: Sys, v: Move)
    requires CanMove(s, v) && v.t in s.threads && v.t in Moved(s, v).threads
    requires Orderly(s)
    ensures SightsOfMove(s, v) + SeenBlocks(Fetching(Moved(s, v).d, Moved(s, v).threads[v.t].prog)) ==
            SeenBlocks(Fetching(s.d, s.threads[v.t].prog)) + SeesAll(TableOf(s), EventsOfMove(s, v))
  {
    hide LocksAgree, ThreadsAreDisciplined, Sound, CanMove, Moved, FilesOk, HashesRight, Disciplined, EventsBy, ThreadMoves, RestNeedsLock;
    hide ViewGuarded, TableOf, Fetching, SightsOfThread, Shown;
    MoverFacts(s, v);
    MoverThread(s, v);
    TableIsShown(s, v.t);
    assert Careful(s.d, s.threads[v.t]);
    ThreadSees(s.d, v, s.threads[v.t], Moved(s, v).d, Moved(s, v).threads[v.t], TableOf(s));
    assert EventsOfThread(s.d, v, s.threads[v.t].prog) == EventsOfMove(s, v) by { MoveHasProg(s, v); }
  }

  /** A file changes only under its exclusive lock. */
  lemma ExecFile(d: Data, held: Held, i: Instr, next: Prog, f: Fid)
    requires Defined(d, i) && FilesOk(d) && Disciplined(held, Do(i, next)) && !Has(held, FileLock(f), Write)
    requires f in d.files && f in ExecData(d, i).files
    ensures ExecData(d, i).files[f].list == d.files[f].list && ExecData(d, i).files[f].size == d.files[f].size
  {
    if i.WAlloc? { FileSteps.AllocKeepsRest(d, i.bs); }
    if i.WCreate? { FreshFile(d, f); }
    ChangeNeedsLock(held, i, next);
    hide Disciplined, FilesOk;
  }

  lemma ChangeNeedsLock(held: Held, i: Instr, next: Prog)
    requires Disciplined(held, Do(i, next))
    ensures i.WAppend? || i.WSize? ==> Has(held, FileLock(i.f), Write)
  {
  }

  lemma LockedFileStays(s: Sys, v: Move, u: Tid, f: Fid)
    requires CanMove(s, v) && LocksAgree(s) && ThreadsAreDisciplined(s) && Sound(s)
    requires u in s.threads && u != v.t && FileLock(f) in s.threads[u].held && f in s.d.files && f in Moved(s, v).d.files
    ensures Moved(s, v).d.files[f].list == s.d.files[f].list && Moved(s, v).d.files[f].size == s.d.files[f].size
  {
    hide LocksAgree, ThreadsAreDisciplined, Sound, CanMove, Moved, Disciplined, ExecData, ExecProg, FilesOk, OrderOk;
    SoundFiles(s);
    MoverThread(s, v);
    ThreadIsDisciplined(s, v.t);
    var th := s.threads[v.t];
    if Has(th.held, FileLock(f), Write) {
      Exclusion(s, FileLock(f), v.t, u);
    }
    if v.Exec? { ExecFile(s.d, th.held, th.prog.i, th.prog.next, f); }
  }

  /** The file that a read is going to fetch from. */
  lemma FetchingHolds(d: Data, held: Held, p: Prog)
    requires Disciplined(held, p) && (AtRange(p) || CollectsSoon(p))
    ensures var i := if AtRange(p) || AtCollect(p) then p.i else p.next.i;
            FileLock(i.f) in held && i.f in FootOf(p).files
  {
    var i := if AtRange(p) || AtCollect(p) then p.i else p.next.i;
    if AtRange(p) || AtCollect(p) {
      BranchFacts(held, i, Done);
      assert FootOf(p) == Join(InstrFoot(i), FootOf(Done));
    } else {
      NextInstr(held, p);
      BranchFacts(held[BlockIndex := Read], i, Done);
      assert FootOf(p.next) == Join(InstrFoot(i), FootOf(Done));
      assert FootOf(p) == Join(InstrFoot(p.i), FootOf(p.next));
    }
    hide Disciplined, FootOf;
  }

  /** What a read has still to fetch stays the same, whatever the others do. */
  lemma OtherFetches(s: Sys, v: Move, u: Tid)
    requires CanMove(s, v) && LocksAgree(s) && ThreadsAreDisciplined(s) && Sound(s) && Sound(Moved(s, v)) && u in s.threads && u != v.t
    ensures Fetching(Moved(s, v).d, s.threads[u].prog) == Fetching(s.d, s.threads[u].prog)
  {
    hide LocksAgree, ThreadsAreDisciplined, Sound, CanMove, Moved, Disciplined, Covering, Part, Preads, FootOf;
    OthersStay(s, v);
    SoundThread(s, u);
    SoundThread(Moved(s, v), u);
    ThreadIsDisciplined(s, u);
    var p := s.threads[u].prog;
    if AtRange(p) || CollectsSoon(p) {
      FetchingHolds(s.d, s.threads[u].held, p);
      var i := if AtRange(p) || AtCollect(p) then p.i else p.next.i;
      LockedFileStays(s, v, u, i.f);
    }
  }
}

/** An unlink that overtakes a write does harm: from there on the run can always be continued so that the
    write is about to touch the file the unlink has freed. */
module Overtaking {
  import opened Collections
  import opened TicketLock
  import opened Programs
  import opened Discipline
  import opened Interleaving
  import opened Progress
  import opened Completion
  import opened RefCounts
  import opened QuietSteps
  import opened FileSteps
  import opened UnlinkSteps
  import opened Turns
  import opened Concurrency
  import opened Window

  /** t has stolen f, and the write u has not drawn its ticket for it yet. */
  ghost predicate Doomed(s: Sys, t: Tid, u: Tid, f: Fid) {
    && t in s.threads && u in s.threads && t != u
    && f in FootOf(s.threads[t].prog).stolen && f < s.d.fids && IsLate(s, u, f)
  }

  /** f has been freed, and the write u is still on its way to it. */
  ghost predicate Gone(s: Sys, u: Tid, f: Fid) {
    u in s.threads && Lags(s.threads[u].prog, f) && f !in s.d.files && f < s.d.fids
  }

  // ---------- The unlink can go on without the write ----------

  /** The write is in nobody's way who takes a file lock or a later one. */
  lemma LateIsNotBusy(s: Sys, u: Tid, f: Fid)
    requires ThreadsAreDisciplined(s) && u in s.threads && IsLate(s, u, f)
    ensures !BusyFrom(s, u, 1)
  {
    var th := s.threads[u];
    assert Disciplined(th.held, th.prog);
    WindowPoints(th.held, th.prog, f);
    hide ThreadsAreDisciplined, Disciplined;
  }

  /** A thief waits for file locks or later ones only. */
  lemma ThiefStopsHigh(s: Sys, t: Tid, f: Fid)
    requires ThreadsAreDisciplined(s) && Blocked(s, t) && f in FootOf(s.threads[t].prog).stolen
    ensures Tier(Stop(s, t)) >= 1
  {
    var th := s.threads[t];
    assert Disciplined(th.held, th.prog);
    AcqFoot(th.prog.i.l, th.prog.i.m, th.prog.next);
    hide FootOf;
  }

  lemma ThiefIsUnfinished(th: Thread, f: Fid)
    requires f in FootOf(th.prog).stolen
    ensures !Finished(th)
  {
  }

  lemma DoomedGoesOn(s: Sys, t: Tid, u: Tid, f: Fid)
    requires LocksAgree(s) && ThreadsAreDisciplined(s) && AllDefined(s) && Doomed(s, t, u, f)
    ensures exists v :: Progresses(s, v) && v.t != u
  {
    hide LocksAgree, ThreadsAreDisciplined, FootOf, IsLate, BusyFrom, Blocked, Progresses;
    LateIsNotBusy(s, u, f);
    ThiefIsUnfinished(s.threads[t], f);
    if Blocked(s, t) {
      ThiefStopsHigh(s, t, f);
      ProgressFrom(s, t, 1);
    } else {
      UnblockedCanMove(s, t);
    }
  }

  /** A thief stays a thief until it frees the file. */
  lemma StolenStays(s: Sys, v: Move, f: Fid)
    requires ThreadsAreDisciplined(s) && CanMove(s, v) && f in FootOf(s.threads[v.t].prog).stolen
    ensures f in FootOf(Moved(s, v).threads[v.t].prog).stolen || (v.Exec? && s.threads[v.t].prog.i == UFreeFile(f))
  {
    hide FootOf, Disciplined, Next, ExecProg, ExecData, OrderOk, Code, Overtakes;
    var th := s.threads[v.t];
    assert Disciplined(th.held, th.prog);
    match v
    case Begin(_) => FootOfDone();
    case Acquire(_) => AcqFoot(th.prog.i.l, th.prog.i.m, th.prog.next);
    case Retry(_) => AcqFoot(th.prog.i.l, th.prog.i.m, th.prog.next);
    case Release(_) => RelFoot(th.prog.i.l, th.prog.next);
    case Exec(_, order) => StolenStaysExec(s.d, th.held, th.prog.i, th.prog.next, order, f);
    case Spurious(_) =>
  }

  lemma StolenStaysExec(d: Data, held: Held, i: Instr, next: Prog, order: seq<Ref>, f: Fid)
    requires Defined(d, i) && OrderOk(d, i, order) && !i.Acq? && !i.Rel?
    requires Disciplined(held, Do(i, next)) && f in FootOf(Do(i, next)).stolen
    ensures f in FootOf(ExecProg(d, i, next, order)).stolen || i == UFreeFile(f)
  {
    hide FootOf, ExecProg, Needs, Disciplined;
    BranchFacts(held, i, next);
    if i.UTally? {
      StealFoot(i.f, []);
      TallyEndFoot(d, i.f, order);
    } else if Branches(i) {
      FootOfOne(i);
    } else if i.UFreeFile? {
      LastInstr(held, i.f, next);
      FreeFileFoot(i.f);
    } else {
      StepFiles(d, i, next, order);
    }
  }

  lemma TallyEndFoot(d: Data, f: Fid, order: seq<Ref>)
    requires Defined(d, UTally(f)) && OrderOk(d, UTally(f), order)
    ensures FootOf(ExecProg(d, UTally(f), Done, order)).stolen == {f}
  {
    hide FootOf;
    TallyProgFoot(f, order, d.files[f].list);
  }

  /** File objects are never reused. */
  lemma FilesStayGone(s: Sys, v: Move, f: Fid)
    requires CanMove(s, v) && f < s.d.fids
    ensures f < Moved(s, v).d.fids
    ensures f !in s.d.files || (v.Exec? && s.threads[v.t].prog.i == UFreeFile(f)) ==> f !in Moved(s, v).d.files
  {
    hide Next, ExecProg, ExecData, OrderOk, Code, Overtakes, Enabled;
    if v.Exec? {
      ExecKeepsGone(s.d, s.threads[v.t].prog.i, f);
    }
  }

  lemma ExecKeepsGone(d: Data, i: Instr, f: Fid)
    requires Defined(d, i) && f < d.fids
    ensures f < ExecData(d, i).fids
    ensures f !in d.files || i == UFreeFile(f) ==> f !in ExecData(d, i).files
  {
    if i.WAlloc? { AllocKeepsRest(d, i.bs); }
  }

  lemma DoomedMoves(s: Sys, v: Move, t: Tid, u: Tid, f: Fid)
    requires ThreadsAreDisciplined(s) && CanMove(s, v) && Doomed(s, t, u, f) && v.t != u
    ensures Doomed(Moved(s, v), t, u, f) || Gone(Moved(s, v), u, f)
  {
    hide ThreadsAreDisciplined, Moved, CanMove, FootOf, Lags;
    OthersStay(s, v);
    OthersKeepPlace(s, v, FileLock(f), u);
    FilesStayGone(s, v, f);
    if v.t == t {
      StolenStays(s, v, f);
    }
  }

  // ---------- The write arrives too late ----------

  lemma WindowMoves(s: Sys, v: Move, f: Fid)
    requires CanMove(s, v) && InWindow(s.threads[v.t].prog, f)
    ensures Lags(Moved(s, v).threads[v.t].prog, f)
  {
    hide Next, Defined, OrderOk, Overtakes, Enabled;
  }

  lemma GoneMoves(s: Sys, v: Move, u: Tid, f: Fid)
    requires CanMove(s, v) && AllDefined(s) && Gone(s, u, f)
    ensures Gone(Moved(s, v), u, f)
  {
    OthersStay(s, v);
    FilesStayGone(s, v, f);
    assert IsDefined(s, u);
    hide AllDefined, Moved, CanMove;
    if v.t == u {
      WindowMoves(s, v, f);
    }
  }

  lemma {:induction false} GoneEnds(s: Sys, u: Tid, f: Fid) returns (vs: seq<Move>)
    requires LocksAgree(s) && ThreadsAreDisciplined(s) && Gone(s, u, f)
    ensures Run(s, vs) && !AllDefined(End(s, vs))
    decreases Sum(TallyMap(s)), Sum(WorkMap(s)), Sum(AwakeMap(s))
  {
    vs := [];
    if AllDefined(s) {
      assert !Finished(s.threads[u]);
      hide LocksAgree, ThreadsAreDisciplined, AllDefined, Moved, CanMove, Gone, Run, End;
      NoDeadlock(s);
      var v :| Progresses(s, v);
      MoveKeepsLocks(s, v);
      GoneMoves(s, v, u, f);
      MoveLowers(s, v);
      var ws := GoneEnds(Moved(s, v), u, f);
      RunStarts(s, v, ws);
      vs := [v] + ws;
    }
  }

  lemma DoomedStep(s: Sys, t: Tid, u: Tid, f: Fid) returns (v: Move)
    requires LocksAgree(s) && ThreadsAreDisciplined(s) && AllDefined(s) && Doomed(s, t, u, f)
    ensures CanMove(s, v) && Lower(Moved(s, v), s)
    ensures LocksAgree(Moved(s, v)) && ThreadsAreDisciplined(Moved(s, v))
    ensures Doomed(Moved(s, v), t, u, f) || Gone(Moved(s, v), u, f)
  {
    hide LocksAgree, ThreadsAreDisciplined, AllDefined, Moved, CanMove, Gone, Doomed, Lower;
    DoomedGoesOn(s, t, u, f);
    v :| Progresses(s, v) && v.t != u;
    MoveKeepsLocks(s, v);
    DoomedMoves(s, v, t, u, f);
    MoveLowers(s, v);
  }

  lemma {:induction false} DoomedEnds(s: Sys, t: Tid, u: Tid, f: Fid) returns (vs: seq<Move>)
    requires LocksAgree(s) && ThreadsAreDisciplined(s) && Doomed(s, t, u, f)
    ensures Run(s, vs) && !AllDefined(End(s, vs))
    decreases Sum(TallyMap(s)), Sum(WorkMap(s)), Sum(AwakeMap(s))
  {
    vs := [];
    if AllDefined(s) {
      hide LocksAgree, ThreadsAreDisciplined, AllDefined, Moved, CanMove, Gone, Doomed, Run, End;
      var v := DoomedStep(s, t, u, f);
      var ws;
      if Gone(Moved(s, v), u, f) {
        ws := GoneEnds(Moved(s, v), u, f);
      } else {
        ws := DoomedEnds(Moved(s, v), t, u, f);
      }
      RunStarts(s, v, ws);
      vs := [v] + ws;
    }
  }

  // ---------- Exactly then ----------

  lemma OvertakingDooms(s: Sys, v: Move) returns (u: Tid, f: Fid)
    requires WindowInv(s) && !s.raced && CanMove(s, v) && v.Acquire? && Overtakes(s, v.t)
    ensures Doomed(Moved(s, v), v.t, u, f)
  {
    hide LocksAgree, Sound, InTurn, AllGuarded, Exposed, FootOf, Lags, Moved, CanMove, ThreadsAreDisciplined;
    f := s.threads[v.t].prog.i.l.f;
    u :| u != v.t && Behind(s, u, f);
    BehindIsLate(s, v.t, u, f);
    StolenFacts(s, v.t, f);
    OthersStay(s, v);
    OthersKeepPlace(s, v, FileLock(f), u);
    FilesStayGone(s, v, f);
    StolenStays(s, v, f);
  }

  lemma OvertakerIsDoomed(s: Sys, v: Move) returns (vs: seq<Move>)
    requires WindowInv(s) && !s.raced && CanMove(s, v) && Moved(s, v).raced
    ensures Run(s, [v] + vs) && !AllDefined(End(s, [v] + vs))
  {
    FlagMoves(s, v);
    hide LocksAgree, Sound, InTurn, AllGuarded, Exposed, Moved, CanMove, ThreadsAreDisciplined, Overtakes, AllDefined, Doomed;
    var u, f := OvertakingDooms(s, v);
    MoveKeepsLocks(s, v);
    vs := DoomedEnds(Moved(s, v), v.t, u, f);
    hide Run, End;
    RunStarts(s, v, vs);
  }

  /** When an unlink overtakes a write, a schedule of the rest exists after which some thread is about to touch
      a freed object. */
  lemma OvertakingGoesWrong(s: Sys, v: Move)
    requires Reachable(s) && !s.raced && CanMove(s, v) && Moved(s, v).raced
    ensures exists vs :: vs != [] && vs[0] == v && Run(s, vs) && !AllDefined(End(s, vs))
  {
    hide Reachable, WindowInv, Run, End, AllDefined, Moved, CanMove;
    ReachableWindow(s);
    var vs := OvertakerIsDoomed(s, v);
    assert ([v] + vs)[0] == v;
  }

  lemma {:induction false} FlaggedRunGoesWrong(s: Sys, vs: seq<Move>) returns (ws: seq<Move>)
    requires WindowInv(s) && !s.raced && Run(s, vs) && End(s, vs).raced
    ensures Run(s, ws) && !AllDefined(End(s, ws))
    decreases |vs|
  {
    hide WindowInv, AllDefined, Moved, CanMove;
    var s1 := Moved(s, vs[0]);
    if s1.raced {
      ws := OvertakerIsDoomed(s, vs[0]);
    } else {
      MoveKeepsWindow(s, vs[0]);
      ws := FlaggedRunGoesWrong(s1, vs[1..]);
    }
    ws := [vs[0]] + ws;
  }

  /** From every start: some schedule leads to an access to a freed object if and only if some schedule lets an
      unlink overtake a write. */
  lemma UnsafeExactlyIfOvertaken(s0: Sys)
    requires Initial(s0)
    ensures (exists vs :: Run(s0, vs) && !AllDefined(End(s0, vs))) <==> (exists vs :: Run(s0, vs) && End(s0, vs).raced)
  {
    InitialWindow(s0);
    hide AllDefined, Sound, LocksAgree, ThreadsAreDisciplined, InTurn, AllGuarded, Exposed, Run, End, DataOk;
    if vs :| Run(s0, vs) && !AllDefined(End(s0, vs)) {
      Concurrency.RunKeepsInv(s0, vs);
      if !End(s0, vs).raced { SoundIsAllDefined(End(s0, vs)); }
    }
    if vs :| Run(s0, vs) && End(s0, vs).raced {
      var ws := FlaggedRunGoesWrong(s0, vs);
    }
  }
}

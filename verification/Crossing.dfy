/** When workers write and unlink the same path: exactly then a schedule can go wrong. */
module Crossing {
  import opened Basics
  import opened Collections
  import opened TicketLock
  import opened Programs
  import opened Discipline
  import opened Interleaving
  import opened Progress
  import opened Completion
  import opened RefCounts
  import opened QuietSteps
  import opened FileSteps
  import opened Turns
  import opened Concurrency
  import opened Window
  import opened Overtaking
  import opened Plans

  // ---------- What workers are up to ----------

  predicate Writes(ops: seq<Op>, path: Path) {
    exists k :: 0 <= k < |ops| && ops[k].WriteOp? && ops[k].path == path
  }

  predicate Unlinks(ops: seq<Op>, path: Path) {
    !Reserved(path) && exists k :: 0 <= k < |ops| && ops[k].UnlinkOp? && ops[k].path == path
  }

  /** One worker has a write of the path to do and another one an unlink. */
  ghost predicate Crossed(threads: map<Tid, Thread>, path: Path) {
    exists i, j :: i in threads && j in threads && i != j && Writes(threads[i].todo, path) && Unlinks(threads[j].todo, path)
  }

  lemma {:induction false} TodoIsPlanned(ops: seq<Op>, path: Path)
    ensures Writes(ops, path) <==> Create(path) in TodoAims(ops)
    ensures Unlinks(ops, path) <==> Remove(path) in TodoAims(ops)
    ensures forall a :: a in TodoAims(ops) ==> a.Create? || a.Remove?
  {
    if ops != [] {
      TodoIsPlanned(ops[1..], path);
      CodeAims(ops[0]);
      assert ops == [ops[0]] + ops[1..];
      hide Code, Aims, Reserved;
      assert Writes(ops, path) <==> Writes(ops[..1], path) || Writes(ops[1..], path) by { MembersSplit(ops); }
      assert Unlinks(ops, path) <==> Unlinks(ops[..1], path) || Unlinks(ops[1..], path) by { MembersSplit(ops); }
    }
  }

  lemma MembersSplit(ops: seq<Op>)
    requires ops != []
    ensures forall k :: 0 <= k < |ops| ==> k == 0 || ops[k] == ops[1..][k - 1]
    ensures forall k :: 0 <= k < |ops[1..]| ==> ops[1..][k] == ops[k + 1]
  {
  }

  // ---------- Workers keep to their plans ----------

  /** What th is still after was in its plan from the start, and so were the paths of the files it has got hold of. */
  ghost predicate KeepsTo(d: Data, th: Thread, plan: set<Aim>) {
    Within(d, Plan(th), plan) && forall f :: f in FootOf(th.prog).stolen ==> IsOf(d, f, plan, true)
  }

  ghost predicate Within(d: Data, aims: set<Aim>, plan: set<Aim>) {
    forall a :: a in aims ==>
                  && (a.Check? ==> IsOf(d, a.f, plan, false))
                  && (a.Create? || a.Remove? ==> a in plan)
  }

  ghost predicate IsOf(d: Data, f: Fid, plan: set<Aim>, removed: bool) {
    f in d.files ==> (if removed then Remove(d.files[f].id) else Create(d.files[f].id)) in plan
  }

  ghost predicate AllKeep(s0: Sys, s: Sys) {
    s.threads.Keys == s0.threads.Keys && forall t :: t in s.threads ==> KeepsTo(s.d, s.threads[t], Plan(s0.threads[t]))
  }

  lemma {:induction false} CheckPoints(p: Prog, f: Fid)
    requires Check(f) in Aims(p)
    ensures f in FootOf(p).files
  {
    if Check(f) !in AimsOf(p.i) { CheckPoints(p.next, f); }
  }

  /** What a thread checks or has stolen is allocated. */
  lemma PlannedFilesExist(s: Sys, t: Tid, f: Fid)
    requires Sound(s) && t in s.threads && (Check(f) in Plan(s.threads[t]) || f in FootOf(s.threads[t].prog).stolen)
    ensures f in s.d.files
  {
    var th := s.threads[t];
    TodoIsPlanned(th.todo, "");
    if Check(f) in Plan(th) { CheckPoints(th.prog, f); }
    FootIsClosed(th.prog);
    SoundThread(s, t);
    hide FootOf, Sound, Aims, TodoAims;
  }

  /** A file keeps its path for life. */
  lemma ExecKeepsIds(d: Data, i: Instr, f: Fid)
    requires Defined(d, i) && FilesOk(d) && f in d.files && f in ExecData(d, i).files
    ensures ExecData(d, i).files[f].id == d.files[f].id
  {
    if i.WAlloc? { AllocKeepsRest(d, i.bs); }
  }

  lemma MoveKeepsIds(s: Sys, v: Move, f: Fid, plan: set<Aim>, removed: bool)
    requires CanMove(s, v) && FilesOk(s.d) && f in s.d.files && IsOf(s.d, f, plan, removed)
    ensures IsOf(Moved(s, v).d, f, plan, removed)
  {
    hide Next, ExecProg, ExecData, OrderOk, Code, Overtakes, Enabled, FilesOk;
    if v.Exec? && f in ExecData(s.d, s.threads[v.t].prog.i).files {
      ExecKeepsIds(s.d, s.threads[v.t].prog.i, f);
    }
  }

  lemma OtherKeeps(s: Sys, v: Move, u: Tid, plan: set<Aim>)
    requires CanMove(s, v) && u in s.threads && KeepsTo(s.d, s.threads[u], plan) && Sound(s)
    ensures KeepsTo(Moved(s, v).d, s.threads[u], plan)
  {
    hide Sound, FootOf, Moved, CanMove, Plan, IsOf, FilesOk;
    SoundFiles(s);
    var th := s.threads[u];
    forall a | a in Plan(th) && a.Check?
      ensures IsOf(Moved(s, v).d, a.f, plan, false)
    {
      PlannedFilesExist(s, u, a.f);
      MoveKeepsIds(s, v, a.f, plan, false);
    }
    forall f | f in FootOf(th.prog).stolen
      ensures IsOf(Moved(s, v).d, f, plan, true)
    {
      PlannedFilesExist(s, u, f);
      MoveKeepsIds(s, v, f, plan, true);
    }
  }

  /** The file that a write found or created has the path it was looking for. */
  lemma NewAimsAreWithin(d: Data, i: Instr, plan: set<Aim>)
    requires Defined(d, i) && FilesOk(d) && Within(d, AimsOf(i), plan)
    ensures Within(ExecData(d, i), NewAims(d, i), plan)
  {
  }

  lemma WithinBoth(d: Data, a: set<Aim>, b: set<Aim>, plan: set<Aim>)
    ensures Within(d, a + b, plan) <==> Within(d, a, plan) && Within(d, b, plan)
  {
    hide IsOf;
    assert Within(d, a, plan) && Within(d, b, plan) ==> Within(d, a + b, plan);
    assert forall x :: x in a || x in b ==> x in a + b;
  }

  lemma MoverAims(s: Sys, v: Move, plan: set<Aim>)
    requires CanMove(s, v) && KeepsTo(s.d, s.threads[v.t], plan)
    requires ThreadsAreDisciplined(s) && Sound(s)
    ensures Within(Moved(s, v).d, Plan(Moved(s, v).threads[v.t]), plan)
  {
    ExecTarget(s, v);
    hide Sound, FootOf, Moved, CanMove, Within, FilesOk, ThreadsAreDisciplined, Aims, TodoAims, Defined, ExecData, NewAims, Plan;
    MoverPlan(s, v);
    OtherKeeps(s, v, v.t, plan);
    SoundFiles(s);
    var th := s.threads[v.t];
    if v.Exec? {
      var i, d1 := th.prog.i, Moved(s, v).d;
      var rest, todo := Aims(th.prog.next), TodoAims(th.todo);
      WithinBoth(s.d, AimsOf(i) + rest, todo, plan);
      WithinBoth(s.d, AimsOf(i), rest, plan);
      WithinBoth(d1, AimsOf(i) + rest, todo, plan);
      WithinBoth(d1, AimsOf(i), rest, plan);
      NewAimsAreWithin(s.d, i, plan);
      WithinBoth(d1, NewAims(s.d, i) + rest, todo, plan);
      WithinBoth(d1, NewAims(s.d, i), rest, plan);
    }
  }

  lemma ExecTarget(s: Sys, v: Move)
    requires CanMove(s, v)
    ensures v.Exec? ==> s.threads[v.t].prog.Do? && Defined(s.d, s.threads[v.t].prog.i) &&
                        Moved(s, v).d == ExecData(s.d, s.threads[v.t].prog.i)
  {
    hide ExecData, ExecProg, Next;
  }

  lemma MoverKeeps(s: Sys, v: Move, plan: set<Aim>)
    requires CanMove(s, v) && KeepsTo(s.d, s.threads[v.t], plan)
    requires ThreadsAreDisciplined(s) && Sound(s)
    ensures KeepsTo(Moved(s, v).d, Moved(s, v).threads[v.t], plan)
  {
    hide Sound, FootOf, Moved, CanMove, Within, ThreadsAreDisciplined, Plan, IsTheft, IsOf;
    OthersStay(s, v);
    MoverAims(s, v, plan);
    MoverFiles(s, v);
    OtherKeeps(s, v, v.t, plan);
    if IsTheft(s, v) {
      TheftIsPlanned(s, v, plan);
    }
  }

  lemma TheftIsPlanned(s: Sys, v: Move, plan: set<Aim>)
    requires CanMove(s, v) && KeepsTo(s.d, s.threads[v.t], plan) && IsTheft(s, v)
    requires ThreadsAreDisciplined(s) && Sound(s)
    ensures forall f :: f in FootOf(Moved(s, v).threads[v.t].prog).stolen ==> IsOf(Moved(s, v).d, f, plan, true)
  {
    var th := s.threads[v.t];
    var f := s.d.fileIndex[th.prog.i.path];
    assert Remove(th.prog.i.path) in Plan(th);
    hide Sound, FootOf, Moved, CanMove, ThreadsAreDisciplined;
    SoundFiles(s);
    TheftFoot(s, v);
    MoveKeepsIds(s, v, f, plan, true);
  }

  lemma MoveKeepsPlans(s0: Sys, s: Sys, v: Move)
    requires CanMove(s, v) && AllKeep(s0, s) && ThreadsAreDisciplined(s) && Sound(s)
    ensures AllKeep(s0, Moved(s, v))
  {
    hide Sound, FootOf, Moved, CanMove, ThreadsAreDisciplined, KeepsTo, Plan;
    var s1 := Moved(s, v);
    OthersStay(s, v);
    forall t | t in s1.threads
      ensures KeepsTo(s1.d, s1.threads[t], Plan(s0.threads[t]))
    {
      if t == v.t {
        MoverKeeps(s, v, Plan(s0.threads[t]));
      } else {
        OtherKeeps(s, v, t, Plan(s0.threads[t]));
      }
    }
  }

  lemma PlansAtStart(s0: Sys)
    requires Idle(s0)
    ensures AllKeep(s0, s0)
  {
    forall t | t in s0.threads
      ensures KeepsTo(s0.d, s0.threads[t], Plan(s0.threads[t]))
    {
      TodoIsPlanned(s0.threads[t].todo, "");
    }
  }

  /** Whoever is overtaken and whoever overtakes had the same path in their plans. */
  lemma OvertakingCrosses(s0: Sys, s: Sys, t: Tid) returns (path: Path)
    requires Idle(s0) && AllKeep(s0, s) && WindowInv(s) && !s.raced && Overtakes(s, t)
    ensures Crossed(s0.threads, path)
  {
    hide LocksAgree, InTurn, AllGuarded, Exposed, FootOf, Lags, Sound, ThreadsAreDisciplined, KeepsTo, Plan;
    var f := s.threads[t].prog.i.l.f;
    var u :| u != t && Behind(s, u, f);
    BehindIsLate(s, t, u, f);
    LagsChecks(s.threads[u], f);
    PlannedFilesExist(s, u, f);
    path := s.d.files[f].id;
    KeepsCheck(s, u, f, Plan(s0.threads[u]));
    KeepsStolen(s, t, f, Plan(s0.threads[t]));
    PlanAtStart(s0, u, path);
    PlanAtStart(s0, t, path);
  }

  lemma LagsChecks(th: Thread, f: Fid)
    requires Lags(th.prog, f)
    ensures Check(f) in Plan(th)
  {
    var q := if InWindow(th.prog, f) then th.prog.next else th.prog;
    assert Check(f) in AimsOf(q.next.i);
    assert Aims(q) == AimsOf(q.i) + Aims(q.next);
  }

  lemma KeepsCheck(s: Sys, u: Tid, f: Fid, plan: set<Aim>)
    requires u in s.threads && KeepsTo(s.d, s.threads[u], plan) && Check(f) in Plan(s.threads[u]) && f in s.d.files
    ensures Create(s.d.files[f].id) in plan
  {
  }

  lemma KeepsStolen(s: Sys, t: Tid, f: Fid, plan: set<Aim>)
    requires t in s.threads && KeepsTo(s.d, s.threads[t], plan) && f in FootOf(s.threads[t].prog).stolen && f in s.d.files
    ensures Remove(s.d.files[f].id) in plan
  {
  }

  lemma PlanAtStart(s0: Sys, t: Tid, path: Path)
    requires Idle(s0) && t in s0.threads
    ensures Create(path) in Plan(s0.threads[t]) <==> Writes(s0.threads[t].todo, path)
    ensures Remove(path) in Plan(s0.threads[t]) <==> Unlinks(s0.threads[t].todo, path)
  {
    TodoIsPlanned(s0.threads[t].todo, path);
    AimsOfDone();
  }

  ghost predicate Uncrossed(s0: Sys) {
    forall path :: !Crossed(s0.threads, path)
  }

  lemma UncrossedMove(s0: Sys, s: Sys, v: Move)
    requires Idle(s0) && Uncrossed(s0) && AllKeep(s0, s) && WindowInv(s) && !s.raced && CanMove(s, v)
    ensures AllKeep(s0, Moved(s, v)) && WindowInv(Moved(s, v)) && !Moved(s, v).raced
  {
    FlagMoves(s, v);
    hide Idle, AllKeep, LocksAgree, InTurn, AllGuarded, Exposed, Sound, ThreadsAreDisciplined, Moved, CanMove, Overtakes, Crossed;
    MoveKeepsWindow(s, v);
    MoveKeepsPlans(s0, s, v);
    if v.Acquire? && Overtakes(s, v.t) {
      var path := OvertakingCrosses(s0, s, v.t);
    }
  }

  lemma {:induction false} UncrossedRun(s0: Sys, s: Sys, vs: seq<Move>)
    requires Idle(s0) && Uncrossed(s0) && AllKeep(s0, s) && WindowInv(s) && !s.raced && Run(s, vs)
    ensures !End(s, vs).raced
    decreases |vs|
  {
    hide Idle, AllKeep, WindowInv, Moved, CanMove, Uncrossed;
    if vs != [] {
      UncrossedMove(s0, s, vs[0]);
      UncrossedRun(s0, Moved(s, vs[0]), vs[1..]);
    }
  }

  /** If no worker writes a path that another one unlinks, no unlink ever overtakes a write. */
  lemma UncrossedIsNeverOvertaken(s0: Sys, vs: seq<Move>)
    requires Initial(s0) && Uncrossed(s0) && Run(s0, vs)
    ensures !End(s0, vs).raced
  {
    PlansAtStart(s0);
    InitialWindow(s0);
    hide AllKeep, WindowInv, Run, End, DataOk, Uncrossed;
    UncrossedRun(s0, s0, vs);
  }

  // ---------- One worker alone ----------

  /** All but i hold nothing and are queued nowhere. */
  ghost predicate Alone(s: Sys, i: Tid) {
    && i in s.threads
    && (forall u :: u in s.threads && u != i ==> s.threads[u].held == map[])
    && (forall u, l :: u != i && !IsMutex(l) ==> u !in LockOf(s, l).waiting)
  }

  lemma AloneIsNotBlocked(s: Sys, i: Tid)
    requires LocksAgree(s) && ThreadsAreDisciplined(s) && Alone(s, i)
    ensures !Blocked(s, i)
  {
    if Blocked(s, i) {
      var u := BlockedBySomeone(s, i);
      hide LocksAgree, ThreadsAreDisciplined;
      NobodyInTheWay(s, i, u);
      HolderStopsHigher(s, Stop(s, i), i);
    }
  }

  lemma NobodyInTheWay(s: Sys, i: Tid, u: Tid)
    requires Alone(s, i) && u in s.threads && Blocked(s, i)
    requires Stop(s, i) in s.threads[u].held || (IsNext(s, u) && Stop(s, u) == Stop(s, i))
    ensures Stop(s, i) in s.threads[i].held
  {
  }

  lemma AloneMoves(s: Sys, v: Move)
    requires CanMove(s, v) && Alone(s, v.t)
    ensures Alone(Moved(s, v), v.t)
  {
    hide Moved, CanMove;
    OthersStay(s, v);
    forall u, l | u != v.t && !IsMutex(l)
      ensures u !in LockOf(Moved(s, v), l).waiting
    {
      OthersKeepPlace(s, v, l, u);
    }
  }

  lemma AloneGoesOn(s: Sys, i: Tid) returns (v: Move)
    requires LocksAgree(s) && ThreadsAreDisciplined(s) && AllDefined(s) && Alone(s, i) && !Finished(s.threads[i])
    ensures CanMove(s, v) && v.t == i && Lower(Moved(s, v), s)
    ensures LocksAgree(Moved(s, v)) && ThreadsAreDisciplined(Moved(s, v)) && Alone(Moved(s, v), i)
  {
    hide LocksAgree, ThreadsAreDisciplined, Moved, CanMove, Lower, Blocked;
    AloneIsNotBlocked(s, i);
    UnblockedCanMove(s, i);
    v :| Progresses(s, v) && v.t == i;
    MoveKeepsLocks(s, v);
    MoveLowers(s, v);
    AloneMoves(s, v);
  }

  // ---------- A write goes into its window ----------

  /** Worker i has a write of the path to do, and the path is unknown. */
  ghost predicate Preparing(s: Sys, i: Tid, path: Path) {
    i in s.threads && Create(path) in Plan(s.threads[i]) && path !in s.d.fileIndex
  }

  /** It has created the file f and is about to let go of the file index. */
  ghost predicate Created(s: Sys, i: Tid, path: Path, f: Fid) {
    && path in s.d.fileIndex && s.d.fileIndex[path] == f && f < s.d.fids
    && i in s.threads && s.threads[i].prog.Do? && s.threads[i].prog.i == Rel(FileIndex) && InWindow(s.threads[i].prog.next, f)
  }

  lemma ExecKeepsIndex(d: Data, i: Instr, path: Path)
    requires Defined(d, i)
    ensures var d1 := ExecData(d, i);
            && (path !in d.fileIndex && i.WCreate? && i.path == path ==>
                  path in d1.fileIndex && d1.fileIndex[path] == d.fids < d1.fids)
            && (path !in d.fileIndex && !(i.WCreate? && i.path == path) ==> path !in d1.fileIndex)
            && (path in d.fileIndex && !(i.ULookup? && i.path == path) ==>
                  path in d1.fileIndex && d1.fileIndex[path] == d.fileIndex[path])
  {
    if i.WAlloc? { AllocKeepsRest(d, i.bs); }
  }

  lemma PreparingMoves(s: Sys, v: Move, path: Path)
    requires CanMove(s, v) && ThreadsAreDisciplined(s) && Preparing(s, v.t, path)
    ensures Preparing(Moved(s, v), v.t, path) || Created(Moved(s, v), v.t, path, s.d.fids)
  {
    ExecTarget(s, v);
    hide ThreadsAreDisciplined, Moved, CanMove, Aims, TodoAims, Defined, ExecData;
    OthersStay(s, v);
    MoverPlan(s, v);
    if v.Exec? {
      var i := s.threads[v.t].prog.i;
      ExecKeepsIndex(s.d, i, path);
      if i.WCreate? && i.path == path {
        CreatedNow(s, v);
      }
    } else {
      SameData(s, v);
    }
  }

  lemma SameData(s: Sys, v: Move)
    requires CanMove(s, v) && !v.Exec?
    ensures Moved(s, v).d == s.d
  {
    hide Next, Overtakes, Enabled;
  }

  lemma CreatedNow(s: Sys, v: Move)
    requires CanMove(s, v) && v.Exec? && s.threads[v.t].prog.i.WCreate? && s.threads[v.t].prog.i.path !in s.d.fileIndex
    ensures var p := Moved(s, v).threads[v.t].prog;
            p.Do? && p.i == Rel(FileIndex) && InWindow(p.next, s.d.fids)
  {
    hide ExecData;
  }

  /** Worker i stands in the window of its write, in nobody's way. */
  ghost predicate Standing(s: Sys, i: Tid, path: Path, f: Fid) {
    && path in s.d.fileIndex && s.d.fileIndex[path] == f && f < s.d.fids
    && i in s.threads && s.threads[i].held == map[] && InWindow(s.threads[i].prog, f)
    && forall l :: !IsMutex(l) ==> i !in LockOf(s, l).waiting
  }

  lemma CreatedMoves(s: Sys, v: Move, path: Path, f: Fid)
    requires CanMove(s, v) && LocksAgree(s) && ThreadsAreDisciplined(s) && Created(s, v.t, path, f)
    ensures Standing(Moved(s, v), v.t, path, f)
  {
    var s1 := Moved(s, v);
    OthersStay(s, v);
    MoveKeepsLocks(s, v);
    ReleasesIndex(s, v, f);
    assert Disciplined(s1.threads[v.t].held, s1.threads[v.t].prog);
    WindowPoints(s1.threads[v.t].held, s1.threads[v.t].prog, f);
    hide LocksAgree, ThreadsAreDisciplined, Disciplined, Moved, CanMove;
    forall l | !IsMutex(l)
      ensures v.t !in LockOf(s1, l).waiting
    {
      if l != FileIndex { WaitsOnlyWhereStopped(s1, v.t, l); }
    }
  }

  lemma ReleasesIndex(s: Sys, v: Move, f: Fid)
    requires CanMove(s, v) && LocksAgree(s) && s.threads[v.t].prog.Do? && s.threads[v.t].prog.i == Rel(FileIndex)
    ensures Moved(s, v).d == s.d && Moved(s, v).threads[v.t].prog == s.threads[v.t].prog.next
    ensures v.t !in LockOf(Moved(s, v), FileIndex).waiting
  {
    LockIsSafe(s, FileIndex);
    NextOwnEffects(LockOf(s, FileIndex), Unlock(v.t, s.threads[v.t].held[FileIndex]));
    hide LocksAgree, TicketLock.Inv, Next;
  }

  /** e is a state in which i is alone, and the other workers are as they were in s. */
  ghost predicate Solo(s: Sys, e: Sys, i: Tid) {
    && LocksAgree(e) && ThreadsAreDisciplined(e) && Alone(e, i)
    && e.threads.Keys == s.threads.Keys && forall u :: u in s.threads && u != i ==> e.threads[u] == s.threads[u]
  }

  lemma SoloLater(s: Sys, v: Move, e: Sys)
    requires CanMove(s, v) && Solo(Moved(s, v), e, v.t)
    ensures Solo(s, e, v.t)
  {
    hide LocksAgree, ThreadsAreDisciplined, Alone, Moved, CanMove;
    OthersStay(s, v);
  }

  lemma {:induction false} PrepareRun(s: Sys, i: Tid, path: Path) returns (vs: seq<Move>, f: Fid)
    requires LocksAgree(s) && ThreadsAreDisciplined(s) && Alone(s, i) && Preparing(s, i, path)
    ensures Run(s, vs) && Solo(s, End(s, vs), i)
    ensures !AllDefined(End(s, vs)) || Standing(End(s, vs), i, path, f)
    decreases Sum(TallyMap(s)), Sum(WorkMap(s)), Sum(AwakeMap(s))
  {
    vs, f := [], 0;
    if AllDefined(s) {
      UnfinishedPlan(s.threads[i], Create(path));
      hide LocksAgree, ThreadsAreDisciplined, AllDefined, Moved, CanMove, Alone, Preparing, Created, Standing, Run, End;
      var v := AloneGoesOn(s, i);
      PreparingMoves(s, v, path);
      hide Solo;
      var ws;
      if Preparing(Moved(s, v), i, path) {
        ws, f := PrepareRun(Moved(s, v), i, path);
      } else {
        f := s.d.fids;
        ws := StandUp(Moved(s, v), i, path, f);
      }
      RunStarts(s, v, ws);
      SoloLater(s, v, End(Moved(s, v), ws));
      vs := [v] + ws;
    }
  }

  lemma StandUp(s: Sys, i: Tid, path: Path, f: Fid) returns (vs: seq<Move>)
    requires LocksAgree(s) && ThreadsAreDisciplined(s) && Alone(s, i) && Created(s, i, path, f)
    ensures Run(s, vs) && Solo(s, End(s, vs), i)
    ensures !AllDefined(End(s, vs)) || Standing(End(s, vs), i, path, f)
  {
    hide LocksAgree, ThreadsAreDisciplined, AllDefined, Moved, CanMove, Alone, Standing, Lower, InWindow;
    vs := [];
    if AllDefined(s) {
      assert !Finished(s.threads[i]);
      hide Run, End;
      var v := AloneGoesOn(s, i);
      CreatedMoves(s, v, path, f);
      SoloLater(s, v, Moved(s, v));
      OneMove(s, v);
      vs := [v];
    }
  }

  lemma UnfinishedPlan(th: Thread, a: Aim)
    requires a in Plan(th)
    ensures !Finished(th)
  {
    AimsOfDone();
  }

  // ---------- An unlink comes along ----------

  /** Worker j has an unlink of the path to do. */
  ghost predicate Hunting(s: Sys, j: Tid, path: Path, f: Fid) {
    j in s.threads && Remove(path) in Plan(s.threads[j]) && path in s.d.fileIndex && s.d.fileIndex[path] == f && f < s.d.fids
  }

  /** i waits in the window for f, queued nowhere. */
  ghost predicate Sitting(s: Sys, i: Tid, f: Fid) {
    i in s.threads && InWindow(s.threads[i].prog, f)
  }

  lemma HuntingMoves(s: Sys, v: Move, i: Tid, path: Path, f: Fid)
    requires CanMove(s, v) && ThreadsAreDisciplined(s) && Alone(s, v.t) && v.t != i
    requires Hunting(s, v.t, path, f) && Sitting(s, i, f)
    ensures Sitting(Moved(s, v), i, f)
    ensures Hunting(Moved(s, v), v.t, path, f) || Doomed(Moved(s, v), v.t, i, f)
  {
    hide ThreadsAreDisciplined, Moved, CanMove, Aims, TodoAims, Defined, ExecData, InWindow, FootOf, Alone;
    ExecTarget(s, v);
    AloneMoves(s, v);
    NotWaiting(s, v, i, f);
    OthersStay(s, v);
    MoverPlan(s, v);
    FilesStayGone(s, v, f);
    if v.Exec? {
      var i := s.threads[v.t].prog.i;
      ExecKeepsIndex(s.d, i, path);
      if i.ULookup? && i.path == path {
        StolenNow(s, v);
      }
    } else {
      SameData(s, v);
    }
  }

  lemma NotWaiting(s: Sys, v: Move, i: Tid, f: Fid)
    requires CanMove(s, v) && Alone(s, v.t) && v.t != i
    ensures i !in LockOf(Moved(s, v), FileLock(f)).waiting
  {
    hide Moved, CanMove;
    AloneMoves(s, v);
  }

  lemma StolenNow(s: Sys, v: Move)
    requires CanMove(s, v) && ThreadsAreDisciplined(s) && IsTheft(s, v)
    ensures s.d.fileIndex[s.threads[v.t].prog.i.path] in FootOf(Moved(s, v).threads[v.t].prog).stolen
  {
    var th := s.threads[v.t];
    assert Disciplined(th.held, th.prog);
    StealFoot(s.d.fileIndex[th.prog.i.path], th.prog.i.path);
    hide FootOf, ExecData;
  }

  lemma HuntersAreBusy(s: Sys, j: Tid, path: Path, f: Fid)
    requires Hunting(s, j, path, f)
    ensures j in s.threads && !Finished(s.threads[j])
  {
    UnfinishedPlan(s.threads[j], Remove(path));
    hide Plan;
  }

  lemma NoMoves(s: Sys)
    ensures Run(s, []) && End(s, []) == s
  {
  }

  lemma {:induction false} HuntRun(s: Sys, i: Tid, j: Tid, path: Path, f: Fid) returns (vs: seq<Move>)
    requires LocksAgree(s) && ThreadsAreDisciplined(s) && Alone(s, j) && i != j && Hunting(s, j, path, f) && Sitting(s, i, f)
    ensures Run(s, vs) && !AllDefined(End(s, vs))
    decreases Sum(TallyMap(s)), Sum(WorkMap(s)), Sum(AwakeMap(s))
  {
    hide LocksAgree, ThreadsAreDisciplined, AllDefined, Moved, CanMove, Alone, Hunting, Sitting, Doomed, Run, End, Plan;
    vs := [];
    NoMoves(s);
    if AllDefined(s) {
      HuntersAreBusy(s, j, path, f);
      var v := AloneGoesOn(s, j);
      HuntingMoves(s, v, i, path, f);
      var ws;
      if Hunting(Moved(s, v), j, path, f) {
        ws := HuntRun(Moved(s, v), i, j, path, f);
      } else {
        ws := DoomedEnds(Moved(s, v), j, i, f);
      }
      RunStarts(s, v, ws);
      vs := [v] + ws;
    }
  }

  // ---------- Exactly then ----------

  lemma IdleStart(s: Sys, i: Tid, path: Path)
    requires Idle(s) && i in s.threads && Writes(s.threads[i].todo, path) && path !in s.d.fileIndex
    ensures Alone(s, i) && Preparing(s, i, path)
  {
    PlanAtStart(s, i, path);
    hide Plan, Writes;
  }

  /** After the solo run of the writer, the unlinker is as it was, and nobody is in its way. */
  lemma HandOver(s: Sys, e: Sys, i: Tid, j: Tid, path: Path, f: Fid)
    requires Idle(s) && j in s.threads && i != j && Unlinks(s.threads[j].todo, path)
    requires Solo(s, e, i) && Standing(e, i, path, f)
    ensures LocksAgree(e) && ThreadsAreDisciplined(e) && Alone(e, j) && Hunting(e, j, path, f) && Sitting(e, i, f)
  {
    PlanAtStart(s, j, path);
    hide Plan, InWindow, LocksAgree, ThreadsAreDisciplined;
  }

  /** From any start: if one worker has a write and another one an unlink of a path that is not in the index, some
      schedule leads to an access to a freed object. */
  lemma CrossedGoesWrong(s0: Sys, path: Path)
    requires Initial(s0) && Crossed(s0.threads, path) && path !in s0.d.fileIndex
    ensures exists vs :: Run(s0, vs) && !AllDefined(End(s0, vs))
  {
    hide Idle, Preparing, Solo, LocksAgree, ThreadsAreDisciplined, AllDefined, Alone, Standing, Hunting, Sitting, Run, End;
    hide DataOk, Plan, Writes, Unlinks;
    var i, j :| i in s0.threads && j in s0.threads && i != j && Writes(s0.threads[i].todo, path) && Unlinks(s0.threads[j].todo, path);
    IdleLocks(s0);
    IdleStart(s0, i, path);
    var vs, f := PrepareRun(s0, i, path);
    var e := End(s0, vs);
    if AllDefined(e) {
      HandOver(s0, e, i, j, path, f);
      var ws := HuntRun(e, i, j, path, f);
      RunsJoin(s0, vs, ws);
    }
  }

  /** Which operations are safe: workers with these operations never touch a freed object, whatever the store holds
      and whatever the schedule, if and only if no path is written by one and unlinked by another. */
  lemma SafeExactlyIfUncrossed(threads: map<Tid, Thread>)
    requires forall t :: t in threads ==> threads[t].held == map[] && threads[t].prog == Done
    ensures (forall s0, vs :: Initial(s0) && s0.threads == threads && Run(s0, vs) ==> AllDefined(End(s0, vs))) <==>
            (forall path :: !Crossed(threads, path))
  {
    hide AllDefined, DataOk, Run, End, Crossed;
    if forall path :: !Crossed(threads, path) {
      forall s0, vs | Initial(s0) && s0.threads == threads && Run(s0, vs)
        ensures AllDefined(End(s0, vs))
      {
        UncrossedIsDefined(s0, vs);
      }
    } else {
      var path :| Crossed(threads, path);
      var s0 := Sys(map[], map[], EMPTY_DATA, threads, false);
      EmptyDataIsOk();
      CrossedGoesWrong(s0, path);
    }
  }

  lemma UncrossedIsDefined(s0: Sys, vs: seq<Move>)
    requires Initial(s0) && Uncrossed(s0) && Run(s0, vs)
    ensures AllDefined(End(s0, vs))
  {
    UncrossedIsNeverOvertaken(s0, vs);
    InitialInv(s0);
    hide Run, End, Uncrossed, Initial, LocksAgree, Sound, InTurn, ThreadsAreDisciplined;
    Concurrency.RunKeepsInv(s0, vs);
    SoundIsAllDefined(End(s0, vs));
  }

  /** A write of a path by one worker and an unlink of it by another one, on an empty store. */
  lemma WriteAgainstUnlink() returns (s0: Sys)
    ensures Initial(s0) && exists vs :: Run(s0, vs) && !AllDefined(End(s0, vs))
  {
    var writer := Thread(map[], Done, [WriteOp("f", 0, [])]);
    var unlinker := Thread(map[], Done, [UnlinkOp("f")]);
    s0 := Sys(map[], map[], EMPTY_DATA, map[0 := writer, 1 := unlinker], false);
    EmptyDataIsOk();
    assert Writes(writer.todo, "f") && Unlinks(unlinker.todo, "f") by {
      assert writer.todo[0].WriteOp? && unlinker.todo[0].UnlinkOp?;
    }
    assert Writes(s0.threads[0].todo, "f") && Unlinks(s0.threads[1].todo, "f");
    hide DataOk, Run, End, AllDefined, Crossed;
    CrossedGoesWrong(s0, "f");
  }

  /** Without crossing paths, in every state of every run counters count references, nothing dangles and nothing
      is stuck. */
  lemma UncrossedRunIsSafe(s0: Sys, vs: seq<Move>)
    requires Initial(s0) && Uncrossed(s0) && Run(s0, vs)
    ensures var s := End(s0, vs);
            && (forall b :: b in s.d.blocks ==> s.d.blocks[b].counter == References(s)[b])
            && (forall b :: b in References(s) ==> b in s.d.blocks && Indexed(s.d, b))
            && AllDefined(s)
            && (!AllFinished(s) ==> exists v :: Progresses(s, v))
  {
    UncrossedIsNeverOvertaken(s0, vs);
    var s := End(s0, vs);
    assert Reachable(s);
    hide Run, End, Uncrossed, Initial, Reachable, AllFinished, Progresses, AllDefined, References;
    NothingDangles(s);
    forall b | b in s.d.blocks
      ensures s.d.blocks[b].counter == References(s)[b] && (References(s)[b] > 0 ==> Indexed(s.d, b))
    {
      CountersCountReferences(s, b);
    }
    if !AllFinished(s) { NeverStuck(s); }
  }

  /** And every maximal run finishes all operations. */
  lemma UncrossedRunCompletes(sigma: nat -> Sys)
    requires Maximal(sigma) && Uncrossed(sigma(0))
    ensures exists k: nat :: AllFinished(sigma(k))
  {
    var k := EveryMaximalRunCompletes(sigma);
    var vs := MaximalRuns(sigma, k);
    UncrossedIsNeverOvertaken(sigma(0), vs);
  }
}

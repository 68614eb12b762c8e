/** What holds in every state the interleaved system can reach. */
module Concurrency {
  import opened Collections
  import opened TicketLock
  import opened Programs
  import opened Discipline
  import opened Interleaving
  import opened Progress
  import opened Completion
  import opened RefCounts
  import opened QuietSteps
  import opened DataSteps
  import opened FileSteps
  import opened UnlinkSteps
  import opened Turns
  import opened Offsets
  import Space

  /** Locks and programs are always in order; the data, the space and the turns at stolen files are until an
      unlink overtakes another operation. */
  ghost predicate SysInv(s: Sys) {
    LocksAgree(s) && ThreadsAreDisciplined(s) && (!s.raced ==> Sound(s) && InTurn(s) && SpaceOk(s))
  }

  /** Tables whose counters count the entries of the lists, with all blocks in their places. */
  ghost predicate DataOk(d: Data) {
    && FilesOk(d) && BlocksOk(d, Total(EntryMap(d.files)))
    && (forall b :: b in d.blocks ==> d.blocks[b].off.Some?) && Space.Partitioned(SpaceOf(d, {}))
  }

  /** No move has been made: every worker is between operations, and the tables are as a mount loads them. */
  ghost predicate Initial(s: Sys) {
    Idle(s) && DataOk(s.d)
  }

  lemma EmptyDataIsOk()
    ensures DataOk(EMPTY_DATA)
  {
    assert EntryMap(EMPTY_DATA.files) == map[];
    assert SpaceOf(EMPTY_DATA, {}) == Space.Space(map[], [], 0);
    assert Space.Range<Ref>(map[]) == {} && Elements<nat>([]) == {} && Space.SlotsBelow(0) == {};
  }

  // ---------- Every move keeps the invariant ----------

  lemma ExecFacts(s: Sys, t: Tid, i: Instr, next: Prog)
    requires LocksAgree(s) && ThreadsAreDisciplined(s) && t in s.threads && s.threads[t].prog == Do(i, next)
    ensures Disciplined(s.threads[t].held, Do(i, next))
    ensures Branches(i) ==> next == Done && s.threads[t].held == Needs(i)
    ensures i.WCount? || i.WInsert? ==> i.created <= Elements(i.got)
    ensures i.WInsert? ==> i.rest != []
  {
    hide LocksAgree, Needs;
  }

  /** An instruction of a write that changes data. */
  lemma WriteExecIsSound(s: Sys, s1: Sys, t: Tid, i: Instr, next: Prog, order: seq<Ref>)
    requires i.WCreate? || i.WCount? || i.WInsert? || i.WAlloc? || i.WAppend? || i.WSize?
    requires Defined(s.d, i) && !IsQuiet(s.d, i) && s1.d == ExecData(s.d, i)
    requires t in s.threads && s.threads[t].prog == Do(i, next)
    requires s1.threads == s.threads[t := s.threads[t].(prog := ExecProg(s.d, i, next, order))]
    requires LocksAgree(s) && ThreadsAreDisciplined(s)
    requires Sound(s)
    ensures Sound(s1)
  {
    hide LocksAgree, ThreadsAreDisciplined, Sound, Disciplined, AllocAll;
    ExecFacts(s, t, i, next);
    match i
    case WCreate(path, off, hashes) => CreateIsSound(s, s1, t, path, off, hashes, order);
    case WCount(_, _, _, _, _) => WriteStepIsSound(s, s1, t, i, order);
    case WInsert(_, _, _, _, _) => WriteStepIsSound(s, s1, t, i, order);
    case WAlloc(_) => SpaceIsSound(s, s1, t, i, next);
    case WAppend(f, b) => AppendIsSound(s, s1, t, f, b, next);
    case WSize(f, size) => SizeIsSound(s, s1, t, f, size, next);
  }

  /** An instruction of an unlink that changes data. */
  lemma UnlinkExecIsSound(s: Sys, s1: Sys, t: Tid, i: Instr, next: Prog, order: seq<Ref>)
    requires i.ULookup? || i.UTally? || i.UStore? || i.UTest? || i.UFree? || i.UFreeBlock? || i.UFreeFile?
    requires Defined(s.d, i) && !IsQuiet(s.d, i) && OrderOk(s.d, i, order) && s1.d == ExecData(s.d, i)
    requires t in s.threads && s.threads[t].prog == Do(i, next)
    requires s1.threads == s.threads[t := s.threads[t].(prog := ExecProg(s.d, i, next, order))]
    requires LocksAgree(s) && ThreadsAreDisciplined(s) && InTurn(s)
    requires Sound(s)
    ensures Sound(s1)
  {
    hide LocksAgree, ThreadsAreDisciplined, Sound, Disciplined, TallyAll, Enumerates, InTurn;
    ExecFacts(s, t, i, next);
    match i
    case ULookup(path) => StealIsSound(s, s1, t, path, order);
    case UTally(f) =>
      ThiefCounts(s, t, f);
      TallyIsSound(s, s1, t, f, order);
    case UStore(b, v, n) => StoreIsSound(s, s1, t, b, v, n, next);
    case UTest(b) => UnindexIsSound(s, s1, t, b, next);
    case UFree(_) => SpaceIsSound(s, s1, t, i, next);
    case UFreeBlock(b) => FreeBlockIsSound(s, s1, t, b, next);
    case UFreeFile(f) => FreeFileIsSound(s, s1, t, f) by { LastInstr(s.threads[t].held, f, next); }
  }

  lemma ThiefCounts(s: Sys, t: Tid, f: Fid)
    requires t in s.threads && s.threads[t].prog == Do(UTally(f), Done) && FileLock(f) in s.threads[t].held && InTurn(s)
    ensures NobodyElse(s, t, f)
  {
    StealFoot(f, []);
    ThiefIsAlone(s, t, f);
  }

  lemma LastInstr(held: Held, f: Fid, next: Prog)
    requires Disciplined(held, Do(UFreeFile(f), next))
    ensures next == Done
  {
  }

  lemma ExecIsSound(s: Sys, t: Tid, order: seq<Ref>)
    requires CanMove(s, Exec(t, order))
    requires LocksAgree(s) && ThreadsAreDisciplined(s) && InTurn(s)
    requires Sound(s)
    ensures Sound(Moved(s, Exec(t, order)))
  {
    hide LocksAgree, ThreadsAreDisciplined, Sound, Disciplined, ExecData, ExecProg, OrderOk, InTurn;
    var i, next, s1 := s.threads[t].prog.i, s.threads[t].prog.next, Moved(s, Exec(t, order));
    assert s.threads[t].prog == Do(i, next);
    if IsQuiet(s.d, i) {
      QuietExecIsSound(s, t, order);
    } else if i.WCreate? || i.WCount? || i.WInsert? || i.WAlloc? || i.WAppend? || i.WSize? {
      WriteExecIsSound(s, s1, t, i, next, order);
    } else {
      UnlinkExecIsSound(s, s1, t, i, next, order);
    }
  }

  lemma MoveKeepsSound(s: Sys, v: Move)
    requires CanMove(s, v)
    requires LocksAgree(s) && ThreadsAreDisciplined(s) && Sound(s) && InTurn(s)
    ensures Sound(Moved(s, v))
  {
    hide LocksAgree, ThreadsAreDisciplined, Sound, ExecData, ExecProg, Next, InTurn;
    match v
    case Exec(t, order) => ExecIsSound(s, t, order);
    case _ => LockMoveIsSound(s, v);
  }

  /** The flag turns true exactly when an unlink overtakes. */
  lemma FlagMoves(s: Sys, v: Move)
    requires CanMove(s, v)
    ensures Moved(s, v).raced <==> s.raced || (v.Acquire? && Overtakes(s, v.t))
  {
    hide Next, ExecProg, ExecData, Enabled, Defined, OrderOk, Code;
  }

  lemma MoveKeepsInv(s: Sys, v: Move)
    requires SysInv(s) && CanMove(s, v)
    ensures SysInv(Moved(s, v))
  {
    hide LocksAgree, ThreadsAreDisciplined, Sound, Moved, CanMove, InTurn, SpaceOk;
    MoveKeepsLocks(s, v);
    FlagMoves(s, v);
    if !Moved(s, v).raced {
      MoveKeepsSound(s, v);
      MoveKeepsTurns(s, v);
      MoveKeepsSpace(s, v);
    }
  }

  lemma InitialInv(s: Sys)
    requires Initial(s)
    ensures SysInv(s)
  {
    IdleLocks(s);
    IdleTurns(s);
    IdleIsSound(s);
    IdleSpace(s);
    hide LocksAgree, ThreadsAreDisciplined, Sound, InTurn, SpaceOk, DataOk;
  }

  // ---------- Runs ----------

  ghost predicate Run(s: Sys, vs: seq<Move>)
    decreases |vs|
  {
    vs == [] || (CanMove(s, vs[0]) && Run(Moved(s, vs[0]), vs[1..]))
  }

  ghost function End(s: Sys, vs: seq<Move>): Sys
    requires Run(s, vs)
    decreases |vs|
  {
    if vs == [] then s else End(Moved(s, vs[0]), vs[1..])
  }

  lemma RunStarts(s: Sys, v: Move, vs: seq<Move>)
    requires CanMove(s, v) && Run(Moved(s, v), vs)
    ensures Run(s, [v] + vs) && End(s, [v] + vs) == End(Moved(s, v), vs)
  {
    hide CanMove, Moved;
    assert ([v] + vs)[1..] == vs;
  }

  lemma OneMove(s: Sys, v: Move)
    requires CanMove(s, v)
    ensures Run(s, [v]) && End(s, [v]) == Moved(s, v)
  {
    hide CanMove, Moved;
    assert [v][1..] == [];
  }

  lemma {:induction false} RunsJoin(s: Sys, vs: seq<Move>, ws: seq<Move>)
    requires Run(s, vs) && Run(End(s, vs), ws)
    ensures Run(s, vs + ws) && End(s, vs + ws) == End(End(s, vs), ws)
    decreases |vs|
  {
    hide CanMove, Moved;
    if vs == [] {
      assert vs + ws == ws;
    } else {
      RunsJoin(Moved(s, vs[0]), vs[1..], ws);
      RunStarts(s, vs[0], vs[1..] + ws);
      assert vs + ws == [vs[0]] + (vs[1..] + ws);
    }
  }

  lemma {:induction false} RunKeepsInv(s: Sys, vs: seq<Move>)
    requires SysInv(s) && Run(s, vs)
    ensures SysInv(End(s, vs))
    decreases |vs|
  {
    hide SysInv, Moved, CanMove;
    if vs != [] {
      MoveKeepsInv(s, vs[0]);
      RunKeepsInv(Moved(s, vs[0]), vs[1..]);
    }
  }

  /** s can be reached from a start, whatever the workers, their operations and the schedule. */
  ghost predicate Reachable(s: Sys) {
    exists s0, vs :: Initial(s0) && Run(s0, vs) && End(s0, vs) == s
  }

  lemma ReachableKeepsInv(s: Sys)
    requires Reachable(s)
    ensures SysInv(s)
  {
    hide SysInv, Initial, Run, End;
    var s0, vs :| Initial(s0) && Run(s0, vs) && End(s0, vs) == s;
    InitialInv(s0);
    RunKeepsInv(s0, vs);
  }

  // ---------- Main results ----------

  /** Reference counts: a block's counter is the number of entries that refer to it, in lists of live files
      and of stolen files not yet counted up, plus those that operations in progress account for. */
  lemma CountersCountReferences(s: Sys, b: Ref)
    requires Reachable(s) && !s.raced && b in s.d.blocks
    ensures s.d.blocks[b].counter == References(s)[b]
    ensures References(s)[b] > 0 ==> Indexed(s.d, b)
  {
    hide Reachable, References;
    ReachableKeepsInv(s);
    SoundBlocks(s);
    hide Sound, LocksAgree;
    assert References(s)[b] > 0 ==> b in References(s);
  }

  /** What is referred to has not been freed, and no operation is about to touch a freed object. */
  lemma NothingDangles(s: Sys)
    requires Reachable(s) && !s.raced
    ensures AllDefined(s)
    ensures forall b :: b in References(s) ==> b in s.d.blocks
    ensures forall p :: p in s.d.fileIndex ==> s.d.fileIndex[p] in s.d.files
    ensures forall h :: h in s.d.blockIndex ==> s.d.blockIndex[h] in s.d.blocks
  {
    hide Reachable, References;
    ReachableKeepsInv(s);
    SoundIsAllDefined(s);
    SoundBlocks(s);
    SoundFiles(s);
    hide Sound, LocksAgree, ThreadsAreDisciplined, AllDefined;
  }

  /** When an unlink frees a block, no entry of any list refers to it, the index does not lead to it, and no
      other operation points to it. */
  lemma FreedBlockIsUnreachable(s: Sys, t: Tid, b: Ref)
    requires Reachable(s) && !s.raced && t in s.threads && s.threads[t].prog.Do? && s.threads[t].prog.i == UFreeBlock(b)
    ensures b !in References(s) && !Indexed(s.d, b)
    ensures forall u :: u in s.threads && u != t ==> b !in FootOf(s.threads[u].prog).blocks
    ensures b !in FootOf(s.threads[t].prog.next).blocks
  {
    hide Reachable, References, FootOf, Indexed;
    ReachableKeepsInv(s);
    SoundThread(s, t);
    assert Disciplined(s.threads[t].held, s.threads[t].prog);
    hide Sound, LocksAgree, ThreadsAreDisciplined, Disciplined;
    var next := s.threads[t].prog.next;
    assert s.threads[t].prog == Do(UFreeBlock(b), next);
    FreeFacts(s.threads[t].held, b, next);
    FreeCodeFoot(b, next);
    FootIsClosed(next);
    FreedIsOk(s.d, s.threads[t].held, b, FootOf(next));
    DyingIsUnreferenced(s, map[], b);
    forall u | u in s.threads && u != t
      ensures b !in FootOf(s.threads[u].prog).blocks
    {
      NobodyReachesDying(s, t, u, b);
    }
  }

  /** When an unlink frees a file, the index does not lead to it and no other operation points to it. */
  lemma FreedFileIsUnreachable(s: Sys, t: Tid, f: Fid)
    requires Reachable(s) && !s.raced && t in s.threads && s.threads[t].prog.Do? && s.threads[t].prog.i == UFreeFile(f)
    ensures !Linked(s.d, f) && f in s.d.files
    ensures forall u :: u in s.threads && u != t ==> f !in FootOf(s.threads[u].prog).files
  {
    hide Reachable, FootOf, Linked;
    ReachableKeepsInv(s);
    assert Disciplined(s.threads[t].held, s.threads[t].prog);
    hide Sound, LocksAgree, ThreadsAreDisciplined, Disciplined;
    var next := s.threads[t].prog.next;
    assert s.threads[t].prog == Do(UFreeFile(f), next);
    LastInstr(s.threads[t].held, f, next);
    FreeFileFoot(f);
    DiscardFacts(s, t, f);
  }

  /** Space: the free list and the offsets of the blocks that have one, less those that an unlink has just returned,
      are distinct slots and cover the backend file; and an unlink that is about to return an offset has one. */
  lemma SpaceIsShared(s: Sys)
    requires Reachable(s) && !s.raced
    ensures Space.Partitioned(SpaceOf(s.d, GoneBlocks(s)))
    ensures forall t, b :: t in s.threads && s.threads[t].prog.Do? && s.threads[t].prog.i == UFree(b) ==>
                             b in s.d.blocks && s.d.blocks[b].off.Some? && b !in GoneBlocks(s)
  {
    hide Reachable, LocksAgree, ThreadsAreDisciplined, Sound, InTurn, Space.Partitioned, PlacesOk, IsGone;
    ReachableKeepsInv(s);
    forall t, b | t in s.threads && s.threads[t].prog.Do? && s.threads[t].prog.i == UFree(b)
      ensures b in s.d.blocks && s.d.blocks[b].off.Some? && b !in GoneBlocks(s)
    {
      SlotIsThere(s, t, b, s.threads[t].prog.next);
    }
  }

  /** No deadlock: in every reachable state with an operation left, some thread can make progress, or is about
      to touch a freed object. */
  lemma NeverStuck(s: Sys)
    requires Reachable(s) && !AllFinished(s)
    ensures (exists v :: Progresses(s, v)) || !AllDefined(s)
    ensures !s.raced ==> exists v :: Progresses(s, v)
  {
    hide Reachable, AllFinished, Progresses, LocksAgree, ThreadsAreDisciplined, Sound, InTurn, AllDefined;
    ReachableKeepsInv(s);
    if !s.raced {
      SoundIsAllDefined(s);
    }
    if AllDefined(s) {
      NoDeadlock(s);
    }
  }

  /** s1 comes after s, by any move or none. */
  ghost predicate Goes(s: Sys, s1: Sys) {
    s1 == s || exists v :: CanMove(s, v) && s1 == Moved(s, v)
  }

  /** A step of a run that goes on for as long as it can; rest after that. */
  ghost predicate Continues(sigma: nat -> Sys, n: nat) {
    if exists v :: Progresses(sigma(n), v) then exists v :: Progresses(sigma(n), v) && sigma(n + 1) == Moved(sigma(n), v)
    else sigma(n + 1) == sigma(n)
  }

  /** A run from a start in which, from some point on, no wait returns for no reason. */
  ghost predicate Maximal(sigma: nat -> Sys) {
    Initial(sigma(0)) && exists n: nat :: GoesUntil(sigma, n) && ContinuesFrom(sigma, n)
  }

  ghost predicate GoesUntil(sigma: nat -> Sys, n: nat) {
    forall k: nat :: k < n ==> Goes(sigma(k), sigma(k + 1))
  }

  ghost predicate ContinuesFrom(sigma: nat -> Sys, n: nat) {
    forall k: nat :: k >= n ==> Continues(sigma, k)
  }

  lemma {:induction false} GoesWithInv(sigma: nat -> Sys, n: nat)
    requires Initial(sigma(0)) && GoesUntil(sigma, n)
    ensures SysInv(sigma(n))
  {
    hide SysInv, Moved, CanMove, Initial;
    if n == 0 {
      InitialInv(sigma(0));
    } else {
      GoesWithInv(sigma, n - 1);
      GoKeepsInv(sigma(n - 1), sigma(n - 1 + 1));
    }
  }

  lemma GoKeepsInv(s: Sys, s1: Sys)
    requires SysInv(s) && Goes(s, s1)
    ensures SysInv(s1)
  {
    hide SysInv, Moved, CanMove;
    if s1 != s {
      var v :| CanMove(s, v) && s1 == Moved(s, v);
      MoveKeepsInv(s, v);
    }
  }

  lemma {:induction false} FinishesFrom(sigma: nat -> Sys, n: nat) returns (k: nat)
    requires ContinuesFrom(sigma, n) && SysInv(sigma(n))
    ensures SysInv(sigma(k)) && (AllFinished(sigma(k)) || !AllDefined(sigma(k)))
    decreases Sum(TallyMap(sigma(n))), Sum(WorkMap(sigma(n))), Sum(AwakeMap(sigma(n)))
  {
    hide LocksAgree, ThreadsAreDisciplined, Sound, InTurn, Moved, AllFinished, AllDefined, CanMove;
    k := n;
    if !AllFinished(sigma(n)) && AllDefined(sigma(n)) {
      NoDeadlock(sigma(n));
      assert Continues(sigma, n);
      var v :| Progresses(sigma(n), v) && sigma(n + 1) == Moved(sigma(n), v);
      MoveKeepsInv(sigma(n), v);
      MoveLowers(sigma(n), v);
      k := FinishesFrom(sigma, n + 1);
    }
  }

  /** Every maximal run, from every start and under every schedule, finishes all operations or comes to a thread
      about to touch a freed object, and this only after an unlink has overtaken another operation. */
  lemma EveryMaximalRunCompletes(sigma: nat -> Sys) returns (k: nat)
    requires Maximal(sigma)
    ensures AllFinished(sigma(k)) || (!AllDefined(sigma(k)) && sigma(k).raced)
  {
    var n: nat :| GoesUntil(sigma, n) && ContinuesFrom(sigma, n);
    hide Initial, ContinuesFrom, GoesUntil, AllFinished, AllDefined, LocksAgree, ThreadsAreDisciplined, Sound, InTurn;
    GoesWithInv(sigma, n);
    k := FinishesFrom(sigma, n);
    if !sigma(k).raced {
      SoundIsAllDefined(sigma(k));
    }
  }

  lemma ContinuesGoes(sigma: nat -> Sys, n: nat)
    requires Continues(sigma, n)
    ensures Goes(sigma(n), sigma(n + 1))
  {
  }

  /** The states of such a run are reached by moves from its first state. */
  lemma {:induction false} MaximalRuns(sigma: nat -> Sys, k: nat) returns (vs: seq<Move>)
    requires Maximal(sigma)
    ensures Run(sigma(0), vs) && End(sigma(0), vs) == sigma(k)
  {
    hide Initial, Moved, CanMove, Continues, Goes;
    if k == 0 {
      vs := [];
    } else {
      var n: nat :| GoesUntil(sigma, n) && ContinuesFrom(sigma, n);
      if k - 1 >= n { ContinuesGoes(sigma, k - 1); }
      vs := MaximalRuns(sigma, k - 1);
      var ws := GoRuns(sigma(k - 1), sigma(k - 1 + 1));
      RunsJoin(sigma(0), vs, ws);
      vs := vs + ws;
    }
  }

  lemma GoRuns(s: Sys, s1: Sys) returns (vs: seq<Move>)
    requires Goes(s, s1)
    ensures Run(s, vs) && End(s, vs) == s1
  {
    hide Moved, CanMove;
    vs := [];
    if s1 != s {
      var v :| CanMove(s, v) && s1 == Moved(s, v);
      OneMove(s, v);
      vs := [v];
    }
  }
}

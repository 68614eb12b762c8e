/** What operations have done when they are finished: the files, what was seen, and that nothing is left over. */
module Outcome {
  import opened Basics
  import opened Collections
  import opened TicketLock
  import opened Programs
  import opened Discipline
  import opened Interleaving
  import opened Progress
  import opened RefCounts
  import opened QuietSteps
  import opened DataSteps
  import opened Turns
  import opened Offsets
  import opened Concurrency
  import opened Ahead
  import opened History
  import opened Sights
  import opened Linear
  import opened Tidy
  import opened Plans
  import opened Window
  import Crossing

  // ---------- The table as it is stored ----------

  /** Every path of the index with the hashes of its file's blocks and its size. */
  ghost function FilesTable(d: Data): Table {
    map p | p in d.fileIndex && d.fileIndex[p] in d.files ::
      Entry(HashesOf(d.files[d.fileIndex[p]].list), d.files[d.fileIndex[p]].size)
  }

  ghost predicate Resting(s: Sys) {
    forall t :: t in s.threads ==> s.threads[t].held == map[] && s.threads[t].prog == Done
  }

  /** When nobody is at work the table is what is stored. */
  lemma RestingTable(s: Sys)
    requires Resting(s)
    ensures TableOf(s) == FilesTable(s.d)
  {
    hide HashesOf;
    forall f | f in s.d.files
      ensures EntryOf(s, f) == Entry(HashesOf(s.d.files[f].list), s.d.files[f].size)
    {
      assert forall t :: !IsWriter(s, f, t);
      assert HashesOf(s.d.files[f].list) + [] == HashesOf(s.d.files[f].list);
    }
    hide EntryOf;
  }

  lemma FinishedRests(s: Sys)
    requires ThreadsAreDisciplined(s) && AllFinished(s)
    ensures Resting(s)
  {
    forall t | t in s.threads
      ensures s.threads[t].held == map[] && s.threads[t].prog == Done
    {
      ThreadIsDisciplined(s, t);
    }
  }

  lemma InitialLinear(s: Sys)
    requires Initial(s)
    ensures LinearInv(s) && Resting(s)
  {
    InitialInv(s);
    hide SysInv, DataOk, LocksAgree, Sound;
    NothingAhead(s.d, 0);
    forall t | t in s.threads
      ensures Careful(s.d, s.threads[t])
    {
      forall f
        ensures RestOf(f, Done) == NONE
      {
        NothingAhead(s.d, f);
      }
    }
  }

  // ---------- Interleaved operations ----------

  /** As long as no unlink overtakes a write: the files are what the decisive steps make of them one after another;
      every worker has taken the steps of its operations in their order, and has those ahead that it has not taken;
      and it has seen, or is about to fetch, what the table showed at them. */
  lemma OperationsAreLinear(s0: Sys, vs: seq<Move>)
    requires Initial(s0) && Run(s0, vs) && !End(s0, vs).raced
    ensures TableOf(End(s0, vs)) == ApplyAll(FilesTable(s0.d), EventsIn(Deeds(s0, vs)))
    ensures forall t :: t in s0.threads ==>
                          t in End(s0, vs).threads &&
                          AllMeant(By(t, Deeds(s0, vs))) + StepsAhead(End(s0, vs).d, End(s0, vs).threads[t]) == AllEvents(s0.threads[t].todo)
    ensures forall t :: t in s0.threads ==>
                          SightsBy(t, s0, vs) + SeenBlocks(Fetching(End(s0, vs).d, End(s0, vs).threads[t].prog)) ==
                          Shows(t, FilesTable(s0.d), Deeds(s0, vs))
  {
    hide Initial, LinearInv, TableOf, FilesTable, Run, End, Deeds, SightsBy, By, Shows, StepsAhead, Fetching;
    InitialLinear(s0);
    RestingTable(s0);
    RunIsEvents(s0, vs);
    forall t | t in s0.threads
      ensures t in End(s0, vs).threads
      ensures AllMeant(By(t, Deeds(s0, vs))) + StepsAhead(End(s0, vs).d, End(s0, vs).threads[t]) == AllEvents(s0.threads[t].todo)
      ensures SightsBy(t, s0, vs) + SeenBlocks(Fetching(End(s0, vs).d, End(s0, vs).threads[t].prog)) ==
              Shows(t, FilesTable(s0.d), Deeds(s0, vs))
    {
      RunTakesSteps(s0, vs, t);
      RunShows(s0, vs, t);
      NothingAtRest(s0.d, s0.threads[t]);
      var x := Shows(t, FilesTable(s0.d), Deeds(s0, vs));
      assert [] + x == x;
    }
  }

  lemma NothingAtRest(d: Data, th: Thread)
    requires th.prog == Done
    ensures StepsAhead(d, th) == AllEvents(th.todo) && Fetching(d, th.prog) == [] && SeenBlocks([]) == []
  {
    NothingAhead(d, 0);
    assert [] + AllEvents(th.todo) == AllEvents(th.todo);
  }

  /** When all operations are finished: the stored files are what all decisive steps make of them, every worker has taken
      exactly the steps of its operations, and has seen exactly what the table showed at them. */
  lemma FinishedOperations(s0: Sys, vs: seq<Move>)
    requires Initial(s0) && Run(s0, vs) && !End(s0, vs).raced && AllFinished(End(s0, vs))
    ensures FilesTable(End(s0, vs).d) == ApplyAll(FilesTable(s0.d), EventsIn(Deeds(s0, vs)))
    ensures forall t :: t in s0.threads ==>
                          && AllMeant(By(t, Deeds(s0, vs))) == AllEvents(s0.threads[t].todo)
                          && SightsBy(t, s0, vs) == Shows(t, FilesTable(s0.d), Deeds(s0, vs))
  {
    hide Initial, TableOf, FilesTable, Run, End, Deeds, SightsBy, By, Shows, StepsAhead, Fetching, AllEvents, LinearInv;
    var s := End(s0, vs);
    OperationsAreLinear(s0, vs);
    EndIsLinear(s0, vs);
    LinearRests(s);
    RestingTable(s);
    forall t | t in s0.threads
      ensures AllMeant(By(t, Deeds(s0, vs))) == AllEvents(s0.threads[t].todo)
      ensures SightsBy(t, s0, vs) == Shows(t, FilesTable(s0.d), Deeds(s0, vs))
    {
      assert Finished(s.threads[t]);
      NothingAtRest(s.d, s.threads[t]);
      NoEvents();
      NothingMoreToCome(AllMeant(By(t, Deeds(s0, vs))), SightsBy(t, s0, vs));
    }
  }

  lemma NoEvents()
    ensures AllEvents([]) == []
  {
  }

  lemma NothingMoreToCome(es: seq<Event>, ss: seq<Sight>)
    ensures es + [] == es && ss + [] == ss
  {
  }

  lemma LinearRests(s: Sys)
    requires LinearInv(s) && AllFinished(s)
    ensures Resting(s)
  {
    hide LocksAgree, Sound, AllCareful;
    FinishedRests(s);
  }

  lemma EndIsLinear(s0: Sys, vs: seq<Move>)
    requires Initial(s0) && Run(s0, vs) && !End(s0, vs).raced
    ensures LinearInv(End(s0, vs))
  {
    InitialLinear(s0);
    hide Initial, LinearInv, Run, End;
    RunIsLinear(s0, vs);
  }

  lemma {:induction false} RunIsLinear(s: Sys, vs: seq<Move>)
    requires LinearInv(s) && Run(s, vs) && !End(s, vs).raced
    ensures LinearInv(End(s, vs))
    decreases |vs|
  {
    hide LinearInv, CanMove, Moved;
    if vs != [] {
      NotRacedBefore(Moved(s, vs[0]), vs[1..]);
      MoveKeepsLinear(s, vs[0]);
      RunIsLinear(Moved(s, vs[0]), vs[1..]);
    }
  }

  // ---------- A file is what was appended to it ----------

  function Joined(pieces: seq<seq<Hash>>): seq<Hash> {
    if pieces == [] then [] else Joined(pieces[..|pieces| - 1]) + pieces[|pieces| - 1]
  }

  /** The pieces of a file after one more step. */
  function WithStep(before: Table, pieces: seq<seq<Hash>>, e: Event, path: Path): seq<seq<Hash>> {
    match e
    case Appended(p, off, hashes) => if p == path && path in before && off == before[path].size then pieces + [hashes] else pieces
    case Removed(p) => if p == path then [] else pieces
    case _ => pieces
  }

  /** What the file held at first and the accepted writes to it, since its path was last removed. */
  function Pieces(t: Table, es: seq<Event>, path: Path): seq<seq<Hash>>
    decreases |es|
  {
    if es == [] then if path in t then [t[path].hashes] else []
    else
      var n := |es| - 1;
      WithStep(ApplyAll(t, es[..n]), Pieces(t, es[..n], path), es[n], path)
  }

  ghost predicate MadeOf(t: Table, path: Path, pieces: seq<seq<Hash>>) {
    (path in t ==> t[path].hashes == Joined(pieces)) && (path !in t ==> pieces == [])
  }

  lemma StepMakes(t: Table, e: Event, path: Path, pieces: seq<seq<Hash>>)
    requires MadeOf(t, path, pieces)
    ensures MadeOf(Apply(t, e), path, WithStep(t, pieces, e, path))
  {
    if e.Appended? { JoinedOne(pieces, e.hashes); }
    assert Joined([]) == [];
  }

  lemma {:induction false} FileIsItsPieces(t: Table, es: seq<Event>, path: Path)
    ensures MadeOf(ApplyAll(t, es), path, Pieces(t, es, path))
    decreases |es|
  {
    hide WithStep;
    if es == [] {
      if path in t { JoinedOne([], t[path].hashes); }
    } else {
      var n := |es| - 1;
      FileIsItsPieces(t, es[..n], path);
      assert es == es[..n] + [es[n]];
      AppliesBoth(t, es[..n], [es[n]]);
      AppliesOne(ApplyAll(t, es[..n]), es[n]);
      hide ApplyAll, MadeOf;
      StepMakes(ApplyAll(t, es[..n]), es[n], path, Pieces(t, es[..n], path));
    }
  }

  lemma AppliesOne(t: Table, e: Event)
    ensures ApplyAll(t, [e]) == Apply(t, e)
  {
    assert ApplyAll(t, [e]) == ApplyAll(Apply(t, e), []);
  }

  lemma JoinedOne(pieces: seq<seq<Hash>>, piece: seq<Hash>)
    ensures Joined(pieces + [piece]) == Joined(pieces) + piece
  {
    assert (pieces + [piece])[..|pieces|] == pieces;
  }

  /** After any interleaving of finished operations the list of every live file is the concatenation of what it held and
      of the writes to it that were accepted, in the order of their checks. */
  lemma FilesAreConcatenations(s0: Sys, vs: seq<Move>, path: Path)
    requires Initial(s0) && Run(s0, vs) && !End(s0, vs).raced && AllFinished(End(s0, vs))
    ensures path in FilesTable(End(s0, vs).d) ==>
              FilesTable(End(s0, vs).d)[path].hashes == Joined(Pieces(FilesTable(s0.d), EventsIn(Deeds(s0, vs)), path))
  {
    hide Initial, FilesTable, Run, End, Deeds, Pieces, Joined;
    FinishedOperations(s0, vs);
    FileIsItsPieces(FilesTable(s0.d), EventsIn(Deeds(s0, vs)), path);
  }

  // ---------- Without crossing paths nothing is lost ----------

  /** Whatever a write is about to check is still in the index under its path. */
  ghost predicate ChecksNamed(s: Sys) {
    forall t, f :: t in s.threads && Check(f) in Plan(s.threads[t]) ==> IsNamed(s.d, f)
  }

  lemma ExecNamed(d: Data, i: Instr, f: Fid)
    requires Defined(d, i) && FilesOk(d) && FilesOk(ExecData(d, i)) && IsNamed(d, f)
    requires !(i.ULookup? && i.path == d.files[f].id)
    ensures IsNamed(ExecData(d, i), f)
  {
    var d1, path := ExecData(d, i), d.files[f].id;
    Crossing.ExecKeepsIndex(d, i, path);
    hide FilesOk, ExecData;
    IndexedExists(d1, path);
    Crossing.ExecKeepsIds(d, i, f);
  }

  lemma NewCheckIsNamed(d: Data, i: Instr, f: Fid)
    requires Defined(d, i) && FilesOk(d) && Check(f) in NewAims(d, i)
    ensures IsNamed(ExecData(d, i), f)
  {
  }

  /** Another worker's check keeps its file: an unlink of its path would cross it. */
  lemma OtherCheckIsNamed(s0: Sys, s: Sys, v: Move, u: Tid, f: Fid)
    requires Idle(s0) && Crossing.Uncrossed(s0) && Crossing.AllKeep(s0, s) && CanMove(s, v) && v.Exec?
    requires u in s.threads && u != v.t && Check(f) in Plan(s.threads[u]) && IsNamed(s.d, f)
    ensures v.t in s.threads && s.threads[v.t].prog.Do?
    ensures var i := s.threads[v.t].prog.i; !(i.ULookup? && i.path == s.d.files[f].id)
  {
    MoveHasProg(s, v);
    hide CanMove, Idle, Plan;
    var i := s.threads[v.t].prog.i;
    if i.ULookup? && i.path == s.d.files[f].id {
      Crossing.KeepsCheck(s, u, f, Plan(s0.threads[u]));
      RemoveIsPlanned(s0, s, v.t, i.path);
      Crosses(s0, u, v.t, i.path);
      assert false;
    }
  }

  lemma Crosses(s0: Sys, u: Tid, t: Tid, path: Path)
    requires Idle(s0) && u in s0.threads && t in s0.threads && u != t
    requires Create(path) in Plan(s0.threads[u]) && Remove(path) in Plan(s0.threads[t])
    ensures Crossing.Crossed(s0.threads, path)
  {
    hide Idle, Plan;
    Crossing.PlanAtStart(s0, u, path);
    Crossing.PlanAtStart(s0, t, path);
  }

  lemma RemoveIsPlanned(s0: Sys, s: Sys, t: Tid, path: Path)
    requires Crossing.AllKeep(s0, s) && t in s.threads && s.threads[t].prog.Do? && s.threads[t].prog.i == ULookup(path)
    ensures Remove(path) in Plan(s0.threads[t])
  {
    assert Remove(path) in Plan(s.threads[t]);
    assert Crossing.KeepsTo(s.d, s.threads[t], Plan(s0.threads[t]));
    hide Plan;
  }

  lemma NoNewCheck(s: Sys, v: Move, f: Fid)
    requires CanMove(s, v) && ThreadsAreDisciplined(s) && v.t in s.threads && v.t in Moved(s, v).threads
    requires Check(f) in Plan(Moved(s, v).threads[v.t])
    ensures Check(f) in Plan(s.threads[v.t]) ||
            (v.Exec? && s.threads[v.t].prog.Do? && Defined(s.d, s.threads[v.t].prog.i) && Check(f) in NewAims(s.d, s.threads[v.t].prog.i))
    ensures v.Exec? && s.threads[v.t].prog.Do? && s.threads[v.t].prog.i.ULookup? ==> Check(f) !in Plan(s.threads[v.t])
  {
    MoverPlan(s, v);
    ThreadIsDisciplined(s, v.t);
    Crossing.TodoIsPlanned(s.threads[v.t].todo, "");
    AimsOfDone();
    if v.Exec? { LookupIsLast(s.threads[v.t].held, s.threads[v.t].prog.i, s.threads[v.t].prog.next); }
    hide CanMove, Moved, Aims, TodoAims, Disciplined, ThreadsAreDisciplined, NewAims, Defined;
  }

  lemma LookupIsLast(held: Held, i: Instr, next: Prog)
    requires Disciplined(held, Do(i, next))
    ensures i.ULookup? ==> next == Done
  {
  }

  lemma MoverCheckIsNamed(s: Sys, v: Move, f: Fid)
    requires CanMove(s, v) && ThreadsAreDisciplined(s) && v.t in s.threads && v.t in Moved(s, v).threads
    requires FilesOk(s.d) && FilesOk(Moved(s, v).d) && ChecksNamed(s)
    requires Check(f) in Plan(Moved(s, v).threads[v.t])
    ensures IsNamed(Moved(s, v).d, f)
  {
    hide CanMove, Moved, FilesOk, ThreadsAreDisciplined, IsNamed, Plan, NewAims, Defined, ExecData, ExecProg, OrderOk;
    NoNewCheck(s, v, f);
    MoverThread(s, v);
    if v.Exec? {
      var i := s.threads[v.t].prog.i;
      if Check(f) in NewAims(s.d, i) {
        NewCheckIsNamed(s.d, i, f);
      } else {
        NamedExists(s.d, f);
        ExecNamed(s.d, i, f);
      }
    }
  }

  lemma OthersCheckIsNamed(s0: Sys, s: Sys, v: Move, u: Tid, f: Fid)
    requires Idle(s0) && Crossing.Uncrossed(s0) && Crossing.AllKeep(s0, s) && CanMove(s, v)
    requires FilesOk(s.d) && FilesOk(Moved(s, v).d) && ChecksNamed(s)
    requires u in s.threads && u != v.t && Check(f) in Plan(s.threads[u])
    ensures IsNamed(Moved(s, v).d, f)
  {
    hide CanMove, Moved, FilesOk, IsNamed, Plan, Defined, ExecData, ExecProg, OrderOk, Idle, Crossing.Uncrossed, Crossing.AllKeep;
    MoverThread(s, v);
    if v.Exec? {
      NamedExists(s.d, f);
      OtherCheckIsNamed(s0, s, v, u, f);
      ExecNamed(s.d, s.threads[v.t].prog.i, f);
    }
  }

  lemma MoveKeepsChecks(s0: Sys, s: Sys, v: Move)
    requires Idle(s0) && Crossing.Uncrossed(s0) && Crossing.AllKeep(s0, s) && CanMove(s, v)
    requires ThreadsAreDisciplined(s) && FilesOk(s.d) && FilesOk(Moved(s, v).d) && ChecksNamed(s)
    ensures ChecksNamed(Moved(s, v))
  {
    hide CanMove, Moved, FilesOk, IsNamed, Plan, ThreadsAreDisciplined, Idle, Crossing.Uncrossed, Crossing.AllKeep;
    OthersStay(s, v);
    var s1 := Moved(s, v);
    forall t, f | t in s1.threads && Check(f) in Plan(s1.threads[t])
      ensures IsNamed(s1.d, f)
    {
      if t == v.t { MoverCheckIsNamed(s, v, f); } else { OthersCheckIsNamed(s0, s, v, t, f); }
    }
  }

  predicate NoneLost(es: seq<Event>) {
    forall k :: 0 <= k < |es| ==> !es[k].Lost?
  }

  lemma MoveLosesNothing(s: Sys, v: Move)
    requires CanMove(s, v) && ChecksNamed(s)
    ensures NoneLost(EventsOfMove(s, v))
  {
    MoveHasProg(s, v);
    hide CanMove, IsNamed;
    if v.Exec? && s.threads[v.t].prog.i.WCheck? {
      assert Check(s.threads[v.t].prog.i.f) in Plan(s.threads[v.t]);
    }
  }

  lemma {:induction false} UncrossedLosesNothing(s0: Sys, s: Sys, vs: seq<Move>)
    requires Idle(s0) && Crossing.Uncrossed(s0) && Crossing.AllKeep(s0, s) && WindowInv(s) && !s.raced && Run(s, vs) && ChecksNamed(s)
    ensures NoneLost(EventsIn(Deeds(s, vs)))
    decreases |vs|
  {
    hide Idle, Crossing.Uncrossed, Crossing.AllKeep, WindowInv, CanMove, Moved, ChecksNamed, EventsOfMove, FilesOk;
    if vs != [] {
      var s1 := Moved(s, vs[0]);
      Crossing.UncrossedMove(s0, s, vs[0]);
      WindowFacts(s);
      WindowFacts(s1);
      MoveKeepsChecks(s0, s, vs[0]);
      MoveLosesNothing(s, vs[0]);
      UncrossedLosesNothing(s0, s1, vs[1..]);
      EventsOfTagged(vs[0].t, EventsOfMove(s, vs[0]), Deeds(s1, vs[1..]));
    }
  }

  lemma WindowFacts(s: Sys)
    requires WindowInv(s) && !s.raced
    ensures ThreadsAreDisciplined(s) && FilesOk(s.d)
  {
    SoundFiles(s);
    hide LocksAgree, ThreadsAreDisciplined, Sound, AllGuarded, Exposed, FilesOk;
  }

  lemma MeantIfNotLost(ds: seq<Deed>, t: Tid)
    requires NoneLost(EventsIn(ds))
    ensures AllMeant(By(t, ds)) == By(t, ds)
  {
    ByLosesNothing(ds, t);
    hide By;
  }

  lemma {:induction false} ByLosesNothing(ds: seq<Deed>, t: Tid)
    requires NoneLost(EventsIn(ds))
    ensures NoneLost(By(t, ds))
  {
    if ds != [] {
      assert !EventsIn(ds)[0].Lost?;
      forall k | 0 <= k < |ds[1..]|
        ensures !EventsIn(ds[1..])[k].Lost?
      {
        assert EventsIn(ds[1..])[k] == EventsIn(ds)[k + 1];
      }
      ByLosesNothing(ds[1..], t);
    }
  }

  /** If no worker writes a path that another one unlinks: whatever the schedule, when all operations are finished there is
      an order of their steps, each worker's own in its own order, that leads one after another to the same files and
      shows every worker what it has seen. */
  lemma UncrossedOperations(s0: Sys, vs: seq<Move>) returns (ds: seq<Deed>)
    requires Initial(s0) && Crossing.Uncrossed(s0) && Run(s0, vs) && AllFinished(End(s0, vs))
    ensures forall k :: 0 <= k < |ds| ==> ds[k].t in s0.threads
    ensures forall t :: t in s0.threads ==> By(t, ds) == AllEvents(s0.threads[t].todo)
    ensures FilesTable(End(s0, vs).d) == ApplyAll(FilesTable(s0.d), EventsIn(ds))
    ensures forall t :: t in s0.threads ==> SightsBy(t, s0, vs) == Shows(t, FilesTable(s0.d), ds)
  {
    hide DataOk, Crossing.Uncrossed, AllFinished, FilesTable, Run, End, Deeds, SightsBy, By, Shows, AllEvents, WindowInv, Crossing.AllKeep;
    Crossing.UncrossedIsNeverOvertaken(s0, vs);
    ds := Deeds(s0, vs);
    FinishedOperations(s0, vs);
    Crossing.PlansAtStart(s0);
    InitialWindow(s0);
    NoChecksAtStart(s0);
    UncrossedLosesNothing(s0, s0, vs);
    DeedsAreWorkers(s0, vs);
    forall t | t in s0.threads
      ensures By(t, ds) == AllEvents(s0.threads[t].todo)
    {
      MeantIfNotLost(ds, t);
    }
  }

  lemma NoChecksAtStart(s: Sys)
    requires Idle(s)
    ensures ChecksNamed(s)
  {
    hide Plan;
    forall t, f | t in s.threads
      ensures Check(f) !in Plan(s.threads[t])
    {
      NothingToCheck(s.threads[t], f);
    }
  }

  lemma NothingToCheck(th: Thread, f: Fid)
    requires th.prog == Done
    ensures Check(f) !in Plan(th)
  {
    AimsOfDone();
    Crossing.TodoIsPlanned(th.todo, "");
  }

  lemma {:induction false} DeedsAreWorkers(s: Sys, vs: seq<Move>)
    requires Run(s, vs)
    ensures forall k :: 0 <= k < |Deeds(s, vs)| ==> Deeds(s, vs)[k].t in s.threads
    decreases |vs|
  {
    hide CanMove, Moved, EventsOfMove;
    if vs != [] {
      OthersStay(s, vs[0]);
      DeedsAreWorkers(Moved(s, vs[0]), vs[1..]);
    }
  }

  /** And every maximal run without crossing paths comes to such an end. */
  lemma EveryRunDoesItsWork(sigma: nat -> Sys) returns (k: nat, ds: seq<Deed>)
    requires Maximal(sigma) && Crossing.Uncrossed(sigma(0))
    ensures AllFinished(sigma(k))
    ensures forall j :: 0 <= j < |ds| ==> ds[j].t in sigma(0).threads
    ensures forall t :: t in sigma(0).threads ==> By(t, ds) == AllEvents(sigma(0).threads[t].todo)
    ensures FilesTable(sigma(k).d) == ApplyAll(FilesTable(sigma(0).d), EventsIn(ds))
  {
    hide Crossing.Uncrossed, AllFinished, FilesTable, Run, End, By, AllEvents, Initial, GoesUntil, ContinuesFrom;
    Crossing.UncrossedRunCompletes(sigma);
    k :| AllFinished(sigma(k));
    var vs := MaximalRuns(sigma, k);
    ds := UncrossedOperations(sigma(0), vs);
  }
}

/** Interleaved operations act and see as if their decisive steps were taken one after another. */
module Linear {
  import opened Basics
  import opened TicketLock
  import opened Programs
  import opened Discipline
  import opened Interleaving
  import opened Progress
  import opened RefCounts
  import opened QuietSteps
  import opened Turns
  import opened Offsets
  import opened Concurrency
  import opened Ahead
  import opened History
  import opened Sights

  // ---------- The decisive steps of a run ----------

  /** A decisive step, and whose it is. */
  datatype Deed = Deed(t: Tid, e: Event)

  function Tagged(t: Tid, es: seq<Event>): (ds: seq<Deed>)
    ensures |ds| == |es| && forall i :: 0 <= i < |ds| ==> ds[i] == Deed(t, es[i])
  {
    seq(|es|, i requires 0 <= i < |es| => Deed(t, es[i]))
  }

  ghost function Deeds(s: Sys, vs: seq<Move>): seq<Deed>
    requires Run(s, vs)
    decreases |vs|
  {
    if vs == [] then [] else Tagged(vs[0].t, EventsOfMove(s, vs[0])) + Deeds(Moved(s, vs[0]), vs[1..])
  }

  function EventsIn(ds: seq<Deed>): (es: seq<Event>)
    ensures |es| == |ds| && forall i :: 0 <= i < |es| ==> es[i] == ds[i].e
  {
    seq(|ds|, i requires 0 <= i < |ds| => ds[i].e)
  }

  /** The steps of worker t, in their order. */
  function By(t: Tid, ds: seq<Deed>): seq<Event> {
    if ds == [] then [] else (if ds[0].t == t then [ds[0].e] else []) + By(t, ds[1..])
  }

  /** What worker t gets to see along a run. */
  ghost function SightsBy(t: Tid, s: Sys, vs: seq<Move>): seq<Sight>
    requires Run(s, vs)
    decreases |vs|
  {
    if vs == [] then [] else (if vs[0].t == t then SightsOfMove(s, vs[0]) else []) + SightsBy(t, Moved(s, vs[0]), vs[1..])
  }

  /** What the table shows worker t when all steps are taken one after another. */
  function Shows(t: Tid, table: Table, ds: seq<Deed>): seq<Sight>
    decreases |ds|
  {
    if ds == [] then [] else (if ds[0].t == t then Sees(table, ds[0].e) else []) + Shows(t, Apply(table, ds[0].e), ds[1..])
  }

  // ---------- Lists of steps ----------

  lemma {:induction false} AppliesBoth(t: Table, a: seq<Event>, b: seq<Event>)
    ensures ApplyAll(t, a + b) == ApplyAll(ApplyAll(t, a), b)
    decreases |a|
  {
    if a == [] {
      assert a + b == b;
    } else {
      AppliesBoth(Apply(t, a[0]), a[1..], b);
      assert (a + b)[0] == a[0] && (a + b)[1..] == a[1..] + b;
    }
  }

  lemma ByFirst(t: Tid, ds: seq<Deed>)
    requires ds != []
    ensures By(t, ds) == (if ds[0].t == t then [ds[0].e] else []) + By(t, ds[1..])
  {
  }

  lemma {:induction false} ByBoth(t: Tid, a: seq<Deed>, b: seq<Deed>)
    ensures By(t, a + b) == By(t, a) + By(t, b)
    decreases |a|
  {
    if a == [] {
      assert a + b == b;
    } else {
      ByBoth(t, a[1..], b);
      ByFirst(t, a + b);
      ByFirst(t, a);
      hide By;
      assert (a + b)[0] == a[0] && (a + b)[1..] == a[1..] + b;
    }
  }

  lemma {:induction false} ByTagged(t: Tid, u: Tid, es: seq<Event>)
    ensures By(t, Tagged(u, es)) == if t == u then es else []
    decreases |es|
  {
    if es != [] {
      ByTagged(t, u, es[1..]);
      assert Tagged(u, es)[1..] == Tagged(u, es[1..]);
    } else {
      assert Tagged(u, es) == [];
    }
  }

  lemma ShowsFirst(t: Tid, table: Table, ds: seq<Deed>)
    requires ds != []
    ensures Shows(t, table, ds) == (if ds[0].t == t then Sees(table, ds[0].e) else []) + Shows(t, Apply(table, ds[0].e), ds[1..])
  {
    hide Apply, Sees;
  }

  lemma {:induction false} ShowsBoth(t: Tid, table: Table, a: seq<Deed>, b: seq<Deed>)
    ensures Shows(t, table, a + b) == Shows(t, table, a) + Shows(t, ApplyAll(table, EventsIn(a)), b)
    decreases |a|
  {
    if a == [] {
      assert a + b == b;
    } else {
      ShowsBoth(t, Apply(table, a[0].e), a[1..], b);
      ShowsFirst(t, table, a + b);
      ShowsFirst(t, table, a);
      hide Shows, Apply, Sees;
      assert (a + b)[0] == a[0] && (a + b)[1..] == a[1..] + b;
      assert EventsIn(a)[1..] == EventsIn(a[1..]);
    }
  }

  lemma {:induction false} ShowsTagged(t: Tid, u: Tid, table: Table, es: seq<Event>)
    ensures Shows(t, table, Tagged(u, es)) == if t == u then SeesAll(table, es) else []
    decreases |es|
  {
    if es == [] {
      assert Tagged(u, es) == [];
    } else {
      ShowsTagged(t, u, Apply(table, es[0]), es[1..]);
      assert Tagged(u, es)[1..] == Tagged(u, es[1..]);
    }
  }

  lemma EventsOfTagged(t: Tid, es: seq<Event>, ds: seq<Deed>)
    ensures EventsIn(Tagged(t, es) + ds) == es + EventsIn(ds)
  {
  }

  // ---------- Runs ----------

  lemma {:induction false} NotRacedBefore(s: Sys, vs: seq<Move>)
    requires Run(s, vs) && !End(s, vs).raced
    ensures !s.raced
    decreases |vs|
  {
    hide CanMove, Moved, Overtakes;
    if vs != [] {
      NotRacedBefore(Moved(s, vs[0]), vs[1..]);
      FlagMoves(s, vs[0]);
    }
  }

  ghost predicate LinearInv(s: Sys) {
    SysInv(s) && AllCareful(s) && !s.raced
  }

  lemma LinearIsOrderly(s: Sys)
    requires LinearInv(s)
    ensures Orderly(s)
  {
    hide LocksAgree, ThreadsAreDisciplined, Sound, AllCareful, InTurn, SpaceOk;
  }

  lemma MoveKeepsLinear(s: Sys, v: Move)
    requires LinearInv(s) && CanMove(s, v) && !Moved(s, v).raced
    ensures LinearInv(Moved(s, v))
  {
    hide LocksAgree, ThreadsAreDisciplined, Sound, AllCareful, InTurn, SpaceOk, CanMove, Moved;
    MoveKeepsInv(s, v);
    MoveKeepsCare(s, v);
  }

  /** The table after a run is the table before with all decisive steps taken, one after another. */
  lemma {:induction false} RunIsEvents(s: Sys, vs: seq<Move>)
    requires LinearInv(s) && Run(s, vs) && !End(s, vs).raced
    ensures TableOf(End(s, vs)) == ApplyAll(TableOf(s), EventsIn(Deeds(s, vs)))
    decreases |vs|
  {
    hide LinearInv, CanMove, Moved, TableOf, EventsOfMove, Orderly;
    if vs != [] {
      var s1 := Moved(s, vs[0]);
      NotRacedBefore(s1, vs[1..]);
      MoveKeepsLinear(s, vs[0]);
      RunIsEvents(s1, vs[1..]);
      LinearIsOrderly(s);
      LinearIsOrderly(s1);
      MoveIsEvents(s, vs[0]);
      EventsOfTagged(vs[0].t, EventsOfMove(s, vs[0]), Deeds(s1, vs[1..]));
      AppliesBoth(TableOf(s), EventsOfMove(s, vs[0]), EventsIn(Deeds(s1, vs[1..])));
    }
  }

  lemma MoveSteps(s: Sys, v: Move, t: Tid)
    requires CanMove(s, v) && t in s.threads
    requires LinearInv(s) && LinearInv(Moved(s, v))
    ensures t in Moved(s, v).threads
    ensures AllMeant(By(t, Tagged(v.t, EventsOfMove(s, v)))) + StepsAhead(Moved(s, v).d, Moved(s, v).threads[t]) ==
            StepsAhead(s.d, s.threads[t])
  {
    hide LocksAgree, ThreadsAreDisciplined, Sound, AllCareful, InTurn, SpaceOk, CanMove, Moved, StepsAhead, EventsOfMove, By;
    OthersStay(s, v);
    ByTagged(t, v.t, EventsOfMove(s, v));
    if t == v.t {
      MoverSteps(s, v);
    } else {
      OtherSteps(s, v, t);
      assert AllMeant([]) + StepsAhead(s.d, s.threads[t]) == StepsAhead(s.d, s.threads[t]);
    }
  }

  /** Every worker takes the decisive steps of its operations, in their order, and each of them once. */
  lemma {:induction false} RunTakesSteps(s: Sys, vs: seq<Move>, t: Tid)
    requires LinearInv(s) && Run(s, vs) && !End(s, vs).raced && t in s.threads
    ensures t in End(s, vs).threads
    ensures AllMeant(By(t, Deeds(s, vs))) + StepsAhead(End(s, vs).d, End(s, vs).threads[t]) == StepsAhead(s.d, s.threads[t])
    decreases |vs|
  {
    hide LinearInv, CanMove, Moved, StepsAhead, EventsOfMove;
    if vs == [] {
      assert AllMeant([]) + StepsAhead(s.d, s.threads[t]) == StepsAhead(s.d, s.threads[t]);
    } else {
      var s1, now := Moved(s, vs[0]), Tagged(vs[0].t, EventsOfMove(s, vs[0]));
      NotRacedBefore(s1, vs[1..]);
      MoveKeepsLinear(s, vs[0]);
      MoveSteps(s, vs[0], t);
      RunTakesSteps(s1, vs[1..], t);
      ByBoth(t, now, Deeds(s1, vs[1..]));
      MeantBoth(By(t, now), By(t, Deeds(s1, vs[1..])), StepsAhead(End(s, vs).d, End(s, vs).threads[t]));
    }
  }

  lemma MeantBoth(a: seq<Event>, b: seq<Event>, c: seq<Event>)
    ensures AllMeant(a + b) + c == AllMeant(a) + (AllMeant(b) + c)
  {
  }

  lemma MoveSees(s: Sys, v: Move, t: Tid)
    requires CanMove(s, v) && t in s.threads
    requires LinearInv(s) && LinearInv(Moved(s, v))
    ensures t in Moved(s, v).threads
    ensures (if v.t == t then SightsOfMove(s, v) else []) + SeenBlocks(Fetching(Moved(s, v).d, Moved(s, v).threads[t].prog)) ==
            SeenBlocks(Fetching(s.d, s.threads[t].prog)) + Shows(t, TableOf(s), Tagged(v.t, EventsOfMove(s, v)))
  {
    hide LocksAgree, ThreadsAreDisciplined, Sound, AllCareful, InTurn, SpaceOk, CanMove, Moved, EventsOfMove, Fetching, TableOf, Shows, SightsOfMove;
    OthersStay(s, v);
    ShowsTagged(t, v.t, TableOf(s), EventsOfMove(s, v));
    if t == v.t {
      MoverSees(s, v);
    } else {
      OtherFetches(s, v, t);
    }
  }

  lemma SightsChain(a: seq<Sight>, b: seq<Sight>, f0: seq<Sight>, f1: seq<Sight>, f2: seq<Sight>, x: seq<Sight>, y: seq<Sight>)
    requires a + f1 == f0 + x && b + f2 == f1 + y
    ensures a + b + f2 == f0 + (x + y)
  {
    assert a + b + f2 == a + (f1 + y) == a + f1 + y == f0 + (x + y);
  }

  /** And sees what the table shows at these steps. */
  lemma {:induction false} RunShows(s: Sys, vs: seq<Move>, t: Tid)
    requires LinearInv(s) && Run(s, vs) && !End(s, vs).raced && t in s.threads
    ensures t in End(s, vs).threads
    ensures SightsBy(t, s, vs) + SeenBlocks(Fetching(End(s, vs).d, End(s, vs).threads[t].prog)) ==
            SeenBlocks(Fetching(s.d, s.threads[t].prog)) + Shows(t, TableOf(s), Deeds(s, vs))
    decreases |vs|
  {
    hide LinearInv, CanMove, Moved, TableOf, EventsOfMove, Fetching, SightsOfMove, Orderly;
    if vs == [] {
      var rest := SeenBlocks(Fetching(s.d, s.threads[t].prog));
      assert [] + rest == rest + [];
    } else {
      var s1, now := Moved(s, vs[0]), Tagged(vs[0].t, EventsOfMove(s, vs[0]));
      NotRacedBefore(s1, vs[1..]);
      MoveKeepsLinear(s, vs[0]);
      MoveSees(s, vs[0], t);
      RunShows(s1, vs[1..], t);
      LinearIsOrderly(s);
      LinearIsOrderly(s1);
      MoveIsEvents(s, vs[0]);
      assert EventsIn(now) == EventsOfMove(s, vs[0]);
      ShowsBoth(t, TableOf(s), now, Deeds(s1, vs[1..]));
      var e := End(s, vs);
      SightsChain(
        if vs[0].t == t then SightsOfMove(s, vs[0]) else [], SightsBy(t, s1, vs[1..]),
        SeenBlocks(Fetching(s.d, s.threads[t].prog)), SeenBlocks(Fetching(s1.d, s1.threads[t].prog)), SeenBlocks(Fetching(e.d, e.threads[t].prog)),
        Shows(t, TableOf(s), now), Shows(t, TableOf(s1), Deeds(s1, vs[1..])));
    }
  }
}

/** Offsets under interleaving: live blocks and the free list always share out the backend file. */
module Offsets {
  import opened Basics
  import opened Collections
  import opened TicketLock
  import opened Programs
  import opened Discipline
  import opened Interleaving
  import opened RefCounts
  import opened QuietSteps
  import opened DataSteps
  import opened UnlinkSteps
  import opened Turns
  import opened Plans
  import opened Space

  // ---------- Who has which offset ----------

  /** An unlink has returned b's offset and is going to free b. */
  ghost predicate GaveBack(th: Thread, b: Ref) {
    b in FootOf(th.prog).dying && GiveBack(b) !in Aims(th.prog)
  }

  ghost predicate IsGone(s: Sys, b: Ref) {
    exists t :: t in s.threads && GaveBack(s.threads[t], b)
  }

  ghost function GoneBlocks(s: Sys): set<Ref> {
    set b | b in s.d.blocks && IsGone(s, b)
  }

  /** The space as seen from the data: `gone` are the blocks whose offsets have been returned. */
  ghost function SpaceOf(d: Data, gone: set<Ref>): Space<Ref> {
    Space(map b | b in d.blocks && d.blocks[b].off.Some? && b !in gone :: d.blocks[b].off.value, d.freeList, d.nextFree)
  }

  /** A write is going to give b an offset. */
  ghost predicate Placing(th: Thread, b: Ref) {
    Place(b) in Aims(th.prog)
  }

  /** Blocks to be placed have no offset yet. */
  ghost predicate NoneYet(d: Data, th: Thread) {
    forall b :: Placing(th, b) ==> b in d.blocks && d.blocks[b].off.None?
  }

  /** Two writes place different blocks. */
  ghost predicate OthersPlace(a: Thread, b: Thread) {
    forall x :: Placing(a, x) ==> !Placing(b, x)
  }

  /** A block without an offset is one that exactly one write is going to place. */
  ghost predicate PlacesOk(s: Sys) {
    && (forall t :: t in s.threads ==> NoneYet(s.d, s.threads[t]))
    && (forall t, u :: t in s.threads && u in s.threads && t != u ==> OthersPlace(s.threads[t], s.threads[u]))
    && (forall b :: b in s.d.blocks && s.d.blocks[b].off.None? ==> IsToBePlaced(s, b))
  }

  ghost predicate IsToBePlaced(s: Sys, b: Ref) {
    exists t :: t in s.threads && Placing(s.threads[t], b)
  }

  ghost predicate SpaceOk(s: Sys) {
    PlacesOk(s) && Partitioned(SpaceOf(s.d, GoneBlocks(s)))
  }

  // ---------- Facts ----------

  /** What a write is going to place is an entry that it has still to append. */
  lemma {:induction false} PlacesArePending(held: Held, p: Prog, b: Ref)
    requires Disciplined(held, p) && Place(b) in Aims(p)
    ensures b in FootOf(p).pending
    decreases p
  {
    if Place(b) !in AimsOf(p.i) {
      PlacesArePending(HeldAfter(held, p.i), p.next, b);
    }
  }

  /** A referenced block is not about to be freed, and has an offset or is to be placed. */
  lemma ToBePlacedIsReferenced(s: Sys, t: Tid, b: Ref)
    requires Sound(s) && ThreadsAreDisciplined(s) && t in s.threads && Placing(s.threads[t], b)
    ensures b in References(s) && b in s.d.blocks && Indexed(s.d, b)
  {
    PlacesArePending(s.threads[t].held, s.threads[t].prog, b);
    PendingIsReferences(s, t);
    SoundBlocks(s);
    hide FootOf, References, Sound, Indexed, ThreadsAreDisciplined, Aims;
  }

  lemma DyingFacts(s: Sys, t: Tid, b: Ref)
    requires Sound(s) && t in s.threads && b in FootOf(s.threads[t].prog).dying
    ensures b in s.d.blocks && !Indexed(s.d, b) && s.d.blocks[b].counter == 0
  {
    SoundThread(s, t);
    hide FootOf, Indexed;
  }

  /** A block that nothing refers to has its offset. */
  lemma UnreferencedIsPlaced(s: Sys, b: Ref)
    requires Sound(s) && ThreadsAreDisciplined(s) && PlacesOk(s) && b in s.d.blocks && s.d.blocks[b].counter == 0
    ensures s.d.blocks[b].off.Some?
  {
    SoundBlocks(s);
    if s.d.blocks[b].off.None? {
      assert IsToBePlaced(s, b);
      var t :| t in s.threads && Placing(s.threads[t], b);
      hide Sound, FootOf, References, ThreadsAreDisciplined, PlacesOk;
      ToBePlacedIsReferenced(s, t, b);
    }
  }

  // ---------- Moves that leave offsets and marks alone ----------

  /** The thread has the same blocks to place and the same offsets given back. */
  ghost predicate SameMarks(a: Thread, b: Thread) {
    forall x :: (Placing(a, x) <==> Placing(b, x)) && (GaveBack(a, x) <==> GaveBack(b, x))
  }

  ghost predicate SameOffsets(d: Data, d1: Data) {
    && d1.blocks.Keys == d.blocks.Keys && (forall b :: b in d.blocks ==> d1.blocks[b].off == d.blocks[b].off)
    && d1.freeList == d.freeList && d1.nextFree == d.nextFree
  }

  /** Only t's own marks change. */
  lemma OthersMarks(s: Sys, s1: Sys, t: Tid, b: Ref)
    requires t in s.threads && t in s1.threads && s1.threads == s.threads[t := s1.threads[t]]
    ensures (GaveBack(s1.threads[t], b) <==> GaveBack(s.threads[t], b)) ==> (IsGone(s1, b) <==> IsGone(s, b))
    ensures GaveBack(s1.threads[t], b) ==> IsGone(s1, b)
    ensures (Placing(s1.threads[t], b) <==> Placing(s.threads[t], b)) ==> (IsToBePlaced(s1, b) <==> IsToBePlaced(s, b))
    ensures Placing(s1.threads[t], b) ==> IsToBePlaced(s1, b)
  {
    hide GaveBack, Placing;
    if u :| u in s.threads && GaveBack(s.threads[u], b) { assert u != t ==> GaveBack(s1.threads[u], b); }
    if u :| u in s1.threads && GaveBack(s1.threads[u], b) { assert u != t ==> GaveBack(s.threads[u], b); }
    if u :| u in s.threads && Placing(s.threads[u], b) { assert u != t ==> Placing(s1.threads[u], b); }
    if u :| u in s1.threads && Placing(s1.threads[u], b) { assert u != t ==> Placing(s.threads[u], b); }
  }

  lemma SameGone(s: Sys, s1: Sys, t: Tid)
    requires t in s.threads && t in s1.threads && s1.threads == s.threads[t := s1.threads[t]]
    requires SameMarks(s.threads[t], s1.threads[t])
    ensures forall b :: IsGone(s1, b) <==> IsGone(s, b)
    ensures forall b :: IsToBePlaced(s1, b) <==> IsToBePlaced(s, b)
  {
    hide GaveBack, Placing, IsGone, IsToBePlaced;
    forall b
      ensures (IsGone(s1, b) <==> IsGone(s, b)) && (IsToBePlaced(s1, b) <==> IsToBePlaced(s, b))
    {
      OthersMarks(s, s1, t, b);
    }
  }

  lemma SameSpace(s: Sys, s1: Sys, t: Tid)
    requires t in s.threads && t in s1.threads && s1.threads == s.threads[t := s1.threads[t]]
    requires SameMarks(s.threads[t], s1.threads[t]) && SameOffsets(s.d, s1.d) && SpaceOk(s)
    ensures SpaceOk(s1)
  {
    SameGone(s, s1, t);
    hide Placing, GaveBack, IsGone, IsToBePlaced, Partitioned, SpaceOf, SameOffsets, SameMarks;
    KeysAgree(s.d, s1.d);
    assert GoneBlocks(s1) == GoneBlocks(s);
    SpaceStays(s.d, s1.d, GoneBlocks(s));
    SamePlaces(s, s1, t);
  }

  lemma KeysAgree(d: Data, d1: Data)
    requires SameOffsets(d, d1)
    ensures forall b :: b in d.blocks <==> b in d1.blocks
  {
    assert forall b :: b in d.blocks.Keys <==> b in d1.blocks.Keys;
  }

  lemma SpaceStays(d: Data, d1: Data, gone: set<Ref>)
    requires SameOffsets(d, d1)
    ensures SpaceOf(d1, gone) == SpaceOf(d, gone)
  {
    KeysAgree(d, d1);
  }

  lemma SamePlaces(s: Sys, s1: Sys, t: Tid)
    requires t in s.threads && t in s1.threads && s1.threads == s.threads[t := s1.threads[t]]
    requires SameMarks(s.threads[t], s1.threads[t]) && SameOffsets(s.d, s1.d) && PlacesOk(s)
    requires forall b :: IsToBePlaced(s1, b) <==> IsToBePlaced(s, b)
    ensures PlacesOk(s1)
  {
    KeysAgree(s.d, s1.d);
    hide Placing, IsToBePlaced, GaveBack;
    forall u | u in s.threads
      ensures NoneYet(s1.d, s1.threads[u])
    {
      assert NoneYet(s.d, s.threads[u]);
    }
    hide NoneYet;
    forall u, w | u in s.threads && w in s.threads && u != w
      ensures OthersPlace(s1.threads[u], s1.threads[w])
    {
      assert OthersPlace(s.threads[u], s.threads[w]);
    }
  }

  // ---------- Instructions that leave them alone ----------

  predicate Calm(d: Data, i: Instr)
    requires Defined(d, i)
  {
    match i
    case WInsert(_, _, rest, _, _) => rest[0] in d.blockIndex
    case WAlloc(_) => false
    case UFree(_) => false
    case UFreeBlock(_) => false
    case _ => true
  }

  lemma CalmData(d: Data, i: Instr)
    requires Defined(d, i) && Calm(d, i)
    ensures SameOffsets(d, ExecData(d, i))
  {
  }

  ghost predicate OnePerHash(got: seq<Ref>) {
    forall x, y :: x in got && y in got && x.hash == y.hash ==> x == y
  }

  /** A write locks every block that it created. */
  lemma AllArePlaced(got: seq<Ref>, created: set<Ref>)
    requires OnePerHash(got) && created <= Elements(got)
    ensures Elements(ToPlace(got, created)) == created
  {
    var m := ByHash(got, true);
    hide LockOrder, ByHash;
    LockOrderMembers(m);
    assert forall b :: b in got ==> m[b.hash] == b;
  }

  /** The same blocks to place, the same offsets to give back, the same blocks to free. */
  ghost predicate SameTasks(p: Prog, q: Prog) {
    && (forall b :: Place(b) in Aims(p) <==> Place(b) in Aims(q))
    && (forall b :: GiveBack(b) in Aims(p) <==> GiveBack(b) in Aims(q))
    && FootOf(p).dying == FootOf(q).dying
  }

  lemma BranchTasks(d: Data, i: Instr, order: seq<Ref>)
    requires Defined(d, i) && OrderOk(d, i, order) && Branches(i) && Calm(d, i)
    requires i.WCount? ==> OnePerHash(i.got) && i.created <= Elements(i.got)
    ensures SameTasks(Do(i, Done), ExecProg(d, i, Done, order))
  {
    hide FootOf, Aims, ExecProg, OrderOk, ToPlace, InstrFoot, AimsOf, NewAims, Calm, OnePerHash;
    BranchAims(d, i, order);
    BranchFiles(d, i, order);
    AimsOfOne(i);
    FootOfOne(i);
    NewTasks(d, i);
  }

  lemma NewTasks(d: Data, i: Instr)
    requires Defined(d, i) && Branches(i) && Calm(d, i)
    requires i.WCount? ==> OnePerHash(i.got) && i.created <= Elements(i.got)
    ensures forall b :: Place(b) in NewAims(d, i) <==> Place(b) in AimsOf(i)
    ensures forall b :: GiveBack(b) in NewAims(d, i) <==> GiveBack(b) in AimsOf(i)
    ensures InstrFoot(i).dying == {}
  {
    if i.WCount? { AllArePlaced(i.got, i.created); }
    hide ToPlace;
  }

  lemma PopTasks(i: Instr, next: Prog)
    requires AimsOf(i) == {} && InstrFoot(i).dying == {}
    ensures SameTasks(Do(i, next), next)
  {
    LockAims(i, next);
    FootOfMore(i, next);
    hide Aims, FootOf;
  }

  lemma StepTasks(d: Data, i: Instr, next: Prog, order: seq<Ref>)
    requires Defined(d, i) && !Branches(i) && Calm(d, i) && !i.Acq? && !i.Rel?
    requires i.UTest? ==> d.blocks[i.b].counter != 0
    ensures SameTasks(Do(i, next), ExecProg(d, i, next, order))
  {
    hide FootOf, Aims, SameTasks;
    PopTasks(i, next);
    if i.ULoad? {
      PopTasks(UStore(i.b, d.blocks[i.b].counter, i.n), next);
    } else if i.UTest? {
      PopTasks(Rel(BlockLock(i.b)), next);
    }
    TasksCompose(Do(i, next), next, ExecProg(d, i, next, order));
  }

  lemma TasksCompose(p: Prog, q: Prog, r: Prog)
    requires SameTasks(p, q) && (r == q || SameTasks(r, q))
    ensures SameTasks(p, r)
  {
    hide FootOf, Aims;
  }

  lemma TasksAreMarks(a: Thread, b: Thread)
    requires SameTasks(a.prog, b.prog)
    ensures SameMarks(a, b)
  {
    hide FootOf, Aims;
  }

  /** Objects that one write accounts for have different hashes. */
  lemma PendingHasOnePerHash(s: Sys, t: Tid, i: Instr)
    requires Sound(s) && t in s.threads && s.threads[t].prog == Do(i, Done) && i.WCount?
    ensures OnePerHash(i.got)
  {
    FootOfOne(i);
    PendingIsReferences(s, t);
    SoundBlocks(s);
    hide FootOf, Sound, References;
    forall b | b in i.got
      ensures Indexed(s.d, b)
    {
      assert b in InstrFoot(i).pending;
    }
  }

  lemma CalmTasks(s: Sys, t: Tid, i: Instr, next: Prog, order: seq<Ref>)
    requires t in s.threads && s.threads[t].prog == Do(i, next) && Disciplined(s.threads[t].held, Do(i, next))
    requires Defined(s.d, i) && OrderOk(s.d, i, order) && Calm(s.d, i) && !i.Acq? && !i.Rel?
    requires i.UTest? ==> s.d.blocks[i.b].counter != 0
    requires Sound(s)
    ensures SameTasks(Do(i, next), ExecProg(s.d, i, next, order))
  {
    hide FootOf, Aims, SameTasks, Sound, Disciplined, ExecProg, OrderOk, Needs, OnePerHash;
    BranchFacts(s.threads[t].held, i, next);
    if Branches(i) {
      if i.WCount? { PendingHasOnePerHash(s, t, i); }
      BranchTasks(s.d, i, order);
    } else {
      StepTasks(s.d, i, next, order);
    }
  }

  /** A block found dead: it is going to give its offset back. */
  lemma TestMarks(s: Sys, t: Tid, b: Ref, next: Prog)
    requires t in s.threads && s.threads[t].prog == Do(UTest(b), next) && Disciplined(s.threads[t].held, s.threads[t].prog)
    requires Sound(s)
    ensures SameMarks(s.threads[t], s.threads[t].(prog := FreeCode(b, next)))
  {
    hide FootOf, Aims, Sound, Disciplined, FreeCode;
    TestFacts(s.threads[t].held, b, next);
    FreeCodeFoot(b, next);
    FreeCodeAims(b, next);
    LockAims(UTest(b), next);
    if b in FootOf(next).dying { FootIsClosed(next); }
  }

  lemma FreeCodeAims(b: Ref, next: Prog)
    ensures Aims(FreeCode(b, next)) == {GiveBack(b)} + Aims(next)
  {
    hide Aims;
    var p := Do(Rel(BlockLock(b)), Do(UFreeBlock(b), next));
    LockAims(UFreeBlock(b), next);
    LockAims(Rel(BlockLock(b)), Do(UFreeBlock(b), next));
    LockAims(Rel(FreeList), p);
    AimsSplit(UFree(b), Do(Rel(FreeList), p));
    LockAims(Acq(FreeList, Write), Do(UFree(b), Do(Rel(FreeList), p)));
  }

  // ---------- Instructions that change offsets ----------

  /** A block that nobody is freeing has not given its offset back. */
  lemma IndexedIsNotGone(s: Sys, b: Ref)
    requires Sound(s) && (Indexed(s.d, b) || b !in s.d.blocks)
    ensures !IsGone(s, b)
  {
    hide Sound, Indexed, FootOf;
    if IsGone(s, b) {
      var t :| t in s.threads && GaveBack(s.threads[t], b);
      DyingFacts(s, t, b);
    }
  }

  // A new block.

  lemma NewBlockPlaces(s: Sys, s1: Sys, t: Tid, h: Hash)
    requires t in s.threads && t in s1.threads && s1.threads == s.threads[t := s1.threads[t]] && s1.d == NewBlock(s.d, h)
    requires forall b :: Placing(s1.threads[t], b) <==> Placing(s.threads[t], b) || b == Ref(h, s.d.gens)
    requires Ref(h, s.d.gens) !in s.d.blocks && PlacesOk(s)
    ensures PlacesOk(s1)
  {
    hide Placing, IsToBePlaced;
    forall u | u in s1.threads
      ensures NoneYet(s1.d, s1.threads[u])
    {
      assert NoneYet(s.d, s.threads[u]);
    }
    forall u, w | u in s1.threads && w in s1.threads && u != w
      ensures OthersPlace(s1.threads[u], s1.threads[w])
    {
      assert OthersPlace(s.threads[u], s.threads[w]) && NoneYet(s.d, s.threads[u]) && NoneYet(s.d, s.threads[w]);
    }
    hide NoneYet, OthersPlace;
    forall b | b in s1.d.blocks && s1.d.blocks[b].off.None?
      ensures IsToBePlaced(s1, b)
    {
      OthersMarks(s, s1, t, b);
    }
  }

  lemma NewBlockSpace(d: Data, h: Hash, gone: set<Ref>, gone1: set<Ref>)
    requires Ref(h, d.gens) !in d.blocks && forall b :: b in d.blocks ==> (b in gone1 <==> b in gone)
    ensures SpaceOf(NewBlock(d, h), gone1) == SpaceOf(d, gone)
  {
  }

  lemma InsertKeepsSpace(s: Sys, s1: Sys, t: Tid, h: Hash)
    requires t in s.threads && t in s1.threads && s1.threads == s.threads[t := s1.threads[t]] && s1.d == NewBlock(s.d, h)
    requires forall b :: Placing(s1.threads[t], b) <==> Placing(s.threads[t], b) || b == Ref(h, s.d.gens)
    requires forall b :: GaveBack(s1.threads[t], b) <==> GaveBack(s.threads[t], b)
    requires Sound(s) && SpaceOk(s)
    ensures SpaceOk(s1)
  {
    SoundBlocks(s);
    hide Placing, GaveBack, IsGone, Partitioned, SpaceOf, PlacesOk, Sound, NewBlock, References;
    NewBlockPlaces(s, s1, t, h);
    forall b | b in s.d.blocks
      ensures b in GoneBlocks(s1) <==> b in GoneBlocks(s)
    {
      OthersMarks(s, s1, t, b);
      NewBlockHas(s.d, h, b);
    }
    NewBlockSpace(s.d, h, GoneBlocks(s), GoneBlocks(s1));
  }

  lemma NewBlockHas(d: Data, h: Hash, b: Ref)
    requires b in d.blocks
    ensures b in NewBlock(d, h).blocks
  {
  }

  // Allocation.

  lemma AllocTakes(d: Data, b: Ref, gone: set<Ref>)
    requires b in d.blocks && d.blocks[b].off.None? && b !in gone
    ensures b !in SpaceOf(d, gone).offs && SpaceOf(Alloc(d, b), gone) == Take(SpaceOf(d, gone), b)
  {
  }

  lemma {:induction false} AllocKeepsPartition(d: Data, bs: seq<Ref>, gone: set<Ref>)
    requires forall b :: b in bs ==> b in d.blocks && d.blocks[b].off.None? && b !in gone
    requires forall j, k :: 0 <= j < k < |bs| ==> bs[j] != bs[k]
    requires Partitioned(SpaceOf(d, gone))
    ensures Partitioned(SpaceOf(AllocAll(d, bs), gone))
    decreases |bs|
  {
    if bs != [] {
      hide Partitioned, SpaceOf, Take;
      AllocTakes(d, bs[0], gone);
      TakeKeepsPartition(SpaceOf(d, gone), bs[0]);
      assert bs[0] !in bs[1..];
      AllocKeepsPartition(Alloc(d, bs[0]), bs[1..], gone);
    }
  }

  lemma {:induction false} AllocPlaces(d: Data, bs: seq<Ref>)
    requires forall b :: b in bs ==> b in d.blocks
    ensures var d1 := AllocAll(d, bs);
            && d1.blocks.Keys == d.blocks.Keys
            && forall b :: b in d.blocks ==> if b in bs then d1.blocks[b].off.Some? else d1.blocks[b].off == d.blocks[b].off
    decreases |bs|
  {
    if bs != [] {
      AllocPlaces(Alloc(d, bs[0]), bs[1..]);
      assert forall b :: b in bs <==> b == bs[0] || b in bs[1..];
    }
  }

  /** The k-th block gets the k-th offset from the end of the free list, and then from the end of the backend file; every
      other block stays where it is. */
  lemma {:induction false} AllocSlots(d: Data, bs: seq<Ref>)
    requires forall b :: b in bs ==> b in d.blocks
    requires forall j, k :: 0 <= j < k < |bs| ==> bs[j] != bs[k]
    ensures var d1, n := AllocAll(d, bs), |d.freeList|;
            && d1.blocks.Keys == d.blocks.Keys
            && (forall k :: 0 <= k < |bs| ==>
                              d1.blocks[bs[k]].off == Some(if k < n then d.freeList[n - 1 - k] else d.nextFree + 4096 * (k - n)))
            && (forall b :: b in d.blocks && b !in bs ==> d1.blocks[b] == d.blocks[b])
            && d1.freeList == (if |bs| <= n then d.freeList[..n - |bs|] else [])
            && d1.nextFree == (if |bs| <= n then d.nextFree else d.nextFree + 4096 * (|bs| - n))
    decreases |bs|
  {
    if bs != [] {
      var d2 := Alloc(d, bs[0]);
      AllocSlots(d2, bs[1..]);
      assert bs[0] !in bs[1..];
      forall k | 0 < k < |bs|
        ensures bs[k] == bs[1..][k - 1]
      {
      }
    }
  }

  lemma {:induction false} OnlyInAscends(bs: seq<Ref>, s: set<Ref>)
    requires AscendingRefs(bs)
    ensures AscendingRefs(OnlyIn(bs, s))
  {
    if bs != [] {
      OnlyInAscends(bs[1..], s);
      var r := OnlyIn(bs[1..], s);
      forall x | x in r
        ensures bs[0].hash < x.hash
      {
        var k :| 0 <= k < |bs[1..]| && bs[1..][k] == x;
        assert bs[k + 1] == x;
      }
    }
  }

  /** A write gives its new blocks their offsets in ascending order of their hashes. */
  lemma ToPlaceAscends(got: seq<Ref>, created: set<Ref>)
    ensures AscendingRefs(ToPlace(got, created))
  {
    LockOrderIsAscending(ByHash(got, true));
    hide LockOrder, ByHash;
    OnlyInAscends(LockOrder(ByHash(got, true)), created);
  }

  lemma PlacedPlaces(s: Sys, s1: Sys, t: Tid, bs: seq<Ref>)
    requires t in s.threads && t in s1.threads && s1.threads == s.threads[t := s1.threads[t]]
    requires (forall b :: b in bs ==> b in s.d.blocks) && s1.d == AllocAll(s.d, bs)
    requires forall b :: Placing(s.threads[t], b) <==> Placing(s1.threads[t], b) || b in bs
    requires forall b :: b in bs ==> !Placing(s1.threads[t], b)
    requires PlacesOk(s)
    ensures PlacesOk(s1)
  {
    AllocPlaces(s.d, bs);
    assert forall b :: b in s1.d.blocks.Keys <==> b in s.d.blocks.Keys;
    hide Placing, IsToBePlaced, AllocAll;
    forall u | u in s1.threads
      ensures NoneYet(s1.d, s1.threads[u])
    {
      assert NoneYet(s.d, s.threads[u]) && (u != t ==> OthersPlace(s.threads[t], s.threads[u]));
    }
    forall u, w | u in s1.threads && w in s1.threads && u != w
      ensures OthersPlace(s1.threads[u], s1.threads[w])
    {
      assert OthersPlace(s.threads[u], s.threads[w]);
    }
    hide NoneYet, OthersPlace;
    forall b | b in s1.d.blocks && s1.d.blocks[b].off.None?
      ensures IsToBePlaced(s1, b)
    {
      assert b !in bs;
      OthersMarks(s, s1, t, b);
    }
  }

  lemma PlaceKeepsSpace(s: Sys, s1: Sys, t: Tid, bs: seq<Ref>)
    requires t in s.threads && t in s1.threads && s1.threads == s.threads[t := s1.threads[t]]
    requires (forall b :: b in bs ==> b in s.d.blocks) && s1.d == AllocAll(s.d, bs)
    requires forall j, k :: 0 <= j < k < |bs| ==> bs[j] != bs[k]
    requires forall b :: Placing(s.threads[t], b) <==> Placing(s1.threads[t], b) || b in bs
    requires forall b :: b in bs ==> !Placing(s1.threads[t], b)
    requires forall b :: GaveBack(s1.threads[t], b) <==> GaveBack(s.threads[t], b)
    requires Sound(s) && ThreadsAreDisciplined(s) && SpaceOk(s)
    ensures SpaceOk(s1)
  {
    hide Placing, GaveBack, IsGone, Partitioned, SpaceOf, PlacesOk, Sound, AllocAll, ThreadsAreDisciplined, GoneBlocks;
    PlacedPlaces(s, s1, t, bs);
    AllocPlaces(s.d, bs);
    SameGoneBlocks(s, s1, t);
    forall b | b in bs
      ensures s.d.blocks[b].off.None? && b !in GoneBlocks(s)
    {
      PlacingFacts(s, t, b);
    }
    AllocKeepsPartition(s.d, bs, GoneBlocks(s));
  }

  lemma SameGoneBlocks(s: Sys, s1: Sys, t: Tid)
    requires t in s.threads && t in s1.threads && s1.threads == s.threads[t := s1.threads[t]]
    requires s1.d.blocks.Keys == s.d.blocks.Keys
    requires forall b :: GaveBack(s1.threads[t], b) <==> GaveBack(s.threads[t], b)
    ensures GoneBlocks(s1) == GoneBlocks(s)
  {
    assert forall b :: b in s1.d.blocks.Keys <==> b in s.d.blocks.Keys;
    hide GaveBack, IsGone;
    forall b
      ensures IsGone(s1, b) <==> IsGone(s, b)
    {
      OthersMarks(s, s1, t, b);
    }
  }

  lemma PlacingFacts(s: Sys, t: Tid, b: Ref)
    requires t in s.threads && Placing(s.threads[t], b) && Sound(s) && ThreadsAreDisciplined(s) && PlacesOk(s)
    ensures b in s.d.blocks && s.d.blocks[b].off.None? && b !in GoneBlocks(s)
  {
    assert NoneYet(s.d, s.threads[t]);
    hide PlacesOk, Placing, IsGone, Sound, ThreadsAreDisciplined, Indexed;
    ToBePlacedIsReferenced(s, t, b);
    IndexedIsNotGone(s, b);
  }

  // Returning an offset.

  lemma GiveBackSpace(d: Data, b: Ref, gone: set<Ref>, gone1: set<Ref>)
    requires b in d.blocks && d.blocks[b].off.Some? && b !in gone && gone1 == gone + {b}
    ensures b in SpaceOf(d, gone).offs && SpaceOf(ExecData(d, UFree(b)), gone1) == Give(SpaceOf(d, gone), b)
  {
  }

  lemma FreeSlotKeepsSpace(s: Sys, s1: Sys, t: Tid, b: Ref)
    requires t in s.threads && t in s1.threads && s1.threads == s.threads[t := s1.threads[t]]
    requires b in s.d.blocks && s.d.blocks[b].off.Some? && s1.d == ExecData(s.d, UFree(b))
    requires forall x :: Placing(s1.threads[t], x) <==> Placing(s.threads[t], x)
    requires forall x :: GaveBack(s1.threads[t], x) <==> GaveBack(s.threads[t], x) || x == b
    requires !IsGone(s, b) && SpaceOk(s)
    ensures SpaceOk(s1)
  {
    hide Placing, GaveBack, IsGone, Partitioned, SpaceOf, IsToBePlaced, Give;
    forall x
      ensures (IsGone(s1, x) <==> IsGone(s, x) || x == b) && (IsToBePlaced(s1, x) <==> IsToBePlaced(s, x))
    {
      OthersMarks(s, s1, t, x);
    }
    GiveBackSpace(s.d, b, GoneBlocks(s), GoneBlocks(s1));
    GiveKeepsPartition(SpaceOf(s.d, GoneBlocks(s)), b);
    PlacesWithSameBlocks(s, s1, t);
  }

  lemma PlacesWithSameBlocks(s: Sys, s1: Sys, t: Tid)
    requires t in s.threads && t in s1.threads && s1.threads == s.threads[t := s1.threads[t]]
    requires s1.d.blocks == s.d.blocks && PlacesOk(s)
    requires forall x :: Placing(s1.threads[t], x) <==> Placing(s.threads[t], x)
    requires forall x :: IsToBePlaced(s1, x) <==> IsToBePlaced(s, x)
    ensures PlacesOk(s1)
  {
    hide Placing, IsToBePlaced;
    forall u | u in s1.threads
      ensures NoneYet(s1.d, s1.threads[u])
    {
      assert NoneYet(s.d, s.threads[u]);
    }
    forall u, w | u in s1.threads && w in s1.threads && u != w
      ensures OthersPlace(s1.threads[u], s1.threads[w])
    {
      assert OthersPlace(s.threads[u], s.threads[w]);
    }
  }

  // Freeing the block.

  lemma DiscardSpace(d: Data, b: Ref, gone: set<Ref>, gone1: set<Ref>)
    requires b in gone && gone1 == gone - {b}
    ensures SpaceOf(Freed(d, b), gone1) == SpaceOf(d, gone)
  {
  }

  lemma FreedPlaces(s: Sys, s1: Sys, t: Tid, b: Ref)
    requires t in s.threads && t in s1.threads && s1.threads == s.threads[t := s1.threads[t]] && s1.d == Freed(s.d, b)
    requires forall x :: Placing(s1.threads[t], x) <==> Placing(s.threads[t], x)
    requires (forall u :: u in s.threads ==> !Placing(s.threads[u], b)) && PlacesOk(s)
    ensures PlacesOk(s1)
  {
    hide Placing, IsToBePlaced;
    forall u | u in s1.threads
      ensures NoneYet(s1.d, s1.threads[u])
    {
      assert NoneYet(s.d, s.threads[u]) && !Placing(s.threads[u], b);
    }
    forall u, w | u in s1.threads && w in s1.threads && u != w
      ensures OthersPlace(s1.threads[u], s1.threads[w])
    {
      assert OthersPlace(s.threads[u], s.threads[w]);
    }
    hide NoneYet, OthersPlace;
    forall x | x in s1.d.blocks && s1.d.blocks[x].off.None?
      ensures IsToBePlaced(s1, x)
    {
      OthersMarks(s, s1, t, x);
    }
  }

  lemma FreedKeepsSpace(s: Sys, s1: Sys, t: Tid, b: Ref)
    requires t in s.threads && t in s1.threads && s1.threads == s.threads[t := s1.threads[t]] && s1.d == Freed(s.d, b)
    requires forall x :: Placing(s1.threads[t], x) <==> Placing(s.threads[t], x)
    requires GaveBack(s.threads[t], b) && forall x :: x != b ==> (GaveBack(s1.threads[t], x) <==> GaveBack(s.threads[t], x))
    requires Sound(s) && ThreadsAreDisciplined(s) && SpaceOk(s)
    ensures SpaceOk(s1)
  {
    hide Placing, GaveBack, IsGone, Partitioned, SpaceOf, Sound, ThreadsAreDisciplined, PlacesOk, GoneBlocks, Freed;
    NobodyPlacesDying(s, t, b);
    FreedPlaces(s, s1, t, b);
    FreedGone(s, s1, t, b);
    DiscardSpace(s.d, b, GoneBlocks(s), GoneBlocks(s1));
  }

  lemma NobodyPlacesDying(s: Sys, t: Tid, b: Ref)
    requires t in s.threads && GaveBack(s.threads[t], b) && Sound(s) && ThreadsAreDisciplined(s)
    ensures b in s.d.blocks && forall u :: u in s.threads ==> !Placing(s.threads[u], b)
  {
    DyingFacts(s, t, b);
    hide Placing, GaveBack, Indexed, Sound, ThreadsAreDisciplined;
    forall u | u in s.threads
      ensures !Placing(s.threads[u], b)
    {
      if Placing(s.threads[u], b) { ToBePlacedIsReferenced(s, u, b); }
    }
  }

  lemma FreedGone(s: Sys, s1: Sys, t: Tid, b: Ref)
    requires t in s.threads && t in s1.threads && s1.threads == s.threads[t := s1.threads[t]] && s1.d == Freed(s.d, b)
    requires GaveBack(s.threads[t], b) && forall x :: x != b ==> (GaveBack(s1.threads[t], x) <==> GaveBack(s.threads[t], x))
    requires b in s.d.blocks
    ensures b in GoneBlocks(s) && GoneBlocks(s1) == GoneBlocks(s) - {b}
  {
    hide GaveBack, IsGone;
    forall x | x != b
      ensures IsGone(s1, x) <==> IsGone(s, x)
    {
      OthersMarks(s, s1, t, x);
    }
    OthersMarks(s, s, t, b);
  }

  // ---------- Every move keeps it ----------

  lemma InsertMarks(s: Sys, t: Tid, i: Instr, order: seq<Ref>)
    requires t in s.threads && s.threads[t].prog == Do(i, Done) && i.WInsert? && i.rest != [] && i.rest[0] !in s.d.blockIndex
    requires Defined(s.d, i) && OrderOk(s.d, i, order)
    ensures var a, b := s.threads[t], s.threads[t].(prog := ExecProg(s.d, i, Done, order));
            && (forall x :: Placing(b, x) <==> Placing(a, x) || x == Ref(i.rest[0], s.d.gens))
            && (forall x :: GaveBack(b, x) <==> GaveBack(a, x))
  {
    BranchAims(s.d, i, order);
    BranchFiles(s.d, i, order);
    AimsOfOne(i);
    FootOfOne(i);
    assert InstrFoot(i).dying == {};
    hide FootOf, Aims, ExecProg, OrderOk;
  }

  lemma AllocMarks(held: Held, bs: seq<Ref>, next: Prog, a: Thread)
    requires a.prog == Do(WAlloc(bs), next) && Disciplined(held, a.prog)
    ensures var b := a.(prog := next);
            && (forall x :: Placing(a, x) <==> Placing(b, x) || x in bs) && (forall x :: x in bs ==> !Placing(b, x))
            && (forall x :: GaveBack(b, x) <==> GaveBack(a, x))
    ensures forall j, k :: 0 <= j < k < |bs| ==> bs[j] != bs[k]
  {
    AimsSplit(WAlloc(bs), next);
    FootOfMore(WAlloc(bs), next);
    hide FootOf, Aims;
  }

  lemma FreeSlotMarks(held: Held, b: Ref, next: Prog, a: Thread)
    requires a.prog == Do(UFree(b), next) && Disciplined(held, a.prog)
    ensures var c := a.(prog := next);
            && (forall x :: Placing(c, x) <==> Placing(a, x)) && (forall x :: GaveBack(c, x) <==> GaveBack(a, x) || x == b)
    ensures !GaveBack(a, b) && b in FootOf(a.prog).dying && Has(held, BlockIndex, Write)
  {
    AimsSplit(UFree(b), next);
    FootOfMore(UFree(b), next);
    hide FootOf, Aims;
  }

  lemma FreeBlockMarks(held: Held, b: Ref, next: Prog, a: Thread)
    requires a.prog == Do(UFreeBlock(b), next) && Disciplined(held, a.prog)
    ensures var c := a.(prog := next);
            && (forall x :: Placing(c, x) <==> Placing(a, x))
            && GaveBack(a, b) && (forall x :: x != b ==> (GaveBack(c, x) <==> GaveBack(a, x)))
  {
    FreeFacts(held, b, next);
    LockAims(UFreeBlock(b), next);
    FootOfMore(UFreeBlock(b), next);
    if GiveBack(b) in Aims(next) { GiveBackTouches(next, b); }
    hide FootOf, Aims;
  }

  /** An unlink that returns an offset finds one, and nobody has returned it before. */
  lemma SlotIsThere(s: Sys, t: Tid, b: Ref, next: Prog)
    requires t in s.threads && s.threads[t].prog == Do(UFree(b), next)
    requires LocksAgree(s) && ThreadsAreDisciplined(s) && Sound(s) && SpaceOk(s)
    ensures b in s.d.blocks && s.d.blocks[b].off.Some? && !IsGone(s, b)
  {
    assert Disciplined(s.threads[t].held, s.threads[t].prog);
    FreeSlotMarks(s.threads[t].held, b, next, s.threads[t]);
    hide FootOf, LocksAgree, Sound, ThreadsAreDisciplined, PlacesOk, Disciplined, Partitioned;
    DyingFacts(s, t, b);
    UnreferencedIsPlaced(s, b);
    if IsGone(s, b) {
      var u :| u in s.threads && GaveBack(s.threads[u], b);
      if u != t { OthersDontUnlink(s, t, u); }
    }
  }

  lemma SpecialKeepsSpace(s: Sys, s1: Sys, t: Tid, i: Instr, next: Prog, order: seq<Ref>)
    requires t in s.threads && s.threads[t].prog == Do(i, next) && Disciplined(s.threads[t].held, s.threads[t].prog)
    requires i.WInsert? || i.WAlloc? || i.UFree? || i.UFreeBlock?
    requires Defined(s.d, i) && OrderOk(s.d, i, order) && !Calm(s.d, i) && s1.d == ExecData(s.d, i)
    requires s1.threads == s.threads[t := s.threads[t].(prog := ExecProg(s.d, i, next, order))]
    requires i.WInsert? ==> next == Done
    requires LocksAgree(s) && ThreadsAreDisciplined(s) && Sound(s) && SpaceOk(s)
    ensures SpaceOk(s1)
  {
    hide LocksAgree, ThreadsAreDisciplined, Sound, SpaceOk, Disciplined, Placing, GaveBack, IsGone, OrderOk, AllocAll, FootOf;
    var th := s.threads[t];
    match i
    case WInsert(_, _, rest, _, _) =>
      InsertMarks(s, t, i, order);
      InsertKeepsSpace(s, s1, t, rest[0]);
    case WAlloc(bs) =>
      AllocMarks(th.held, bs, next, th);
      PlaceKeepsSpace(s, s1, t, bs);
    case UFree(b) =>
      FreeSlotMarks(th.held, b, next, th);
      SlotIsThere(s, t, b, next);
      FreeSlotKeepsSpace(s, s1, t, b);
    case UFreeBlock(b) =>
      FreeBlockMarks(th.held, b, next, th);
      FreedKeepsSpace(s, s1, t, b);
  }

  lemma CalmKeepsSpace(s: Sys, s1: Sys, t: Tid, i: Instr, next: Prog, order: seq<Ref>)
    requires t in s.threads && s.threads[t].prog == Do(i, next) && Disciplined(s.threads[t].held, s.threads[t].prog)
    requires Defined(s.d, i) && OrderOk(s.d, i, order) && Calm(s.d, i) && s1.d == ExecData(s.d, i) && !i.Acq? && !i.Rel?
    requires s1.threads == s.threads[t := s.threads[t].(prog := ExecProg(s.d, i, next, order))]
    requires Sound(s) && SpaceOk(s)
    ensures SpaceOk(s1)
  {
    hide Sound, SpaceOk, Disciplined, ExecData, ExecProg, OrderOk, SameMarks, SameOffsets, SameTasks, FreeCode;
    CalmData(s.d, i);
    if i.UTest? && s.d.blocks[i.b].counter == 0 {
      TestMarks(s, t, i.b, next);
      DeadBlockCode(s.d, i.b, next, order);
    } else {
      CalmTasks(s, t, i, next, order);
      TasksAreMarks(s.threads[t], s1.threads[t]);
    }
    SameSpace(s, s1, t);
  }

  lemma ExecKeepsSpace(s: Sys, t: Tid, order: seq<Ref>)
    requires CanMove(s, Exec(t, order))
    requires LocksAgree(s) && ThreadsAreDisciplined(s) && Sound(s) && SpaceOk(s)
    ensures SpaceOk(Moved(s, Exec(t, order)))
  {
    hide LocksAgree, ThreadsAreDisciplined, Sound, SpaceOk, Disciplined, ExecData, ExecProg, OrderOk;
    var i, next, s1 := s.threads[t].prog.i, s.threads[t].prog.next, Moved(s, Exec(t, order));
    assert s.threads[t].prog == Do(i, next);
    ThreadIsDisciplined(s, t);
    BranchFacts(s.threads[t].held, i, next);
    if Calm(s.d, i) {
      CalmKeepsSpace(s, s1, t, i, next, order);
    } else {
      SpecialKeepsSpace(s, s1, t, i, next, order);
    }
  }

  lemma DeadBlockCode(d: Data, b: Ref, next: Prog, order: seq<Ref>)
    requires b in d.blocks && d.blocks[b].counter == 0
    ensures ExecProg(d, UTest(b), next, order) == FreeCode(b, next)
  {
  }

  lemma LockMoveMarks(s: Sys, v: Move)
    requires CanMove(s, v) && !v.Exec?
    ensures SameMarks(s.threads[v.t], Moved(s, v).threads[v.t]) && Moved(s, v).d == s.d
  {
    hide FootOf, Aims, Next, SameTasks, Overtakes, Enabled, Code;
    var th := s.threads[v.t];
    match v
    case Begin(_) =>
      BeginTasks(th.todo[0]);
      TasksAreMarks(th, Moved(s, v).threads[v.t]);
    case Acquire(_) => PopLockTasks(th);
    case Retry(_) => PopLockTasks(th);
    case Release(_) => PopLockTasks(th);
    case Spurious(_) =>
  }

  lemma PopLockTasks(th: Thread)
    requires th.prog.Do? && (th.prog.i.Acq? || th.prog.i.Rel?)
    ensures forall held: Held :: SameMarks(th, Thread(held, th.prog.next, th.todo))
  {
    PopTasks(th.prog.i, th.prog.next);
    hide FootOf, Aims;
  }

  lemma BeginTasks(op: Op)
    ensures SameTasks(Done, Code(op))
  {
    CodeAims(op);
    CodePointsNowhere(op);
    AimsOfDone();
    FootOfDone();
    hide FootOf, Aims, Code;
  }

  /** Every move keeps live blocks and the free list a partition of the file. */
  lemma MoveKeepsSpace(s: Sys, v: Move)
    requires CanMove(s, v)
    requires LocksAgree(s) && ThreadsAreDisciplined(s) && Sound(s) && SpaceOk(s)
    ensures SpaceOk(Moved(s, v))
  {
    hide LocksAgree, ThreadsAreDisciplined, Sound, SpaceOk, Moved, CanMove, SameMarks;
    OthersStay(s, v);
    if v.Exec? {
      ExecKeepsSpace(s, v.t, v.order);
    } else {
      LockMoveMarks(s, v);
      SameSpace(s, Moved(s, v), v.t);
    }
  }

  lemma IdleSpace(s: Sys)
    requires Idle(s) && (forall b :: b in s.d.blocks ==> s.d.blocks[b].off.Some?) && Partitioned(SpaceOf(s.d, {}))
    ensures SpaceOk(s)
  {
    AimsOfDone();
    FootOfDone();
    hide Partitioned, FootOf, Aims;
    assert GoneBlocks(s) == {};
  }
}

/** Instructions of an unlink that change shared data. */
module UnlinkSteps {
  import opened Basics
  import opened Collections
  import opened TicketLock
  import opened Programs
  import opened Discipline
  import opened Interleaving
  import opened RefCounts
  import opened QuietSteps
  import opened DataSteps

  // ---------- Stealing the file ----------

  ghost function Unlinked(d: Data, path: Path): Data {
    d.(fileIndex := d.fileIndex - {path})
  }

  lemma UnlinkedFiles(d: Data, path: Path, held: Held)
    requires FilesOk(d) && path in d.fileIndex
    ensures FilesOk(Unlinked(d, path))
    ensures FootOk(Unlinked(d, path), held, StolenFoot(d.fileIndex[path]))
    ensures Linked(d, d.fileIndex[path])
    ensures forall g :: Linked(Unlinked(d, path), g) <==> Linked(d, g) && g != d.fileIndex[path]
  {
    var d1 := Unlinked(d, path);
    forall g | Linked(d, g) && g != d.fileIndex[path]
      ensures Linked(d1, g)
    {
      var p :| p in d.fileIndex && d.fileIndex[p] == g;
      assert p in d1.fileIndex && d1.fileIndex[p] == g;
    }
  }

  lemma UnlinkedRespects(d: Data, path: Path, held: Held, foot: Foot)
    requires FilesOk(d) && path in d.fileIndex && FootOk(d, held, foot)
    ensures Respects(d, Unlinked(d, path), held, foot)
  {
    UnlinkedFiles(d, path, held);
    hide Linked;
    assert forall b :: InLockedFile(Unlinked(d, path), held, b) <==> InLockedFile(d, held, b);
  }

  /** The thief's footprint and that of another thread, for which the file was still linked. */
  lemma ThiefIsApart(d: Data, f: Fid, held: Held, a: Thread, b: Thread)
    requires Linked(d, f) && FootOk(d, held, FootOf(b.prog)) && FootOf(a.prog) == StolenFoot(f) && Closed(FootOf(b.prog))
    ensures Apart(a, b) && Apart(b, a)
  {
    hide FootOf, Linked;
    assert f !in FootOf(b.prog).stolen;
  }

  lemma StealKeepsApart(s: Sys, s1: Sys, t: Tid, f: Fid)
    requires Sound(s) && t in s.threads && t in s1.threads && s1.threads == s.threads[t := s1.threads[t]]
    requires Linked(s.d, f) && FootOf(s1.threads[t].prog) == StolenFoot(f)
    ensures StolenApart(s1)
  {
    hide FootOf, Linked, FootOk, Apart, StolenFoot;
    forall u | u in s.threads && u != t
      ensures Apart(s1.threads[t], s.threads[u]) && Apart(s.threads[u], s1.threads[t])
    {
      SoundThread(s, u);
      FootIsClosed(s.threads[u].prog);
      ThiefIsApart(s.d, f, s.threads[u].held, s1.threads[t], s.threads[u]);
    }
  }

  lemma StealRespectsOthers(s: Sys, t: Tid, path: Path)
    requires path in s.d.fileIndex && t in s.threads && Sound(s)
    ensures RespectsOthers(s, t, Unlinked(s.d, path))
  {
    hide FootOf, FootOk, FilesOk, Respects, Unlinked;
    SoundFiles(s);
    forall u | u in s.threads && u != t
      ensures Respects(s.d, Unlinked(s.d, path), s.threads[u].held, FootOf(s.threads[u].prog))
    {
      SoundThread(s, u);
      UnlinkedRespects(s.d, path, s.threads[u].held, FootOf(s.threads[u].prog));
    }
  }

  lemma UnlinkedBlocks(d: Data, path: Path, refs: multiset<Ref>)
    requires BlocksOk(d, refs)
    ensures BlocksOk(Unlinked(d, path), refs)
  {
  }

  lemma StealIsSound(s: Sys, s1: Sys, t: Tid, path: Path, order: seq<Ref>)
    requires path in s.d.fileIndex && s1.d == ExecData(s.d, ULookup(path))
    requires t in s.threads && s.threads[t].prog == Do(ULookup(path), Done)
    requires s1.threads == s.threads[t := s.threads[t].(prog := ExecProg(s.d, ULookup(path), Done, order))]
    requires Sound(s)
    ensures Sound(s1)
  {
    hide FootOf, Sound, FootOk, FilesOk, BlocksOk, References, StolenApart, RespectsOthers, StolenFoot, Linked;
    var f := s.d.fileIndex[path];
    StealFoot(f, path);
    SoundFiles(s);
    SoundBlocks(s);
    UnlinkedFiles(s.d, path, s.threads[t].held);
    UnlinkedBlocks(s.d, path, References(s));
    StolenFootOwes(f);
    SameReferences(s, s1, t);
    StealKeepsApart(s, s1, t, f);
    StealRespectsOthers(s, t, path);
    MoveIsSound(s, s1, t);
  }

  lemma StolenFootOwes(f: Fid)
    ensures StolenFoot(f).pending == multiset{}
  {
  }

  // ---------- Counting the file up ----------

  ghost function Tallied(d: Data, f: Fid): Data
    requires f in d.files
  {
    d.(files := d.files[f := d.files[f].(counted := false)])
  }

  ghost function TalliedFoot(f: Fid, list: seq<Ref>): Foot {
    Foot(Elements(list), {f}, multiset(list), Elements(list), {}, {f}, {}, {}, {}, {})
  }

  lemma TallyProgFoot(f: Fid, order: seq<Ref>, list: seq<Ref>)
    requires Enumerates(order, Elements(list))
    ensures FootOf(TallyAll(order, list, Do(Rel(BlockIndex), Do(Rel(FileLock(f)), Do(UFreeFile(f), Done))))) == TalliedFoot(f, list)
  {
    hide FootOf, TallyAll, Owed;
    ReleaseFoot(f);
    OwedIsList(order, list);
    assert Elements(order) == Elements(list);
    TallyAllFoot(order, list, Do(Rel(BlockIndex), Do(Rel(FileLock(f)), Do(UFreeFile(f), Done))));
  }

  lemma NobodyElseLocked(s: Sys, t: Tid, u: Tid, f: Fid)
    requires t in s.threads && u in s.threads && t != u && Has(s.threads[t].held, FileLock(f), Write) && LocksAgree(s)
    ensures FileLock(f) !in s.threads[u].held
  {
    hide LocksAgree;
    if FileLock(f) in s.threads[u].held {
      Exclusion(s, FileLock(f), t, u);
    }
  }

  /** A change of one file that nobody else points to or has locked. */
  lemma OneFileRespects(d: Data, d1: Data, held: Held, foot: Foot, f: Fid)
    requires FootOk(d, held, foot) && Closed(foot)
    requires d1.blocks == d.blocks && d1.blockIndex == d.blockIndex && d1.fileIndex == d.fileIndex
    requires forall g :: g != f ==> (g in d1.files <==> g in d.files) && (g in d.files ==> d1.files[g] == d.files[g])
    requires f !in foot.files && FileLock(f) !in held
    ensures Respects(d, d1, held, foot)
  {
    assert forall g :: Linked(d1, g) <==> Linked(d, g);
    assert forall b :: InLockedFile(d1, held, b) <==> InLockedFile(d, held, b);
  }

  lemma TalliedIsOk(d: Data, f: Fid, held: Held)
    requires FilesOk(d) && f in d.files && !Linked(d, f) && Has(held, BlockIndex, Write)
    requires forall b :: b in d.files[f].list ==> b in d.blocks && Indexed(d, b)
    ensures FilesOk(Tallied(d, f)) && FootOk(Tallied(d, f), held, TalliedFoot(f, d.files[f].list))
  {
    var d1 := Tallied(d, f);
    assert !Linked(d1, f);
    assert forall p :: p in d.fileIndex ==> d.fileIndex[p] != f;
    assert forall b :: Indexed(d1, b) <==> Indexed(d, b);
  }

  lemma TallyReferences(s: Sys, s1: Sys, t: Tid, f: Fid)
    requires f in s.d.files && s.d.files[f].counted && s1.d == Tallied(s.d, f)
    requires t in s.threads && t in s1.threads && s1.threads == s.threads[t := s1.threads[t]]
    requires FootOf(s.threads[t].prog).pending == multiset{}
    requires FootOf(s1.threads[t].prog).pending == multiset(s.d.files[f].list)
    ensures References(s1) == References(s)
  {
    hide FootOf, EntryMap, PendingMap;
    EntriesMove(s.d.files, f, s1.d.files[f]);
    PendingMoves(s, s1, t);
    var e, e1 := Total(EntryMap(s.d.files)), Total(EntryMap(s1.d.files));
    var a, a1 := Total(PendingMap(s.threads)), Total(PendingMap(s1.threads));
    var l := multiset(s.d.files[f].list);
    assert e1 + l == e && a1 == a + l;
    assert e1 + (a + l) == (e1 + l) + a;
  }

  lemma TallyMoves(s: Sys, t: Tid, f: Fid, list: seq<Ref>)
    requires NobodyElse(s, t, f)
    ensures FootMoves(s, t, StolenFoot(f), TalliedFoot(f, list))
  {
  }

  lemma TallyFacts(s: Sys, t: Tid, f: Fid)
    requires Sound(s) && t in s.threads && FootOf(s.threads[t].prog) == StolenFoot(f)
    ensures f in s.d.files && s.d.files[f].counted && !Linked(s.d, f) && FilesOk(s.d)
  {
    assert ThreadOk(s.d, s.threads[t]);
  }

  lemma TallyRespectsOthers(s: Sys, t: Tid, f: Fid)
    requires t in s.threads && f in s.d.files && Has(s.threads[t].held, FileLock(f), Write) && NobodyElse(s, t, f)
    requires Sound(s) && LocksAgree(s)
    ensures RespectsOthers(s, t, Tallied(s.d, f))
  {
    hide Sound, FootOf, LocksAgree, FootOk, Respects, Closed;
    forall u | u in s.threads && u != t
      ensures Respects(s.d, Tallied(s.d, f), s.threads[u].held, FootOf(s.threads[u].prog))
    {
      SoundThread(s, u);
      FootIsClosed(s.threads[u].prog);
      NobodyElseLocked(s, t, u, f);
      OneFileRespects(s.d, Tallied(s.d, f), s.threads[u].held, FootOf(s.threads[u].prog), f);
    }
  }

  lemma TalliedBlocks(d: Data, f: Fid, refs: multiset<Ref>)
    requires f in d.files && BlocksOk(d, refs)
    ensures BlocksOk(Tallied(d, f), refs)
  {
  }

  lemma TallyIsSound(s: Sys, s1: Sys, t: Tid, f: Fid, order: seq<Ref>)
    requires f in s.d.files && s1.d == Tallied(s.d, f) && Enumerates(order, Elements(s.d.files[f].list))
    requires t in s.threads && s.threads[t].prog == Do(UTally(f), Done)
    requires s1.threads == s.threads[t := s.threads[t].(prog :=
               TallyAll(order, s.d.files[f].list, Do(Rel(BlockIndex), Do(Rel(FileLock(f)), Do(UFreeFile(f), Done)))))]
    requires Has(s.threads[t].held, FileLock(f), Write) && Has(s.threads[t].held, BlockIndex, Write)
    requires NobodyElse(s, t, f)
    requires Sound(s) && LocksAgree(s)
    ensures Sound(s1)
  {
    hide FootOf, Sound, LocksAgree, FootOk, FilesOk, BlocksOk, References, StolenApart, RespectsOthers, Linked, TallyAll, FootMoves;
    hide NobodyElse, Indexed;
    var list := s.d.files[f].list;
    StealFoot(f, []);
    TallyProgFoot(f, order, list);
    TallyFacts(s, t, f);
    SoundBlocks(s);
    ListedBlocksExist(s, f);
    TalliedIsOk(s.d, f, s.threads[t].held);
    TalliedBlocks(s.d, f, References(s));
    TallyReferences(s, s1, t, f);
    TallyRespectsOthers(s, t, f);
    TallyMoves(s, t, f, list);
    ApartIsKept(s, s1, t);
    MoveIsSound(s, s1, t);
  }

  // ---------- Writing a counter back ----------

  ghost function Counter(d: Data, b: Ref, v: int): Data
    requires b in d.blocks
  {
    d.(blocks := d.blocks[b := d.blocks[b].(counter := v)])
  }

  lemma StoreFootShape(b: Ref, v: int, n: nat, next: Prog)
    ensures var x, y := FootOf(Do(UStore(b, v, n), next)), FootOf(next);
            x == y.(blocks := {b} + y.blocks, tested := {b} + y.tested, stores := {(b, v)} + y.stores,
                    pending := multiset{}[b := n] + y.pending)
  {
    FootOfMore(UStore(b, v, n), next);
    hide FootOf;
  }

  lemma StoredBlocks(d: Data, b: Ref, v: int, n: nat, refs: multiset<Ref>, refs1: multiset<Ref>)
    requires BlocksOk(d, refs) && refs == refs1 + multiset{}[b := n] && b in d.blocks && v == d.blocks[b].counter
    ensures BlocksOk(Counter(d, b, v - n), refs1)
  {
    var d1 := Counter(d, b, v - n);
    CountsWithout(refs1, b, n);
    forall c
      ensures Indexed(d1, c) <==> Indexed(d, c)
    {
    }
    hide Indexed;
    forall c | c in d1.blocks
      ensures c.gen < d1.gens && d1.blocks[c].counter == refs1[c]
    {
      assert c in d.blocks && d.blocks[c].counter == refs[c];
    }
    forall c | c in refs1
      ensures c in d1.blocks && Indexed(d1, c)
    {
      assert c in refs;
    }
  }

  lemma CountsWithout(refs1: multiset<Ref>, b: Ref, n: nat)
    ensures var refs := refs1 + multiset{}[b := n];
            (forall c :: refs[c] == refs1[c] + if c == b then n else 0) && (forall c :: c in refs1 ==> c in refs)
  {
  }

  lemma StoredIsOk(d: Data, held: Held, b: Ref, v: int, n: nat, x: Foot, y: Foot)
    requires FootOk(d, held, x) && Plain(y) && Has(held, BlockIndex, Write) && b in d.blocks
    requires x == y.(blocks := {b} + y.blocks, tested := {b} + y.tested, stores := {(b, v)} + y.stores,
                     pending := multiset{}[b := n] + y.pending)
    ensures FootOk(Counter(d, b, v - n), held, y) && v == d.blocks[b].counter
  {
    var d1 := Counter(d, b, v - n);
    assert (b, v) in x.stores && b in x.tested;
    assert forall f :: Linked(d1, f) <==> Linked(d, f);
    assert forall c :: Indexed(d1, c) <==> Indexed(d, c);
    hide Linked, Indexed, InLockedFile;
    assert FilesReached(d1, y) && BlocksReached(d1, held, y) && UnlinkOk(d1, held, y);
  }

  lemma StoreMoves(s: Sys, t: Tid, b: Ref, v: int, n: nat, x: Foot, y: Foot)
    requires x == y.(blocks := {b} + y.blocks, tested := {b} + y.tested, stores := {(b, v)} + y.stores,
                     pending := multiset{}[b := n] + y.pending)
    ensures FootMoves(s, t, x, y)
  {
  }

  lemma StoreReferences(s: Sys, s1: Sys, t: Tid, b: Ref, n: nat, p1: multiset<Ref>)
    requires t in s.threads && t in s1.threads && s1.threads == s.threads[t := s1.threads[t]] && s1.d.files == s.d.files
    requires FootOf(s.threads[t].prog).pending == multiset{}[b := n] + p1 && FootOf(s1.threads[t].prog).pending == p1
    ensures References(s) == References(s1) + multiset{}[b := n]
  {
    hide FootOf, References;
    var m := multiset{}[b := n];
    PendingChanges(s, s1, t, m + p1, p1);
    assert References(s1) + (m + p1) == (References(s1) + m) + p1;
    CancelRight(References(s), References(s1) + m, p1);
  }

  lemma StoreFacts(held: Held, b: Ref, v: int, n: nat, next: Prog)
    requires Disciplined(held, Do(UStore(b, v, n), next))
    ensures Has(held, BlockIndex, Write) && Plain(FootOf(next))
  {
  }

  lemma StoreIsSound(s: Sys, s1: Sys, t: Tid, b: Ref, v: int, n: nat, next: Prog)
    requires b in s.d.blocks && s1.d == Counter(s.d, b, v - n)
    requires t in s.threads && s.threads[t].prog == Do(UStore(b, v, n), next) && Disciplined(s.threads[t].held, s.threads[t].prog)
    requires s1.threads == s.threads[t := s.threads[t].(prog := next)]
    requires Sound(s) && LocksAgree(s)
    ensures Sound(s1)
  {
    hide FootOf, Sound, LocksAgree, FootOk, FilesOk, BlocksOk, References, StolenApart, RespectsOthers, FootMoves, Disciplined, Plain;
    var held, x, y := s.threads[t].held, FootOf(s.threads[t].prog), FootOf(next);
    StoreFacts(held, b, v, n, next);
    StoreFootShape(b, v, n, next);
    SoundThread(s, t);
    SoundBlocks(s);
    SoundFiles(s);
    StoredIsOk(s.d, held, b, v, n, x, y);
    StoreReferences(s, s1, t, b, n, y.pending);
    StoredBlocks(s.d, b, v, n, References(s), References(s1));
    SameFilesOk(s.d, s1.d);
    StoreMoves(s, t, b, v, n, x, y);
    ApartIsKept(s, s1, t);
    GrowthRespectsOthers(s, t, s1.d);
    MoveIsSound(s, s1, t);
  }

  // ---------- Taking a block out of the index ----------

  ghost function Unindexed(d: Data, b: Ref): Data {
    d.(blockIndex := d.blockIndex - {b.hash})
  }

  function FreeCode(b: Ref, next: Prog): Prog {
    Do(Acq(FreeList, Write), Do(UFree(b), Do(Rel(FreeList), Do(Rel(BlockLock(b)), Do(UFreeBlock(b), next)))))
  }

  lemma FreeCodeFoot(b: Ref, next: Prog)
    ensures var y := FootOf(next);
            && FootOf(FreeCode(b, next)) == y.(blocks := {b} + y.blocks, dying := {b} + y.dying)
            && FootOf(Do(UTest(b), next)) == y.(blocks := {b} + y.blocks, tested := {b} + y.tested)
            && FootOf(Do(UFreeBlock(b), next)) == y.(blocks := {b} + y.blocks, dying := {b} + y.dying)
  {
    var y := FootOf(next);
    var z := y.(blocks := {b} + y.blocks, dying := {b} + y.dying);
    FreeInstrs(b, y);
    LockInstrs(b, z);
    hide FootOf, InstrFoot, Join;
    FootOfMore(UTest(b), next);
    FootOfMore(UFreeBlock(b), next);
    var p1 := Do(UFreeBlock(b), next);
    FootOfMore(Rel(BlockLock(b)), p1);
    var p2 := Do(Rel(BlockLock(b)), p1);
    FootOfMore(Rel(FreeList), p2);
    FootOfMore(UFree(b), Do(Rel(FreeList), p2));
    FootOfMore(Acq(FreeList, Write), Do(UFree(b), Do(Rel(FreeList), p2)));
  }

  lemma FreeInstrs(b: Ref, y: Foot)
    ensures Join(InstrFoot(UTest(b)), y) == y.(blocks := {b} + y.blocks, tested := {b} + y.tested)
    ensures Join(InstrFoot(UFreeBlock(b)), y) == y.(blocks := {b} + y.blocks, dying := {b} + y.dying)
  {
  }

  lemma LockInstrs(b: Ref, z: Foot)
    requires b in z.blocks && b in z.dying
    ensures Join(InstrFoot(UFree(b)), z) == z == Join(InstrFoot(Rel(BlockLock(b))), z)
    ensures Join(InstrFoot(Acq(FreeList, Write)), z) == z == Join(InstrFoot(Rel(FreeList)), z)
  {
    JoinNothing(z);
    assert {b} + z.blocks == z.blocks && {b} + z.dying == z.dying;
  }

  lemma UnindexedBlocks(d: Data, b: Ref, refs: multiset<Ref>)
    requires BlocksOk(d, refs) && b in d.blocks && d.blocks[b].counter == 0 && Indexed(d, b)
    ensures BlocksOk(Unindexed(d, b), refs)
  {
    var d1 := Unindexed(d, b);
    assert b !in refs;
    forall c | c in refs
      ensures Indexed(d1, c)
    {
      assert Indexed(d, c) && c != b;
    }
  }

  lemma UnindexedIsOk(d: Data, held: Held, b: Ref, y: Foot)
    requires FootOk(d, held, y.(blocks := {b} + y.blocks, tested := {b} + y.tested)) && Closed(y) && b !in y.blocks
    requires b in d.blocks && d.blocks[b].counter == 0 && Has(held, BlockIndex, Write)
    ensures FootOk(Unindexed(d, b), held, y.(blocks := {b} + y.blocks, dying := {b} + y.dying)) && Indexed(d, b)
  {
    var d1, x := Unindexed(d, b), y.(blocks := {b} + y.blocks, tested := {b} + y.tested);
    assert b in x.tested;
    assert forall f :: Linked(d1, f) <==> Linked(d, f);
    assert forall c :: Indexed(d1, c) <==> Indexed(d, c) && c != b;
    var z := y.(blocks := {b} + y.blocks, dying := {b} + y.dying);
    hide Linked, Indexed, InLockedFile;
    assert UnlinkOk(d, held, x) && FilesReached(d, x) && BlocksReached(d, held, x) && ValuesOk(d, x);
    assert FilesReached(d1, z) && BlocksReached(d1, held, z) && UnlinkOk(d1, held, z) && ValuesOk(d1, z);
  }

  lemma TestFacts(held: Held, b: Ref, next: Prog)
    requires Disciplined(held, Do(UTest(b), next))
    ensures Has(held, BlockIndex, Write) && b !in FootOf(next).blocks
  {
  }

  lemma UnindexMoves(s: Sys, t: Tid, b: Ref, y: Foot)
    ensures FootMoves(s, t, y.(blocks := {b} + y.blocks, tested := {b} + y.tested), y.(blocks := {b} + y.blocks, dying := {b} + y.dying))
  {
  }

  lemma UnindexIsSound(s: Sys, s1: Sys, t: Tid, b: Ref, next: Prog)
    requires b in s.d.blocks && s.d.blocks[b].counter == 0 && s1.d == Unindexed(s.d, b)
    requires t in s.threads && s.threads[t].prog == Do(UTest(b), next) && Disciplined(s.threads[t].held, s.threads[t].prog)
    requires s1.threads == s.threads[t := s.threads[t].(prog := FreeCode(b, next))]
    requires Sound(s) && LocksAgree(s)
    ensures Sound(s1)
  {
    hide FootOf, Sound, LocksAgree, FootOk, FilesOk, BlocksOk, References, StolenApart, RespectsOthers, FootMoves, Disciplined;
    hide Indexed, Closed, FreeCode;
    var held, y := s.threads[t].held, FootOf(next);
    TestFacts(held, b, next);
    FreeCodeFoot(b, next);
    FootIsClosed(next);
    SoundThread(s, t);
    SoundBlocks(s);
    SoundFiles(s);
    UnindexedIsOk(s.d, held, b, y);
    UnindexedBlocks(s.d, b, References(s));
    SameReferences(s, s1, t);
    SameFilesOk(s.d, s1.d);
    UnindexMoves(s, t, b, y);
    ApartIsKept(s, s1, t);
    GrowthRespectsOthers(s, t, s1.d);
    MoveIsSound(s, s1, t);
  }

  // ---------- Freeing a block ----------

  ghost function Freed(d: Data, b: Ref): Data {
    d.(blocks := d.blocks - {b})
  }

  /** Nothing refers to a block that is not indexed, and no list holds it. */
  lemma DyingIsUnreferenced(s: Sys, held: Held, b: Ref)
    requires Sound(s) && !Indexed(s.d, b)
    ensures b !in References(s) && !InLockedFile(s.d, held, b)
  {
    SoundBlocks(s);
    if InLockedFile(s.d, held, b) {
      var f :| FileLock(f) in held && f in s.d.files && s.d.files[f].counted && b in s.d.files[f].list;
      ListedBlocksExist(s, f);
    }
  }

  lemma FreedRespects(d: Data, b: Ref, held: Held, foot: Foot)
    requires FootOk(d, held, foot) && b !in foot.pending && !InLockedFile(d, held, b) && !Has(held, BlockIndex, Write) && !Indexed(d, b)
    requires foot.tested == {} && foot.dying == {} && foot.stores == {}
    ensures Respects(d, Freed(d, b), held, foot)
  {
    var d1 := Freed(d, b);
    assert b !in foot.blocks;
    assert forall f :: Linked(d1, f) <==> Linked(d, f);
    assert forall c :: InLockedFile(d1, held, c) <==> InLockedFile(d, held, c);
  }

  lemma NobodyReachesDying(s: Sys, t: Tid, u: Tid, b: Ref)
    requires t in s.threads && u in s.threads && t != u && Has(s.threads[t].held, BlockIndex, Write) && !Indexed(s.d, b)
    requires Sound(s) && LocksAgree(s)
    ensures Respects(s.d, Freed(s.d, b), s.threads[u].held, FootOf(s.threads[u].prog))
    ensures b !in FootOf(s.threads[u].prog).blocks
  {
    hide FootOf, Sound, LocksAgree, References, Indexed, InLockedFile, Respects;
    OthersDontUnlink(s, t, u);
    PendingIsReferences(s, u);
    DyingIsUnreferenced(s, s.threads[u].held, b);
    SoundThread(s, u);
    FreedRespects(s.d, b, s.threads[u].held, FootOf(s.threads[u].prog));
    assert BlocksReached(s.d, s.threads[u].held, FootOf(s.threads[u].prog));
  }

  lemma FreeRespectsOthers(s: Sys, t: Tid, b: Ref)
    requires t in s.threads && Has(s.threads[t].held, BlockIndex, Write) && !Indexed(s.d, b)
    requires Sound(s) && LocksAgree(s)
    ensures RespectsOthers(s, t, Freed(s.d, b))
  {
    hide FootOf, Sound, LocksAgree, Respects, Indexed;
    forall u | u in s.threads && u != t
      ensures Respects(s.d, Freed(s.d, b), s.threads[u].held, FootOf(s.threads[u].prog))
    {
      NobodyReachesDying(s, t, u, b);
    }
  }

  lemma FreedBlocks(d: Data, b: Ref, refs: multiset<Ref>)
    requires BlocksOk(d, refs) && b !in refs && !Indexed(d, b)
    ensures BlocksOk(Freed(d, b), refs)
  {
    var d1 := Freed(d, b);
    forall c | c in refs
      ensures Indexed(d1, c) && c in d1.blocks
    {
      assert Indexed(d, c);
    }
  }

  lemma FreedIsOk(d: Data, held: Held, b: Ref, y: Foot)
    requires FootOk(d, held, y.(blocks := {b} + y.blocks, dying := {b} + y.dying)) && Closed(y) && b !in y.blocks
    ensures FootOk(Freed(d, b), held, y) && !Indexed(d, b)
  {
    var d1, x := Freed(d, b), y.(blocks := {b} + y.blocks, dying := {b} + y.dying);
    assert b in x.dying;
    assert forall f :: Linked(d1, f) <==> Linked(d, f);
    assert forall c :: Indexed(d1, c) <==> Indexed(d, c);
    assert forall c :: InLockedFile(d1, held, c) <==> InLockedFile(d, held, c);
    hide Linked, Indexed, InLockedFile;
    assert FilesReached(d1, y) && BlocksReached(d1, held, y) && UnlinkOk(d1, held, y);
    assert ValuesOk(d1, y);
  }

  lemma FreeFacts(held: Held, b: Ref, next: Prog)
    requires Disciplined(held, Do(UFreeBlock(b), next))
    ensures Has(held, BlockIndex, Write) && b !in FootOf(next).blocks
  {
  }

  lemma FreeMoves(s: Sys, t: Tid, b: Ref, y: Foot)
    ensures FootMoves(s, t, y.(blocks := {b} + y.blocks, dying := {b} + y.dying), y)
  {
  }

  lemma FreeBlockIsSound(s: Sys, s1: Sys, t: Tid, b: Ref, next: Prog)
    requires s1.d == Freed(s.d, b)
    requires t in s.threads && s.threads[t].prog == Do(UFreeBlock(b), next) && Disciplined(s.threads[t].held, s.threads[t].prog)
    requires s1.threads == s.threads[t := s.threads[t].(prog := next)]
    requires Sound(s) && LocksAgree(s)
    ensures Sound(s1)
  {
    hide FootOf, Sound, LocksAgree, FootOk, FilesOk, BlocksOk, References, StolenApart, RespectsOthers, FootMoves, Disciplined;
    hide Indexed, Closed, InLockedFile;
    var held, y := s.threads[t].held, FootOf(next);
    FreeFacts(held, b, next);
    FreeCodeFoot(b, next);
    FootIsClosed(next);
    SoundThread(s, t);
    SoundBlocks(s);
    SoundFiles(s);
    FreedIsOk(s.d, held, b, y);
    DyingIsUnreferenced(s, held, b);
    FreedBlocks(s.d, b, References(s));
    SameReferences(s, s1, t);
    SameFilesOk(s.d, s1.d);
    FreeMoves(s, t, b, y);
    ApartIsKept(s, s1, t);
    FreeRespectsOthers(s, t, b);
    MoveIsSound(s, s1, t);
  }

  // ---------- Freeing the file ----------

  ghost function Discarded(d: Data, f: Fid): Data {
    d.(files := d.files - {f})
  }

  lemma FreeFileFoot(f: Fid)
    ensures FootOf(Do(UFreeFile(f), Done)) == FileFoot(f).(stolen := {f})
  {
    JoinNothing(InstrFoot(UFreeFile(f)));
  }

  lemma DiscardFacts(s: Sys, t: Tid, f: Fid)
    requires Sound(s) && t in s.threads && FootOf(s.threads[t].prog) == FileFoot(f).(stolen := {f})
    ensures f in s.d.files && !s.d.files[f].counted && !Linked(s.d, f) && FilesOk(s.d)
    ensures NobodyElse(s, t, f)
  {
    hide FootOf;
    assert ThreadOk(s.d, s.threads[t]);
    forall u | u in s.threads && u != t
      ensures f !in FootOf(s.threads[u].prog).files
    {
      assert Apart(s.threads[t], s.threads[u]);
    }
  }

  lemma DiscardedIsOk(d: Data, f: Fid, held: Held, refs: multiset<Ref>)
    requires FilesOk(d) && BlocksOk(d, refs) && !Linked(d, f)
    ensures FilesOk(Discarded(d, f)) && BlocksOk(Discarded(d, f), refs) && FootOk(Discarded(d, f), held, NOTHING)
  {
  }

  lemma DiscardRespects(d: Data, f: Fid, held: Held, foot: Foot)
    requires FootOk(d, held, foot) && Closed(foot) && f in d.files && f !in foot.files && !d.files[f].counted
    ensures Respects(d, Discarded(d, f), held, foot)
  {
    var d1 := Discarded(d, f);
    assert forall g :: Linked(d1, g) <==> Linked(d, g);
    assert forall b :: InLockedFile(d1, held, b) <==> InLockedFile(d, held, b);
  }

  lemma DiscardRespectsOthers(s: Sys, t: Tid, f: Fid)
    requires t in s.threads && f in s.d.files && !s.d.files[f].counted && NobodyElse(s, t, f)
    requires Sound(s)
    ensures RespectsOthers(s, t, Discarded(s.d, f))
  {
    hide FootOf, Sound, FootOk, Respects, Closed;
    forall u | u in s.threads && u != t
      ensures Respects(s.d, Discarded(s.d, f), s.threads[u].held, FootOf(s.threads[u].prog))
    {
      SoundThread(s, u);
      FootIsClosed(s.threads[u].prog);
      DiscardRespects(s.d, f, s.threads[u].held, FootOf(s.threads[u].prog));
    }
  }

  lemma DiscardReferences(s: Sys, s1: Sys, t: Tid, f: Fid)
    requires f in s.d.files && !s.d.files[f].counted && s1.d == Discarded(s.d, f)
    requires t in s.threads && t in s1.threads && s1.threads == s.threads[t := s1.threads[t]]
    requires FootOf(s1.threads[t].prog).pending == FootOf(s.threads[t].prog).pending
    ensures References(s1) == References(s)
  {
    EntriesOfFreedFile(s.d.files, f);
    hide FootOf, EntryMap, PendingMap;
    PendingMoves(s, s1, t);
    CancelRight(Total(PendingMap(s1.threads)), Total(PendingMap(s.threads)), FootOf(s.threads[t].prog).pending);
  }

  lemma EndMoves(s: Sys, t: Tid, x: Foot)
    ensures FootMoves(s, t, x, NOTHING)
  {
  }

  lemma FreeFileIsSound(s: Sys, s1: Sys, t: Tid, f: Fid)
    requires s1.d == Discarded(s.d, f)
    requires t in s.threads && s.threads[t].prog == Do(UFreeFile(f), Done)
    requires s1.threads == s.threads[t := s.threads[t].(prog := Done)]
    requires Sound(s)
    ensures Sound(s1)
  {
    hide FootOf, Sound, FootOk, FilesOk, BlocksOk, References, StolenApart, RespectsOthers, FootMoves, NobodyElse, Linked;
    FreeFileFoot(f);
    FootOfDone();
    SoundBlocks(s);
    DiscardFacts(s, t, f);
    DiscardedIsOk(s.d, f, s.threads[t].held, References(s));
    DiscardReferences(s, s1, t, f);
    EndMoves(s, t, FootOf(s.threads[t].prog));
    ApartIsKept(s, s1, t);
    DiscardRespectsOthers(s, t, f);
    MoveIsSound(s, s1, t);
  }
}

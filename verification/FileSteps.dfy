/** Instructions of a write that change files or the allocation of space. */
module FileSteps {
  import opened Basics
  import opened Collections
  import opened TicketLock
  import opened Programs
  import opened Discipline
  import opened Interleaving
  import opened RefCounts
  import opened QuietSteps
  import opened DataSteps

  // ---------- Files that only grow ----------

  /** The file table only grows: lists keep their entries, and links stay as they are. */
  ghost predicate FilesGrow(d: Data, d1: Data) {
    && d1.blocks == d.blocks && d1.blockIndex == d.blockIndex && d1.gens == d.gens
    && (forall f :: f in d.files ==>
                      && f in d1.files && d1.files[f].counted == d.files[f].counted
                      && d.files[f].list <= d1.files[f].list && (Linked(d1, f) <==> Linked(d, f)))
  }

  lemma LockedFileGrows(d: Data, d1: Data, held: Held, b: Ref)
    requires FilesGrow(d, d1) && InLockedFile(d, held, b)
    ensures InLockedFile(d1, held, b)
  {
    var f :| FileLock(f) in held && f in d.files && d.files[f].counted && b in d.files[f].list;
    assert d.files[f].list <= d1.files[f].list;
  }

  lemma GrowingFilesRespect(d: Data, d1: Data, held: Held, foot: Foot)
    requires FilesGrow(d, d1) && FootOk(d, held, foot) && Closed(foot)
    ensures Respects(d, d1, held, foot)
  {
    hide InLockedFile, Linked, Indexed;
    assert FilesReached(d, foot) && BlocksReached(d, held, foot) && UnlinkOk(d, held, foot) && ValuesOk(d, foot);
    forall b | InLockedFile(d, held, b)
      ensures InLockedFile(d1, held, b)
    {
      LockedFileGrows(d, d1, held, b);
    }
    assert forall b :: Indexed(d1, b) <==> Indexed(d, b) by { IndexedSame(d, d1); }
  }

  lemma IndexedSame(d: Data, d1: Data)
    requires d1.blockIndex == d.blockIndex
    ensures forall b :: Indexed(d1, b) <==> Indexed(d, b)
  {
  }

  lemma GrowingFilesRespectOthers(s: Sys, t: Tid, d1: Data)
    requires Sound(s) && t in s.threads && FilesGrow(s.d, d1)
    ensures RespectsOthers(s, t, d1)
  {
    hide FilesGrow, FootOf, Sound, FootOk, Respects;
    forall u | u in s.threads && u != t
      ensures Respects(s.d, d1, s.threads[u].held, FootOf(s.threads[u].prog))
    {
      SoundThread(s, u);
      FootIsClosed(s.threads[u].prog);
      GrowingFilesRespect(s.d, d1, s.threads[u].held, FootOf(s.threads[u].prog));
    }
  }

  lemma SameBlocksOk(d: Data, d1: Data, refs: multiset<Ref>)
    requires BlocksOk(d, refs) && d1.blocks == d.blocks && d1.blockIndex == d.blockIndex && d1.gens == d.gens
    ensures BlocksOk(d1, refs)
  {
  }

  // ---------- A new file ----------

  lemma NewFileIsOk(d: Data, path: Path, held: Held)
    requires FilesOk(d) && path !in d.fileIndex
    ensures FilesOk(NewFile(d, path)) && FilesGrow(d, NewFile(d, path)) && d.fids !in d.files
    ensures FootOk(NewFile(d, path), held, FileFoot(d.fids))
  {
    var d1 := NewFile(d, path);
    assert path in d1.fileIndex && d1.fileIndex[path] == d.fids;
    assert Linked(d1, d.fids);
    forall f | f in d.files
      ensures Linked(d1, f) <==> Linked(d, f)
    {
      if Linked(d, f) {
        var p :| p in d.fileIndex && d.fileIndex[p] == f;
        assert d1.fileIndex[p] == f;
      }
    }
  }

  lemma NewFileReferences(s: Sys, s1: Sys, t: Tid, path: Path)
    requires t in s.threads && t in s1.threads && s1.threads == s.threads[t := s1.threads[t]]
    requires s.d.fids !in s.d.files && s1.d == NewFile(s.d, path)
    requires FootOf(s1.threads[t].prog).pending == FootOf(s.threads[t].prog).pending
    ensures References(s1) == References(s)
  {
    EntriesOfNewFile(s.d.files, s.d.fids, path);
    hide FootOf, EntryMap, PendingMap;
    PendingMoves(s, s1, t);
    CancelRight(Total(PendingMap(s1.threads)), Total(PendingMap(s.threads)), FootOf(s.threads[t].prog).pending);
  }

  lemma PointToNewFile(s: Sys, t: Tid, f: Fid)
    requires f !in s.d.files
    ensures FootMoves(s, t, NOTHING, FileFoot(f))
  {
  }

  lemma NewFileIsSound(s: Sys, s1: Sys, t: Tid, path: Path)
    requires path !in s.d.fileIndex && s1.d == NewFile(s.d, path)
    requires t in s.threads && t in s1.threads && s1.threads == s.threads[t := s1.threads[t]]
    requires FootOf(s.threads[t].prog) == NOTHING && FootOf(s1.threads[t].prog) == FileFoot(s.d.fids)
    requires Sound(s)
    ensures Sound(s1)
  {
    hide FootOf, Sound, FilesOk, FilesGrow, FootOk, FootMoves, BlocksOk, StolenApart, References, RespectsOthers;
    SoundFiles(s);
    SoundBlocks(s);
    NewFileIsOk(s.d, path, s1.threads[t].held);
    NewFileReferences(s, s1, t, path);
    SameBlocksOk(s.d, s1.d, References(s));
    PointToNewFile(s, t, s.d.fids);
    ApartIsKept(s, s1, t);
    GrowingFilesRespectOthers(s, t, s1.d);
    MoveIsSound(s, s1, t);
  }

  lemma CreateIsSound(s: Sys, s1: Sys, t: Tid, path: Path, off: nat, hashes: seq<Hash>, order: seq<Ref>)
    requires t in s.threads && s.threads[t].prog == Do(WCreate(path, off, hashes), Done)
    requires s1.d == ExecData(s.d, WCreate(path, off, hashes))
    requires s1.threads == s.threads[t := s.threads[t].(prog := ExecProg(s.d, WCreate(path, off, hashes), Done, order))]
    requires Sound(s)
    ensures Sound(s1)
  {
    hide FootOf, Sound, FilesOk, FootOk;
    FootOfOne(WCreate(path, off, hashes));
    var f := if path in s.d.fileIndex then s.d.fileIndex[path] else s.d.fids;
    WriteLookupFoot(f, path, off, hashes);
    if path in s.d.fileIndex {
      assert Linked(s.d, f);
      SoundFiles(s);
      PointerIsOk(s, t, s.threads[t].prog, s1.threads[t].prog, f);
      QuietMoveIsSound(s, s1, t);
    } else {
      NewFileIsSound(s, s1, t, path);
    }
  }

  // ---------- Allocation ----------

  /** Only offsets and free space differ. */
  ghost predicate SameButSpace(d: Data, d1: Data) {
    && d1.fileIndex == d.fileIndex && d1.files == d.files && d1.blockIndex == d.blockIndex
    && d1.fids == d.fids && d1.gens == d.gens && d1.blocks.Keys == d.blocks.Keys
    && forall b :: b in d.blocks ==> d1.blocks[b].counter == d.blocks[b].counter
  }

  lemma {:induction false} AllocKeepsRest(d: Data, bs: seq<Ref>)
    requires forall b :: b in bs ==> b in d.blocks
    ensures SameButSpace(d, AllocAll(d, bs))
    decreases |bs|
  {
    if bs != [] {
      AllocKeepsRest(Alloc(d, bs[0]), bs[1..]);
    }
  }

  lemma SpaceKeepsFoot(d: Data, d1: Data, held: Held, foot: Foot)
    requires SameButSpace(d, d1) && FootOk(d, held, foot)
    ensures FootOk(d1, held, foot)
  {
    assert forall b :: b in d.blocks.Keys <==> b in d1.blocks.Keys;
    assert forall b :: InLockedFile(d1, held, b) <==> InLockedFile(d, held, b);
    assert forall f :: Linked(d1, f) <==> Linked(d, f);
    assert FilesReached(d1, foot);
    assert BlocksReached(d1, held, foot);
    assert UnlinkOk(d1, held, foot);
  }

  lemma SpaceKeepsBlocks(d: Data, d1: Data, refs: multiset<Ref>)
    requires SameButSpace(d, d1) && BlocksOk(d, refs)
    ensures BlocksOk(d1, refs)
  {
    assert forall b :: b in d.blocks.Keys <==> b in d1.blocks.Keys;
  }

  lemma SpaceKeepsSound(s: Sys, d1: Data)
    requires SameButSpace(s.d, d1) && Sound(s)
    ensures Sound(s.(d := d1))
  {
    hide FootOk, BlocksOk, FilesOk;
    SpaceKeepsBlocks(s.d, d1, References(s));
    SameFilesOk(s.d, d1);
    assert References(s.(d := d1)) == References(s);
    hide References;
    forall u | u in s.threads
      ensures ThreadOk(d1, s.threads[u])
    {
      SoundThread(s, u);
      SpaceKeepsFoot(s.d, d1, s.threads[u].held, FootOf(s.threads[u].prog));
    }
  }

  /** The instruction falls away and leaves the thread's own entries. */
  lemma PopIsSound(s: Sys, s1: Sys, t: Tid, p1: Prog)
    requires t in s.threads && LeftOver(FootOf(s.threads[t].prog), FootOf(p1))
    requires s1.d == s.d && s1.threads == s.threads[t := s.threads[t].(prog := p1)]
    requires Sound(s)
    ensures Sound(s1)
  {
    hide Sound, FootOf, FootOk, LeftOver, FootMoves;
    SoundThread(s, t);
    LeftOverMoves(s, t, FootOf(s.threads[t].prog), FootOf(p1));
    LeftOverIsOk(s.d, s.threads[t].held, FootOf(s.threads[t].prog), s.threads[t].held, FootOf(p1));
    QuietMoveIsSound(s, s1, t);
  }

  lemma SpaceFoot(i: Instr, next: Prog)
    requires i.WAlloc? || i.UFree?
    ensures LeftOver(FootOf(Do(i, next)), FootOf(next))
  {
    FootOfMore(i, next);
    hide FootOf;
  }

  lemma SpaceIsSound(s: Sys, s1: Sys, t: Tid, i: Instr, next: Prog)
    requires i.WAlloc? || i.UFree?
    requires Defined(s.d, i) && s1.d == ExecData(s.d, i)
    requires t in s.threads && s.threads[t].prog == Do(i, next)
    requires s1.threads == s.threads[t := s.threads[t].(prog := next)]
    requires Sound(s)
    ensures Sound(s1)
  {
    if i.WAlloc? { AllocKeepsRest(s.d, i.bs); }
    assert SameButSpace(s.d, s1.d);
    hide Sound, FootOf, LeftOver, ExecData, SameButSpace;
    SpaceKeepsSound(s, s1.d);
    SpaceFoot(i, next);
    PopIsSound(s.(d := s1.d), s1, t, next);
  }

  // ---------- Appending an entry ----------

  ghost function Appended(d: Data, f: Fid, b: Ref): Data
    requires f in d.files
  {
    d.(files := d.files[f := d.files[f].(list := d.files[f].list + [b])])
  }

  lemma AppendGrows(d: Data, f: Fid, b: Ref)
    requires FilesOk(d) && f in d.files
    ensures FilesGrow(d, Appended(d, f, b)) && FilesOk(Appended(d, f, b))
  {
    var d1 := Appended(d, f, b);
    assert forall g :: Linked(d1, g) <==> Linked(d, g);
  }

  lemma AppendFootShape(f: Fid, b: Ref, next: Prog)
    ensures var x, y := FootOf(Do(WAppend(f, b), next)), FootOf(next);
            x == y.(files := {f} + y.files, blocks := {b} + y.blocks, pending := multiset{b} + y.pending)
  {
    FootOfMore(WAppend(f, b), next);
    hide FootOf;
  }

  /** The entry moves from the thread's own account to the list. */
  lemma AppendReferences(s: Sys, s1: Sys, t: Tid, f: Fid, b: Ref)
    requires f in s.d.files && s.d.files[f].counted && s1.d == Appended(s.d, f, b)
    requires t in s.threads && t in s1.threads && s1.threads == s.threads[t := s1.threads[t]]
    requires FootOf(s.threads[t].prog).pending == multiset{b} + FootOf(s1.threads[t].prog).pending
    ensures References(s1) == References(s)
  {
    hide FootOf, EntryMap, PendingMap;
    var list := s.d.files[f].list;
    EntriesMove(s.d.files, f, s1.d.files[f]);
    PendingMoves(s, s1, t);
    var e, e1 := Total(EntryMap(s.d.files)), Total(EntryMap(s1.d.files));
    var a, a1 := Total(PendingMap(s.threads)), Total(PendingMap(s1.threads));
    assert multiset(list + [b]) == multiset{b} + multiset(list);
    CancelTwice(e, e1, a, a1, multiset(list), FootOf(s1.threads[t].prog).pending, multiset{b});
  }

  lemma CancelTwice(e: multiset<Ref>, e1: multiset<Ref>, a: multiset<Ref>, a1: multiset<Ref>,
                    l: multiset<Ref>, p: multiset<Ref>, b: multiset<Ref>)
    requires e1 + l == e + (b + l) && a1 + (b + p) == a + p
    ensures e1 + a1 == e + a
  {
    assert e1 + l == (e + b) + l;
    CancelRight(e1, e + b, l);
    assert (a1 + b) + p == a + p;
    CancelRight(a1 + b, a, p);
    assert e1 + a1 == e + (a1 + b);
  }

  lemma AppendedIsOk(d: Data, f: Fid, b: Ref, held: Held, x: Foot, y: Foot)
    requires FootOk(d, held, x) && FileLock(f) in held && f in d.files && d.files[f].counted && b in d.blocks
    requires x == y.(files := {f} + y.files, blocks := {b} + y.blocks, pending := multiset{b} + y.pending)
    requires FilesGrow(d, Appended(d, f, b)) && Closed(x) && OnlyWrites(y, f)
    ensures FootOk(Appended(d, f, b), held, y)
  {
    var d1 := Appended(d, f, b);
    hide Linked, Indexed;
    GrowingFilesRespect(d, d1, held, x);
    RespectedStaysOk(d, d1, held, x);
    assert FilesReached(d1, y) && UnlinkOk(d1, held, y);
    AppendedIsLocked(d, f, b, held);
    hide InLockedFile;
    assert BlocksReached(d1, held, y);
    assert |x.pending| == 1 + |y.pending|;
    AppendedValues(d, f, b, x, y);
  }

  lemma AppendedIsLocked(d: Data, f: Fid, b: Ref, held: Held)
    requires FileLock(f) in held && f in d.files && d.files[f].counted
    ensures InLockedFile(Appended(d, f, b), held, b)
  {
    var d1 := Appended(d, f, b);
    assert d1.files[f].list[|d.files[f].list|] == b;
    assert b in d1.files[f].list;
  }

  lemma AppendedValues(d: Data, f: Fid, b: Ref, x: Foot, y: Foot)
    requires ValuesOk(d, x) && f in d.files && |x.pending| == 1 + |y.pending|
    requires y.stores == x.stores && y.ranges == x.ranges && y.sizes == x.sizes
    requires forall z :: z in x.sizes ==> z.0 == f
    ensures ValuesOk(Appended(d, f, b), y)
  {
  }

  lemma AppendMoves(s: Sys, t: Tid, f: Fid, b: Ref, x: Foot, y: Foot)
    requires x == y.(files := {f} + y.files, blocks := {b} + y.blocks, pending := multiset{b} + y.pending)
    ensures FootMoves(s, t, x, y)
  {
  }

  lemma AppendFacts(s: Sys, held: Held, f: Fid, b: Ref, x: Foot, next: Prog)
    requires FootOk(s.d, held, x) && x == FootOf(Do(WAppend(f, b), next)) && Disciplined(held, Do(WAppend(f, b), next))
    ensures f in s.d.files && s.d.files[f].counted && b in s.d.blocks
    ensures FileLock(f) in held && OnlyWrites(FootOf(next), f)
  {
    AppendFootShape(f, b, next);
    hide FootOf;
  }

  lemma AppendIsSound(s: Sys, s1: Sys, t: Tid, f: Fid, b: Ref, next: Prog)
    requires f in s.d.files && s1.d == Appended(s.d, f, b)
    requires t in s.threads && s.threads[t].prog == Do(WAppend(f, b), next) && Disciplined(s.threads[t].held, s.threads[t].prog)
    requires s1.threads == s.threads[t := s.threads[t].(prog := next)]
    requires Sound(s)
    ensures Sound(s1)
  {
    hide FootOf, Sound, FilesOk, FilesGrow, FootOk, FootMoves, BlocksOk, StolenApart, References, RespectsOthers;
    hide Disciplined, Closed, Appended, OnlyWrites;
    var held, x, y := s.threads[t].held, FootOf(s.threads[t].prog), FootOf(next);
    SoundFiles(s);
    SoundBlocks(s);
    SoundThread(s, t);
    FootIsClosed(s.threads[t].prog);
    AppendFootShape(f, b, next);
    AppendFacts(s, held, f, b, x, next);
    AppendGrows(s.d, f, b);
    AppendReferences(s, s1, t, f, b);
    AppendedBlocks(s.d, f, b);
    SameBlocksOk(s.d, s1.d, References(s));
    AppendedIsOk(s.d, f, b, held, x, y);
    AppendMoves(s, t, f, b, x, y);
    ApartIsKept(s, s1, t);
    GrowingFilesRespectOthers(s, t, s1.d);
    MoveIsSound(s, s1, t);
  }

  lemma AppendedBlocks(d: Data, f: Fid, b: Ref)
    requires f in d.files
    ensures var d1 := Appended(d, f, b); d1.blocks == d.blocks && d1.blockIndex == d.blockIndex && d1.gens == d.gens
  {
  }

  // ---------- Setting the size ----------

  ghost function Resized(d: Data, f: Fid, size: nat): Data
    requires f in d.files
  {
    d.(files := d.files[f := d.files[f].(size := size)])
  }

  lemma SizeFits(d: Data, held: Held, f: Fid, size: nat, next: Prog)
    requires FootOk(d, held, FootOf(Do(WSize(f, size), next))) && FootOf(next).pending == multiset{}
    ensures f in d.files && size <= 4096 * |d.files[f].list|
    ensures LeftOver(FootOf(Do(WSize(f, size), next)), FootOf(next))
  {
    FootOfMore(WSize(f, size), next);
    hide FootOf;
    assert (f, size) in FootOf(Do(WSize(f, size), next)).sizes;
  }

  lemma ResizedKeepsFoot(d: Data, f: Fid, size: nat, held: Held, foot: Foot)
    requires f in d.files && FootOk(d, held, foot)
    ensures FootOk(Resized(d, f, size), held, foot)
  {
    var d1 := Resized(d, f, size);
    assert forall b :: InLockedFile(d, held, b) ==> InLockedFile(d1, held, b) by { ResizedLocked(d, f, size, held); }
    assert forall g :: Linked(d1, g) <==> Linked(d, g);
    hide InLockedFile, Linked;
    assert FilesReached(d1, foot);
    assert BlocksReached(d1, held, foot);
    assert UnlinkOk(d1, held, foot) by { IndexedSame(d, d1); }
    assert ValuesOk(d1, foot);
  }

  lemma ResizedLocked(d: Data, f: Fid, size: nat, held: Held)
    requires f in d.files
    ensures forall b :: InLockedFile(d, held, b) ==> InLockedFile(Resized(d, f, size), held, b)
  {
  }

  lemma ResizedReferences(s: Sys, f: Fid, size: nat)
    requires f in s.d.files
    ensures References(s.(d := Resized(s.d, f, size))) == References(s)
  {
    assert EntryMap(Resized(s.d, f, size).files) == EntryMap(s.d.files);
  }

  lemma ResizedFiles(d: Data, f: Fid, size: nat)
    requires f in d.files && size <= 4096 * |d.files[f].list| && FilesOk(d)
    ensures FilesOk(Resized(d, f, size))
  {
  }

  lemma ResizeKeepsSound(s: Sys, f: Fid, size: nat)
    requires f in s.d.files && size <= 4096 * |s.d.files[f].list|
    requires Sound(s)
    ensures Sound(s.(d := Resized(s.d, f, size)))
  {
    hide FootOk, References, BlocksOk, FilesOk, FootOf, Apart;
    var d1 := Resized(s.d, f, size);
    ResizedReferences(s, f, size);
    SoundBlocks(s);
    SameBlocksOk(s.d, d1, References(s));
    SoundFiles(s);
    ResizedFiles(s.d, f, size);
    forall u | u in s.threads
      ensures ThreadOk(d1, s.threads[u])
    {
      SoundThread(s, u);
      ResizedKeepsFoot(s.d, f, size, s.threads[u].held, FootOf(s.threads[u].prog));
    }
  }

  lemma SettingSize(held: Held, f: Fid, size: nat, next: Prog)
    requires Disciplined(held, Do(WSize(f, size), next))
    ensures FootOf(next).pending == multiset{}
  {
  }

  lemma SizeIsSound(s: Sys, s1: Sys, t: Tid, f: Fid, size: nat, next: Prog)
    requires Defined(s.d, WSize(f, size)) && s1.d == ExecData(s.d, WSize(f, size))
    requires t in s.threads && s.threads[t].prog == Do(WSize(f, size), next) && Disciplined(s.threads[t].held, s.threads[t].prog)
    requires s1.threads == s.threads[t := s.threads[t].(prog := next)]
    requires Sound(s)
    ensures Sound(s1)
  {
    hide Sound, FootOf, LeftOver, FootOk, Disciplined;
    SoundThread(s, t);
    SettingSize(s.threads[t].held, f, size, next);
    SizeFits(s.d, s.threads[t].held, f, size, next);
    if size > s.d.files[f].size {
      ResizeKeepsSound(s, f, size);
      PopIsSound(s.(d := s1.d), s1, t, next);
    } else {
      PopIsSound(s, s1, t, next);
    }
  }
}

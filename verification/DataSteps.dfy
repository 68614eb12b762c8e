/** Instructions that change shared data. */
module DataSteps {
  import opened Basics
  import opened Collections
  import opened TicketLock
  import opened Programs
  import opened Discipline
  import opened Interleaving
  import opened RefCounts
  import opened QuietSteps

  // ---------- Other threads ----------

  /** What a change of the data must respect for a footprint to stay sound. */
  ghost predicate Respects(d: Data, d1: Data, held: Held, foot: Foot) {
    && (forall f :: f in foot.files ==>
                      && f in d.files && f in d1.files && d1.files[f].counted == d.files[f].counted
                      && |d.files[f].list| <= |d1.files[f].list|
                      && (Linked(d1, f) ==> Linked(d, f)))
    && (forall b :: b in foot.blocks ==> b in d1.blocks)
    && (forall b :: InLockedFile(d, held, b) ==> InLockedFile(d1, held, b))
    && (forall b :: b in foot.tested ==> Indexed(d1, b))
    && (forall b :: b in foot.dying ==> b in d1.blocks && d1.blocks[b].counter == 0 && !Indexed(d1, b))
    && (forall x :: x in foot.stores ==> x.0 in d.blocks && x.0 in d1.blocks && d1.blocks[x.0].counter == d.blocks[x.0].counter)
  }

  lemma RespectedStaysOk(d: Data, d1: Data, held: Held, foot: Foot)
    requires FootOk(d, held, foot) && Closed(foot) && Respects(d, d1, held, foot)
    ensures FootOk(d1, held, foot)
  {
    hide Linked, InLockedFile, Indexed;
    assert FilesReached(d1, foot);
    assert BlocksReached(d1, held, foot);
    assert UnlinkOk(d1, held, foot);
    assert ValuesOk(d1, foot);
  }

  /** The change respects every thread but t. */
  ghost predicate RespectsOthers(s: Sys, t: Tid, d1: Data) {
    forall u :: u in s.threads && u != t ==> Respects(s.d, d1, s.threads[u].held, FootOf(s.threads[u].prog))
  }

  /** Putting a move together. */
  lemma MoveIsSound(s: Sys, s1: Sys, t: Tid)
    requires Sound(s) && t in s.threads && t in s1.threads && s1.threads == s.threads[t := s1.threads[t]]
    requires BlocksOk(s1.d, References(s1)) && FilesOk(s1.d) && StolenApart(s1)
    requires ThreadOk(s1.d, s1.threads[t]) && RespectsOthers(s, t, s1.d)
    ensures Sound(s1)
  {
    hide BlocksOk, FilesOk, StolenApart, References, FootOk, Respects, FootOf;
    forall u | u in s.threads && u != t
      ensures ThreadOk(s1.d, s1.threads[u])
    {
      SoundThread(s, u);
      FootIsClosed(s.threads[u].prog);
      RespectedStaysOk(s.d, s1.d, s.threads[u].held, FootOf(s.threads[u].prog));
    }
  }

  /** While t holds the block index, nobody else is in the unlink phase. */
  lemma OthersDontUnlink(s: Sys, t: Tid, u: Tid)
    requires Sound(s) && LocksAgree(s) && t in s.threads && u in s.threads && u != t && BlockIndex in s.threads[t].held
    ensures FootOf(s.threads[u].prog).tested == {} && FootOf(s.threads[u].prog).dying == {} &&
            FootOf(s.threads[u].prog).stores == {}
    ensures Has(s.threads[t].held, BlockIndex, Write) ==> BlockIndex !in s.threads[u].held
  {
    hide LocksAgree, FootOf;
    SoundThread(s, u);
    FootIsClosed(s.threads[u].prog);
    if BlockIndex in s.threads[u].held {
      Exclusion(s, BlockIndex, t, u);
    }
  }

  /** What everyone needs when the block index is held by t: files, lists and blocks stay. */
  lemma GrowthRespects(d: Data, d1: Data, held: Held, foot: Foot)
    requires FootOk(d, held, foot) && foot.tested == {} && foot.dying == {} && foot.stores == {}
    requires d1.files == d.files && d1.fileIndex == d.fileIndex
    requires forall b :: b in d.blocks ==> b in d1.blocks
    ensures Respects(d, d1, held, foot)
  {
    assert forall f :: Linked(d1, f) <==> Linked(d, f);
    assert forall b :: InLockedFile(d1, held, b) <==> InLockedFile(d, held, b);
  }

  lemma GrowthRespectsOthers(s: Sys, t: Tid, d1: Data)
    requires Sound(s) && LocksAgree(s) && t in s.threads && BlockIndex in s.threads[t].held
    requires d1.files == s.d.files && d1.fileIndex == s.d.fileIndex
    requires forall b :: b in s.d.blocks ==> b in d1.blocks
    ensures RespectsOthers(s, t, d1)
  {
    hide FootOf, LocksAgree, Sound, FootOk, Respects;
    forall u | u in s.threads && u != t
      ensures Respects(s.d, d1, s.threads[u].held, FootOf(s.threads[u].prog))
    {
      OthersDontUnlink(s, t, u);
      SoundThread(s, u);
      GrowthRespects(s.d, d1, s.threads[u].held, FootOf(s.threads[u].prog));
    }
  }

  lemma SameFilesOk(d: Data, d1: Data)
    requires FilesOk(d) && d1.files == d.files && d1.fileIndex == d.fileIndex && d1.fids == d.fids
    ensures FilesOk(d1)
  {
  }

  // ---------- Counting a block ----------

  /** How the references change with what the mover accounts for itself. */
  lemma PendingChanges(s: Sys, s1: Sys, t: Tid, p: multiset<Ref>, p1: multiset<Ref>)
    requires t in s.threads && t in s1.threads && s1.threads == s.threads[t := s1.threads[t]] && s1.d.files == s.d.files
    requires FootOf(s.threads[t].prog).pending == p && FootOf(s1.threads[t].prog).pending == p1
    ensures References(s1) + p == References(s) + p1
  {
    hide FootOf, EntryMap, PendingMap;
    PendingMoves(s, s1, t);
    var e, a, a1 := Total(EntryMap(s.d.files)), Total(PendingMap(s.threads)), Total(PendingMap(s1.threads));
    assert a1 + p == a + p1;
    assert (e + a1) + p == e + (a1 + p) == e + (a + p1) == (e + a) + p1;
  }

  lemma PendingGrows(s: Sys, s1: Sys, t: Tid, f: Fid, off: nat, got: seq<Ref>, b: Ref)
    requires t in s.threads && t in s1.threads && s1.threads == s.threads[t := s1.threads[t]] && s1.d.files == s.d.files
    requires FootOf(s.threads[t].prog) == WriteFoot(f, off, got) && FootOf(s1.threads[t].prog) == WriteFoot(f, off, got + [b])
    ensures References(s1) == References(s) + multiset{b}
  {
    hide FootOf, References;
    var g := multiset(got);
    PendingChanges(s, s1, t, g, multiset(got + [b]));
    assert multiset(got + [b]) == multiset{b} + g;
    assert References(s) + (multiset{b} + g) == (References(s) + multiset{b}) + g;
    CancelRight(References(s1), References(s) + multiset{b}, g);
  }

  /** One more entry counted: for the thread itself. */
  lemma CountedIsOk(d: Data, d1: Data, held: Held, f: Fid, off: nat, got: seq<Ref>, b: Ref)
    requires FootOk(d, held, WriteFoot(f, off, got))
    requires d1.files == d.files && d1.fileIndex == d.fileIndex
    requires b in d1.blocks && forall x :: x in d.blocks ==> x in d1.blocks
    ensures FootOk(d1, held, WriteFoot(f, off, got + [b]))
  {
    var x, y := WriteFoot(f, off, got), WriteFoot(f, off, got + [b]);
    assert Linked(d1, f) <==> Linked(d, f);
    assert forall c :: c in got + [b] <==> c in got || c == b;
    assert forall c :: InLockedFile(d1, held, c) <==> InLockedFile(d, held, c);
    assert (f, off + 4096 * |got|) in x.sizes;
  }

  lemma WriterMoves(s: Sys, t: Tid, f: Fid, off: nat, got: seq<Ref>, b: Ref)
    ensures FootMoves(s, t, WriteFoot(f, off, got), WriteFoot(f, off, got + [b]))
  {
  }

  /** A write has counted b: one more reference, and b exists. */
  lemma CountIsSound(s: Sys, s1: Sys, t: Tid, f: Fid, off: nat, got: seq<Ref>, b: Ref)
    requires Sound(s) && LocksAgree(s) && t in s.threads && BlockIndex in s.threads[t].held
    requires t in s1.threads && s1.threads == s.threads[t := s1.threads[t]] && s1.threads[t].held == s.threads[t].held
    requires FootOf(s.threads[t].prog) == WriteFoot(f, off, got) && FootOf(s1.threads[t].prog) == WriteFoot(f, off, got + [b])
    requires s1.d.files == s.d.files && s1.d.fileIndex == s.d.fileIndex && s1.d.fids == s.d.fids
    requires b in s1.d.blocks && (forall x :: x in s.d.blocks ==> x in s1.d.blocks)
    requires BlocksOk(s1.d, References(s) + multiset{b})
    ensures Sound(s1)
  {
    hide FootOf, LocksAgree, Sound, FootOk, BlocksOk, FilesOk, References, StolenApart, FootMoves, RespectsOthers, WriteFoot;
    SoundThread(s, t);
    SoundFiles(s);
    PendingGrows(s, s1, t, f, off, got, b);
    CountedIsOk(s.d, s1.d, s.threads[t].held, f, off, got, b);
    WriterMoves(s, t, f, off, got, b);
    ApartIsKept(s, s1, t);
    GrowthRespectsOthers(s, t, s1.d);
    SameFilesOk(s.d, s1.d);
    MoveIsSound(s, s1, t);
  }

  lemma SoundBlocks(s: Sys)
    requires Sound(s)
    ensures BlocksOk(s.d, References(s))
  {
  }

  lemma BumpedBlocks(d: Data, refs: multiset<Ref>, b: Ref)
    requires BlocksOk(d, refs) && Indexed(d, b)
    ensures b in d.blocks && BlocksOk(SetCounter(d, b, 1), refs + multiset{b})
  {
  }

  lemma NewBlocks(d: Data, refs: multiset<Ref>, h: Hash)
    requires BlocksOk(d, refs) && h !in d.blockIndex
    ensures BlocksOk(NewBlock(d, h), refs + multiset{Ref(h, d.gens)})
  {
    var b := Ref(h, d.gens);
    assert b !in d.blocks && refs[b] == 0;
  }

  /** A write finds a block in the index and raises its counter, or creates it. */
  lemma WriteStepIsSound(s: Sys, s1: Sys, t: Tid, i: Instr, order: seq<Ref>)
    requires i.WCount? || i.WInsert?
    requires i.rest != [] && i.created <= Elements(i.got) && (i.WCount? ==> i.rest[0] in s.d.blockIndex)
    requires Defined(s.d, i) && s1.d == ExecData(s.d, i)
    requires t in s.threads && s.threads[t].prog == Do(i, Done) && BlockIndex in s.threads[t].held
    requires s1.threads == s.threads[t := s.threads[t].(prog := ExecProg(s.d, i, Done, order))]
    requires Sound(s) && LocksAgree(s)
    ensures Sound(s1)
  {
    hide FootOf, LocksAgree, Sound, BlocksOk, References, WriteFoot;
    var known, h := i.rest[0] in s.d.blockIndex, i.rest[0];
    var b := if known then s.d.blockIndex[h] else Ref(h, s.d.gens);
    FootOfOne(i);
    WriteInstrFoot(i.f, i.off, i.rest, i.got, i.created);
    var created := if known then i.created else i.created + {b};
    assert created <= Elements(i.got + [b]);
    WriteInstrFoot(i.f, i.off, i.rest[1..], i.got + [b], created);
    var j := WCount(i.f, i.off, i.rest[1..], i.got + [b], created);
    FootOfOne(j);
    CountFoot(j, Read);
    SoundBlocks(s);
    if known {
      IndexIsRight(s.d, References(s), h);
      BumpedBlocks(s.d, References(s), b);
    } else {
      NewBlocks(s.d, References(s), h);
    }
    CountIsSound(s, s1, t, i.f, i.off, i.got, b);
  }

  lemma IndexIsRight(d: Data, refs: multiset<Ref>, h: Hash)
    requires BlocksOk(d, refs) && h in d.blockIndex
    ensures Indexed(d, d.blockIndex[h]) && d.blockIndex[h] in d.blocks
  {
  }
}

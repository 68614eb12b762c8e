/** Reference counts under interleaving: as long as no unlink overtakes another operation, a block's
    counter is the number of entries that refer to it, and nothing that can still be reached
    has been freed. */
module RefCounts {
  import opened Basics
  import opened Collections
  import opened TicketLock
  import opened Programs
  import opened Discipline
  import opened Interleaving
  import opened Progress

  // ---------- Entries that refer to blocks ----------

  ghost function Entries(f: File): multiset<Ref> {
    if f.counted then multiset(f.list) else multiset{}
  }

  ghost function EntryMap(files: map<Fid, File>): map<Fid, multiset<Ref>> {
    map f | f in files :: Entries(files[f])
  }

  ghost function PendingMap(threads: map<Tid, Thread>): map<Tid, multiset<Ref>> {
    map t | t in threads :: FootOf(threads[t].prog).pending
  }

  /** All block list entries, of live files and of stolen ones not yet counted up, plus the entries
      that operations in progress account for themselves. */
  ghost function References(s: Sys): multiset<Ref> {
    Total(EntryMap(s.d.files)) + Total(PendingMap(s.threads))
  }

  // ---------- The invariant ----------

  ghost predicate Indexed(d: Data, b: Ref) {
    b.hash in d.blockIndex && d.blockIndex[b.hash] == b
  }

  /** Counters count, what is referred to is allocated and indexed, and ids of objects are fresh. */
  ghost predicate BlocksOk(d: Data, refs: multiset<Ref>) {
    && (forall h :: h in d.blockIndex ==> d.blockIndex[h].hash == h && d.blockIndex[h] in d.blocks)
    && (forall b :: b in d.blocks ==> b.gen < d.gens && d.blocks[b].counter == refs[b])
    && (forall b :: b in refs ==> b in d.blocks && Indexed(d, b))
  }

  ghost predicate FilesOk(d: Data) {
    && (forall p :: p in d.fileIndex ==>
                      && d.fileIndex[p] in d.files && d.files[d.fileIndex[p]].counted
                      && d.files[d.fileIndex[p]].id == p)
    && (forall p, q :: p in d.fileIndex && q in d.fileIndex && d.fileIndex[p] == d.fileIndex[q] ==> p == q)
    && (forall f :: f in d.files ==> f < d.fids && d.files[f].size <= 4096 * |d.files[f].list|)
  }

  ghost predicate Linked(d: Data, f: Fid) {
    exists p :: p in d.fileIndex && d.fileIndex[p] == f
  }

  /** b is in the list of a file whose lock is held. */
  ghost predicate InLockedFile(d: Data, held: Held, b: Ref) {
    exists f :: FileLock(f) in held && f in d.files && d.files[f].counted && b in d.files[f].list
  }

  /** Files a thread points to exist. Unless it has stolen the file and counted it up, the file is counted. */
  ghost predicate FilesReached(d: Data, foot: Foot) {
    forall f :: f in foot.files ==>
                  && f in d.files
                  && (if f in foot.stolen then !Linked(d, f) && (f in foot.tallies <==> d.files[f].counted)
                      else d.files[f].counted)
  }

  /** Blocks a thread points to exist, and something keeps them from being freed: an entry of its own,
      a file it has locked, or the block index held exclusively. */
  ghost predicate BlocksReached(d: Data, held: Held, foot: Foot) {
    forall b :: b in foot.blocks ==>
                  b in d.blocks && (b in foot.pending || InLockedFile(d, held, b) || Has(held, BlockIndex, Write))
  }

  /** The unlink phase runs with the block index held exclusively; blocks to test are indexed, blocks to
      free are neither indexed nor referred to. */
  ghost predicate UnlinkOk(d: Data, held: Held, foot: Foot) {
    && (foot.tested != {} || foot.dying != {} ==> Has(held, BlockIndex, Write))
    && (forall b :: b in foot.tested ==> Indexed(d, b))
    && (forall b :: b in foot.dying ==> b in d.blocks && d.blocks[b].counter == 0 && !Indexed(d, b))
  }

  /** The value an unlink has loaded is still the counter; a read's range lies inside its file; the size
      a write will set is covered by the list and the entries still to be appended. */
  ghost predicate ValuesOk(d: Data, foot: Foot) {
    && (forall x :: x in foot.stores ==> x.0 in d.blocks && x.1 == d.blocks[x.0].counter)
    && (forall x :: x in foot.ranges ==> x.0 in d.files && x.1 <= |d.files[x.0].list|)
    && (forall x :: x in foot.sizes ==> x.0 in d.files && x.1 <= 4096 * (|d.files[x.0].list| + |foot.pending|))
  }

  ghost predicate FootOk(d: Data, held: Held, foot: Foot) {
    FilesReached(d, foot) && BlocksReached(d, held, foot) && UnlinkOk(d, held, foot) && ValuesOk(d, foot)
  }

  ghost predicate ThreadOk(d: Data, th: Thread) {
    FootOk(d, th.held, FootOf(th.prog))
  }

  /** A file is stolen by at most one thread; once that thread has counted it up, nobody else points to it. */
  ghost predicate Apart(a: Thread, b: Thread) {
    var x, y := FootOf(a.prog), FootOf(b.prog);
    && x.stolen !! y.stolen
    && forall f :: f in x.stolen && f !in x.tallies ==> f !in y.files
  }

  ghost predicate StolenApart(s: Sys) {
    forall t, u :: t in s.threads && u in s.threads && t != u ==> Apart(s.threads[t], s.threads[u])
  }

  ghost predicate Sound(s: Sys) {
    && BlocksOk(s.d, References(s)) && FilesOk(s.d) && StolenApart(s)
    && (forall t :: t in s.threads ==> ThreadOk(s.d, s.threads[t]))
  }

  // ---------- What the invariant gives ----------

  /** No thread is about to touch a freed object. */
  lemma SoundIsDefined(s: Sys, t: Tid)
    requires Sound(s) && t in s.threads && s.threads[t].prog.Do?
    requires ThreadsAreDisciplined(s)
    ensures Defined(s.d, s.threads[t].prog.i)
  {
    var th := s.threads[t];
    assert ThreadOk(s.d, th) && Disciplined(th.held, th.prog);
    var i := th.prog.i;
    assert FootOf(th.prog) == Join(InstrFoot(i), FootOf(th.prog.next));
    if i.WAlloc? {
      assert forall b :: b in i.bs ==> b in InstrFoot(i).blocks;
    } else if i.RCollect? && i.start < i.end {
      assert (i.f, i.end) in InstrFoot(i).ranges;
    }
  }

  lemma SoundIsAllDefined(s: Sys)
    requires Sound(s) && ThreadsAreDisciplined(s)
    ensures AllDefined(s)
  {
    hide Sound, ThreadsAreDisciplined, Defined;
    forall t | t in s.threads
      ensures IsDefined(s, t)
    {
      if s.threads[t].prog.Do? { SoundIsDefined(s, t); }
    }
  }

  /** While every worker is between operations, the entries of the lists are all references. */
  lemma IdleIsSound(s: Sys)
    requires Idle(s) && FilesOk(s.d) && BlocksOk(s.d, Total(EntryMap(s.d.files)))
    ensures Sound(s)
  {
    NothingPending(PendingMap(s.threads));
    assert References(s) == Total(EntryMap(s.d.files));
  }

  lemma {:induction false} NothingPending(m: map<Tid, multiset<Ref>>)
    requires forall t :: t in m ==> m[t] == multiset{}
    ensures Total(m) == multiset{}
    decreases |m|
  {
    if m != map[] {
      var t :| t in m;
      TotalWithout(m, t);
      NothingPending(m - {t});
    }
  }

  // ---------- How the references move ----------

  lemma PendingMoves(s: Sys, s1: Sys, t: Tid)
    requires t in s.threads && t in s1.threads && s1.threads == s.threads[t := s1.threads[t]]
    ensures Total(PendingMap(s1.threads)) + FootOf(s.threads[t].prog).pending ==
            Total(PendingMap(s.threads)) + FootOf(s1.threads[t].prog).pending
  {
    var v := FootOf(s1.threads[t].prog).pending;
    assert PendingMap(s1.threads) == PendingMap(s.threads)[t := v];
    TotalUpdate(PendingMap(s.threads), t, v);
  }

  lemma EntriesMove(files: map<Fid, File>, f: Fid, file: File)
    requires f in files
    ensures Total(EntryMap(files[f := file])) + Entries(files[f]) == Total(EntryMap(files)) + Entries(file)
  {
    assert EntryMap(files[f := file]) == EntryMap(files)[f := Entries(file)];
    TotalUpdate(EntryMap(files), f, Entries(file));
  }

  lemma EntriesOfNewFile(files: map<Fid, File>, f: Fid, path: Path)
    requires f !in files
    ensures Total(EntryMap(files[f := File(path, [], 0, true)])) == Total(EntryMap(files))
  {
    assert EntryMap(files[f := File(path, [], 0, true)]) == EntryMap(files)[f := multiset{}];
    TotalInsert(EntryMap(files), f, multiset{});
  }

  lemma EntriesOfFreedFile(files: map<Fid, File>, f: Fid)
    requires f in files && !files[f].counted
    ensures Total(EntryMap(files - {f})) == Total(EntryMap(files))
  {
    assert EntryMap(files - {f}) == EntryMap(files) - {f};
    TotalWithout(EntryMap(files), f);
  }

  /** An entry of a counted file is a reference. */
  lemma EntriesAreReferences(s: Sys, f: Fid)
    requires f in s.d.files
    ensures Entries(s.d.files[f]) <= References(s)
  {
    TotalWithout(EntryMap(s.d.files), f);
  }

  lemma PendingIsReferences(s: Sys, t: Tid)
    requires t in s.threads
    ensures FootOf(s.threads[t].prog).pending <= References(s)
  {
    TotalWithout(PendingMap(s.threads), t);
  }

  // ---------- Moves that leave the shared data alone ----------

  /** What a program stole, will count up or will read from it points to; what it will test or free it touches. */
  ghost predicate Closed(foot: Foot) {
    && foot.stolen <= foot.files && foot.tallies <= foot.files
    && foot.tested <= foot.blocks && foot.dying <= foot.blocks
    && (forall x :: x in foot.ranges ==> x.0 in foot.files)
    && (forall x :: x in foot.sizes ==> x.0 in foot.files)
    && (forall x :: x in foot.stores ==> x.0 in foot.tested)
  }

  lemma {:induction false} FootIsClosed(p: Prog)
    ensures Closed(FootOf(p))
  {
    if p.Do? {
      FootIsClosed(p.next);
      InstrFootIsClosed(p.i);
    }
  }

  lemma InstrFootIsClosed(i: Instr)
    ensures Closed(InstrFoot(i))
  {
  }

  /** A thread may go on to point to files in the index or to a new one, and to count up a file it stole once nobody else
      points to it. */
  ghost predicate FootMoves(s: Sys, t: Tid, a: Foot, b: Foot) {
    && b.stolen <= a.stolen
    && (forall f :: f in b.files ==> f in a.files || Linked(s.d, f) || f !in s.d.files)
    && (forall f :: f in b.stolen && f !in b.tallies ==> f !in a.tallies || NobodyElse(s, t, f))
  }

  ghost predicate NobodyElse(s: Sys, t: Tid, f: Fid) {
    forall u :: u in s.threads && u != t ==> f !in FootOf(s.threads[u].prog).files
  }

  lemma ApartIsKept(s: Sys, s1: Sys, t: Tid)
    requires Sound(s) && t in s.threads && t in s1.threads && s1.threads == s.threads[t := s1.threads[t]]
    requires FootMoves(s, t, FootOf(s.threads[t].prog), FootOf(s1.threads[t].prog))
    ensures StolenApart(s1)
  {
    forall u | u in s.threads && u != t
      ensures Apart(s1.threads[t], s.threads[u]) && Apart(s.threads[u], s1.threads[t])
    {
      assert ThreadOk(s.d, s.threads[u]) && Apart(s.threads[t], s.threads[u]) && Apart(s.threads[u], s.threads[t]);
      FootIsClosed(s.threads[u].prog);
    }
  }

  lemma SameReferences(s: Sys, s1: Sys, t: Tid)
    requires t in s.threads && t in s1.threads && s1.threads == s.threads[t := s1.threads[t]] && s1.d.files == s.d.files
    requires FootOf(s1.threads[t].prog).pending == FootOf(s.threads[t].prog).pending
    ensures References(s1) == References(s)
  {
    hide FootOf, EntryMap;
    PendingMoves(s, s1, t);
    hide PendingMap;
    CancelRight(Total(PendingMap(s1.threads)), Total(PendingMap(s.threads)), FootOf(s.threads[t].prog).pending);
  }

  /** The shared data stays, the mover's own contribution to the counters stays. */
  lemma QuietMoveIsSound(s: Sys, s1: Sys, t: Tid)
    requires Sound(s) && t in s.threads && t in s1.threads && s1.threads == s.threads[t := s1.threads[t]]
    requires s1.d == s.d && FootOf(s1.threads[t].prog).pending == FootOf(s.threads[t].prog).pending
    requires ThreadOk(s.d, s1.threads[t])
    requires FootMoves(s, t, FootOf(s.threads[t].prog), FootOf(s1.threads[t].prog))
    ensures Sound(s1)
  {
    ApartIsKept(s, s1, t);
    SameReferences(s, s1, t);
    hide BlocksOk, FilesOk, ThreadOk, References, StolenApart, FootMoves, FootOf;
  }

  /** Starting an operation: its first program points to nothing yet. */
  lemma CodePointsNowhere(op: Op)
    ensures FootOf(Code(op)) == NOTHING
  {
    hide FootOf;
    var p := Code(op);
    JoinNothing(NOTHING);
    if p.Do? {
      FootOfOne(p.next.i);
      FootOfMore(p.i, p.next);
    } else {
      FootOfDone();
    }
  }

  lemma SoundThread(s: Sys, t: Tid)
    requires Sound(s) && t in s.threads
    ensures ThreadOk(s.d, s.threads[t])
  {
  }

  lemma BeginIsSound(s: Sys, t: Tid)
    requires Sound(s) && CanMove(s, Begin(t))
    ensures Sound(Moved(s, Begin(t)))
  {
    CodePointsNowhere(s.threads[t].todo[0]);
    assert FootOf(Done) == NOTHING;
    hide Code, Sound;
    QuietMoveIsSound(s, Moved(s, Begin(t)), t);
  }

  /** A lock call that goes to sleep, or a wait that returns for no reason. */
  lemma WaitIsSound(s: Sys, v: Move)
    requires Sound(s) && CanMove(s, v) && Moved(s, v).threads[v.t] == s.threads[v.t] && Moved(s, v).d == s.d
    ensures Sound(Moved(s, v))
  {
    OthersStay(s, v);
    assert ThreadOk(s.d, s.threads[v.t]);
    hide Moved, CanMove, Sound, ThreadOk;
    QuietMoveIsSound(s, Moved(s, v), v.t);
  }

  /** b is what is left of a after an instruction that keeps the thread's own entries. */
  ghost predicate LeftOver(a: Foot, b: Foot) {
    && b.files <= a.files && b.blocks <= a.blocks && b.pending == a.pending
    && b.tested <= a.tested && b.dying <= a.dying && b.stolen == a.stolen
    && b.ranges <= a.ranges && b.stores <= a.stores && b.sizes <= a.sizes && b.tallies == a.tallies
  }

  lemma LeftOverIsOk(d: Data, held: Held, a: Foot, held1: Held, b: Foot)
    requires FootOk(d, held, a) && LeftOver(a, b)
    requires forall l, m :: Has(held, l, m) ==> Has(held1, l, m)
    ensures FootOk(d, held1, b)
  {
    assert FilesReached(d, b);
    assert BlocksReached(d, held1, b) by {
      forall x | InLockedFile(d, held, x)
        ensures InLockedFile(d, held1, x)
      {
        var f :| FileLock(f) in held && f in d.files && d.files[f].counted && x in d.files[f].list;
        assert Has(held, FileLock(f), held[FileLock(f)]);
      }
    }
    assert UnlinkOk(d, held1, b) && ValuesOk(d, b);
  }

  lemma AcqFoot(l: LockId, m: Mode, next: Prog)
    ensures LeftOver(FootOf(Do(Acq(l, m), next)), FootOf(next))
  {
    assert FootOf(Do(Acq(l, m), next)) == Join(InstrFoot(Acq(l, m)), FootOf(next));
  }

  lemma RelFoot(l: LockId, next: Prog)
    ensures LeftOver(FootOf(Do(Rel(l), next)), FootOf(next))
  {
    assert FootOf(Do(Rel(l), next)) == Join(InstrFoot(Rel(l)), FootOf(next));
  }

  lemma LeftOverMoves(s: Sys, t: Tid, a: Foot, b: Foot)
    requires LeftOver(a, b)
    ensures FootMoves(s, t, a, b) && b.pending == a.pending
  {
  }

  /** A lock call that went through. */
  lemma EnterIsSound(s: Sys, s1: Sys, t: Tid, l: LockId, m: Mode, next: Prog)
    requires Sound(s) && t in s.threads && s.threads[t].prog == Do(Acq(l, m), next) && l !in s.threads[t].held
    requires s1.d == s.d && s1.threads == s.threads[t := Entered(s.threads[t])]
    ensures Sound(s1)
  {
    SoundThread(s, t);
    hide Sound, FootOf, FootOk, FootMoves, LeftOver;
    var th := s.threads[t];
    AcqFoot(l, m, next);
    LeftOverMoves(s, t, FootOf(th.prog), FootOf(next));
    LeftOverIsOk(s.d, th.held, FootOf(th.prog), th.held[l := m], FootOf(next));
    QuietMoveIsSound(s, s1, t);
  }

  lemma ReleasedIsOk(d: Data, held: Held, l: LockId, next: Prog)
    requires FootOk(d, held, FootOf(Do(Rel(l), next))) && Settled(held, l, next)
    ensures FootOk(d, held - {l}, FootOf(next))
  {
    RelFoot(l, next);
    hide FootOf;
    var a, b, held1 := FootOf(Do(Rel(l), next)), FootOf(next), held - {l};
    assert FilesReached(d, b);
    assert UnlinkOk(d, held1, b) && ValuesOk(d, b);
    forall x | x in b.blocks
      ensures x in d.blocks && (x in b.pending || InLockedFile(d, held1, x) || Has(held1, BlockIndex, Write))
    {
      assert x in a.blocks;
      if InLockedFile(d, held, x) {
        var f :| FileLock(f) in held && f in d.files && d.files[f].counted && x in d.files[f].list;
        assert FileLock(f) in held1;
      }
    }
  }

  lemma ReleaseIsSound(s: Sys, s1: Sys, t: Tid, l: LockId, next: Prog)
    requires Sound(s) && t in s.threads && s.threads[t].prog == Do(Rel(l), next) && Settled(s.threads[t].held, l, next)
    requires s1.d == s.d && s1.threads == s.threads[t := s.threads[t].(held := s.threads[t].held - {l}, prog := next)]
    ensures Sound(s1)
  {
    SoundThread(s, t);
    hide Sound, FootOf, FootOk, FootMoves, LeftOver, Settled;
    var th := s.threads[t];
    ReleasedIsOk(s.d, th.held, l, next);
    RelFoot(l, next);
    LeftOverMoves(s, t, FootOf(th.prog), FootOf(next));
    QuietMoveIsSound(s, s1, t);
  }

  lemma SettledNext(held: Held, p: Prog)
    requires Disciplined(held, p) && p.Do? && p.i.Rel?
    ensures p == Do(Rel(p.i.l), p.next) && Settled(held, p.i.l, p.next)
  {
  }

  /** Every move that is not an access to shared data. */
  lemma LockMoveIsSound(s: Sys, v: Move)
    requires Sound(s) && ThreadsAreDisciplined(s) && CanMove(s, v) && !v.Exec?
    ensures Sound(Moved(s, v))
  {
    var th := s.threads[v.t];
    assert Disciplined(th.held, th.prog);
    OthersStay(s, v);
    hide Sound, Disciplined, Next;
    match v
    case Begin(t) => BeginIsSound(s, t);
    case Acquire(t) =>
      NextInstr(th.held, th.prog);
      TakeIsSound(s, v);
    case Retry(t) =>
      NextInstr(th.held, th.prog);
      TakeIsSound(s, v);
    case Release(t) =>
      SettledNext(th.held, th.prog);
      ReleaseIsSound(s, Moved(s, v), t, th.prog.i.l, th.prog.next);
    case Spurious(t) => WaitIsSound(s, v);
  }

  lemma TakeIsSound(s: Sys, v: Move)
    requires Sound(s) && CanMove(s, v) && (v.Acquire? || v.Retry?) && s.threads[v.t].prog.i.l !in s.threads[v.t].held
    ensures Sound(Moved(s, v))
  {
    var th := s.threads[v.t];
    OthersStay(s, v);
    hide Sound, Next;
    if Moved(s, v).threads[v.t] == Entered(th) {
      EnterIsSound(s, Moved(s, v), v.t, th.prog.i.l, th.prog.i.m, th.prog.next);
    } else {
      WaitIsSound(s, v);
    }
  }
}

/** The lock discipline that every program of an operation keeps from its first instruction to its last. */
module Discipline {
  import opened Basics
  import opened Collections
  import opened TicketLock
  import opened Programs

  type Held = map<LockId, Mode>

  // ---------- What a program still refers to ----------

  /** The footprint of the rest of a program.
      blocks, files: the objects it will touch.
      pending: what the thread itself contributes to the counters, that is, entries a write has counted
      but not yet appended, and entries of a stolen file that an unlink has not yet taken off.
      tested, dying: blocks an unlink still has to test, and those it still has to free.
      stolen: the file an unlink has taken out of the index and has to free.
      tallies: stolen files whose entries have still to be counted up.
      ranges: how far into the list of which file a read will go.
      stores: counter values an unlink has loaded and will write back, less what it takes off.
      sizes: the size a write will give to its file once all its pending entries are in the list. */
  datatype Foot = Foot(
    blocks: set<Ref>, files: set<Fid>, pending: multiset<Ref>,
    tested: set<Ref>, dying: set<Ref>, stolen: set<Fid>, tallies: set<Fid>,
    ranges: set<(Fid, nat)>, stores: set<(Ref, int)>, sizes: set<(Fid, nat)>)

  const NOTHING := Foot({}, {}, multiset{}, {}, {}, {}, {}, {}, {}, {})

  function Join(a: Foot, b: Foot): Foot {
    Foot(a.blocks + b.blocks, a.files + b.files, a.pending + b.pending,
         a.tested + b.tested, a.dying + b.dying, a.stolen + b.stolen, a.tallies + b.tallies,
         a.ranges + b.ranges, a.stores + b.stores, a.sizes + b.sizes)
  }

  ghost function FootOf(p: Prog): Foot {
    match p
    case Done => NOTHING
    case Do(i, next) => Join(InstrFoot(i), FootOf(next))
  }

  ghost function InstrFoot(i: Instr): Foot {
    match i
    case Acq(FileLock(f), _) => NOTHING.(files := {f})
    case Rel(FileLock(f)) => NOTHING.(files := {f})
    case Acq(BlockLock(b), _) => NOTHING.(blocks := {b})
    case Rel(BlockLock(b)) => NOTHING.(blocks := {b})
    case GStat(f) => NOTHING.(files := {f})
    case RRange(f, _, _) => NOTHING.(files := {f})
    case RCollect(f, start, end) => NOTHING.(files := {f}, ranges := if start < end then {(f, end)} else {})
    case RPread(b) => NOTHING.(blocks := {b})
    case WCheck(f, _, _) => NOTHING.(files := {f})
    case WCount(f, off, _, got, created) =>
      NOTHING.(files := {f}, blocks := Elements(got) + created, pending := multiset(got), sizes := {(f, off + 4096 * |got|)})
    case WInsert(f, off, _, got, created) =>
      NOTHING.(files := {f}, blocks := Elements(got) + created, pending := multiset(got), sizes := {(f, off + 4096 * |got|)})
    case WAlloc(bs) => NOTHING.(blocks := Elements(bs))
    case WAppend(f, b) => NOTHING.(files := {f}, blocks := {b}, pending := multiset{b})
    case WSize(f, size) => NOTHING.(files := {f}, sizes := {(f, size)})
    case UTally(f) => NOTHING.(files := {f}, stolen := {f}, tallies := {f})
    case ULoad(b, n) => NOTHING.(blocks := {b}, tested := {b}, pending := multiset{}[b := n])
    case UStore(b, v, n) =>
      NOTHING.(blocks := {b}, tested := {b}, pending := multiset{}[b := n], stores := {(b, v)})
    case UTest(b) => NOTHING.(blocks := {b}, tested := {b})
    case UFree(b) => NOTHING.(blocks := {b}, dying := {b})
    case UFreeBlock(b) => NOTHING.(blocks := {b}, dying := {b})
    case UFreeFile(f) => NOTHING.(files := {f}, stolen := {f})
    case _ => NOTHING
  }

  ghost function BlockRefs(p: Prog): set<Ref> {
    FootOf(p).blocks
  }

  lemma JoinNothing(a: Foot)
    ensures Join(NOTHING, a) == a == Join(a, NOTHING)
  {
  }

  lemma JoinAssociates(a: Foot, b: Foot, c: Foot)
    ensures Join(Join(a, b), c) == Join(a, Join(b, c))
  {
  }

  // ---------- What a program is after ----------

  /** What an instruction is after: a path to write to, a path to unlink, a file to check before writing, a
      new block to find an offset for, a dead block whose offset to return. */
  datatype Aim = Create(path: Path) | Remove(path: Path) | Check(f: Fid) | Place(b: Ref) | GiveBack(b: Ref)

  ghost function Places(bs: set<Ref>): set<Aim> {
    set b | b in bs :: Place(b)
  }

  ghost function AimsOf(i: Instr): set<Aim> {
    match i
    case WLookup(path, _, _) => {Create(path)}
    case WCreate(path, _, _) => {Create(path)}
    case WCheck(f, _, _) => {Check(f)}
    case WCount(_, _, _, _, created) => Places(created)
    case WInsert(_, _, _, _, created) => Places(created)
    case WAlloc(bs) => Places(Elements(bs))
    case ULookup(path) => {Remove(path)}
    case UFree(b) => {GiveBack(b)}
    case _ => {}
  }

  ghost function Aims(p: Prog): set<Aim> {
    match p
    case Done => {}
    case Do(i, next) => AimsOf(i) + Aims(next)
  }

  /** Locks in front change no aims. */
  lemma LockAims(i: Instr, p: Prog)
    requires AimsOf(i) == {}
    ensures Aims(Do(i, p)) == Aims(p)
  {
  }

  lemma AimsOfDone()
    ensures Aims(Done) == {}
  {
  }

  lemma {:induction false} LockAllAims(bs: seq<Ref>, m: Mode, next: Prog)
    ensures Aims(LockAll(bs, m, next)) == Aims(next)
  {
    if bs != [] { LockAllAims(bs[1..], m, next); }
  }

  lemma {:induction false} UnlockAllAims(bs: seq<Ref>, next: Prog)
    ensures Aims(UnlockAll(bs, next)) == Aims(next)
  {
    if bs != [] { UnlockAllAims(bs[1..], next); }
  }

  lemma {:induction false} PreadAllAims(bs: seq<Ref>, next: Prog)
    ensures Aims(PreadAll(bs, next)) == Aims(next)
  {
    if bs != [] { PreadAllAims(bs[1..], next); }
  }

  lemma {:induction false} AppendAllAims(f: Fid, bs: seq<Ref>, next: Prog)
    ensures Aims(AppendAll(f, bs, next)) == Aims(next)
  {
    if bs != [] { AppendAllAims(f, bs[1..], next); }
  }

  lemma {:induction false} TallyAllAims(order: seq<Ref>, list: seq<Ref>, next: Prog)
    ensures Aims(TallyAll(order, list, next)) == Aims(next)
  {
    if order != [] {
      TallyAllAims(order[1..], list, next);
      var p := Do(UTest(order[0]), TallyAll(order[1..], list, next));
      assert Aims(Do(ULoad(order[0], multiset(list)[order[0]]), p)) == Aims(p);
    }
  }

  // ---------- The discipline ----------

  ghost predicate Above(held: Held, l: LockId) {
    forall x :: x in held ==> Below(x, l)
  }

  /** A thread that holds `held` and has p left to do takes locks in ascending order, releases what it
      holds, ends with nothing held, and has the locks each instruction relies on. */
  ghost predicate Disciplined(held: Held, p: Prog)
    decreases p
  {
    match p
    case Done => held == map[]
    case Do(i, next) => Allowed(held, i, next) && Disciplined(HeldAfter(held, i), next)
  }

  /** The locks held after i. An instruction that computes the whole rest of its program has no
      successor in it, so nothing is left to be held. */
  ghost function HeldAfter(held: Held, i: Instr): Held {
    match i
    case Acq(l, m) => held[l := m]
    case Rel(l) => held - {l}
    case UTest(b) => held - {BlockLock(b)}
    case _ => if Branches(i) then map[] else held
  }

  predicate Branches(i: Instr) {
    || i.GLookup? || i.RLookup? || i.RRange? || i.RCollect? || i.WLookup? || i.WCreate? || i.WCheck?
    || i.WCount? || i.WInsert? || i.ULookup? || i.UTally?
  }

  /** The locks the rest of a program needs at an instruction that computes it. */
  ghost function Needs(i: Instr): Held
    requires Branches(i)
  {
    match i
    case GLookup(_) => map[FileIndex := Read]
    case RLookup(_, _, _) => map[FileIndex := Read]
    case RRange(f, _, _) => map[FileLock(f) := Read]
    case RCollect(f, _, _) => map[FileLock(f) := Read, BlockIndex := Read]
    case WLookup(_, _, _) => map[FileIndex := Read]
    case WCreate(_, _, _) => map[FileIndex := Write]
    case WCheck(f, _, _) => map[FileIndex := Read, FileLock(f) := Write]
    case WCount(f, _, _, _, _) => Writing(f, Read)
    case WInsert(f, _, _, _, _) => Writing(f, Write)
    case ULookup(_) => map[FileIndex := Write]
    case UTally(f) => map[FileLock(f) := Write, BlockIndex := Write]
  }

  ghost predicate Allowed(held: Held, i: Instr, next: Prog) {
    if Branches(i) then
      && next == Done && held == Needs(i)
      && (i.WCount? ==> i.created <= Elements(i.got))
      && (i.WInsert? ==> i.created <= Elements(i.got) && i.rest != [])
    else
      match i
      case Acq(l, m) =>
        && Above(held, l) && (IsMutex(l) ==> m == Write)
        && (l.FileLock? && l.f in FootOf(next).stolen ==> m == Write)
        && (l == FileIndex ==> FootOf(next).stolen == {})
      case Rel(l) => l in held && Settled(held, l, next)
      case GStat(f) => FileLock(f) in held
      case WAlloc(bs) =>
        && (forall b :: b in bs ==> Has(held, BlockLock(b), Write) && b in FootOf(next).pending && Place(b) !in Aims(next))
        && (forall j, k :: 0 <= j < k < |bs| ==> bs[j] != bs[k]) && FreeList in held && NextOffset in held
      case WAppend(f, _) => Has(held, FileLock(f), Write) && OnlyWrites(FootOf(next), f)
      case WSize(f, _) => Has(held, FileLock(f), Write) && FootOf(next).pending == multiset{} && FootOf(next).stolen == {}
      case ULoad(b, _) =>
        && Has(held, BlockIndex, Write) && Has(held, BlockLock(b), Write) && Plain(FootOf(next))
        && b in FootOf(next).tested
      case UStore(b, _, _) =>
        && Has(held, BlockIndex, Write) && Has(held, BlockLock(b), Write) && Plain(FootOf(next))
        && b in FootOf(next).tested
      case UTest(b) =>
        && Has(held, BlockIndex, Write) && Has(held, BlockLock(b), Write) && Above(held, FreeList)
        && b !in BlockRefs(next)
      case UFree(b) =>
        && Has(held, BlockIndex, Write) && Has(held, BlockLock(b), Write) && FreeList in held
        && b in FootOf(next).dying && GiveBack(b) !in Aims(next)
      case UFreeBlock(b) => Has(held, BlockIndex, Write) && b !in BlockRefs(next)
      case UFreeFile(f) => next == Done && held == map[]
      case _ => true
  }

  ghost predicate Has(held: Held, l: LockId, m: Mode) {
    l in held && held[l] == m
  }

  /** Nothing stolen, and no size to set but that of f. */
  ghost predicate OnlyWrites(foot: Foot, f: Fid) {
    foot.stolen == {} && forall x :: x in foot.sizes ==> x.0 == f
  }

  /** No counter value loaded, no size to set. */
  ghost predicate Plain(foot: Foot) {
    foot.stores == {} && foot.sizes == {}
  }

  /** The locks a write holds while it counts its blocks. */
  ghost function Writing(f: Fid, m: Mode): Held {
    map[FileIndex := Read, FileLock(f) := Write, BlockIndex := m]
  }

  /** The thread points to f without any lock, between the two holds of the file index of a write that
      may have created f. */
  predicate InWindow(p: Prog, f: Fid) {
    p.Do? && p.i == Acq(FileIndex, Read) && AboutToCheck(p.next, f)
  }

  /** A write that is going to lock f and to check its position. */
  predicate AboutToCheck(p: Prog, f: Fid) {
    p.Do? && p.i == Acq(FileLock(f), Write) && p.next.Do? && p.next.i.WCheck? && p.next.i.f == f && p.next.next == Done
  }

  /** After the release of the file index, files are stolen or locked, except in the window of a write. After
      the release of a file lock no block is touched any more, and no file but a stolen one; after the
      release of an exclusively held index, only blocks that the thread itself keeps alive, none to free. */
  ghost predicate Settled(held: Held, l: LockId, next: Prog) {
    var foot := FootOf(next);
    && (l == FileIndex ==> forall f <- foot.files :: f in foot.stolen || FileLock(f) in held || InWindow(next, f))
    && (l.FileLock? ==> foot.blocks == {} && foot.files <= foot.stolen)
    && (l == BlockIndex && Has(held, l, Write) ==>
          foot.tested == {} && foot.dying == {} && forall b :: b in foot.blocks ==> b in foot.pending)
  }

  // ---------- Program fragments keep it ----------

  ghost function WithBlocks(held: Held, s: set<Ref>, m: Mode): Held {
    held + map b | b in s :: BlockLock(b) := m
  }

  lemma DoIsDisciplined(held: Held, i: Instr, next: Prog, after: Held)
    requires Allowed(held, i, next) && after == HeldAfter(held, i) && Disciplined(after, next)
    ensures Disciplined(held, Do(i, next))
  {
  }

  lemma AcqIsDisciplined(held: Held, l: LockId, m: Mode, next: Prog)
    requires Above(held, l) && !IsMutex(l) && Disciplined(held[l := m], next)
    requires l == FileIndex || (l.FileLock? && m == Read) ==> FootOf(next).stolen == {}
    ensures Disciplined(held, Do(Acq(l, m), next))
  {
    DoIsDisciplined(held, Acq(l, m), next, held[l := m]);
  }

  lemma RelIsDisciplined(held: Held, l: LockId, next: Prog, after: Held)
    requires l in held && Settled(held, l, next) && after == held - {l} && Disciplined(after, next)
    ensures Disciplined(held, Do(Rel(l), next))
  {
    DoIsDisciplined(held, Rel(l), next, after);
  }

  lemma AboveOneMore(held: Held, a: Ref, b: Ref, m: Mode)
    requires Above(held, BlockLock(b)) && a.hash < b.hash
    ensures Above(held[BlockLock(a) := m], BlockLock(b))
  {
  }

  /** One more block lock, on top of a set of them or before it. */
  lemma WithOneMore(held: Held, b: Ref, s: set<Ref>, m: Mode)
    ensures WithBlocks(held, {b} + s, m) == WithBlocks(held[BlockLock(b) := m], s, m)
    ensures BlockLock(b) in WithBlocks(held, {b} + s, m)
  {
  }

  lemma WithOneLess(held: Held, b: Ref, s: set<Ref>, m: Mode)
    requires b !in s && BlockLock(b) !in held
    ensures WithBlocks(held, {b} + s, m) - {BlockLock(b)} == WithBlocks(held, s, m)
  {
  }

  lemma HeadAndTail(bs: seq<Ref>)
    requires bs != []
    ensures Elements(bs) == {bs[0]} + Elements(bs[1..])
  {
  }

  lemma {:induction false} LockAllIsDisciplined(held: Held, bs: seq<Ref>, m: Mode, next: Prog)
    requires AscendingRefs(bs) && (forall b :: b in bs ==> Above(held, BlockLock(b)))
    requires Disciplined(WithBlocks(held, Elements(bs), m), next)
    ensures Disciplined(held, LockAll(bs, m, next))
    decreases |bs|
  {
    hide Disciplined;
    if bs == [] {
      assert WithBlocks(held, Elements(bs), m) == held;
    } else {
      hide WithBlocks, Elements, Above;
      var held1 := held[BlockLock(bs[0]) := m];
      HeadAndTail(bs);
      WithOneMore(held, bs[0], Elements(bs[1..]), m);
      forall b | b in bs[1..]
        ensures Above(held1, BlockLock(b))
      {
        AboveOneMore(held, bs[0], b, m);
      }
      LockAllIsDisciplined(held1, bs[1..], m, next);
      AcqIsDisciplined(held, BlockLock(bs[0]), m, LockAll(bs[1..], m, next));
    }
  }

  lemma {:induction false} UnlockAllIsDisciplined(base: Held, bs: seq<Ref>, m: Mode, next: Prog)
    requires forall i, j :: 0 <= i < j < |bs| ==> bs[i] != bs[j]
    requires forall b :: b in bs ==> BlockLock(b) !in base
    requires Disciplined(base, next)
    ensures Disciplined(WithBlocks(base, Elements(bs), m), UnlockAll(bs, next))
  {
    hide Disciplined;
    if bs == [] {
      assert WithBlocks(base, Elements(bs), m) == base;
    } else {
      hide WithBlocks;
      HeadAndTail(bs);
      assert bs[0] !in bs[1..];
      WithOneMore(base, bs[0], Elements(bs[1..]), m);
      WithOneLess(base, bs[0], Elements(bs[1..]), m);
      UnlockAllIsDisciplined(base, bs[1..], m, next);
      RelIsDisciplined(WithBlocks(base, Elements(bs), m), BlockLock(bs[0]), UnlockAll(bs[1..], next),
                       WithBlocks(base, Elements(bs[1..]), m));
    }
  }

  lemma {:induction false} PreadAllIsDisciplined(held: Held, bs: seq<Ref>, next: Prog)
    requires Disciplined(held, next)
    ensures Disciplined(held, PreadAll(bs, next))
  {
    if bs != [] {
      PreadAllIsDisciplined(held, bs[1..], next);
    }
  }

  lemma AppendOnlyWrites(f: Fid, b: Ref, p: Prog)
    requires OnlyWrites(FootOf(p), f)
    ensures OnlyWrites(FootOf(Do(WAppend(f, b), p)), f)
  {
  }

  lemma AppendIsDisciplined(held: Held, f: Fid, b: Ref, next: Prog)
    requires Has(held, FileLock(f), Write) && Disciplined(held, next) && OnlyWrites(FootOf(next), f)
    ensures Disciplined(held, Do(WAppend(f, b), next))
  {
    hide FootOf, Has, OnlyWrites;
  }

  lemma {:induction false} AppendAllIsDisciplined(held: Held, f: Fid, bs: seq<Ref>, next: Prog)
    requires Has(held, FileLock(f), Write) && Disciplined(held, next) && OnlyWrites(FootOf(next), f)
    ensures Disciplined(held, AppendAll(f, bs, next)) && OnlyWrites(FootOf(AppendAll(f, bs, next)), f)
  {
    if bs != [] {
      hide Disciplined, FootOf, Has, OnlyWrites;
      AppendAllIsDisciplined(held, f, bs[1..], next);
      var p := AppendAll(f, bs[1..], next);
      AppendOnlyWrites(f, bs[0], p);
      AppendIsDisciplined(held, f, bs[0], p);
    }
  }

  // ---------- Footprints of fragments ----------

  lemma FootCons(i: Instr, p: Prog, x: Foot, next: Prog, y: Foot)
    requires FootOf(p) == Join(x, FootOf(next)) && y == Join(InstrFoot(i), x)
    ensures FootOf(Do(i, p)) == Join(y, FootOf(next))
  {
    hide InstrFoot;
    JoinAssociates(InstrFoot(i), x, FootOf(next));
  }

  ghost function BlocksFoot(bs: seq<Ref>): Foot {
    NOTHING.(blocks := Elements(bs))
  }

  lemma BlockInstrFoot(b: Ref, m: Mode)
    ensures InstrFoot(Acq(BlockLock(b), m)) == InstrFoot(Rel(BlockLock(b))) == InstrFoot(RPread(b)) == NOTHING.(blocks := {b})
  {
  }

  lemma BlocksFootSplits(bs: seq<Ref>)
    ensures BlocksFoot([]) == NOTHING
    ensures bs != [] ==> BlocksFoot(bs) == Join(NOTHING.(blocks := {bs[0]}), BlocksFoot(bs[1..]))
  {
    if bs != [] { HeadAndTail(bs); }
  }

  lemma {:induction false} LockAllFoot(bs: seq<Ref>, m: Mode, next: Prog)
    ensures FootOf(LockAll(bs, m, next)) == Join(BlocksFoot(bs), FootOf(next))
  {
    BlocksFootSplits(bs);
    if bs == [] {
      JoinNothing(FootOf(next));
    } else {
      LockAllFoot(bs[1..], m, next);
      BlockInstrFoot(bs[0], m);
      hide FootOf, Join, BlocksFoot, InstrFoot;
      FootCons(Acq(BlockLock(bs[0]), m), LockAll(bs[1..], m, next), BlocksFoot(bs[1..]), next, BlocksFoot(bs));
    }
  }

  lemma {:induction false} UnlockAllFoot(bs: seq<Ref>, next: Prog)
    ensures FootOf(UnlockAll(bs, next)) == Join(BlocksFoot(bs), FootOf(next))
  {
    BlocksFootSplits(bs);
    if bs == [] {
      JoinNothing(FootOf(next));
    } else {
      UnlockAllFoot(bs[1..], next);
      BlockInstrFoot(bs[0], Read);
      hide FootOf, Join, BlocksFoot, InstrFoot;
      FootCons(Rel(BlockLock(bs[0])), UnlockAll(bs[1..], next), BlocksFoot(bs[1..]), next, BlocksFoot(bs));
    }
  }

  lemma {:induction false} PreadAllFoot(bs: seq<Ref>, next: Prog)
    ensures FootOf(PreadAll(bs, next)) == Join(BlocksFoot(bs), FootOf(next))
  {
    BlocksFootSplits(bs);
    if bs == [] {
      JoinNothing(FootOf(next));
    } else {
      PreadAllFoot(bs[1..], next);
      BlockInstrFoot(bs[0], Read);
      hide FootOf, Join, BlocksFoot, InstrFoot;
      FootCons(RPread(bs[0]), PreadAll(bs[1..], next), BlocksFoot(bs[1..]), next, BlocksFoot(bs));
    }
  }

  ghost function AppendFoot(f: Fid, bs: seq<Ref>): Foot {
    NOTHING.(files := if bs == [] then {} else {f}, blocks := Elements(bs), pending := multiset(bs))
  }

  lemma AppendFootSplits(f: Fid, bs: seq<Ref>)
    ensures AppendFoot(f, []) == NOTHING
    ensures bs != [] ==> AppendFoot(f, bs) == Join(InstrFoot(WAppend(f, bs[0])), AppendFoot(f, bs[1..]))
  {
    if bs != [] {
      HeadAndTail(bs);
      assert bs == [bs[0]] + bs[1..];
    }
  }

  lemma {:induction false} AppendAllFoot(f: Fid, bs: seq<Ref>, next: Prog)
    ensures FootOf(AppendAll(f, bs, next)) == Join(AppendFoot(f, bs), FootOf(next))
  {
    AppendFootSplits(f, bs);
    if bs == [] {
      JoinNothing(FootOf(next));
    } else {
      AppendAllFoot(f, bs[1..], next);
      hide FootOf, Join, AppendFoot, InstrFoot;
      FootCons(WAppend(f, bs[0]), AppendAll(f, bs[1..], next), AppendFoot(f, bs[1..]), next, AppendFoot(f, bs));
    }
  }

  /** What a list owes to the counters of the blocks in `order`. */
  ghost function Owed(order: seq<Ref>, list: seq<Ref>): multiset<Ref> {
    if order == [] then multiset{} else multiset{}[order[0] := multiset(list)[order[0]]] + Owed(order[1..], list)
  }

  ghost function TallyFoot(order: seq<Ref>, list: seq<Ref>): Foot {
    NOTHING.(blocks := Elements(order), tested := Elements(order), pending := Owed(order, list))
  }

  lemma JoinTest(b: Ref, s: set<Ref>, p: multiset<Ref>)
    ensures Join(InstrFoot(UTest(b)), NOTHING.(blocks := s, tested := s, pending := p)) ==
            NOTHING.(blocks := {b} + s, tested := {b} + s, pending := p)
  {
  }

  lemma JoinLoad(b: Ref, n: nat, s: set<Ref>, p: multiset<Ref>)
    requires b in s
    ensures Join(InstrFoot(ULoad(b, n)), NOTHING.(blocks := s, tested := s, pending := p)) ==
            NOTHING.(blocks := s, tested := s, pending := multiset{}[b := n] + p)
  {
    assert {b} + s == s;
  }

  lemma JoinLock(b: Ref, s: set<Ref>, p: multiset<Ref>)
    requires b in s
    ensures Join(InstrFoot(Acq(BlockLock(b), Write)), NOTHING.(blocks := s, tested := s, pending := p)) ==
            NOTHING.(blocks := s, tested := s, pending := p)
  {
    assert {b} + s == s;
  }

  lemma TallyFootSplits(order: seq<Ref>, list: seq<Ref>)
    requires order != []
    ensures var b := order[0];
            TallyFoot(order, list) ==
            Join(InstrFoot(Acq(BlockLock(b), Write)),
                 Join(InstrFoot(ULoad(b, multiset(list)[b])), Join(InstrFoot(UTest(b)), TallyFoot(order[1..], list))))
  {
    var b, s, p := order[0], Elements(order[1..]), Owed(order[1..], list);
    HeadAndTail(order);
    hide Join, InstrFoot;
    JoinTest(b, s, p);
    JoinLoad(b, multiset(list)[b], {b} + s, p);
    JoinLock(b, {b} + s, multiset{}[b := multiset(list)[b]] + p);
  }

  lemma {:induction false} TallyAllFoot(order: seq<Ref>, list: seq<Ref>, next: Prog)
    ensures FootOf(TallyAll(order, list, next)) == Join(TallyFoot(order, list), FootOf(next))
  {
    if order == [] {
      assert TallyFoot(order, list) == NOTHING;
      JoinNothing(FootOf(next));
    } else {
      var b, rest, x := order[0], TallyAll(order[1..], list, next), TallyFoot(order[1..], list);
      TallyAllFoot(order[1..], list, next);
      TallyFootSplits(order, list);
      hide FootOf, Join, TallyFoot, InstrFoot;
      var x1 := Join(InstrFoot(UTest(b)), x);
      var x2 := Join(InstrFoot(ULoad(b, multiset(list)[b])), x1);
      FootCons(UTest(b), rest, x, next, x1);
      FootCons(ULoad(b, multiset(list)[b]), Do(UTest(b), rest), x1, next, x2);
      FootCons(Acq(BlockLock(b), Write), Do(ULoad(b, multiset(list)[b]), Do(UTest(b), rest)), x2, next,
               TallyFoot(order, list));
    }
  }

  lemma {:induction false} OwedCounts(order: seq<Ref>, list: seq<Ref>, b: Ref)
    requires forall i, j :: 0 <= i < j < |order| ==> order[i] != order[j]
    ensures Owed(order, list)[b] == if b in order then multiset(list)[b] else 0
  {
    if order != [] {
      OwedCounts(order[1..], list, b);
      assert b in order <==> b == order[0] || b in order[1..];
      assert order[0] !in order[1..];
    }
  }

  /** Counting a list up by distinct blocks owes exactly its entries. */
  lemma OwedIsList(order: seq<Ref>, list: seq<Ref>)
    requires Enumerates(order, Elements(list))
    ensures Owed(order, list) == multiset(list)
  {
    forall b
      ensures Owed(order, list)[b] == multiset(list)[b]
    {
      OwedCounts(order, list, b);
      assert b in order <==> b in multiset(list);
    }
  }

  lemma {:induction false} TallyAllIsDisciplined(f: Fid, order: seq<Ref>, list: seq<Ref>, next: Prog)
    requires forall i, j :: 0 <= i < j < |order| ==> order[i] != order[j]
    requires BlockRefs(next) == {} && Plain(FootOf(next))
    requires Disciplined(map[FileLock(f) := Write, BlockIndex := Write], next)
    ensures Disciplined(map[FileLock(f) := Write, BlockIndex := Write], TallyAll(order, list, next))
  {
    if order != [] {
      hide Disciplined;
      var rest := TallyAll(order[1..], list, next);
      TallyAllIsDisciplined(f, order[1..], list, next);
      TallyAllFoot(order[1..], list, next);
      assert order[0] !in order[1..];
      TallyIsDisciplined(f, order[0], multiset(list)[order[0]], rest);
    }
  }

  lemma TallyIsDisciplined(f: Fid, b: Ref, n: nat, rest: Prog)
    requires Disciplined(map[FileLock(f) := Write, BlockIndex := Write], rest)
    requires b !in BlockRefs(rest) && Plain(FootOf(rest))
    ensures Disciplined(map[FileLock(f) := Write, BlockIndex := Write],
                        Do(Acq(BlockLock(b), Write), Do(ULoad(b, n), Do(UTest(b), rest))))
  {
    hide Disciplined, BlockRefs, FootOf, Plain, InstrFoot;
    var held: Held := map[FileLock(f) := Write, BlockIndex := Write];
    var held1 := held[BlockLock(b) := Write];
    assert held1 - {BlockLock(b)} == held;
    TestIsPlain(b, rest);
    TestIsDisciplined(held1, b, rest);
    LoadIsDisciplined(held1, b, n, Do(UTest(b), rest));
    AcqIsDisciplined(held, BlockLock(b), Write, Do(ULoad(b, n), Do(UTest(b), rest)));
  }

  lemma TestIsPlain(b: Ref, rest: Prog)
    requires Plain(FootOf(rest))
    ensures Plain(FootOf(Do(UTest(b), rest))) && b in FootOf(Do(UTest(b), rest)).tested
  {
  }

  lemma TestIsDisciplined(held: Held, b: Ref, rest: Prog)
    requires Has(held, BlockIndex, Write) && Has(held, BlockLock(b), Write) && Above(held, FreeList)
    requires b !in BlockRefs(rest) && Disciplined(held - {BlockLock(b)}, rest)
    ensures Disciplined(held, Do(UTest(b), rest))
  {
  }

  lemma LoadIsDisciplined(held: Held, b: Ref, n: nat, rest: Prog)
    requires Has(held, BlockIndex, Write) && Has(held, BlockLock(b), Write) && Plain(FootOf(rest)) && b in FootOf(rest).tested
    requires Disciplined(held, rest)
    ensures Disciplined(held, Do(ULoad(b, n), rest))
  {
  }

  // ---------- Footprints of the programs that point to a file ----------

  lemma FootOfOne(i: Instr)
    ensures FootOf(Do(i, Done)) == InstrFoot(i)
  {
    hide InstrFoot;
    JoinNothing(InstrFoot(i));
  }

  /** One more instruction in front. */
  lemma FootOfMore(i: Instr, p: Prog)
    ensures FootOf(Do(i, p)) == Join(InstrFoot(i), FootOf(p))
  {
  }

  lemma FootOfDone()
    ensures FootOf(Done) == NOTHING
  {
  }

  ghost function FileFoot(f: Fid): Foot {
    NOTHING.(files := {f})
  }

  lemma JoinFile(f: Fid)
    ensures Join(FileFoot(f), FileFoot(f)) == FileFoot(f)
    ensures Join(FileFoot(f), NOTHING) == FileFoot(f) == Join(NOTHING, FileFoot(f))
    ensures Join(NOTHING, NOTHING) == NOTHING
  {
  }

  lemma FileInstrs(f: Fid, m: Mode)
    ensures InstrFoot(Acq(FileLock(f), m)) == InstrFoot(Rel(FileLock(f))) == InstrFoot(GStat(f)) == FileFoot(f)
    ensures InstrFoot(Acq(FileIndex, m)) == InstrFoot(Rel(FileIndex)) == NOTHING
    ensures InstrFoot(Acq(BlockIndex, m)) == InstrFoot(Rel(BlockIndex)) == NOTHING
  {
  }

  lemma ReleaseOnlyFoot(f: Fid)
    ensures FootOf(Do(Rel(FileIndex), Done)) == NOTHING
    ensures FootOf(Do(Rel(FileLock(f)), Done)) == FileFoot(f)
    ensures FootOf(Do(Rel(FileLock(f)), Do(Rel(FileIndex), Done))) == FileFoot(f)
  {
    FileInstrs(f, Read);
    JoinFile(f);
    hide FootOf, InstrFoot, Join, FileFoot;
    FootOfOne(Rel(FileIndex));
    FootOfOne(Rel(FileLock(f)));
    FootOfMore(Rel(FileLock(f)), Do(Rel(FileIndex), Done));
  }

  lemma WriteLookupFoot(f: Fid, path: Path, off: nat, hashes: seq<Hash>)
    ensures FootOf(Do(Acq(FileLock(f), Write), Do(WCheck(f, off, hashes), Done))) == FileFoot(f)
    ensures FootOf(Do(Rel(FileIndex), Do(Acq(FileIndex, Write), Do(WCreate(path, off, hashes), Done)))) == NOTHING
    ensures FootOf(Do(Rel(FileIndex), Do(Acq(FileIndex, Read), Do(Acq(FileLock(f), Write), Do(WCheck(f, off, hashes), Done))))) == FileFoot(f)
  {
    FileInstrs(f, Read);
    JoinFile(f);
    hide FootOf, InstrFoot, Join, FileFoot;
    WindowFoot(f, off, hashes);
    CreateLookupFoot(path, off, hashes);
    FootOfMore(Rel(FileIndex), Do(Acq(FileIndex, Read), Do(Acq(FileLock(f), Write), Do(WCheck(f, off, hashes), Done))));
    FootOfMore(Rel(FileIndex), Do(Acq(FileIndex, Write), Do(WCreate(path, off, hashes), Done)));
  }

  ghost function StolenFoot(f: Fid): Foot {
    FileFoot(f).(stolen := {f}, tallies := {f})
  }

  lemma StealFoot(f: Fid, path: Path)
    ensures FootOf(Do(Rel(FileIndex), Do(Acq(FileLock(f), Write), Do(Acq(BlockIndex, Write), Do(UTally(f), Done))))) == StolenFoot(f)
    ensures FootOf(Do(Acq(FileLock(f), Write), Do(Acq(BlockIndex, Write), Do(UTally(f), Done)))) == StolenFoot(f)
    ensures FootOf(Do(UTally(f), Done)) == StolenFoot(f)
    ensures FootOf(Do(ULookup(path), Done)) == NOTHING
  {
    FileInstrs(f, Write);
    JoinNothing(StolenFoot(f));
    assert Join(FileFoot(f), StolenFoot(f)) == StolenFoot(f) == InstrFoot(UTally(f));
    assert InstrFoot(ULookup(path)) == NOTHING;
    hide FootOf, InstrFoot, Join, FileFoot, StolenFoot;
    FootOfOne(UTally(f));
    FootOfOne(ULookup(path));
    var p := Do(Acq(BlockIndex, Write), Do(UTally(f), Done));
    FootOfMore(Acq(BlockIndex, Write), Do(UTally(f), Done));
    FootOfMore(Acq(FileLock(f), Write), p);
    FootOfMore(Rel(FileIndex), Do(Acq(FileLock(f), Write), p));
  }

  // ---------- Every continuation keeps it ----------

  lemma DoneIsDisciplined()
    ensures Disciplined(map[], Done)
  {
  }

  lemma BranchIsDisciplined(i: Instr)
    requires Branches(i)
    requires i.WCount? ==> i.created <= Elements(i.got)
    requires i.WInsert? ==> i.created <= Elements(i.got) && i.rest != []
    ensures Disciplined(Needs(i), Do(i, Done))
  {
  }

  lemma ReleaseLast(l: LockId, m: Mode)
    requires l == FileIndex || l.FileLock?
    ensures Disciplined(map[l := m], Do(Rel(l), Done))
  {
    RelIsDisciplined(map[l := m], l, Done, map[]);
  }

  lemma GetattrIsDisciplined(f: Fid)
    ensures Disciplined(map[FileIndex := Read],
              Do(Acq(FileLock(f), Read), Do(GStat(f), Do(Rel(FileLock(f)), Do(Rel(FileIndex), Done)))))
  {
    hide Disciplined;
    var h0: Held := map[FileIndex := Read];
    var h1 := h0[FileLock(f) := Read];
    var p := Do(Rel(FileLock(f)), Do(Rel(FileIndex), Done));
    ReleaseLast(FileIndex, Read);
    RelIsDisciplined(h1, FileLock(f), Do(Rel(FileIndex), Done), h0);
    DoIsDisciplined(h1, GStat(f), p, h1);
    ReleaseOnlyFoot(f);
    FootOfMore(GStat(f), p);
    hide FootOf;
    AcqIsDisciplined(h0, FileLock(f), Read, Do(GStat(f), p));
  }

  lemma ReadLookupIsDisciplined(f: Fid, off: nat, size: nat)
    ensures Disciplined(map[FileIndex := Read],
              Do(Acq(FileLock(f), Read), Do(Rel(FileIndex), Do(RRange(f, off, size), Done))))
  {
    hide Disciplined;
    var h0: Held := map[FileIndex := Read];
    var h1 := h0[FileLock(f) := Read];
    BranchIsDisciplined(RRange(f, off, size));
    RelIsDisciplined(h1, FileIndex, Do(RRange(f, off, size), Done), map[FileLock(f) := Read]);
    FootOfOne(RRange(f, off, size));
    FootOfMore(Rel(FileIndex), Do(RRange(f, off, size), Done));
    hide FootOf;
    AcqIsDisciplined(h0, FileLock(f), Read, Do(Rel(FileIndex), Do(RRange(f, off, size), Done)));
  }

  lemma ReadRangeIsDisciplined(f: Fid, start: nat, end: nat)
    ensures Disciplined(map[FileLock(f) := Read], Do(Acq(BlockIndex, Read), Do(RCollect(f, start, end), Done)))
  {
    hide Disciplined;
    var h0: Held := map[FileLock(f) := Read];
    BranchIsDisciplined(RCollect(f, start, end));
    assert h0[BlockIndex := Read] == Needs(RCollect(f, start, end));
    AcqIsDisciplined(h0, BlockIndex, Read, Do(RCollect(f, start, end), Done));
  }

  /** The objects in a table keyed by hash, in lock order and in the table's own order. */
  lemma SameBlocks(bs: seq<Ref>, keepFirst: bool, order: seq<Ref>)
    requires Enumerates(order, ByHash(bs, keepFirst).Values)
    ensures Elements(order) == Elements(LockOrder(ByHash(bs, keepFirst)))
  {
    var m := ByHash(bs, keepFirst);
    hide ByHash, LockOrder;
    LockOrderMembers(m);
    TableValues(m);
  }

  lemma TableValues(m: map<Hash, Ref>)
    requires forall h :: h in m ==> m[h].hash == h
    ensures forall b: Ref :: b in m.Values <==> b.hash in m && m[b.hash] == b
  {
  }

  /** A held lock below the block locks can be released from under them. */
  lemma WithoutBase(held: Held, l: LockId, s: set<Ref>, m: Mode)
    requires !l.BlockLock?
    ensures WithBlocks(held, s, m) - {l} == WithBlocks(held - {l}, s, m)
    ensures l in held ==> l in WithBlocks(held, s, m) && WithBlocks(held, s, m)[l] == held[l]
  {
  }

  lemma ReadBlocksIsDisciplined(f: Fid, bs: seq<Ref>, order: seq<Ref>)
    requires Enumerates(order, ByHash(bs, false).Values)
    ensures Disciplined(map[FileLock(f) := Read, BlockIndex := Read],
              LockAll(LockOrder(ByHash(bs, false)), Read,
                      Do(Rel(BlockIndex), PreadAll(bs, UnlockAll(order, Do(Rel(FileLock(f)), Done))))))
  {
    hide Disciplined, WithBlocks, LockOrder, ByHash;
    var locked := LockOrder(ByHash(bs, false));
    var base: Held := map[FileLock(f) := Read];
    var h0: Held := map[FileLock(f) := Read, BlockIndex := Read];
    SameBlocks(bs, false, order);
    LockOrderIsAscending(ByHash(bs, false));
    ReleaseLast(FileLock(f), Read);
    var p := UnlockAll(order, Do(Rel(FileLock(f)), Done));
    UnlockAllIsDisciplined(base, order, Read, Do(Rel(FileLock(f)), Done));
    PreadAllIsDisciplined(WithBlocks(base, Elements(order), Read), bs, p);
    WithoutBase(h0, BlockIndex, Elements(order), Read);
    assert h0 - {BlockIndex} == base;
    RelIsDisciplined(WithBlocks(h0, Elements(order), Read), BlockIndex, PreadAll(bs, p),
                     WithBlocks(base, Elements(order), Read));
    LockAllIsDisciplined(h0, locked, Read, Do(Rel(BlockIndex), PreadAll(bs, p)));
  }

  lemma WriteLookupIsDisciplined(f: Fid, path: Path, off: nat, hashes: seq<Hash>)
    ensures Disciplined(map[FileIndex := Read], Do(Acq(FileLock(f), Write), Do(WCheck(f, off, hashes), Done)))
    ensures Disciplined(map[FileIndex := Read],
              Do(Rel(FileIndex), Do(Acq(FileIndex, Write), Do(WCreate(path, off, hashes), Done))))
  {
    hide Disciplined, FootOf;
    var h0: Held := map[FileIndex := Read];
    BranchIsDisciplined(WCheck(f, off, hashes));
    assert h0[FileLock(f) := Write] == Needs(WCheck(f, off, hashes));
    AcqIsDisciplined(h0, FileLock(f), Write, Do(WCheck(f, off, hashes), Done));
    BranchIsDisciplined(WCreate(path, off, hashes));
    assert (map[])[FileIndex := Write] == Needs(WCreate(path, off, hashes));
    FootOfOne(WCreate(path, off, hashes));
    AcqIsDisciplined(map[], FileIndex, Write, Do(WCreate(path, off, hashes), Done));
    CreateLookupFoot(path, off, hashes);
    RelIsDisciplined(h0, FileIndex, Do(Acq(FileIndex, Write), Do(WCreate(path, off, hashes), Done)), map[]);
  }

  lemma CreateLookupFoot(path: Path, off: nat, hashes: seq<Hash>)
    ensures FootOf(Do(Acq(FileIndex, Write), Do(WCreate(path, off, hashes), Done))) == NOTHING
  {
    FileInstrs(0, Write);
    JoinFile(0);
    assert InstrFoot(WCreate(path, off, hashes)) == NOTHING;
    hide FootOf, InstrFoot, Join, FileFoot;
    FootOfOne(WCreate(path, off, hashes));
    FootOfMore(Acq(FileIndex, Write), Do(WCreate(path, off, hashes), Done));
  }

  lemma WindowFoot(f: Fid, off: nat, hashes: seq<Hash>)
    ensures FootOf(Do(Acq(FileIndex, Read), Do(Acq(FileLock(f), Write), Do(WCheck(f, off, hashes), Done)))) == FileFoot(f)
    ensures FootOf(Do(Acq(FileLock(f), Write), Do(WCheck(f, off, hashes), Done))) == FileFoot(f)
  {
    FileInstrs(f, Write);
    FileInstrs(f, Read);
    JoinFile(f);
    assert InstrFoot(WCheck(f, off, hashes)) == FileFoot(f);
    hide FootOf, InstrFoot, Join, FileFoot;
    FootOfOne(WCheck(f, off, hashes));
    FootOfMore(Acq(FileLock(f), Write), Do(WCheck(f, off, hashes), Done));
    FootOfMore(Acq(FileIndex, Read), Do(Acq(FileLock(f), Write), Do(WCheck(f, off, hashes), Done)));
  }

  lemma WriteCreateIsDisciplined(f: Fid, off: nat, hashes: seq<Hash>)
    ensures Disciplined(map[FileIndex := Write],
              Do(Rel(FileIndex), Do(Acq(FileIndex, Read), Do(Acq(FileLock(f), Write), Do(WCheck(f, off, hashes), Done)))))
  {
    hide Disciplined, FootOf;
    var p := Do(Acq(FileLock(f), Write), Do(WCheck(f, off, hashes), Done));
    WriteLookupIsDisciplined(f, [], off, hashes);
    assert (map[])[FileIndex := Read] == map[FileIndex := Read];
    WindowFoot(f, off, hashes);
    AcqIsDisciplined(map[], FileIndex, Read, p);
    assert InWindow(Do(Acq(FileIndex, Read), p), f);
    RelIsDisciplined(map[FileIndex := Write], FileIndex, Do(Acq(FileIndex, Read), p), map[]);
  }

  lemma WriteCheckIsDisciplined(f: Fid, off: nat, hashes: seq<Hash>)
    ensures Disciplined(map[FileIndex := Read, FileLock(f) := Write], Do(Rel(FileLock(f)), Do(Rel(FileIndex), Done)))
    ensures Disciplined(map[FileIndex := Read, FileLock(f) := Write],
              Do(Acq(BlockIndex, Read), Do(WCount(f, off, hashes, [], {}), Done)))
  {
    hide Disciplined;
    var h0: Held := map[FileIndex := Read, FileLock(f) := Write];
    ReleaseLast(FileIndex, Read);
    RelIsDisciplined(h0, FileLock(f), Do(Rel(FileIndex), Done), map[FileIndex := Read]);
    BranchIsDisciplined(WCount(f, off, hashes, [], {}));
    assert h0[BlockIndex := Read] == Writing(f, Read);
    AcqIsDisciplined(h0, BlockIndex, Read, Do(WCount(f, off, hashes, [], {}), Done));
  }

  /** Trading a shared hold of the block index for an exclusive one, and back. */
  lemma UpgradeIsDisciplined(f: Fid, from: Mode, i: Instr)
    requires (i.WCount? && from == Write) || (i.WInsert? && from == Read && i.rest != [])
    requires i.f == f && i.created <= Elements(i.got)
    ensures Disciplined(Writing(f, from), Do(Rel(BlockIndex), Do(Acq(BlockIndex, if i.WCount? then Read else Write), Do(i, Done))))
  {
    var to := if i.WCount? then Read else Write;
    var h0: Held := map[FileIndex := Read, FileLock(f) := Write];
    BranchIsDisciplined(i);
    var p := Do(Acq(BlockIndex, to), Do(i, Done));
    BranchRefs(i, to);
    hide Disciplined, FootOf;
    assert h0[BlockIndex := to] == Writing(f, to);
    AcqIsDisciplined(h0, BlockIndex, to, Do(i, Done));
    assert Writing(f, from) - {BlockIndex} == h0;
    RelIsDisciplined(Writing(f, from), BlockIndex, p, h0);
  }

  lemma BranchRefs(i: Instr, m: Mode)
    requires i.WCount? || i.WInsert?
    requires i.created <= Elements(i.got)
    ensures var foot := FootOf(Do(Acq(BlockIndex, m), Do(i, Done)));
            foot.blocks == Elements(i.got) && foot.pending == multiset(i.got) && foot.tested == {} && foot.dying == {}
  {
    JoinNothing(InstrFoot(i));
    assert FootOf(Do(i, Done)) == InstrFoot(i);
    assert FootOf(Do(Acq(BlockIndex, m), Do(i, Done))) == Join(NOTHING, InstrFoot(i));
  }

  lemma UnlinkIsDisciplined(f: Fid)
    ensures Disciplined(map[FileIndex := Write],
              Do(Rel(FileIndex), Do(Acq(FileLock(f), Write), Do(Acq(BlockIndex, Write), Do(UTally(f), Done)))))
  {
    hide Disciplined, FootOf;
    var h1: Held := map[FileLock(f) := Write];
    BranchIsDisciplined(UTally(f));
    assert h1[BlockIndex := Write] == Needs(UTally(f));
    AcqIsDisciplined(h1, BlockIndex, Write, Do(UTally(f), Done));
    assert (map[])[FileLock(f) := Write] == h1;
    var p := Do(Acq(BlockIndex, Write), Do(UTally(f), Done));
    AcqIsDisciplined(map[], FileLock(f), Write, p);
    StealFoot(f, []);
    RelIsDisciplined(map[FileIndex := Write], FileIndex, Do(Acq(FileLock(f), Write), p), map[]);
  }

  lemma ReleaseFoot(f: Fid)
    ensures var p := Do(Rel(FileLock(f)), Do(UFreeFile(f), Done));
            var foot := NOTHING.(files := {f}, stolen := {f});
            FootOf(Do(UFreeFile(f), Done)) == foot && FootOf(p) == foot && FootOf(Do(Rel(BlockIndex), p)) == foot
  {
    JoinNothing(InstrFoot(UFreeFile(f)));
    JoinNothing(NOTHING.(files := {f}, stolen := {f}));
    var p := Do(Rel(FileLock(f)), Do(UFreeFile(f), Done));
    assert FootOf(p) == Join(NOTHING.(files := {f}), NOTHING.(files := {f}, stolen := {f}));
  }

  lemma FreeFileIsDisciplined(f: Fid)
    ensures Disciplined(map[], Do(UFreeFile(f), Done))
  {
  }

  lemma UnlinkEndIsDisciplined(f: Fid, order: seq<Ref>, list: seq<Ref>)
    requires forall i, j :: 0 <= i < j < |order| ==> order[i] != order[j]
    ensures Disciplined(map[FileLock(f) := Write, BlockIndex := Write],
              TallyAll(order, list, Do(Rel(BlockIndex), Do(Rel(FileLock(f)), Do(UFreeFile(f), Done)))))
  {
    var h1: Held := map[FileLock(f) := Write];
    var h2: Held := map[FileLock(f) := Write, BlockIndex := Write];
    var p := Do(Rel(FileLock(f)), Do(UFreeFile(f), Done));
    FreeFileIsDisciplined(f);
    hide Disciplined, FootOf, TallyAll;
    ReleaseFoot(f);
    RelIsDisciplined(h1, FileLock(f), Do(UFreeFile(f), Done), map[]);
    assert h2 - {BlockIndex} == h1;
    RelIsDisciplined(h2, BlockIndex, p, h1);
    TallyAllIsDisciplined(f, order, list, Do(Rel(BlockIndex), p));
  }

  /** Offsets are given back for blocks that the program touches. */
  lemma {:induction false} GiveBackTouches(p: Prog, b: Ref)
    requires GiveBack(b) in Aims(p)
    ensures b in FootOf(p).dying && b in FootOf(p).blocks
  {
    if GiveBack(b) !in AimsOf(p.i) { GiveBackTouches(p.next, b); }
  }

  lemma DyingBehind(i: Instr, p: Prog)
    ensures FootOf(p).dying <= FootOf(Do(i, p)).dying && InstrFoot(i).dying <= FootOf(Do(i, p)).dying
  {
  }

  lemma FreeTail(b: Ref, next: Prog)
    requires b !in BlockRefs(next)
    ensures var p := Do(Rel(FreeList), Do(Rel(BlockLock(b)), Do(UFreeBlock(b), next)));
            b in FootOf(p).dying && GiveBack(b) !in Aims(p)
  {
    if GiveBack(b) in Aims(next) { GiveBackTouches(next, b); }
    assert InstrFoot(UFreeBlock(b)).dying == {b};
    hide FootOf, Aims, InstrFoot;
    DyingBehind(UFreeBlock(b), next);
    DyingBehind(Rel(BlockLock(b)), Do(UFreeBlock(b), next));
    DyingBehind(Rel(FreeList), Do(Rel(BlockLock(b)), Do(UFreeBlock(b), next)));
    LockAims(UFreeBlock(b), next);
    LockAims(Rel(BlockLock(b)), Do(UFreeBlock(b), next));
    LockAims(Rel(FreeList), Do(Rel(BlockLock(b)), Do(UFreeBlock(b), next)));
  }

  lemma UnlockAndFree(held: Held, b: Ref, next: Prog)
    requires Has(held, BlockIndex, Write) && BlockLock(b) in held
    requires b !in BlockRefs(next) && Disciplined(held - {BlockLock(b)}, next)
    ensures Disciplined(held, Do(Rel(BlockLock(b)), next))
    ensures Disciplined(held, Do(Rel(BlockLock(b)), Do(UFreeBlock(b), next)))
  {
    hide Disciplined;
    var h1 := held - {BlockLock(b)};
    RelIsDisciplined(held, BlockLock(b), next, h1);
    DoIsDisciplined(h1, UFreeBlock(b), next, h1);
    RelIsDisciplined(held, BlockLock(b), Do(UFreeBlock(b), next), h1);
  }

  lemma TestEndIsDisciplined(held: Held, b: Ref, next: Prog)
    requires Has(held, BlockIndex, Write) && Has(held, BlockLock(b), Write) && Above(held, FreeList)
    requires b !in BlockRefs(next) && Disciplined(held - {BlockLock(b)}, next)
    ensures Disciplined(held, Do(Rel(BlockLock(b)), next))
    ensures Disciplined(held, Do(Acq(FreeList, Write), Do(UFree(b), Do(Rel(FreeList), Do(Rel(BlockLock(b)), Do(UFreeBlock(b), next))))))
  {
    hide Disciplined, FootOf, Aims, BlockRefs;
    UnlockAndFree(held, b, next);
    FreeTail(b, next);
    FreeSlotIsDisciplined(held, b, Do(Rel(BlockLock(b)), Do(UFreeBlock(b), next)));
  }

  lemma FreeSlotIsDisciplined(held: Held, b: Ref, p: Prog)
    requires Has(held, BlockIndex, Write) && Has(held, BlockLock(b), Write) && Above(held, FreeList) && Disciplined(held, p)
    requires b in FootOf(Do(Rel(FreeList), p)).dying && GiveBack(b) !in Aims(Do(Rel(FreeList), p))
    ensures Disciplined(held, Do(Acq(FreeList, Write), Do(UFree(b), Do(Rel(FreeList), p))))
  {
    hide Disciplined, FootOf, Aims;
    var h2 := held[FreeList := Write];
    assert FreeList !in held;
    assert h2 - {FreeList} == held;
    RelIsDisciplined(h2, FreeList, p, held);
    DoIsDisciplined(h2, UFree(b), Do(Rel(FreeList), p), h2);
    DoIsDisciplined(held, Acq(FreeList, Write), Do(UFree(b), Do(Rel(FreeList), p)), h2);
  }

  lemma EndOfWriteFoot(f: Fid, size: nat, locked: seq<Ref>)
    ensures var p := UnlockAll(locked, Do(Rel(FileLock(f)), Done));
            && FootOf(p).pending == multiset{} && FootOf(p).stolen == {}
            && OnlyWrites(FootOf(Do(WSize(f, size), p)), f) && FootOf(Do(WSize(f, size), p)).files == {f}
  {
    var p := UnlockAll(locked, Do(Rel(FileLock(f)), Done));
    UnlockAllFoot(locked, Do(Rel(FileLock(f)), Done));
    assert FootOf(Do(Rel(FileLock(f)), Done)) == Join(InstrFoot(Rel(FileLock(f))), NOTHING);
    assert FootOf(Do(WSize(f, size), p)) == Join(InstrFoot(WSize(f, size)), FootOf(p));
  }

  lemma WriteTailAims(f: Fid, size: nat, got: seq<Ref>, locked: seq<Ref>)
    ensures Aims(AppendAll(f, got, Do(WSize(f, size), UnlockAll(locked, Do(Rel(FileLock(f)), Done))))) == {}
  {
    hide Aims;
    AimsOfDone();
    LockAims(Rel(FileLock(f)), Done);
    UnlockAllAims(locked, Do(Rel(FileLock(f)), Done));
    LockAims(WSize(f, size), UnlockAll(locked, Do(Rel(FileLock(f)), Done)));
    AppendAllAims(f, got, Do(WSize(f, size), UnlockAll(locked, Do(Rel(FileLock(f)), Done))));
  }

  lemma WriteTailIsDisciplined(f: Fid, size: nat, got: seq<Ref>, locked: seq<Ref>)
    requires AscendingRefs(locked)
    ensures Disciplined(WithBlocks(map[FileLock(f) := Write], Elements(locked), Write),
                        AppendAll(f, got, Do(WSize(f, size), UnlockAll(locked, Do(Rel(FileLock(f)), Done)))))
    ensures var foot := FootOf(AppendAll(f, got, Do(WSize(f, size), UnlockAll(locked, Do(Rel(FileLock(f)), Done)))));
            foot.files <= {f} && forall b :: b in got ==> b in foot.pending
    ensures Aims(AppendAll(f, got, Do(WSize(f, size), UnlockAll(locked, Do(Rel(FileLock(f)), Done))))) == {}
  {
    hide Disciplined, WithBlocks, FootOf, UnlockAll, AppendAll, Elements;
    var h1: Held := map[FileLock(f) := Write];
    var p4 := UnlockAll(locked, Do(Rel(FileLock(f)), Done));
    ReleaseLast(FileLock(f), Write);
    UnlockAllIsDisciplined(h1, locked, Write, Do(Rel(FileLock(f)), Done));
    WithoutBase(h1, FileLock(f), Elements(locked), Write);
    var hs := WithBlocks(h1, Elements(locked), Write);
    EndOfWriteFoot(f, size, locked);
    DoIsDisciplined(hs, WSize(f, size), p4, hs);
    AppendAllIsDisciplined(hs, f, got, Do(WSize(f, size), p4));
    AppendAllFoot(f, got, Do(WSize(f, size), p4));
    WriteTailAims(f, size, got, locked);
  }

  /** The block locks, the two mutexes and the allocation, the releases, the appends, the unlocks. */
  lemma WriteOutIsDisciplined(f: Fid, off: nat, got: seq<Ref>, created: set<Ref>)
    ensures Disciplined(Writing(f, Read), WriteOut(f, off, got, created))
  {
    hide Disciplined, WithBlocks, ByHash, LockOrder, FootOf, UnlockAll, AppendAll, Elements;
    var locked := LockOrder(ByHash(got, true));
    LockOrderIsAscending(ByHash(got, true));
    var p3 := AppendAll(f, got, Do(WSize(f, off + 4096 * |got|), UnlockAll(locked, Do(Rel(FileLock(f)), Done))));
    WriteTailIsDisciplined(f, off + 4096 * |got|, got, locked);
    LockedAreGiven(got, true);
    ReleasesAreDisciplined(f, locked, created, p3);
    LockAllIsDisciplined(Writing(f, Read), locked, Write, AllocAndRelease(locked, created, p3));
  }

  lemma LockedAreGiven(bs: seq<Ref>, keepFirst: bool)
    ensures forall b :: b in LockOrder(ByHash(bs, keepFirst)) ==> b in bs
  {
    LockOrderMembers(ByHash(bs, keepFirst));
  }

  function AllocAndRelease(locked: seq<Ref>, created: set<Ref>, p: Prog): Prog {
    Do(Acq(FreeList, Write), Do(Acq(NextOffset, Write),
      Do(WAlloc(OnlyIn(locked, created)),
        Do(Rel(NextOffset), Do(Rel(FreeList), Do(Rel(BlockIndex), Do(Rel(FileIndex), p)))))))
  }

  lemma BlocksAreHeld(held: Held, s: set<Ref>, m: Mode)
    ensures forall b :: b in s ==> Has(WithBlocks(held, s, m), BlockLock(b), m)
    ensures Above(held, FreeList) ==> Above(WithBlocks(held, s, m), FreeList)
  {
  }

  lemma IndexIsSettled(held: Held, f: Fid, p: Prog)
    requires FootOf(p).files <= {f} && FileLock(f) in held
    ensures Settled(held, FileIndex, p)
  {
  }

  lemma SharedIsSettled(held: Held, p: Prog)
    requires Has(held, BlockIndex, Read)
    ensures Settled(held, BlockIndex, p)
  {
  }

  lemma ReleasesAreDisciplined(f: Fid, locked: seq<Ref>, created: set<Ref>, p: Prog)
    requires Disciplined(WithBlocks(map[FileLock(f) := Write], Elements(locked), Write), p) && FootOf(p).files <= {f}
    requires AscendingRefs(locked) && Aims(p) == {} && forall b :: b in locked ==> b in FootOf(p).pending
    ensures Disciplined(WithBlocks(Writing(f, Read), Elements(locked), Write), AllocAndRelease(locked, created, p))
  {
    hide Disciplined, WithBlocks, FootOf, Settled, Above;
    var s := Elements(locked);
    var h1: Held := map[FileLock(f) := Write];
    var h2: Held := map[FileIndex := Read, FileLock(f) := Write];
    var h3 := Writing(f, Read);
    assert h2 - {FileIndex} == h1 && h3 - {BlockIndex} == h2;
    WithoutBase(h2, FileIndex, s, Write);
    WithoutBase(h2, FileLock(f), s, Write);
    WithoutBase(h3, BlockIndex, s, Write);
    BlocksAreHeld(h3, s, Write);
    var q := Do(Rel(FileIndex), p);
    ReleasesKeepPending(FileIndex, p);
    ReleasesKeepPending(BlockIndex, q);
    IndexIsSettled(WithBlocks(h2, s, Write), f, p);
    RelIsDisciplined(WithBlocks(h2, s, Write), FileIndex, p, WithBlocks(h1, s, Write));
    SharedIsSettled(WithBlocks(h3, s, Write), q);
    RelIsDisciplined(WithBlocks(h3, s, Write), BlockIndex, q, WithBlocks(h2, s, Write));
    WritingIsBelow(f, Read);
    OnlyInAscends(locked, created);
    MutexesAreDisciplined(WithBlocks(h3, s, Write), OnlyIn(locked, created), Do(Rel(BlockIndex), q));
  }

  lemma {:induction false} OnlyInAscends(bs: seq<Ref>, s: set<Ref>)
    requires AscendingRefs(bs)
    ensures AscendingRefs(OnlyIn(bs, s))
  {
    if bs != [] {
      OnlyInAscends(bs[1..], s);
      assert forall b :: b in bs[1..] ==> bs[0].hash < b.hash;
    }
  }

  lemma WritingIsBelow(f: Fid, m: Mode)
    ensures Above(Writing(f, m), FreeList)
  {
  }

  lemma ReleasesKeepPending(l: LockId, p: Prog)
    ensures FootOf(Do(Rel(l), p)).pending == FootOf(p).pending && Aims(Do(Rel(l), p)) == Aims(p)
  {
  }

  lemma MutexesAreDisciplined(held: Held, bs: seq<Ref>, p: Prog)
    requires (forall b :: b in bs ==> Has(held, BlockLock(b), Write)) && Above(held, FreeList)
    requires Disciplined(held, p) && Aims(p) == {} && forall b :: b in bs ==> b in FootOf(p).pending
    requires forall j, k :: 0 <= j < k < |bs| ==> bs[j] != bs[k]
    ensures Disciplined(held, Do(Acq(FreeList, Write), Do(Acq(NextOffset, Write), Do(WAlloc(bs),
                        Do(Rel(NextOffset), Do(Rel(FreeList), p))))))
  {
    ReleasesKeepPending(NextOffset, Do(Rel(FreeList), p));
    ReleasesKeepPending(FreeList, p);
    hide Disciplined, FootOf, Aims;
    var h1 := held[FreeList := Write];
    var h2 := h1[NextOffset := Write];
    assert FreeList !in held && NextOffset !in h1;
    assert h1 - {FreeList} == held && h2 - {NextOffset} == h1;
    RelIsDisciplined(h1, FreeList, p, held);
    RelIsDisciplined(h2, NextOffset, Do(Rel(FreeList), p), h1);
    var q := Do(Rel(NextOffset), Do(Rel(FreeList), p));
    DoIsDisciplined(h2, WAlloc(bs), q, h2);
    DoIsDisciplined(h1, Acq(NextOffset, Write), Do(WAlloc(bs), q), h2);
    DoIsDisciplined(held, Acq(FreeList, Write), Do(Acq(NextOffset, Write), Do(WAlloc(bs), q)), h1);
  }

  /** Whatever an instruction makes of the rest of its program, the discipline holds on. */
  lemma ExecIsDisciplined(d: Data, held: Held, i: Instr, next: Prog, order: seq<Ref>)
    requires Defined(d, i) && OrderOk(d, i, order) && !i.Acq? && !i.Rel?
    requires Disciplined(held, Do(i, next))
    ensures Disciplined(if i.UTest? then held else if Branches(i) then Needs(i) else HeldAfter(held, i),
                        ExecProg(d, i, next, order))
  {
    if Branches(i) {
      BranchExecIsDisciplined(d, i, order);
    } else if i.UTest? {
      TestEndIsDisciplined(held, i.b, next);
    } else if i.ULoad? {
      StoreIsDisciplined(held, i.b, d.blocks[i.b].counter, i.n, next);
    }
  }

  lemma StoreIsDisciplined(held: Held, b: Ref, v: int, n: nat, next: Prog)
    requires Disciplined(held, Do(ULoad(b, n), next))
    ensures Disciplined(held, Do(UStore(b, v, n), next))
  {
  }

  lemma BranchExecIsDisciplined(d: Data, i: Instr, order: seq<Ref>)
    requires Defined(d, i) && OrderOk(d, i, order) && Branches(i)
    requires i.WCount? ==> i.created <= Elements(i.got)
    requires i.WInsert? ==> i.created <= Elements(i.got) && i.rest != []
    ensures Disciplined(Needs(i), ExecProg(d, i, Done, order))
  {
    hide Disciplined, TallyAll, WriteOut, LockAll, UnlockAll, PreadAll, LockOrder, ByHash;
    match i
    case GLookup(path) =>
      ReleaseLast(FileIndex, Read);
      if path in d.fileIndex { GetattrIsDisciplined(d.fileIndex[path]); }
    case RLookup(path, off, size) =>
      ReleaseLast(FileIndex, Read);
      if path in d.fileIndex { ReadLookupIsDisciplined(d.fileIndex[path], off, size); }
    case RRange(f, off, size) =>
      var n := d.files[f].size;
      ReleaseLast(FileLock(f), Read);
      ReadRangeIsDisciplined(f, off / 4096, EndIndex(off, if off + size > n && off < n then n - off else size));
    case RCollect(f, start, end) =>
      ReadBlocksIsDisciplined(f, Slice(d.files[f].list, start, end), order);
    case WLookup(path, off, hashes) =>
      WriteLookupIsDisciplined(if path in d.fileIndex then d.fileIndex[path] else 0, path, off, hashes);
    case WCreate(path, off, hashes) =>
      WriteCreateIsDisciplined(if path in d.fileIndex then d.fileIndex[path] else d.fids, off, hashes);
    case WCheck(f, off, hashes) =>
      WriteCheckIsDisciplined(f, off, hashes);
    case WCount(f, off, rest, got, created) =>
      CountIsDisciplined(d, f, off, rest, got, created, order);
    case WInsert(f, off, rest, got, created) =>
      InsertIsDisciplined(d, f, off, rest, got, created, order);
    case ULookup(path) =>
      ReleaseLast(FileIndex, Write);
      if path in d.fileIndex { UnlinkIsDisciplined(d.fileIndex[path]); }
    case UTally(f) =>
      UnlinkEndIsDisciplined(f, order, d.files[f].list);
  }

  lemma CountIsDisciplined(d: Data, f: Fid, off: nat, rest: seq<Hash>, got: seq<Ref>, created: set<Ref>, order: seq<Ref>)
    requires Defined(d, WCount(f, off, rest, got, created)) && created <= Elements(got)
    ensures Disciplined(Writing(f, Read), ExecProg(d, WCount(f, off, rest, got, created), Done, order))
  {
    hide Disciplined, WriteOut;
    if rest == [] {
      WriteOutIsDisciplined(f, off, got, created);
    } else if rest[0] in d.blockIndex {
      BranchIsDisciplined(WCount(f, off, rest[1..], got + [d.blockIndex[rest[0]]], created));
    } else {
      UpgradeIsDisciplined(f, Read, WInsert(f, off, rest, got, created));
    }
  }

  lemma InsertIsDisciplined(d: Data, f: Fid, off: nat, rest: seq<Hash>, got: seq<Ref>, created: set<Ref>, order: seq<Ref>)
    requires Defined(d, WInsert(f, off, rest, got, created)) && created <= Elements(got)
    ensures Disciplined(Writing(f, Write), ExecProg(d, WInsert(f, off, rest, got, created), Done, order))
  {
    hide Disciplined;
    var known := rest[0] in d.blockIndex;
    var b := if known then d.blockIndex[rest[0]] else Ref(rest[0], d.gens);
    UpgradeIsDisciplined(f, Write, WCount(f, off, rest[1..], got + [b], if known then created else created + {b}));
  }

  /** An operation starts with nothing held. */
  lemma CodeIsDisciplined(op: Op)
    ensures Disciplined(map[], Code(op))
  {
    hide Disciplined;
    DoneIsDisciplined();
    match op
    case GetattrOp(path) =>
      BranchIsDisciplined(GLookup(path));
      StartIsDisciplined(Read, GLookup(path));
    case ReadOp(path, off, size) =>
      BranchIsDisciplined(RLookup(path, off, size));
      StartIsDisciplined(Read, RLookup(path, off, size));
    case WriteOp(path, off, hashes) =>
      BranchIsDisciplined(WLookup(path, off, hashes));
      StartIsDisciplined(Read, WLookup(path, off, hashes));
    case UnlinkOp(path) =>
      BranchIsDisciplined(ULookup(path));
      StartIsDisciplined(Write, ULookup(path));
  }

  lemma StartIsDisciplined(m: Mode, i: Instr)
    requires Branches(i) && Needs(i) == map[FileIndex := m] && Disciplined(Needs(i), Do(i, Done)) && InstrFoot(i) == NOTHING
    ensures Disciplined(map[], Do(Acq(FileIndex, m), Do(i, Done)))
  {
    hide Disciplined;
    assert (map[])[FileIndex := m] == Needs(i);
    FootOfOne(i);
    AcqIsDisciplined(map[], FileIndex, m, Do(i, Done));
  }
}

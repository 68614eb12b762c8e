/** What the rest of a program is after, and what an instruction makes of it. */
module Plans {
  import opened Basics
  import opened Collections
  import opened TicketLock
  import opened Programs
  import opened Discipline
  import opened Interleaving
  import opened QuietSteps

  ghost function TodoAims(ops: seq<Op>): set<Aim> {
    if ops == [] then {} else Aims(Code(ops[0])) + TodoAims(ops[1..])
  }

  ghost function Plan(th: Thread): set<Aim> {
    Aims(th.prog) + TodoAims(th.todo)
  }

  lemma CodeAims(op: Op)
    ensures Aims(Code(op)) ==
            match op
            case WriteOp(path, _, _) => {Create(path)}
            case UnlinkOp(path) => if Reserved(path) then {} else {Remove(path)}
            case _ => {}
  {
    var p := Code(op);
    if p.Do? {
      assert Aims(p.next) == AimsOf(p.next.i) + Aims(p.next.next);
    }
  }

  // ---------- What an instruction makes of them ----------

  /** The new blocks among those that a write locks. */
  ghost function ToPlace(got: seq<Ref>, created: set<Ref>): seq<Ref> {
    OnlyIn(LockOrder(ByHash(got, true)), created)
  }

  lemma WriteOutAims(f: Fid, off: nat, got: seq<Ref>, created: set<Ref>)
    ensures Aims(WriteOut(f, off, got, created)) == Places(Elements(ToPlace(got, created)))
  {
    hide Aims, LockOrder, ByHash;
    var locked := LockOrder(ByHash(got, true));
    WriteTailAims(f, off + 4096 * |got|, got, locked);
    var p3 := AppendAll(f, got, Do(WSize(f, off + 4096 * |got|), UnlockAll(locked, Do(Rel(FileLock(f)), Done))));
    LockAims(Rel(FileIndex), p3);
    var p2 := Do(Rel(FileIndex), p3);
    LockAims(Rel(BlockIndex), p2);
    LockAims(Rel(FreeList), Do(Rel(BlockIndex), p2));
    var p1 := Do(Rel(FreeList), Do(Rel(BlockIndex), p2));
    LockAims(Rel(NextOffset), p1);
    AimsSplit(WAlloc(OnlyIn(locked, created)), Do(Rel(NextOffset), p1));
    var p0 := Do(WAlloc(OnlyIn(locked, created)), Do(Rel(NextOffset), p1));
    LockAims(Acq(NextOffset, Write), p0);
    LockAims(Acq(FreeList, Write), Do(Acq(NextOffset, Write), p0));
    LockAllAims(locked, Write, Do(Acq(FreeList, Write), Do(Acq(NextOffset, Write), p0)));
  }

  lemma AimsOfOne(i: Instr)
    ensures Aims(Do(i, Done)) == AimsOf(i)
  {
    AimsOfDone();
  }

  /** A write goes from its path to the file it found, or first to creating it; blocks that it creates need a
      place. A block that an unlink finds dead has one to give back. */
  ghost function NewAims(d: Data, i: Instr): set<Aim>
    requires Defined(d, i)
  {
    match i
    case WCount(_, _, rest, got, created) => Places(if rest == [] then Elements(ToPlace(got, created)) else created)
    case WInsert(_, _, rest, _, created) =>
      Places(if rest[0] in d.blockIndex then created else created + {Ref(rest[0], d.gens)})
    case UTest(b) => if d.blocks[b].counter == 0 then {GiveBack(b)} else {}
    case WLookup(path, _, _) => if path in d.fileIndex then {Check(d.fileIndex[path])} else {Create(path)}
    case WCreate(path, _, _) => {Check(if path in d.fileIndex then d.fileIndex[path] else d.fids)}
    case _ => {}
  }

  lemma BranchAims(d: Data, i: Instr, order: seq<Ref>)
    requires Defined(d, i) && OrderOk(d, i, order) && Branches(i)
    ensures Aims(ExecProg(d, i, Done, order)) == NewAims(d, i)
  {
    hide Aims, OrderOk, LockAll, UnlockAll, PreadAll, TallyAll, WriteOut, LockOrder, ByHash, EndIndex;
    AimsOfDone();
    match i
    case GLookup(path) =>
      LockAims(Rel(FileIndex), Done);
      if path in d.fileIndex {
        var f := d.fileIndex[path];
        LockAims(Rel(FileLock(f)), Do(Rel(FileIndex), Done));
        LockAims(GStat(f), Do(Rel(FileLock(f)), Do(Rel(FileIndex), Done)));
        LockAims(Acq(FileLock(f), Read), Do(GStat(f), Do(Rel(FileLock(f)), Do(Rel(FileIndex), Done))));
      }
    case RLookup(path, off, size) =>
      LockAims(Rel(FileIndex), Done);
      if path in d.fileIndex {
        var f := d.fileIndex[path];
        AimsOfOne(RRange(f, off, size));
        LockAims(Rel(FileIndex), Do(RRange(f, off, size), Done));
        LockAims(Acq(FileLock(f), Read), Do(Rel(FileIndex), Do(RRange(f, off, size), Done)));
      }
    case RRange(f, off, size) =>
      LockAims(Rel(FileLock(f)), Done);
      var n := d.files[f].size;
      var clipped := if off + size > n && off < n then n - off else size;
      AimsOfOne(RCollect(f, off / 4096, EndIndex(off, clipped)));
      LockAims(Acq(BlockIndex, Read), Do(RCollect(f, off / 4096, EndIndex(off, clipped)), Done));
    case RCollect(f, start, end) =>
      var bs := Slice(d.files[f].list, start, end);
      LockAims(Rel(FileLock(f)), Done);
      UnlockAllAims(order, Do(Rel(FileLock(f)), Done));
      var p := UnlockAll(order, Do(Rel(FileLock(f)), Done));
      PreadAllAims(bs, p);
      LockAims(Rel(BlockIndex), PreadAll(bs, p));
      LockAllAims(LockOrder(ByHash(bs, false)), Read, Do(Rel(BlockIndex), PreadAll(bs, p)));
    case UTally(f) =>
      var p := Do(Rel(FileLock(f)), Do(UFreeFile(f), Done));
      AimsOfOne(UFreeFile(f));
      LockAims(Rel(FileLock(f)), Do(UFreeFile(f), Done));
      LockAims(Rel(BlockIndex), p);
      TallyAllAims(order, d.files[f].list, Do(Rel(BlockIndex), p));
    case ULookup(path) =>
      LockAims(Rel(FileIndex), Done);
      if path in d.fileIndex {
        var f := d.fileIndex[path];
        AimsOfOne(UTally(f));
        LockAims(Acq(BlockIndex, Write), Do(UTally(f), Done));
        LockAims(Acq(FileLock(f), Write), Do(Acq(BlockIndex, Write), Do(UTally(f), Done)));
        LockAims(Rel(FileIndex), Do(Acq(FileLock(f), Write), Do(Acq(BlockIndex, Write), Do(UTally(f), Done))));
      }
    case _ => WriteAims(d, i);
  }

  lemma WriteAims(d: Data, i: Instr)
    requires Defined(d, i) && (i.WLookup? || i.WCreate? || i.WCheck? || i.WCount? || i.WInsert?)
    ensures Aims(ExecProg(d, i, Done, [])) == NewAims(d, i)
  {
    hide Aims, WriteOut;
    AimsOfDone();
    match i
    case WLookup(path, off, hashes) =>
      var f := if path in d.fileIndex then d.fileIndex[path] else 0;
      AimsOfOne(WCheck(f, off, hashes));
      LockAims(Acq(FileLock(f), Write), Do(WCheck(f, off, hashes), Done));
      AimsOfOne(WCreate(path, off, hashes));
      LockAims(Acq(FileIndex, Write), Do(WCreate(path, off, hashes), Done));
      LockAims(Rel(FileIndex), Do(Acq(FileIndex, Write), Do(WCreate(path, off, hashes), Done)));
    case WCreate(path, off, hashes) =>
      var f := if path in d.fileIndex then d.fileIndex[path] else d.fids;
      AimsOfOne(WCheck(f, off, hashes));
      var p := Do(Acq(FileLock(f), Write), Do(WCheck(f, off, hashes), Done));
      LockAims(Acq(FileLock(f), Write), Do(WCheck(f, off, hashes), Done));
      LockAims(Acq(FileIndex, Read), p);
      LockAims(Rel(FileIndex), Do(Acq(FileIndex, Read), p));
    case WCheck(f, off, hashes) =>
      LockAims(Rel(FileIndex), Done);
      LockAims(Rel(FileLock(f)), Do(Rel(FileIndex), Done));
      AimsOfOne(WCount(f, off, hashes, [], {}));
      LockAims(Acq(BlockIndex, Read), Do(WCount(f, off, hashes, [], {}), Done));
    case WCount(f, off, rest, got, created) => CountAims(d, f, off, rest, got, created);
    case WInsert(f, off, rest, got, created) =>
      var known := rest[0] in d.blockIndex;
      var b := if known then d.blockIndex[rest[0]] else Ref(rest[0], d.gens);
      UpgradeAims(WCount(f, off, rest[1..], got + [b], if known then created else created + {b}), Read);
  }

  lemma CountAims(d: Data, f: Fid, off: nat, rest: seq<Hash>, got: seq<Ref>, created: set<Ref>)
    requires Defined(d, WCount(f, off, rest, got, created))
    ensures Aims(ExecProg(d, WCount(f, off, rest, got, created), Done, [])) == NewAims(d, WCount(f, off, rest, got, created))
  {
    hide Aims, WriteOut;
    if rest == [] {
      WriteOutAims(f, off, got, created);
    } else if rest[0] in d.blockIndex {
      AimsOfOne(WCount(f, off, rest[1..], got + [d.blockIndex[rest[0]]], created));
    } else {
      UpgradeAims(WInsert(f, off, rest, got, created), Write);
    }
  }

  lemma UpgradeAims(i: Instr, m: Mode)
    ensures Aims(Do(Rel(BlockIndex), Do(Acq(BlockIndex, m), Do(i, Done)))) == AimsOf(i)
  {
    hide Aims;
    AimsOfOne(i);
    LockAims(Acq(BlockIndex, m), Do(i, Done));
    LockAims(Rel(BlockIndex), Do(Acq(BlockIndex, m), Do(i, Done)));
  }

  lemma ExecAims(d: Data, held: Held, i: Instr, next: Prog, order: seq<Ref>)
    requires Defined(d, i) && OrderOk(d, i, order) && !i.Acq? && !i.Rel? && Disciplined(held, Do(i, next))
    ensures Aims(ExecProg(d, i, next, order)) == Aims(next) + NewAims(d, i)
  {
    hide Aims, OrderOk, Needs, Disciplined;
    BranchFacts(held, i, next);
    AimsOfDone();
    if Branches(i) {
      BranchAims(d, i, order);
    } else if i.UTest? {
      var p := Do(Rel(BlockLock(i.b)), Do(UFreeBlock(i.b), next));
      LockAims(Rel(BlockLock(i.b)), next);
      LockAims(UFreeBlock(i.b), next);
      LockAims(Rel(BlockLock(i.b)), Do(UFreeBlock(i.b), next));
      LockAims(Rel(FreeList), p);
      AimsSplit(UFree(i.b), Do(Rel(FreeList), p));
      LockAims(Acq(FreeList, Write), Do(UFree(i.b), Do(Rel(FreeList), p)));
    } else if i.ULoad? {
      LockAims(UStore(i.b, d.blocks[i.b].counter, i.n), next);
    }
  }

  /** What a move makes of its worker's plan. */
  lemma MoverPlan(s: Sys, v: Move)
    requires ThreadsAreDisciplined(s) && CanMove(s, v)
    ensures var p := s.threads[v.t].prog;
            var was, now := Plan(s.threads[v.t]), Plan(Moved(s, v).threads[v.t]);
            if v.Exec? then was == AimsOf(p.i) + Aims(p.next) + TodoAims(s.threads[v.t].todo) &&
                            now == NewAims(s.d, p.i) + Aims(p.next) + TodoAims(s.threads[v.t].todo)
            else now == was
  {
    hide Aims, Disciplined, Next, ExecProg, ExecData, OrderOk, Code, Overtakes, Enabled;
    var th := s.threads[v.t];
    assert Disciplined(th.held, th.prog);
    AimsOfDone();
    match v
    case Begin(_) =>
    case Acquire(_) => LockAims(th.prog.i, th.prog.next);
    case Retry(_) => LockAims(th.prog.i, th.prog.next);
    case Release(_) => LockAims(th.prog.i, th.prog.next);
    case Exec(_, order) =>
      ExecAims(s.d, th.held, th.prog.i, th.prog.next, order);
      AimsSplit(th.prog.i, th.prog.next);
    case Spurious(_) =>
  }

  lemma AimsSplit(i: Instr, next: Prog)
    ensures Aims(Do(i, next)) == AimsOf(i) + Aims(next)
  {
  }
}

/** One worker on its own does what the sequential store does, operation by operation. */
module OneWorker {
  import opened Basics
  import opened Collections
  import opened TicketLock
  import opened Programs
  import opened Interleaving
  import opened Progress
  import opened RefCounts
  import opened Concurrency
  import opened Ahead
  import opened Sights
  import opened Linear
  import opened Tidy
  import opened Outcome
  import opened Ending
  import Crossing
  import Disk
  import StoreModel
  import Runs

  // ---------- A single worker ----------

  lemma NobodyCrosses(s0: Sys, t: Tid)
    requires s0.threads.Keys == {t}
    ensures Crossing.Uncrossed(s0)
  {
    assert forall i, j :: i in s0.threads && j in s0.threads ==> i == j;
  }

  lemma {:induction false} AllByOne(t: Tid, ds: seq<Deed>)
    requires forall k :: 0 <= k < |ds| ==> ds[k].t == t
    ensures By(t, ds) == EventsIn(ds)
  {
    if ds == [] {
      assert EventsIn(ds) == [];
    } else {
      AllByOne(t, ds[1..]);
      assert EventsIn(ds) == [ds[0].e] + EventsIn(ds[1..]);
    }
  }

  lemma {:induction false} ShowsOne(t: Tid, table: Table, ds: seq<Deed>)
    requires forall k :: 0 <= k < |ds| ==> ds[k].t == t
    ensures Shows(t, table, ds) == SeesAll(table, EventsIn(ds))
    decreases |ds|
  {
    if ds != [] {
      ShowsOne(t, Apply(table, ds[0].e), ds[1..]);
      assert EventsIn(ds)[0] == ds[0].e && EventsIn(ds)[1..] == EventsIn(ds[1..]);
      hide Apply, Sees;
    }
  }

  /** A worker on its own: the files are what its operations make of them one after another, and it has seen what they
      showed. */
  lemma OneWorkerIsSequential(s0: Sys, vs: seq<Move>, t: Tid)
    requires Initial(s0) && s0.threads.Keys == {t} && Run(s0, vs) && AllFinished(End(s0, vs))
    ensures FilesTable(End(s0, vs).d) == ApplyAll(FilesTable(s0.d), AllEvents(s0.threads[t].todo))
    ensures SightsBy(t, s0, vs) == SeesAll(FilesTable(s0.d), AllEvents(s0.threads[t].todo))
  {
    hide Initial, Run, End, AllFinished, FilesTable, Crossing.Uncrossed, By, Shows, SightsBy, AllEvents;
    NobodyCrosses(s0, t);
    var ds := UncrossedOperations(s0, vs);
    AllByOne(t, ds);
    ShowsOne(t, FilesTable(s0.d), ds);
    assert t in s0.threads;
  }

  /** The worker has one operation to do. */
  ghost predicate HasOnly(s0: Sys, t: Tid, op: Op) {
    s0.threads.Keys == {t} && s0.threads[t].todo == [op]
  }

  lemma OnlyEvents(op: Op)
    ensures AllEvents([op]) == EventsOf(op)
  {
    assert AllEvents([op]) == EventsOf(op) + AllEvents([]);
  }

  lemma AppliesTwo(t: Table, a: Event, b: Event)
    ensures ApplyAll(t, [a, b]) == Apply(Apply(t, a), b) && SeesAll(t, [a, b]) == Sees(t, a) + Sees(Apply(t, a), b)
  {
    assert [a, b][1..] == [b];
    AppliesOne(Apply(t, a), b);
    SeesOne(Apply(t, a), b);
  }

  /** A write at the size of its file appends its blocks; at any other position it appends nothing. A path that was unknown
      has an empty file to begin with. No other file changes. */
  lemma WriteOutcome(s0: Sys, vs: seq<Move>, t: Tid, path: Path, off: nat, hashes: seq<Hash>)
    requires Initial(s0) && HasOnly(s0, t, WriteOp(path, off, hashes)) && Run(s0, vs) && AllFinished(End(s0, vs))
    ensures var was, now := FilesTable(s0.d), FilesTable(End(s0, vs).d);
            var old0 := if path in was then was[path] else Entry([], 0);
            && now.Keys == was.Keys + {path}
            && now[path] == (if off == old0.size then Entry(old0.hashes + hashes, off + 4096 * |hashes|) else old0)
            && forall p :: p in was && p != path ==> now[p] == was[p]
  {
    hide Initial, Run, End, AllFinished, FilesTable;
    OneWorkerIsSequential(s0, vs, t);
    OnlyEvents(WriteOp(path, off, hashes));
    AppliesTwo(FilesTable(s0.d), Opened(path), Appended(path, off, hashes));
    hide ApplyAll, AllEvents;
  }

  /** An unlink takes its path out, unless it is one of the store's own; no other file changes. */
  lemma UnlinkOutcome(s0: Sys, vs: seq<Move>, t: Tid, path: Path)
    requires Initial(s0) && HasOnly(s0, t, UnlinkOp(path)) && Run(s0, vs) && AllFinished(End(s0, vs))
    ensures var was, now := FilesTable(s0.d), FilesTable(End(s0, vs).d);
            now == if path == "/backend/.metadata" || path == "/backend/.sysdata" then was else was - {path}
  {
    hide Initial, Run, End, AllFinished, FilesTable;
    OneWorkerIsSequential(s0, vs, t);
    OnlyEvents(UnlinkOp(path));
    AppliesOne(FilesTable(s0.d), Removed(path));
    hide AllEvents;
  }

  /** A read changes nothing, and fetches the blocks that have a byte of its range before the end of the file. */
  lemma ReadOutcome(s0: Sys, vs: seq<Move>, t: Tid, path: Path, off: nat, size: nat)
    requires Initial(s0) && HasOnly(s0, t, ReadOp(path, off, size)) && Run(s0, vs) && AllFinished(End(s0, vs))
    ensures FilesTable(End(s0, vs).d) == FilesTable(s0.d)
    ensures var was := FilesTable(s0.d);
            if size % 4096 != 0 || path !in was || off >= was[path].size || size == 0 == off then SightsBy(t, s0, vs) == []
            else
              var last := off + (if size <= was[path].size - off then size else was[path].size - off) - 1;
              && last / 4096 < |was[path].hashes| && |SightsBy(t, s0, vs)| == last / 4096 + 1 - off / 4096
              && forall k :: 0 <= k < |SightsBy(t, s0, vs)| ==> SightsBy(t, s0, vs)[k] == BlockSeen(was[path].hashes[off / 4096 + k])
  {
    hide Initial, Run, End, AllFinished, FilesTable, SightsBy;
    OneWorkerIsSequential(s0, vs, t);
    OnlyEvents(ReadOp(path, off, size));
    var was := FilesTable(s0.d);
    AppliesOne(was, Fetched(path, off, size));
    SeesOne(was, Fetched(path, off, size));
    SeesAllOfNothing(was);
    hide AllEvents, SeesAll, ApplyAll;
    if path in was { SizeIsCovered(s0, path); }
  }

  lemma SeesAllOfNothing(t: Table)
    ensures SeesAll(t, []) == [] && ApplyAll(t, []) == t
  {
  }

  lemma SizeIsCovered(s0: Sys, path: Path)
    requires Initial(s0) && path in FilesTable(s0.d)
    ensures FilesTable(s0.d)[path].size <= 4096 * |FilesTable(s0.d)[path].hashes|
  {
    hide BlocksOk;
  }

  /** A getattr changes nothing, and sees the size of a file that the index knows. */
  lemma GetattrOutcome(s0: Sys, vs: seq<Move>, t: Tid, path: Path)
    requires Initial(s0) && HasOnly(s0, t, GetattrOp(path)) && Run(s0, vs) && AllFinished(End(s0, vs))
    ensures FilesTable(End(s0, vs).d) == FilesTable(s0.d)
    ensures SightsBy(t, s0, vs) ==
            if path == "/backend/.metadata" || path == "/backend/.sysdata" || path !in FilesTable(s0.d) then []
            else [SizeSeen(FilesTable(s0.d)[path].size)]
  {
    hide Initial, Run, End, AllFinished, FilesTable, SightsBy;
    OneWorkerIsSequential(s0, vs, t);
    OnlyEvents(GetattrOp(path));
    var was := FilesTable(s0.d);
    AppliesOne(was, Sized(path));
    SeesOne(was, Sized(path));
    SeesAllOfNothing(was);
    hide AllEvents, SeesAll, ApplyAll;
  }

  // ---------- Against the sequential store ----------

  ghost function TableOfStore(s: StoreModel.State): Table {
    map p | p in s.files :: Entry(s.files[p].list, s.files[p].logicalSize)
  }

  /** The same operation, asked of the sequential store: there a write has its bytes instead of their hashes. */
  ghost predicate SameOperation(hash: StoreModel.HashFunction, op: Op, c: Runs.Call) {
    match op
    case GetattrOp(path) => c.GetattrCall? && c.path == path
    case ReadOp(path, off, size) => c == Runs.ReadCall(path, size, off)
    case WriteOp(path, off, hashes) =>
      c.WriteCall? && c.path == path && c.off == off && |c.buf| % 4096 == 0 && hashes == StoreModel.HashAll(hash, Disk.Split(c.buf))
    case UnlinkOp(path) => c.UnlinkCall? && c.path == path && c.backend.None?
  }

  /** One operation of the sequential store does to its files what the operation's decisive steps do one after another. */
  lemma SequentialStep(hash: StoreModel.HashFunction, s: StoreModel.State, op: Op, c: Runs.Call)
    requires SameOperation(hash, op, c) && Runs.Legal(s, c)
    ensures TableOfStore(Runs.Step(hash, s, c).0) == ApplyAll(TableOfStore(s), EventsOf(op))
  {
    hide StoreModel.OrderOf, StoreModel.Released, Disk.Split, StoreModel.HashAll;
    SeesAllOfNothing(TableOfStore(s));
    match op
    case GetattrOp(path) => AppliesOne(TableOfStore(s), Sized(path));
    case ReadOp(path, off, size) => AppliesOne(TableOfStore(s), Fetched(path, off, size));
    case WriteOp(path, off, hashes) =>
      AppliesTwo(TableOfStore(s), Opened(path), Appended(path, off, hashes));
      WriteTable(hash, s, path, c.buf, off);
    case UnlinkOp(path) =>
      AppliesOne(TableOfStore(s), Removed(path));
      UnlinkTable(s, path, c.order);
  }

  lemma OpenTable(s: StoreModel.State, path: Path)
    ensures path in StoreModel.Opened(s, path).files
    ensures TableOfStore(StoreModel.Opened(s, path)) == Apply(TableOfStore(s), Opened(path))
  {
  }

  lemma AppendTable(s: StoreModel.State, path: Path, hs: seq<Hash>, bs: seq<Disk.Block>)
    requires path in s.files && |hs| == |bs|
    ensures var f := s.files[path];
            TableOfStore(StoreModel.Appended(s, path, hs, bs)) ==
            TableOfStore(s)[path := Entry(f.list + hs, f.logicalSize + 4096 * |hs|)]
  {
    hide StoreModel.Counted, StoreModel.WrittenOut, StoreModel.WithOffsets, StoreModel.Created;
  }

  lemma WriteTable(hash: StoreModel.HashFunction, s: StoreModel.State, path: Path, buf: seq<byte>, off: nat)
    requires |buf| % 4096 == 0
    ensures TableOfStore(StoreModel.Write(hash, s, path, buf, off).0) ==
            Apply(Apply(TableOfStore(s), Opened(path)), Appended(path, off, StoreModel.HashAll(hash, Disk.Split(buf))))
  {
    hide StoreModel.Appended, StoreModel.Opened;
    var s1, hs := StoreModel.Opened(s, path), StoreModel.HashAll(hash, Disk.Split(buf));
    OpenTable(s, path);
    AppendTable(s1, path, hs, Disk.Split(buf));
  }

  lemma UnlinkTable(s: StoreModel.State, path: Path, order: seq<Hash>)
    requires StoreModel.CanUnlink(s, path, None, order)
    ensures TableOfStore(StoreModel.Unlink(s, path, None, order).0) ==
            if path == "/backend/.metadata" || path == "/backend/.sysdata" then TableOfStore(s) else TableOfStore(s) - {path}
  {
    hide StoreModel.OrderOf, StoreModel.Released;
  }

  /** The same for a sequence of operations. */
  lemma {:induction false} SequentialRun(hash: StoreModel.HashFunction, s: StoreModel.State, cs: seq<Runs.Call>, ops: seq<Op>)
    requires Runs.LegalRun(hash, s, cs) && |cs| == |ops| && forall k :: 0 <= k < |cs| ==> SameOperation(hash, ops[k], cs[k])
    ensures TableOfStore(Runs.Run(hash, s, cs).0) == ApplyAll(TableOfStore(s), AllEvents(ops))
    decreases |cs|
  {
    hide Runs.Legal, Runs.Step, SameOperation, TableOfStore, EventsOf;
    if cs == [] {
      SeesAllOfNothing(TableOfStore(s));
    } else {
      SequentialStep(hash, s, ops[0], cs[0]);
      SequentialRun(hash, Runs.Step(hash, s, cs[0]).0, cs[1..], ops[1..]);
      AppliesBoth(TableOfStore(s), EventsOf(ops[0]), AllEvents(ops[1..]));
    }
  }

  // ---------- Index and counters, too ----------

  lemma StoreCounts(hash: StoreModel.HashFunction, s: StoreModel.State, h: Hash)
    requires StoreModel.Good(hash, s)
    ensures h in s.index <==> exists path :: path in TableOfStore(s) && h in TableOfStore(s)[path].hashes
    ensures h in s.index ==> s.index[h].counter == Occurrences(TableOfStore(s), h)
  {
    var m := StoreModel.ListMap(s.files);
    TotalIsSum(m, h);
    var t := TableOfStore(s);
    assert Counts(m, h) == map p | p in t :: multiset(t[p].hashes)[h];
    hide StoreModel.DiskOk, StoreModel.SizesOk, Counts;
    assert h in s.index <==> h in StoreModel.Refs(s);
    if h in StoreModel.Refs(s) {
      SomeMember(m, h);
      var p :| p in m && h in m[p];
      assert p in t && h in t[p].hashes;
    }
    if p :| p in t && h in t[p].hashes {
      assert h in multiset(s.files[p].list);
      TotalWithout(m, p);
    }
  }

  /** Tables in order and a sequential store in order that have the same files have the same index with the same counters. */
  lemma SameFilesSameIndex(hash: StoreModel.HashFunction, d: Data, s: StoreModel.State)
    requires DataOk(d) && AllInUse(d) && StoreModel.Good(hash, s) && FilesTable(d) == TableOfStore(s)
    ensures d.blockIndex.Keys == s.index.Keys
    ensures forall h :: h in d.blockIndex ==> d.blockIndex[h] in d.blocks && d.blocks[d.blockIndex[h]].counter == s.index[h].counter
  {
    hide DataOk, AllInUse, StoreModel.Good, FilesTable, TableOfStore, Occurrences;
    IndexIsWhatOccurs(d);
    forall h
      ensures h in d.blockIndex <==> h in s.index
      ensures h in d.blockIndex ==> d.blockIndex[h] in d.blocks && d.blocks[d.blockIndex[h]].counter == s.index[h].counter
    {
      StoreCounts(hash, s, h);
      if h in d.blockIndex { CountersCountOccurrences(d, h); }
    }
  }

  /** One worker against the sequential store: from tables that show the same files, with everything in use, both end with
      the same files, the same index and the same counters, whatever the operations. */
  lemma OneWorkerIsTheStore(hash: StoreModel.HashFunction, s0: Sys, vs: seq<Move>, t: Tid, s: StoreModel.State, cs: seq<Runs.Call>)
    requires Initial(s0) && AllInUse(s0.d) && s0.threads.Keys == {t} && Run(s0, vs) && AllFinished(End(s0, vs))
    requires StoreModel.Good(hash, s) && FilesTable(s0.d) == TableOfStore(s) && Runs.LegalRun(hash, s, cs)
    requires |cs| == |s0.threads[t].todo| && forall k :: 0 <= k < |cs| ==> SameOperation(hash, s0.threads[t].todo[k], cs[k])
    ensures var d, r := End(s0, vs).d, Runs.Run(hash, s, cs).0;
            && FilesTable(d) == TableOfStore(r)
            && d.blockIndex.Keys == r.index.Keys
            && forall h :: h in d.blockIndex ==> d.blockIndex[h] in d.blocks && d.blocks[d.blockIndex[h]].counter == r.index[h].counter
  {
    hide Initial, Run, End, AllFinished, FilesTable, TableOfStore, AllInUse, DataOk, StoreModel.Good, Runs.Run, Runs.LegalRun, SameOperation;
    OneWorkerIsSequential(s0, vs, t);
    SequentialRun(hash, s, cs, s0.threads[t].todo);
    NobodyCrosses(s0, t);
    Crossing.UncrossedIsNeverOvertaken(s0, vs);
    FinishedIsInOrder(s0, vs);
    Runs.RunIsGood(hash, s, cs);
    SameFilesSameIndex(hash, End(s0, vs).d, Runs.Run(hash, s, cs).0);
  }
}

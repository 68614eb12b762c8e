/** When all operations are finished the tables are in order again, and follow from the files alone. */
module Ending {
  import opened Basics
  import opened Collections
  import opened TicketLock
  import opened Programs
  import opened Discipline
  import opened Interleaving
  import opened Progress
  import opened RefCounts
  import opened QuietSteps
  import opened DataSteps
  import opened Turns
  import opened Offsets
  import opened Concurrency
  import opened Plans
  import opened Ahead
  import opened History
  import opened Linear
  import opened Tidy
  import opened Outcome
  import Space

  // ---------- In order again ----------

  lemma {:induction false} RunLeavesNothing(s: Sys, vs: seq<Move>)
    requires SysInv(s) && NothingLeftOver(s) && Run(s, vs) && !End(s, vs).raced
    ensures NothingLeftOver(End(s, vs))
    decreases |vs|
  {
    hide SysInv, NothingLeftOver, CanMove, Moved;
    if vs != [] {
      NotRacedBefore(s, vs);
      MoveKeepsInv(s, vs[0]);
      MoveLeavesNothing(s, vs[0]);
      RunLeavesNothing(Moved(s, vs[0]), vs[1..]);
    }
  }

  lemma RestingIsInUse(s: Sys)
    requires Resting(s) && NothingLeftOver(s)
    ensures AllInUse(s.d)
  {
    FootOfDone();
    hide FootOf;
  }

  lemma RestingReferences(s: Sys)
    requires Resting(s)
    ensures References(s) == Total(EntryMap(s.d.files))
  {
    FootOfDone();
    hide FootOf;
    NothingPending(PendingMap(s.threads));
  }

  lemma RestingSpace(s: Sys)
    requires Resting(s) && SpaceOk(s)
    ensures (forall b :: b in s.d.blocks ==> s.d.blocks[b].off.Some?) && Space.Partitioned(SpaceOf(s.d, {}))
  {
    FootOfDone();
    hide FootOf, Space.Partitioned;
    forall t, b | t in s.threads
      ensures !Placing(s.threads[t], b) && !GaveBack(s.threads[t], b)
    {
      AimsOfDone();
    }
    assert GoneBlocks(s) == {};
  }

  lemma RestingIsOk(s: Sys)
    requires Resting(s) && Sound(s) && SpaceOk(s)
    ensures DataOk(s.d)
  {
    RestingSpace(s);
    RestingReferences(s);
    SoundBlocks(s);
    SoundFiles(s);
    hide Sound, SpaceOk, BlocksOk, FilesOk, References, Space.Partitioned;
  }

  /** From tables in which everything is in use: finished operations leave such tables again, with every block placed, and
      the free list and the offsets sharing out the backend file. */
  lemma FinishedIsInOrder(s0: Sys, vs: seq<Move>)
    requires Initial(s0) && AllInUse(s0.d) && Run(s0, vs) && !End(s0, vs).raced && AllFinished(End(s0, vs))
    ensures DataOk(End(s0, vs).d) && AllInUse(End(s0, vs).d)
  {
    hide DataOk, Run, End, AllFinished, LocksAgree, ThreadsAreDisciplined, Sound, InTurn, SpaceOk, NothingLeftOver, Resting, AllCareful;
    var s := End(s0, vs);
    InitialInv(s0);
    StartsInUse(s0);
    RunLeavesNothing(s0, vs);
    EndIsLinear(s0, vs);
    FinishedRests(s);
    RestingIsInUse(s);
    RestingIsOk(s);
  }

  lemma StartsInUse(s: Sys)
    requires AllInUse(s.d)
    ensures NothingLeftOver(s)
  {
    hide Linked;
  }

  // ---------- The index follows from the files ----------

  lemma {:induction false} SomeMember<K, T>(m: map<K, multiset<T>>, x: T)
    requires x in Total(m)
    ensures exists k :: k in m && x in m[k]
    decreases |m|
  {
    var k :| k in m && Total(m) == m[k] + Total(m - {k});
    if x !in m[k] {
      SomeMember(m - {k}, x);
      var j :| j in m - {k} && x in (m - {k})[j];
      assert j in m && x in m[j];
    }
  }

  /** Everything about a file of the index that is needed here. */
  lemma FileOfPath(d: Data, path: Path)
    requires FilesOk(d) && path in d.fileIndex
    ensures d.fileIndex[path] in d.files && path in FilesTable(d)
    ensures FilesTable(d)[path].hashes == HashesOf(d.files[d.fileIndex[path]].list)
    ensures Entries(d.files[d.fileIndex[path]]) == multiset(d.files[d.fileIndex[path]].list)
  {
  }

  lemma ListedIsIndexed(d: Data, f: Fid, b: Ref)
    requires BlocksOk(d, Total(EntryMap(d.files))) && f in d.files && b in Entries(d.files[f])
    ensures b in d.blocks && Indexed(d, b)
  {
    TotalWithout(EntryMap(d.files), f);
    assert b in Total(EntryMap(d.files));
  }

  lemma UsedIsListed(d: Data, b: Ref) returns (path: Path)
    requires FilesOk(d) && BlocksOk(d, Total(EntryMap(d.files))) && AllInUse(d) && b in d.blocks
    ensures path in d.fileIndex && d.fileIndex[path] in d.files && b in d.files[d.fileIndex[path]].list
  {
    assert b in Total(EntryMap(d.files));
    SomeMember(EntryMap(d.files), b);
    var f :| f in EntryMap(d.files) && b in EntryMap(d.files)[f];
    assert Linked(d, f);
    path :| path in d.fileIndex && d.fileIndex[path] == f;
  }

  /** Then the index has exactly the hashes that occur in some file, and every block object is in the index. */
  lemma IndexIsWhatOccurs(d: Data)
    requires DataOk(d) && AllInUse(d)
    ensures forall h :: h in d.blockIndex <==> exists path :: path in FilesTable(d) && h in FilesTable(d)[path].hashes
    ensures forall b :: b in d.blocks <==> b.hash in d.blockIndex && d.blockIndex[b.hash] == b
  {
    hide FilesOk, BlocksOk, AllInUse, FilesTable, Space.Partitioned, EntryMap;
    forall h
      ensures h in d.blockIndex <==> exists path :: path in FilesTable(d) && h in FilesTable(d)[path].hashes
    {
      if h in d.blockIndex {
        IndexLeadsToBlock(d, h);
        var path := UsedIsListed(d, d.blockIndex[h]);
        FileOfPath(d, path);
        HashOfListed(d.files[d.fileIndex[path]].list, d.blockIndex[h]);
      }
      if path :| path in FilesTable(d) && h in FilesTable(d)[path].hashes {
        PathsOfTable(d, path);
        FileOfPath(d, path);
        var b := RefOfHash(d.files[d.fileIndex[path]].list, h);
        ListedIsIndexed(d, d.fileIndex[path], b);
      }
    }
    forall b
      ensures b in d.blocks <==> b.hash in d.blockIndex && d.blockIndex[b.hash] == b
    {
      if b in d.blocks {
        var path := UsedIsListed(d, b);
        FileOfPath(d, path);
        ListedIsIndexed(d, d.fileIndex[path], b);
      } else if b.hash in d.blockIndex {
        IndexLeadsToBlock(d, b.hash);
      }
    }
  }

  lemma PathsOfTable(d: Data, path: Path)
    requires path in FilesTable(d)
    ensures path in d.fileIndex
  {
  }

  lemma IndexLeadsToBlock(d: Data, h: Hash)
    requires BlocksOk(d, Total(EntryMap(d.files))) && h in d.blockIndex
    ensures d.blockIndex[h] in d.blocks && d.blockIndex[h].hash == h
  {
  }

  lemma HashOfListed(list: seq<Ref>, b: Ref)
    requires b in list
    ensures b.hash in HashesOf(list)
  {
    var i :| 0 <= i < |list| && list[i] == b;
    assert HashesOf(list)[i] == b.hash;
  }

  lemma RefOfHash(list: seq<Ref>, h: Hash) returns (b: Ref)
    requires h in HashesOf(list)
    ensures b in list && b.hash == h
  {
    var i :| 0 <= i < |list| && HashesOf(list)[i] == h;
    b := list[i];
  }

  // ---------- The counters follow from the files ----------

  /** How often a hash occurs in all files together. */
  ghost function Occurrences(t: Table, h: Hash): nat {
    Sum(map p | p in t :: multiset(t[p].hashes)[h])
  }

  ghost function Counts<K, T>(m: map<K, multiset<T>>, x: T): map<K, nat> {
    map k | k in m :: m[k][x]
  }

  lemma {:induction false} TotalIsSum<K, T>(m: map<K, multiset<T>>, x: T)
    ensures Total(m)[x] == Sum(Counts(m, x))
    decreases |m|
  {
    if m == map[] {
      assert Counts(m, x) == map[];
    } else {
      var k :| k in m;
      TotalWithout(m, k);
      SumWithout(Counts(m, x), k);
      TotalIsSum(m - {k}, x);
      assert Counts(m - {k}, x) == Counts(m, x) - {k};
    }
  }

  /** Renaming the keys changes no sum. */
  lemma {:induction false} SumRenamed<K, L>(a: map<K, nat>, m: map<L, nat>, g: map<K, L>)
    requires g.Keys == a.Keys && (forall k :: k in g ==> g[k] in m && m[g[k]] == a[k])
    requires (forall j, k :: j in g && k in g && g[j] == g[k] ==> j == k) && (forall l :: l in m ==> exists k :: k in g && g[k] == l)
    ensures Sum(a) == Sum(m)
    decreases |a|
  {
    if a == map[] {
      assert m == map[];
    } else {
      var k :| k in a;
      SumWithout(a, k);
      SumWithout(m, g[k]);
      forall l | l in m - {g[k]}
        ensures exists j :: j in g - {k} && (g - {k})[j] == l
      {
        var j :| j in g && g[j] == l;
        assert j in g - {k} && (g - {k})[j] == l;
      }
      SumRenamed(a - {k}, m - {g[k]}, g - {k});
    }
  }

  /** A list has a block as often as its hashes have the block's hash, if no other block of it has this hash. */
  lemma {:induction false} OccursAlike(list: seq<Ref>, b: Ref)
    requires forall c :: c in list && c.hash == b.hash ==> c == b
    ensures multiset(list)[b] == multiset(HashesOf(list))[b.hash]
  {
    hide HashesOf;
    if list == [] {
      NoHash();
    } else {
      OccursAlike(list[1..], b);
      FirstHash(list);
      FirstCounts(list, b);
      FirstCounts(HashesOf(list), b.hash);
      assert HashesOf(list)[1..] == HashesOf(list[1..]);
    }
  }

  lemma FirstCounts<T>(q: seq<T>, x: T)
    requires q != []
    ensures multiset(q)[x] == (if q[0] == x then 1 else 0) + multiset(q[1..])[x]
  {
    assert q == [q[0]] + q[1..];
    assert multiset(q) == multiset{q[0]} + multiset(q[1..]);
  }

  lemma OneBlockPerHash(d: Data, f: Fid, b: Ref)
    requires BlocksOk(d, Total(EntryMap(d.files))) && f in d.files && Indexed(d, b)
    ensures forall c :: c in Entries(d.files[f]) && c.hash == b.hash ==> c == b
  {
    hide BlocksOk, EntryMap;
    forall c | c in Entries(d.files[f]) && c.hash == b.hash
      ensures c == b
    {
      ListedIsIndexed(d, f, c);
    }
  }

  lemma FileCounts(d: Data, path: Path, b: Ref)
    requires FilesOk(d) && BlocksOk(d, Total(EntryMap(d.files))) && path in d.fileIndex && Indexed(d, b)
    ensures path in FilesTable(d) && d.fileIndex[path] in d.files
    ensures Entries(d.files[d.fileIndex[path]])[b] == multiset(FilesTable(d)[path].hashes)[b.hash]
  {
    hide FilesOk, BlocksOk, EntryMap, FilesTable;
    FileOfPath(d, path);
    var file := d.files[d.fileIndex[path]];
    OneBlockPerHash(d, d.fileIndex[path], b);
    forall c | c in file.list && c.hash == b.hash
      ensures c == b
    {
      assert c in multiset(file.list);
    }
    OccursAlike(file.list, b);
  }

  lemma PathsAndFiles(d: Data)
    requires FilesOk(d) && AllInUse(d)
    ensures forall p, q :: p in d.fileIndex && q in d.fileIndex && d.fileIndex[p] == d.fileIndex[q] ==> p == q
    ensures forall f :: f in d.files ==> exists p :: p in d.fileIndex && d.fileIndex[p] == f
    ensures FilesTable(d).Keys == d.fileIndex.Keys
  {
    forall f | f in d.files
      ensures exists p :: p in d.fileIndex && d.fileIndex[p] == f
    {
      assert Linked(d, f);
    }
  }

  /** The counter of an indexed block is the number of times its hash occurs in the files. */
  lemma CountersCountOccurrences(d: Data, h: Hash)
    requires DataOk(d) && AllInUse(d) && h in d.blockIndex
    ensures d.blockIndex[h] in d.blocks && d.blocks[d.blockIndex[h]].counter == Occurrences(FilesTable(d), h)
  {
    hide FilesOk, BlocksOk, AllInUse, FilesTable, Space.Partitioned;
    var b, t := d.blockIndex[h], FilesTable(d);
    IndexLeadsToBlock(d, h);
    CounterIsTotal(d, b);
    TotalIsSum(EntryMap(d.files), b);
    PathsAndFiles(d);
    var a := map p | p in t :: multiset(t[p].hashes)[h];
    var m := Counts(EntryMap(d.files), b);
    forall p | p in d.fileIndex
      ensures d.fileIndex[p] in m && m[d.fileIndex[p]] == a[p]
    {
      FileCounts(d, p, b);
    }
    SumRenamed(a, m, d.fileIndex);
  }

  lemma CounterIsTotal(d: Data, b: Ref)
    requires BlocksOk(d, Total(EntryMap(d.files))) && b in d.blocks
    ensures d.blocks[b].counter == Total(EntryMap(d.files))[b]
  {
    hide EntryMap;
  }
}

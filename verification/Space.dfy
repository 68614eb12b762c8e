/** Where blocks live in the backend file: freed offsets are reused last in, first out, and the file
    grows by one block when none is free. */
module Space {
  import opened Collections

  const BLOCK: nat := 4096

  /** The offset of every block that has one, by the name K of the block, the free list, and the high-water offset. */
  datatype Space<!K> = Space(offs: map<K, nat>, free: seq<nat>, next: nat)

  /** The slot that is handed out next, and what is left of the free list and the file afterwards. */
  function TopSlot(free: seq<nat>, next: nat): nat {
    if |free| > 0 then free[|free| - 1] else next
  }

  function FreeLeft(free: seq<nat>): seq<nat> {
    if |free| > 0 then free[..|free| - 1] else free
  }

  function NextLeft(free: seq<nat>, next: nat): nat {
    if |free| > 0 then next else next + BLOCK
  }

  /** One block gets an offset. */
  function Take<K>(s: Space<K>, h: K): Space<K> {
    Space(s.offs[h := TopSlot(s.free, s.next)], FreeLeft(s.free), NextLeft(s.free, s.next))
  }

  function TakeAll<K>(s: Space<K>, order: seq<K>): Space<K>
    decreases |order|
  {
    if order == [] then s else Take(TakeAll(s, order[..|order| - 1]), order[|order| - 1])
  }

  /** One block gives its offset back. */
  function Give<K>(s: Space<K>, h: K): Space<K>
    requires h in s.offs
  {
    Space(s.offs - {h}, s.free + [s.offs[h]], s.next)
  }

  // ---------- The space is partitioned ----------

  ghost function SlotsBelow(next: nat): set<nat> {
    set o: nat | o < next && o % BLOCK == 0
  }

  ghost function Range<K>(m: map<K, nat>): set<nat> {
    set h | h in m :: m[h]
  }

  ghost predicate Injective<K>(m: map<K, nat>) {
    forall g, h :: g in m && h in m && m[g] == m[h] ==> g == h
  }

  ghost predicate Distinct<T>(q: seq<T>) {
    forall i, j :: 0 <= i < j < |q| ==> q[i] != q[j]
  }

  /** The slots of live blocks and those on the free list are all different, and together they are all
      slots below the high-water offset. */
  ghost predicate Partitioned<K>(s: Space<K>) {
    && s.next % BLOCK == 0
    && Injective(s.offs) && Distinct(s.free)
    && Range(s.offs) !! Elements(s.free)
    && Range(s.offs) + Elements(s.free) == SlotsBelow(s.next)
  }

  lemma RangeHas<K>(m: map<K, nat>, h: K)
    requires h in m
    ensures m[h] in Range(m)
  {
  }

  lemma OffsetsAreSlots<K>(s: Space<K>, h: K)
    requires Partitioned(s) && h in s.offs
    ensures s.offs[h] % BLOCK == 0 && s.offs[h] + BLOCK <= s.next
  {
    assert s.offs[h] in SlotsBelow(s.next);
    SlotFits(s.offs[h], s.next);
  }

  lemma SlotFits(o: nat, next: nat)
    requires o < next && o % BLOCK == 0 && next % BLOCK == 0
    ensures o + BLOCK <= next
  {
  }

  lemma RangeInsert<K>(m: map<K, nat>, h: K, o: nat)
    requires h !in m
    ensures Range(m[h := o]) == Range(m) + {o}
    ensures Injective(m) && o !in Range(m) ==> Injective(m[h := o])
  {
    assert m[h := o][h] == o;
    forall x | x in Range(m)
      ensures x in Range(m[h := o])
    {
      var g :| g in m && m[g] == x;
      assert m[h := o][g] == x;
    }
  }

  lemma RangeRemove<K>(m: map<K, nat>, h: K)
    requires h in m && Injective(m)
    ensures Range(m - {h}) == Range(m) - {m[h]} && Injective(m - {h})
  {
    var n := m - {h};
    forall x | x in Range(m) - {m[h]}
      ensures x in Range(n)
    {
      var g :| g in m && m[g] == x;
      assert n[g] == x;
    }
  }

  lemma ElemsOfPop(q: seq<nat>)
    requires |q| > 0 && Distinct(q)
    ensures var n := |q| - 1; Elements(q[..n]) == Elements(q) - {q[n]} && Distinct(q[..n]) && q[n] in Elements(q)
  {
    var n := |q| - 1;
    assert q == q[..n] + [q[n]];
    assert q[n] !in q[..n];
  }

  lemma ElemsOfPush<T>(q: seq<T>, x: T)
    ensures Elements(q + [x]) == Elements(q) + {x}
    ensures Distinct(q) && x !in Elements(q) ==> Distinct(q + [x])
  {
  }

  lemma SlotsGrow(next: nat)
    requires next % BLOCK == 0
    ensures SlotsBelow(next + BLOCK) == SlotsBelow(next) + {next} && next !in SlotsBelow(next)
  {
    forall o | o in SlotsBelow(next + BLOCK)
      ensures o in SlotsBelow(next) + {next}
    {
      SlotGap(o, next);
    }
  }

  lemma SlotGap(o: nat, next: nat)
    requires o % BLOCK == 0 && next % BLOCK == 0 && o < next + BLOCK
    ensures o <= next
  {
  }

  lemma TakeKeepsPartition<K>(s: Space<K>, h: K)
    requires Partitioned(s) && h !in s.offs
    ensures Partitioned(Take(s, h))
  {
    var s1 := Take(s, h);
    hide Injective, Distinct, SlotsBelow, Range, Elements;
    RangeInsert(s.offs, h, s1.offs[h]);
    if |s.free| > 0 {
      ElemsOfPop(s.free);
    } else {
      SlotsGrow(s.next);
      assert Elements(s.free) == {} by { NoElems(s.free); }
    }
  }

  lemma NoElems(q: seq<nat>)
    requires |q| == 0
    ensures Elements(q) == {}
  {
  }

  lemma GiveKeepsPartition<K>(s: Space<K>, h: K)
    requires Partitioned(s) && h in s.offs
    ensures Partitioned(Give(s, h))
  {
    hide Injective, Distinct, SlotsBelow, Range, Elements;
    RangeHas(s.offs, h);
    RangeRemove(s.offs, h);
    ElemsOfPush(s.free, s.offs[h]);
  }

  lemma {:induction false} TakeAllKeepsPartition<K>(s: Space<K>, order: seq<K>)
    requires Partitioned(s) && Distinct(order) && forall h :: h in order ==> h !in s.offs
    ensures Partitioned(TakeAll(s, order)) && TakeAll(s, order).offs.Keys == s.offs.Keys + Elements(order)
    decreases |order|
  {
    hide Partitioned;
    if order != [] {
      var n := |order| - 1;
      TakeAllKeepsPartition(s, order[..n]);
      assert order == order[..n] + [order[n]];
      assert Elements(order) == Elements(order[..n]) + {order[n]};
      assert order[n] !in order[..n];
      TakeKeepsPartition(TakeAll(s, order[..n]), order[n]);
    }
  }

  // ---------- Which slots are taken ----------

  /** The k-th slot that will be handed out: the free list from its end, then growth. */
  ghost function Slot(free: seq<nat>, next: nat, k: nat): nat {
    if k < |free| then free[|free| - 1 - k] else next + BLOCK * (k - |free|)
  }

  ghost function FreeAfter(free: seq<nat>, k: nat): seq<nat> {
    if k <= |free| then free[..|free| - k] else []
  }

  ghost function NextAfter(free: seq<nat>, next: nat, k: nat): nat {
    if k <= |free| then next else next + BLOCK * (k - |free|)
  }

  lemma {:induction false} TakeAllSpace<K>(s: Space<K>, order: seq<K>)
    ensures var t := TakeAll(s, order);
            t.free == FreeAfter(s.free, |order|) && t.next == NextAfter(s.free, s.next, |order|)
    decreases |order|
  {
    if order != [] {
      TakeAllSpace(s, order[..|order| - 1]);
    }
  }

  /** Blocks get their slots in order; the others keep theirs. */
  lemma {:induction false} TakeAllSlots<K>(s: Space<K>, order: seq<K>)
    requires Distinct(order)
    ensures var t := TakeAll(s, order);
            && (forall k :: 0 <= k < |order| ==> order[k] in t.offs && t.offs[order[k]] == Slot(s.free, s.next, k))
            && (forall h :: h in s.offs && h !in order ==> h in t.offs && t.offs[h] == s.offs[h])
    decreases |order|
  {
    if order != [] {
      var n := |order| - 1;
      TakeAllSlots(s, order[..n]);
      TakeAllSpace(s, order[..n]);
      var t := TakeAll(s, order[..n]);
      TakesSlot(s, t, n);
      assert order[n] !in order[..n];
      hide Slot, FreeAfter, NextAfter;
      forall k | 0 <= k < n
        ensures order[k] in t.offs && t.offs[order[k]] == Slot(s.free, s.next, k) && order[k] != order[n]
      {
        assert order[..n][k] == order[k];
      }
    }
  }

  lemma TakesSlot<K>(s: Space<K>, t: Space<K>, k: nat)
    requires t.free == FreeAfter(s.free, k) && t.next == NextAfter(s.free, s.next, k)
    ensures forall h :: Take(t, h).offs == t.offs[h := Slot(s.free, s.next, k)]
  {
  }

  // ---------- Counting slots ----------

  lemma {:induction false} RangeSize<K>(m: map<K, nat>)
    requires Injective(m)
    ensures |Range(m)| == |m|
    decreases |m|
  {
    if m == map[] {
      assert Range(m) == {};
    } else {
      var h :| h in m;
      RangeRemove(m, h);
      RangeHas(m, h);
      RangeSize(m - {h});
    }
  }

  lemma {:induction false} ElemsSize<T>(q: seq<T>)
    requires Distinct(q)
    ensures |Elements(q)| == |q|
  {
    if q == [] {
      assert Elements(q) == {};
    } else {
      var n := |q| - 1;
      assert q == q[..n] + [q[n]];
      assert q[n] !in q[..n];
      ElemsSize(q[..n]);
      ElemsOfPush(q[..n], q[n]);
    }
  }

  lemma {:induction false} SlotsSize(k: nat)
    ensures |SlotsBelow(BLOCK * k)| == k
  {
    if k == 0 {
      assert SlotsBelow(0) == {};
    } else {
      SlotsSize(k - 1);
      SlotsGrow(BLOCK * (k - 1));
    }
  }

  /** The high-water offset counts live and free slots. */
  lemma SlotsAreUsed<K>(s: Space<K>)
    requires Partitioned(s)
    ensures s.next == BLOCK * (|s.offs| + |s.free|)
  {
    hide SlotsBelow, Range, Elements, Injective, Distinct;
    RangeSize(s.offs);
    ElemsSize(s.free);
    SlotsSize(s.next / BLOCK);
    assert s.next == BLOCK * (s.next / BLOCK);
    assert |Range(s.offs) + Elements(s.free)| == |Range(s.offs)| + |Elements(s.free)|;
  }
}

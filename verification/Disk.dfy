/** Buffers as sequences of blocks, and the backend file. */
module Disk {
  import opened Basics
  import opened Space

  type Block = b: seq<byte> | |b| == 4096 witness seq(4096, _ => 0)

  // ---------- Blocks ----------

  function Flatten(bs: seq<Block>): (r: seq<byte>)
    ensures |r| == BLOCK * |bs|
  {
    if bs == [] then [] else Flatten(bs[..|bs| - 1]) + bs[|bs| - 1]
  }

  function BlockAt(data: seq<byte>, i: nat): Block
    requires BLOCK * (i + 1) <= |data|
  {
    data[BLOCK * i..BLOCK * i + BLOCK]
  }

  /** The blocks of a buffer whose size is a multiple of a block. */
  function Split(data: seq<byte>): (bs: seq<Block>)
    ensures |bs| == |data| / BLOCK && forall i :: 0 <= i < |bs| ==> bs[i] == BlockAt(data, i)
  {
    seq(|data| / BLOCK, i requires 0 <= i < |data| / BLOCK => BlockAt(data, i))
  }

  lemma {:induction false} FlattenAt(bs: seq<Block>, i: nat)
    requires i < |bs|
    ensures BlockAt(Flatten(bs), i) == bs[i]
  {
    var n := |bs| - 1;
    if i < n {
      FlattenAt(bs[..n], i);
      assert BlockAt(Flatten(bs), i) == BlockAt(Flatten(bs[..n]), i);
    }
  }

  lemma {:induction false} FlattenAppend(a: seq<Block>, b: seq<Block>)
    ensures Flatten(a + b) == Flatten(a) + Flatten(b)
    decreases |b|
  {
    if b == [] {
      assert a + b == a;
    } else {
      var n := |b| - 1;
      assert (a + b)[..|a + b| - 1] == a + b[..n];
      FlattenAppend(a, b[..n]);
    }
  }

  lemma {:induction false} FlattenSplit(data: seq<byte>)
    requires |data| % BLOCK == 0
    ensures Flatten(Split(data)) == data
    decreases |data|
  {
    if data != [] {
      var n := |data| / BLOCK - 1;
      var head := data[..BLOCK * n];
      FlattenSplit(head);
      forall i | 0 <= i < n
        ensures BlockAt(head, i) == BlockAt(data, i)
      {
      }
      assert Split(head) == Split(data)[..n];
      assert data == head + Split(data)[n];
    }
  }

  lemma FlattenInjective(a: seq<Block>, b: seq<Block>)
    requires Flatten(a) == Flatten(b)
    ensures a == b
  {
    forall i | 0 <= i < |a|
      ensures a[i] == b[i]
    {
      FlattenAt(a, i);
      FlattenAt(b, i);
    }
  }

  // ---------- The backend file ----------

  /** A write past the end of a file fills the gap with zeros. */
  function Extended(disk: seq<byte>, n: nat): (r: seq<byte>)
    ensures |r| >= n && |r| >= |disk| && r[..|disk|] == disk
  {
    if |disk| >= n then disk else disk + seq(n - |disk|, _ => 0)
  }

  function PWrite(disk: seq<byte>, off: nat, data: Block): (r: seq<byte>)
    ensures |r| >= |disk| && |r| >= off + BLOCK
  {
    var d := Extended(disk, off + BLOCK);
    d[..off] + data + d[off + BLOCK..]
  }

  /** The block at an offset; what lies past the end of the file reads as nothing, so it is left undefined. */
  function PRead(disk: seq<byte>, off: nat): Block
    requires off + BLOCK <= |disk|
  {
    disk[off..off + BLOCK]
  }

  lemma ReadBack(disk: seq<byte>, off: nat, data: Block)
    ensures PRead(PWrite(disk, off, data), off) == data
  {
  }

  /** A write changes no other slot. */
  lemma ReadElsewhere(disk: seq<byte>, off: nat, data: Block, o: nat)
    requires o + BLOCK <= |disk| && (o + BLOCK <= off || off + BLOCK <= o)
    ensures PRead(PWrite(disk, off, data), o) == PRead(disk, o)
  {
    var d := Extended(disk, off + BLOCK);
    assert forall k :: 0 <= k < |disk| ==> d[k] == d[..|disk|][k] == disk[k];
    var w := PWrite(disk, off, data);
    forall k | o <= k < o + BLOCK
      ensures w[k] == disk[k]
    {
    }
  }

  lemma SlotsApart(a: nat, b: nat)
    requires a % BLOCK == 0 && b % BLOCK == 0 && a != b
    ensures a + BLOCK <= b || b + BLOCK <= a
  {
  }
}

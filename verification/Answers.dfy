/** What single calls answer, byte for byte and name for name. */
module Answers {
  import opened Basics
  import opened Space
  import opened Disk
  import opened StoreModel
  import opened Runs

  // ---------- Reading ----------

  /** Byte i of the file's blocks in a row stands in block i / 4096 at i % 4096. */
  lemma FlattenByte(bs: seq<Block>, i: nat)
    requires i < 4096 * |bs|
    ensures Flatten(bs)[i] == bs[i / 4096][i % 4096]
  {
    var k := i / 4096;
    FlattenAt(bs, k);
    assert BlockAt(Flatten(bs), k)[i % 4096] == Flatten(bs)[i];
  }

  /** On the plain map: as many bytes as are there from the position on, at most `size`, and byte k of the answer is
      byte off + k of the file. */
  lemma PlainReadAnswers(fs: Plain, path: Path, size: nat, off: nat)
    ensures var r := PlainStep(fs, ReadCall(path, size, off));
            && r.0 == fs
            && (size % 4096 != 0 ==> r.1 == Status(Failed(EINVAL)))
            && (size % 4096 == 0 && path !in fs ==> r.1 == Status(Failed(ENOENT)))
            && (size % 4096 == 0 && path in fs ==>
                  && r.1.Data?
                  && |r.1.bytes| == (if off >= |fs[path]| then 0 else if size <= |fs[path]| - off then size else |fs[path]| - off)
                  && forall k :: 0 <= k < |r.1.bytes| ==> r.1.bytes[k] == fs[path][off + k])
  {
  }

  /** Position i of the file with this list has byte b: it stands in the backend file where the index has block i / 4096
      of the list, at i % 4096. */
  ghost predicate HasByte(s: State, list: seq<Hash>, i: nat, b: byte) {
    && i < 4096 * |list| && list[i / 4096] in s.index
    && s.index[list[i / 4096]].offset + i % 4096 < |s.disk|
    && s.disk[s.index[list[i / 4096]].offset + i % 4096] == b
  }

  /** In the store: the same, byte by byte of the backend file. */
  lemma ReadAnswers(hash: HashFunction, s: State, path: Path, size: nat, off: nat)
    requires Good(hash, s)
    ensures Legal(s, ReadCall(path, size, off))
    ensures var r := Step(hash, s, ReadCall(path, size, off));
            && r.0 == s
            && (size % 4096 != 0 ==> r.1 == Status(Failed(EINVAL)))
            && (size % 4096 == 0 && path !in s.files ==> r.1 == Status(Failed(ENOENT)))
    ensures size % 4096 == 0 && path in s.files ==>
              var r, list := Step(hash, s, ReadCall(path, size, off)).1, s.files[path].list;
              var n := 4096 * |list|;
              && r.Data?
              && |r.bytes| == (if off >= n then 0 else if size <= n - off then size else n - off)
              && forall k :: 0 <= k < |r.bytes| ==> HasByte(s, list, off + k, r.bytes[k])
  {
    if path in s.files {
      ListedIsReadable(hash, s, path);
      if size % 4096 == 0 { RangeOfFile(s, path, size, off); }
    }
    hide Good, HasByte;
  }

  lemma RangeOfFile(s: State, path: Path, size: nat, off: nat)
    requires path in s.files && (forall h :: h in s.files[path].list ==> Readable(s, h)) && size % 4096 == 0
    ensures var r, list := Read(s, path, size, off), s.files[path].list;
            && r.Data?
            && |r.bytes| == (if off >= 4096 * |list| then 0 else if size <= 4096 * |list| - off then size else 4096 * |list| - off)
            && forall k :: 0 <= k < |r.bytes| ==> HasByte(s, list, off + k, r.bytes[k])
  {
    var r, list := Read(s, path, size, off), s.files[path].list;
    hide HasByte;
    forall k | 0 <= k < |r.bytes|
      ensures HasByte(s, list, off + k, r.bytes[k])
    {
      assert r.bytes[k] == FileBytes(s, path)[off + k];
      ByteOfFile(s, path, off + k);
    }
  }

  lemma ByteOfFile(s: State, path: Path, i: nat)
    requires path in s.files && (forall h :: h in s.files[path].list ==> Readable(s, h)) && i < 4096 * |s.files[path].list|
    ensures HasByte(s, s.files[path].list, i, FileBytes(s, path)[i])
  {
    var h := s.files[path].list[i / 4096];
    assert h in s.files[path].list;
    FlattenByte(Contents(s, s.files[path].list), i);
  }

  // ---------- Names ----------

  /** The store's own two files can be neither looked at nor unlinked, whatever the backend says. */
  lemma OwnFilesAreProtected(hash: HashFunction, s: State, fs: Plain, path: Path, lstat: Stat, backend: Option<nat>, order: seq<Hash>)
    requires path == "/backend/.metadata" || path == "/backend/.sysdata"
    ensures Legal(s, UnlinkCall(path, backend, order))
    ensures Step(hash, s, GetattrCall(path, lstat)) == (s, Status(Failed(ENOENT)))
    ensures Step(hash, s, UnlinkCall(path, backend, order)) == (s, Status(Failed(EPERM)))
    ensures PlainStep(fs, GetattrCall(path, lstat)) == (fs, Status(Failed(ENOENT)))
    ensures PlainStep(fs, UnlinkCall(path, backend, order)) == (fs, Status(Failed(EPERM)))
  {
    hide Removed, OrderOf;
  }

  /** For every other name getattr answers with the error of lstat, with the size in the table and its blocks of 512
      bytes, or with what lstat says. */
  lemma GetattrAnswers(hash: HashFunction, s: State, fs: Plain, path: Path, lstat: Stat)
    requires path != "/backend/.metadata" && path != "/backend/.sysdata"
    ensures var r := Step(hash, s, GetattrCall(path, lstat));
            r.0 == s && r.1 == match lstat
                               case NoStat(code) => Status(Failed(Other(code)))
                               case Stat(size, blocks) =>
                                 if path in s.files then Attr(s.files[path].logicalSize, (s.files[path].logicalSize + 511) / 512)
                                 else Attr(size, blocks)
    ensures var r := PlainStep(fs, GetattrCall(path, lstat));
            r.0 == fs && r.1 == match lstat
                                case NoStat(code) => Status(Failed(Other(code)))
                                case Stat(size, blocks) =>
                                  if path in fs then Attr(|fs[path]|, (|fs[path]| + 511) / 512) else Attr(size, blocks)
  {
  }

  /** For every other name unlink fails if the table does not have it, or with the error of the backend, and both times
      changes nothing; otherwise the path is gone and every other file has the list and sizes it had. */
  lemma UnlinkAnswers(hash: HashFunction, s: State, path: Path, backend: Option<nat>, order: seq<Hash>)
    requires path != "/backend/.metadata" && path != "/backend/.sysdata" && Legal(s, UnlinkCall(path, backend, order))
    ensures var r := Step(hash, s, UnlinkCall(path, backend, order));
            && (path !in s.files ==> r == (s, Status(Failed(ENOENT))))
            && (path in s.files && backend.Some? ==> r == (s, Status(Failed(Other(backend.value)))))
            && (path in s.files && backend.None? ==> r.0.files == s.files - {path} && r.0.disk == s.disk && r.1 == Status(Done(0)))
  {
    hide OrderOf, Released;
  }
}

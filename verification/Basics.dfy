/** Names and values that several parts of the model share. */
module Basics {
  type byte = x: int | 0 <= x < 0x100

  type Path = string

  /** SHA-512 of a block, as the 512-bit number its bytes spell; memcmp orders ids as numbers. */
  type Hash = nat

  datatype Option<T> = None | Some(value: T)

  /** The store's own files, which no operation may touch. */
  predicate Reserved(path: Path) {
    path == "/backend/.metadata" || path == "/backend/.sysdata"
  }

  /** One past the index of the last block of a read. A read of nothing at position 0 computes
      (0 + 0 - 1) / 4096 in unsigned arithmetic, which the cast to int turns into -1. */
  function EndIndex(off: nat, clipped: nat): nat {
    if off + clipped == 0 then 0 else (off + clipped - 1) / 4096 + 1
  }
}

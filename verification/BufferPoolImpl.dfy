/** The pool of chunk-sized buffers as it is written. */
module BufferPoolImpl {
  import opened Basics

  /** A slice header over a fixed array: callers may shorten it. */
  class Buffer {
    const backing: array<byte>
    var length: nat

    constructor ()
      ensures fresh(backing) && backing.Length == CHUNK_SIZE && length == CHUNK_SIZE
    {
      backing, length := new byte[CHUNK_SIZE], CHUNK_SIZE;
    }
  }

  class BufferPool {
    var free: set<Buffer>
    ghost var lent: set<Buffer>

    /** No buffer is free and lent out at once, none shares its bytes with another, and every
        one has room for a chunk. */
    ghost predicate Valid()
      reads this
    {
      && free !! lent
      && (forall b | b in free + lent :: b.backing.Length == CHUNK_SIZE)
      && (forall b, c | b in free + lent && c in free + lent && b != c :: b.backing != c.backing)
    }

    constructor ()
      ensures Valid() && free == {} && lent == {}
    {
      free, lent := {}, {};
    }

    /** A free buffer, or a new one: which, and whether the pool has forgotten some, is not
        known. Its length is reset, whatever the last user left. */
    method Get(reused: Option<Buffer>) returns (b: Buffer)
      requires Valid() && (reused.Some? ==> reused.value in free)
      modifies this, free
      ensures Valid() && b.length == CHUNK_SIZE && b.backing.Length == CHUNK_SIZE
      ensures b !in old(lent) && lent == old(lent) + {b} && free == old(free) - {b}
      ensures forall c | c in old(lent) :: c.backing != b.backing && c.length == old(c.length)
      ensures if reused.Some? then b == reused.value else fresh(b) && fresh(b.backing)
    {
      if reused.Some? {
        b := reused.value;
      } else {
        b := new Buffer();
      }
      free, lent := free - {b}, lent + {b};
      b.length := CHUNK_SIZE;
    }

    method Put(b: Buffer)
      requires Valid() && b in lent
      modifies this
      ensures Valid() && free == old(free) + {b} && lent == old(lent) - {b}
    {
      free, lent := free + {b}, lent - {b};
    }
  }
}

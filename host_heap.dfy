/**
 * The process heap as far as Create and Destroy use it: `new` hands out a
 * fresh address holding a record, `delete` releases it. Reading or deleting an
 * address that is not live is undefined behaviour in C++, so those calls
 * require a live address.
 */
module HostHeap {

  type Addr = nat

  class Heap<T> {
    var blocks: map<Addr, T>
    var next: Addr

    ghost predicate Valid()
      reads this
    {
      forall a :: a in blocks ==> a < next
    }

    constructor ()
      ensures Valid() && blocks == map[]
    {
      blocks := map[];
      next := 0;
    }

    /** `new`: a fresh address, not live before, now holding v. */
    method New(v: T) returns (a: Addr)
      requires Valid()
      modifies this
      ensures Valid()
      ensures a !in old(blocks) && blocks == old(blocks)[a := v]
    {
      a := next;
      blocks := blocks[a := v];
      next := next + 1;
    }

    /** A store into a live object. */
    method Write(a: Addr, v: T)
      requires Valid() && a in blocks
      modifies this
      ensures Valid() && blocks == old(blocks)[a := v]
    {
      blocks := blocks[a := v];
    }

    /** `delete`: the object at a is no longer live; nothing else changes. */
    method Delete(a: Addr)
      requires Valid() && a in blocks
      modifies this
      ensures Valid() && blocks == old(blocks) - {a}
    {
      blocks := blocks - {a};
    }
  }

  /** Storing into the first of three distinct freshly written addresses. */
  lemma OverwriteFirst<V>(m: map<Addr, V>, a: Addr, b: Addr, c: Addr, va: V, vb: V, vc: V, w: V)
    requires a != b && a != c
    ensures m[a := va][b := vb][c := vc][a := w] == m[a := w][b := vb][c := vc]
  {
  }

  /** Storing into the second of three distinct freshly written addresses. */
  lemma OverwriteSecond<V>(m: map<Addr, V>, a: Addr, b: Addr, c: Addr, va: V, vb: V, vc: V, w: V)
    requires b != c
    ensures m[a := va][b := vb][c := vc][b := w] == m[a := va][b := w][c := vc]
  {
  }
}

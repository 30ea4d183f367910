/**
 * The COM `IUnknown` reference-count contract, over an abstract table of
 * GPU objects. Objects are numbered in creation order from 0, and every
 * object the device ever created has an entry; an object is alive while
 * its count is positive. `AddRef` and `Release` are only
 * defined on live objects: touching a freed object, or releasing more often
 * than acquired, is the programming error the preconditions rule out.
 */
module RefCount {

  /** A pointer to a device object: `Null` is `nullptr`. */
  datatype Ptr = Null | Obj(id: nat)

  /** Reference count of every object, indexed by id. */
  type Counts = seq<nat>

  predicate Live(c: Counts, p: Ptr)
  {
    p.Obj? && p.id < |c| && c[p.id] > 0
  }

  /** `p->AddRef()` */
  function AddRef(c: Counts, p: Ptr): Counts
    requires Live(c, p)
  {
    c[p.id := c[p.id] + 1]
  }

  /** `p->Release()` */
  function Release(c: Counts, p: Ptr): Counts
    requires Live(c, p)
  {
    c[p.id := c[p.id] - 1]
  }

  /** Handing out a reference and giving it back leaves the table as it was. */
  lemma BorrowReturn(c: Counts, p: Ptr)
    requires Live(c, p)
    ensures Live(AddRef(c, p), p)
    ensures Release(AddRef(c, p), p) == c
  {
  }
}

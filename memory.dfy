/** The C++ free store, reduced to what the image classes need: the set of objects that were
    created with `new` and have not been passed to `delete` yet. */
module Memory {

  class Heap {
    /** Objects currently allocated and not yet released. */
    var live: set<object>

    constructor ()
      ensures live == {}
    {
      live := {};
    }

    /** Records the result of a `new` expression. */
    method Adopt(o: object)
      requires o !in live
      modifies this
      ensures live == old(live) + {o}
    {
      live := live + {o};
    }

    /** `delete o`. Deleting a null pointer does nothing; deleting an object that is not live is
        a double free, so it is excluded. */
    method Delete(o: object?)
      requires o != null ==> o in live
      modifies this
      ensures o == null ==> live == old(live)
      ensures o != null ==> live == old(live) - {o}
    {
      if o != null {
        live := live - {o};
      }
    }
  }
}

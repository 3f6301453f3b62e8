/**
 * A mutable set of names: the `java.util.HashSet<String>` the validators
 * fill in loops and then shrink in place with `removeAll` and `removeIf`.
 * Iteration order is not modelled; only the contents are.
 */
module NameSets {

  class NameSet {
    var elems: set<string>

    /** `new HashSet<>()` */
    constructor ()
      ensures elems == {}
    {
      elems := {};
    }

    /** `new HashSet<>(other)`: a fresh set with the same contents. */
    constructor Copy(other: NameSet)
      ensures elems == other.elems
    {
      elems := other.elems;
    }

    /** `contains`: membership in the current contents. */
    predicate Contains(x: string)
      reads this
      ensures Contains(x) <==> x in elems
    {
      x in elems
    }

    /** `add(x)` */
    method Add(x: string)
      modifies this
      ensures elems == old(elems) + {x}
    {
      elems := elems + {x};
    }

    /** `removeAll(other)` */
    method RemoveAll(other: NameSet)
      modifies this
      ensures elems == old(elems) - old(other.elems)
    {
      elems := elems - other.elems;
    }

    /** `removeIf(drop)` */
    method RemoveIf(drop: string -> bool)
      modifies this
      ensures elems == set x | x in old(elems) && !drop(x)
    {
      elems := set x | x in elems && !drop(x);
    }
  }
}

/** The tagged value representation and the growable value array of value.cpp. */
module Values {
  import opened Memory

  /** Heap objects are addressed by their index in the heap arena (see module Objects). */
  type ObjRef = nat

  /**
   * Value: the tagged union of value.h. Numbers are modelled as reals; the
   * double-precision behaviour of the source is not part of this model.
   */
  datatype Value =
    | BoolVal(boolean: bool)
    | NumberVal(number: real)
    | CharVal(character: char)
    | ObjectVal(obj: ObjRef)
    | NullVal

  /**
   * values_equal: same tag and same payload, objects by identity; two nulls
   * are NOT equal because the null tag falls to the default branch.
   */
  function ValuesEqual(a: Value, b: Value): (r: bool)
    ensures r <==> a == b && !a.NullVal?
  {
    if a.BoolVal? && b.BoolVal? then a.boolean == b.boolean
    else if a.NumberVal? && b.NumberVal? then a.number == b.number
    else if a.CharVal? && b.CharVal? then a.character == b.character
    else if a.ObjectVal? && b.ObjectVal? then a.obj == b.obj
    else false
  }

  /** Values whose tags differ never compare equal. */
  lemma DifferentTagsNeverEqual(a: Value, b: Value)
    requires a.BoolVal? != b.BoolVal? || a.NumberVal? != b.NumberVal? || a.CharVal? != b.CharVal? || a.ObjectVal? != b.ObjectVal?
    ensures !ValuesEqual(a, b)
  {
  }

  /** Null is not equal to itself. */
  lemma NullNotEqualToNull()
    ensures !ValuesEqual(NullVal, NullVal)
  {
  }

  /** Two object values are equal exactly when they reference the same heap object. */
  lemma ObjectsCompareByIdentity(x: ObjRef, y: ObjRef)
    ensures ValuesEqual(ObjectVal(x), ObjectVal(y)) <==> x == y
  {
  }

  /**
   * ValueArray: an append-only array that grows by GROW_CAPACITY. The slots
   * written so far are `values`; `capacity` is the size of the allocation.
   */
  class ValueArray {
    var count: int
    var capacity: int
    var values: seq<Value>

    ghost predicate Valid()
      reads this
    {
      0 <= count == |values| <= capacity
    }

    constructor ()
      ensures Valid() && count == 0 && capacity == 0 && values == []
    {
      count, capacity, values := 0, 0, [];
    }

    /** write: store at index count, grow first when full. */
    method Write(value: Value)
      requires Valid()
      modifies this
      ensures Valid()
      ensures count == old(count) + 1
      ensures values == old(values) + [value]
      ensures capacity == if old(capacity) < old(count) + 1 then GrowCapacity(old(capacity)) else old(capacity)
    {
      if capacity < count + 1 {
        var oldCapacity := capacity;
        capacity := GrowCapacity(oldCapacity);
      }
      values := values + [value];
      count := count + 1;
    }

    /** init: the empty array with no allocation. */
    method Init()
      modifies this
      ensures Valid() && count == 0 && capacity == 0 && values == []
    {
      count, capacity, values := 0, 0, [];
    }

    /** free: release the allocation, then init. */
    method Free()
      modifies this
      ensures Valid() && count == 0 && capacity == 0 && values == []
    {
      Init();
    }
  }
}

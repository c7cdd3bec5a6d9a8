/** The capacity arithmetic of memory.h; the raw reallocation itself is left to Dafny. */
module Memory {
  /** GROW_CAPACITY: a buffer grows to 8 slots when it is smaller than 8, otherwise it doubles. */
  function GrowCapacity(capacity: nat): (r: nat)
    ensures r > capacity && r >= 8
    ensures capacity >= 8 ==> r == 2 * capacity
  {
    if capacity < 8 then 8 else 2 * capacity
  }
}

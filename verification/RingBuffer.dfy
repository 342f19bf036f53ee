/** ring_buffer.h. */
module RingBuffer {

  /** The index after `i` in a ring of `n` slots. */
  function Next(i: nat, n: nat): (r: nat)
    requires i < n
    ensures r == if i + 1 == n then 0 else i + 1
  {
    (i + 1) % n
  }

  class Ring<T(0)> {
    const data: array<T>
    var head: nat
    var tail: nat
    var count: nat

    constructor (capacity: nat)
      requires capacity > 0
      ensures Valid() && Contents() == [] && data.Length == capacity && fresh(data)
    {
      data := new T[capacity];
      head, tail, count := 0, 0, 0;
    }

    ghost predicate Valid()
      reads this
    {
      data.Length > 0 && head < data.Length && tail < data.Length && count <= data.Length &&
      head == Slot(count)
    }

    /** Where the element `k` places behind the tail is stored. */
    ghost function Slot(k: nat): (i: nat)
      requires tail < data.Length && k <= data.Length
      reads this
      ensures i < data.Length
    {
      if tail + k < data.Length then tail + k else tail + k - data.Length
    }

    /** What is buffered, oldest first. */
    ghost function Contents(): (s: seq<T>)
      requires Valid()
      reads this, data
      ensures |s| == count
    {
      seq(count, k requires 0 <= k < count && Valid() reads this, data => data[Slot(k)])
    }

    /** RING_BUFFER_PUT; false if the ring is full. */
    method Put(value: T) returns (ok: bool)
      requires Valid()
      modifies this, data
      ensures Valid() && ok == (|old(Contents())| < data.Length)
      ensures Contents() == if ok then old(Contents()) + [value] else old(Contents())
    {
      if count >= data.Length {
        return false;
      }
      ghost var s := Contents();
      data[head] := value;
      head := Next(head, data.Length);
      count := count + 1;
      assert Contents() == s + [value];
      return true;
    }

    /** RING_BUFFER_GET; nothing if the ring is empty. */
    method Get() returns (ok: bool, value: T)
      requires Valid()
      modifies this
      ensures Valid() && ok == (old(Contents()) != [])
      ensures if ok then old(Contents()) == [value] + Contents() else Contents() == old(Contents())
    {
      value := data[tail];
      if count == 0 {
        return false, value;
      }
      ghost var s := Contents();
      tail := Next(tail, data.Length);
      count := count - 1;
      assert s == [value] + Contents();
      return true, value;
    }
  }
}

/** The fixed-size ring of queues between the two threads of the prefetching iterator. */
module CircularBuffers {
  datatype Option<T> = None | Some(value: T)

  /** The index after the last cell is the first. */
  function Wrap(i: nat, n: nat): (r: nat)
    requires 0 < n && i <= n
    ensures r == if i == n then 0 else i
  {
    i % n
  }

  class CircularBuffer<T(0)> {
    const buffer: array<T>
    const capacity: nat
    var front: nat
    var tail: nat

    ghost predicate Valid()
      reads this
    {
      buffer.Length == capacity && front < capacity && tail < capacity
    }

    /** The elements from the front to the tail, wrapping around. */
    ghost function Contents(): seq<T>
      requires Valid()
      reads this, buffer
    {
      if tail < front then buffer[front..] + buffer[..tail] else buffer[front..tail]
    }

    constructor (n: nat)
      requires n >= 1
      ensures Valid() && fresh(buffer) && capacity == n && Contents() == []
    {
      buffer := new T[n];
      capacity, front, tail := n, 0, 0;
    }

    function Size(): nat
      requires Valid()
      reads this
    {
      if tail < front then capacity - front + tail else tail - front
    }

    lemma SizeIsLength()
      requires Valid()
      ensures Size() == |Contents()| < capacity
    {
    }

    /** add has no check: one free cell short of full it appends, and in the last free cell it makes
        the buffer read as empty, losing everything. */
    method Add(item: T)
      requires Valid()
      modifies this`tail, buffer
      ensures Valid()
      ensures |old(Contents())| < capacity - 1 ==> Contents() == old(Contents()) + [item]
      ensures |old(Contents())| == capacity - 1 ==> Contents() == []
    {
      SizeIsLength();
      buffer[tail] := item;
      tail := tail + 1;
      if tail == capacity {
        tail := 0;
      }
    }

    /** pop throws on an empty buffer. */
    method Pop() returns (r: Option<T>)
      requires Valid()
      modifies this`front
      ensures Valid()
      ensures old(Contents()) == [] ==> r.None? && Contents() == []
      ensures old(Contents()) != [] ==> r == Some(old(Contents())[0]) && Contents() == old(Contents())[1..]
    {
      SizeIsLength();
      if Size() == 0 {
        return None;
      }
      hide Wrap;
      r := Some(buffer[front]);
      front := Wrap(front + 1, capacity);
    }

    /** front throws on an empty buffer. */
    method Front() returns (r: Option<T>)
      requires Valid()
      ensures r == if Contents() == [] then None else Some(Contents()[0])
    {
      SizeIsLength();
      r := if Size() == 0 then None else Some(buffer[front]);
    }
  }
}

/** The circular buffer of ready task ids. The code never checks for a full buffer. */
module ReadyQueues {
  import opened Common

  /** The ids between head and tail, oldest first, as dequeuing would yield them. */
  function Pending<T>(buf: seq<T>, head: nat, tail: nat): (q: seq<T>)
    requires |buf| > 0 && head <= tail
    ensures |q| == tail - head
  {
    seq(tail - head, i requires 0 <= i => buf[(head + i) % |buf|])
  }

  /** Writing at tail disturbs no waiting id as long as there is room. */
  lemma EnqueueKeeps<T>(buf: seq<T>, head: nat, tail: nat, x: T)
    requires |buf| > 0 && head <= tail < head + |buf|
    ensures Pending(buf[tail % |buf| := x], head, tail + 1) == Pending(buf, head, tail) + [x]
  {
    var after := buf[tail % |buf| := x];
    var a, b := Pending(after, head, tail + 1), Pending(buf, head, tail) + [x];
    forall i | 0 <= i < |a| ensures a[i] == b[i] {
      var p := (head + i) % |buf|;
      assert a[i] == after[p];
      if i < tail - head {
        ModInjective(head + i, tail, |buf|);
        assert b[i] == buf[p];
      }
    }
  }

  class ReadyQueue {
    const capacity: nat
    const buf: array<int>
    var head: nat
    var tail: nat

    ghost predicate Valid()
      reads this
    {
      buf.Length == capacity > 0 && head <= tail
    }

    ghost function Contents(): seq<int>
      requires Valid()
      reads this, buf
    {
      Pending(buf[..], head, tail)
    }

    constructor (size: nat)
      requires size > 0
      ensures Valid() && capacity == size && Contents() == [] && fresh(buf)
    {
      capacity := size;
      buf := new int[size](_ => -1);
      head := 0;
      tail := 0;
    }

    /** With room left this appends; beyond that it overwrites every waiting entry that
        shares the new one's place, on a just full buffer the oldest, and x is delivered
        in their stead. */
    method Enqueue(x: int)
      requires Valid()
      modifies this`tail, buf
      ensures Valid() && head == old(head) && tail == old(tail) + 1
      ensures |old(Contents())| < capacity ==> Contents() == old(Contents()) + [x]
      ensures |Contents()| == |old(Contents())| + 1 && Contents()[|old(Contents())|] == x
      ensures forall i :: 0 <= i < |old(Contents())| ==>
                Contents()[i] == if (head + i) % capacity == old(tail) % capacity then x else old(Contents())[i]
      ensures |old(Contents())| == capacity ==> Contents()[0] == x
    {
      ghost var before := buf[..];
      buf[tail % capacity] := x;
      assert buf[..] == before[tail % capacity := x];
      if tail < head + capacity {
        EnqueueKeeps(before, head, tail, x);
      } else if tail == head + capacity {
        WrapsOnce(head, capacity);
      }
      tail := tail + 1;
    }

    method Dequeue() returns (t: int)
      requires Valid()
      modifies this`head
      ensures Valid()
      ensures old(Contents()) == [] ==> t == -1 && head == old(head)
      ensures old(Contents()) != [] ==> t == old(Contents())[0] && Contents() == old(Contents())[1..]
    {
      if head >= tail {
        return -1;
      }
      t := buf[head % capacity];
      head := head + 1;
    }
  }

  lemma WrapsOnce(head: nat, m: nat)
    requires m > 0
    ensures (head + m) % m == head % m
  {
    Distribute(m, head / m, 1);
    DivModUnique(head + m, head / m + 1, head % m, m);
  }
}

/** The ring of task descriptors: the descriptor of task id lives in slot id modulo the
    window, from the allocation of id until that of id + window. */
module TaskRings {
  import opened Common
  import opened Lifecycle

  /** The fields of a descriptor that the orchestrator uses; the two heads are offsets in the
      dependency pool. */
  datatype Descriptor = Descriptor(
    taskId: nat,
    depHead: int, faninCount: nat,
    fanoutHead: int, fanoutCount: nat,
    heapEnd: nat,
    status: Status,
    fanoutRef: nat, faninRef: nat,
    isGroup: bool, groupSize: nat, subDone: nat)

  const BLANK := Descriptor(0, -1, 0, -1, 1, 0, Pending, 0, 0, false, 0, 0)

  /** Of n allocated ids, i is among the last w: no younger task has taken its slot. */
  predicate Owned(n: nat, w: nat, i: int) {
    0 <= i < n <= i + w
  }

  lemma OwnedApart(n: nat, w: nat, i: nat, j: nat)
    requires w > 0 && Owned(n, w, i) && Owned(n, w, j) && i != j
    ensures i % w != j % w
  {
    if i < j { ModInjective(i, j, w); } else { ModInjective(j, i, w); }
  }

  class TaskRing {
    const slots: array<Descriptor>
    var current: nat
    var last: nat

    ghost predicate Valid()
      reads this
    {
      slots.Length > 0 && last <= current <= last + slots.Length
    }

    function Get(id: nat): Descriptor
      requires slots.Length > 0
      reads slots
    {
      slots[id % slots.Length]
    }

    constructor (window: nat)
      requires window > 0
      ensures Valid() && fresh(slots) && slots.Length == window && current == 0 && last == 0
    {
      slots := new Descriptor[window](_ => BLANK);
      current := 0;
      last := 0;
    }

    method Reset()
      requires Valid()
      modifies this, slots
      ensures Valid() && current == 0 && last == 0
      ensures forall i :: 0 <= i < slots.Length ==> slots[i] == BLANK
    {
      current := 0;
      last := 0;
      for i := 0 to slots.Length
        modifies slots
        invariant forall j :: 0 <= j < i ==> slots[j] == BLANK
      {
        slots[i] := BLANK;
      }
    }

    function ActiveCount(): (n: nat)
      requires last <= current
      reads this
      ensures last + n == current
    {
      current - last
    }

    predicate HasSpace()
      requires last <= current
      reads this
    {
      ActiveCount() < slots.Length
    }

    /** Hands out the next id and blanks its slot, or returns -1 when a window of ids is
        unretired. Every unretired descriptor is untouched. */
    method TryAlloc() returns (id: int)
      requires Valid()
      modifies this`current, slots
      ensures Valid()
      ensures old(current) - old(last) < slots.Length <==> id >= 0
      ensures id < 0 ==> id == -1 && current == old(current) && slots[..] == old(slots[..])
      ensures id >= 0 ==> id == old(current) && current == id + 1
                          && slots[..] == old(slots[..])[id % slots.Length := BLANK]
      ensures forall i: nat :: last <= i < old(current) ==> Get(i) == old(Get(i))
    {
      if !HasSpace() {
        return -1;
      }
      id := current;
      current := current + 1;
      slots[id % slots.Length] := BLANK;
      forall i: nat | last <= i < id ensures Get(i) == old(Get(i)) {
        OwnedApart(current, slots.Length, i, id);
      }
    }

    /** A write through the pointer to the descriptor of id: no other id that still has its
        slot sees it. */
    method Put(id: nat, d: Descriptor)
      requires slots.Length > 0
      modifies slots
      ensures slots[..] == old(slots[..])[id % slots.Length := d] && Get(id) == d
      ensures Owned(current, slots.Length, id) ==>
                forall i: nat :: Owned(current, slots.Length, i) && i != id ==> Get(i) == old(Get(i))
    {
      slots[id % slots.Length] := d;
      if Owned(current, slots.Length, id) {
        forall i: nat | Owned(current, slots.Length, i) && i != id ensures Get(i) == old(Get(i)) {
          OwnedApart(current, slots.Length, i, id);
        }
      }
    }

    method SetLastTaskAlive(v: nat)
      modifies this`last
      ensures last == v
    {
      last := v;
    }
  }
}

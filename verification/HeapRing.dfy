/** The ring allocator for task buffers: top and tail count bytes ever handed out
    and ever reclaimed; a byte at logical position p lives at offset p % capacity. */
module HeapRings {
  import opened Common

  datatype Heap = Heap(capacity: nat, top: nat, tail: nat)

  /** Both pointers are ordered and at most one capacity apart. */
  predicate Sane(h: Heap) {
    h.tail <= h.top <= h.tail + h.capacity
  }

  function Used(h: Heap): int {
    if h.top >= h.tail then h.top - h.tail else h.capacity - h.tail + h.top
  }

  function Available(h: Heap): int {
    h.capacity - Used(h)
  }

  /** A block of this size starting at logical position p does not cross the end of the store. */
  predicate Contiguous(capacity: nat, p: nat, size: nat)
    requires capacity > 0
  {
    p % capacity + size <= capacity
  }

  /** Where the next block of this size goes: at top, or past the unusable end of the store. */
  function Start(h: Heap, size: nat): nat
    requires 0 < size <= h.capacity
  {
    if Contiguous(h.capacity, h.top, size) then h.top else h.top + (h.capacity - h.top % h.capacity)
  }

  predicate Fits(h: Heap, size: nat) {
    0 < size <= h.capacity && Start(h, size) + size <= h.tail + h.capacity
  }

  function AllocAt(h: Heap, size: nat): Heap
    requires Fits(h, size)
  {
    h.(top := Start(h, size) + size)
  }

  lemma NextMultiple(top: nat, capacity: nat)
    requires capacity > 0
    ensures (top + (capacity - top % capacity)) % capacity == 0
  {
    Distribute(capacity, top / capacity, 1);
    DivModUnique(top + (capacity - top % capacity), top / capacity + 1, 0, capacity);
  }

  /** Start is first fit: the least position from top on where the block is contiguous. */
  lemma StartIsFirstFit(h: Heap, size: nat)
    requires 0 < size <= h.capacity
    ensures h.top <= Start(h, size)
    ensures Contiguous(h.capacity, Start(h, size), size)
    ensures forall p :: h.top <= p < Start(h, size) ==> !Contiguous(h.capacity, p, size)
  {
    if !Contiguous(h.capacity, h.top, size) {
      NextMultiple(h.top, h.capacity);
      forall p | h.top <= p < Start(h, size) ensures !Contiguous(h.capacity, p, size) {
        RemainderShift(h.top, p - h.top, h.capacity);
      }
    }
  }

  lemma RemainderShift(a: nat, d: nat, m: nat)
    requires m > 0 && a % m + d < m
    ensures (a + d) % m == a % m + d
  {
    DivModUnique(a + d, a / m, a % m + d, m);
  }

  /** A block of this size can go to position p: from top on, in one piece, and clear of the
      bytes that have not been reclaimed. */
  predicate FreeAt(h: Heap, size: nat, p: nat) {
    && 0 < size <= h.capacity
    && h.top <= p && p % h.capacity + size <= h.capacity && p + size <= h.tail + h.capacity
  }

  /** A request is served if and only if there is any place for it; it gets the first one,
      and top moves to its end. */
  lemma FitsExactly(h: Heap, size: nat)
    ensures Fits(h, size) <==> exists p: nat :: FreeAt(h, size, p)
    ensures Fits(h, size) ==> var p := Start(h, size);
                              && FreeAt(h, size, p) && (forall q: nat :: FreeAt(h, size, q) ==> p <= q)
                              && AllocAt(h, size) == Heap(h.capacity, p + size, h.tail)
  {
    if 0 < size <= h.capacity {
      StartIsFirstFit(h, size);
      assert Contiguous(h.capacity, Start(h, size), size);
      forall q: nat | FreeAt(h, size, q) ensures Start(h, size) <= q { assert Contiguous(h.capacity, q, size); }
      if Fits(h, size) { assert FreeAt(h, size, Start(h, size)); }
    }
  }

  /** An empty ring serves a request at every position of top exactly when twice the
      request is at most one more than the capacity. */
  lemma ExactAllocationBound(capacity: nat, size: nat)
    ensures (forall top: nat :: Fits(Heap(capacity, top, top), size)) <==> (0 < size && 2 * size <= capacity + 1)
  {
    if 0 < size && 2 * size <= capacity + 1 {
      forall top: nat ensures Fits(Heap(capacity, top, top), size) {
      }
    } else if 0 < size <= capacity {
      // One byte before the block's own length is too late to fit and too early to skip.
      var top := size - 1;
      assert top % capacity == top;
      assert !Fits(Heap(capacity, top, top), size);
    } else {
      assert !Fits(Heap(capacity, 0, 0), size);
    }
  }

  // ---- Whole runs -------------------------------------------------------

  /** A block handed out, by the logical position of its first byte. */
  datatype Region = Region(start: nat, size: nat)

  datatype HeapOp = Alloc(size: nat) | Retire(newTail: nat)

  datatype HeapRun = HeapRun(heap: Heap, regions: seq<Region>)

  predicate OpEnabled(r: HeapRun, op: HeapOp) {
    op.Retire? ==> r.heap.tail <= op.newTail <= r.heap.top
  }

  function ApplyOp(r: HeapRun, op: HeapOp): HeapRun
    requires OpEnabled(r, op)
  {
    match op
    case Alloc(size) =>
      if Fits(r.heap, size) then
        HeapRun(AllocAt(r.heap, size), r.regions + [Region(Start(r.heap, size), size)])
      else r
    case Retire(newTail) => r.(heap := r.heap.(tail := newTail))
  }

  /** A run: the states passed through from an empty heap by the given operations. */
  ghost predicate IsHeapRun(capacity: nat, ops: seq<HeapOp>, states: seq<HeapRun>) {
    && |states| == |ops| + 1
    && states[0] == HeapRun(Heap(capacity, 0, 0), [])
    && (forall i :: 0 <= i < |ops| ==> OpEnabled(states[i], ops[i]) && states[i + 1] == ApplyOp(states[i], ops[i]))
  }

  /** Regions are laid out in allocation order, each contiguous, none past top. */
  ghost predicate Layout(r: HeapRun) {
    && Sane(r.heap)
    && (forall i :: 0 <= i < |r.regions| ==>
          && 0 < r.regions[i].size <= r.heap.capacity
          && Contiguous(r.heap.capacity, r.regions[i].start, r.regions[i].size)
          && r.regions[i].start + r.regions[i].size <= r.heap.top)
    && (forall i, j :: 0 <= i < j < |r.regions| ==>
          r.regions[i].start + r.regions[i].size <= r.regions[j].start)
  }

  lemma ApplyKeepsLayout(r: HeapRun, op: HeapOp)
    requires Layout(r) && OpEnabled(r, op)
    ensures Layout(ApplyOp(r, op))
    ensures ApplyOp(r, op).heap.capacity == r.heap.capacity
  {
    if op.Alloc? && Fits(r.heap, op.size) {
      StartIsFirstFit(r.heap, op.size);
    }
  }

  /** Position p is a byte of region i that has not been reclaimed. */
  ghost predicate LiveByte(r: HeapRun, i: nat, p: nat) {
    && i < |r.regions|
    && r.regions[i].start <= p < r.regions[i].start + r.regions[i].size
    && r.heap.tail <= p
  }

  /** In every run the pointers stay ordered and at most a capacity apart (so the
      wrapped branch of Used is dead), every region lies inside the store, and no two
      unreclaimed bytes of different regions share an offset. */
  lemma {:induction false} LiveRegionsDisjoint(capacity: nat, ops: seq<HeapOp>, states: seq<HeapRun>, k: nat)
    requires IsHeapRun(capacity, ops, states) && k < |states|
    ensures states[k].heap.capacity == capacity && Layout(states[k])
    ensures Used(states[k].heap) == states[k].heap.top - states[k].heap.tail <= capacity
    ensures forall i: nat, j: nat, p: nat, q: nat ::
              i != j && LiveByte(states[k], i, p) && LiveByte(states[k], j, q) ==> p % capacity != q % capacity
  {
    if k > 0 {
      LiveRegionsDisjoint(capacity, ops, states, k - 1);
      ApplyKeepsLayout(states[k - 1], ops[k - 1]);
    }
    var r := states[k];
    forall i: nat, j: nat, p: nat, q: nat | i != j && LiveByte(r, i, p) && LiveByte(r, j, q)
      ensures p % capacity != q % capacity
    {
      LiveBytesApart(r, i, j, p, q);
    }
  }

  lemma LiveBytesApart(r: HeapRun, i: nat, j: nat, p: nat, q: nat)
    requires Layout(r) && i != j && LiveByte(r, i, p) && LiveByte(r, j, q)
    ensures p % r.heap.capacity != q % r.heap.capacity
  {
    if i < j {
      assert r.regions[i].start + r.regions[i].size <= r.regions[j].start;
      ModInjective(p, q, r.heap.capacity);
    } else {
      assert r.regions[j].start + r.regions[j].size <= r.regions[i].start;
      ModInjective(q, p, r.heap.capacity);
    }
  }

  // ---- The allocator object --------------------------------------------

  class HeapRing {
    const capacity: nat
    var top: nat
    var tail: nat

    function State(): Heap
      reads this
    {
      Heap(capacity, top, tail)
    }

    constructor (capacityBytes: nat)
      ensures State() == Heap(capacityBytes, 0, 0)
    {
      capacity := capacityBytes;
      top := 0;
      tail := 0;
    }

    /** Takes the first free place for the block and returns its offset in the store; refuses
        exactly when there is no free place. */
    method TryAlloc(size: nat) returns (ok: bool, offset: nat)
      requires Sane(State())
      modifies this
      ensures ok <==> exists p: nat :: FreeAt(old(State()), size, p)
      ensures ok ==> exists p: nat :: && FreeAt(old(State()), size, p)
                                      && (forall q: nat :: FreeAt(old(State()), size, q) ==> p <= q)
                                      && offset == p % capacity && State() == old(State()).(top := p + size)
      ensures Sane(State()) && (!ok ==> State() == old(State()))
      ensures ok <==> Fits(old(State()), size)
      ensures ok ==> State() == AllocAt(old(State()), size)
      ensures ok ==> offset == Start(old(State()), size) % capacity && offset + size <= capacity
    {
      FitsExactly(State(), size);
      offset := 0;
      if size == 0 || size > capacity || Available(State()) < size {
        ok := false;
        return;
      }
      var pos := top % capacity;
      if pos + size <= capacity {
        offset := pos;
        top := top + size;
        ok := true;
        return;
      }
      var waste := capacity - pos;
      if Available(State()) < size + waste {
        ok := false;
        return;
      }
      NextMultiple(top, capacity);
      top := top + waste;
      offset := top % capacity;
      top := top + size;
      ok := true;
    }

    method RetireTo(newTail: nat)
      modifies this
      ensures State() == old(State()).(tail := newTail)
    {
      tail := newTail;
    }
  }
}

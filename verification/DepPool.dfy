/** The pool of dependency-list entries: entries are handed out in order and never
    returned, so every list runs through strictly decreasing offsets. */
module DepPools {

  datatype Entry = Entry(taskId: int, next: int)

  /** The allocated part of a pool: offset 0 stands for no entry. */
  ghost predicate Descending(pool: seq<Entry>) {
    forall i :: 0 < i < |pool| ==> pool[i].next < i
  }

  /** The list that starts at an offset, newest entry first. */
  function ListOf(pool: seq<Entry>, head: int): seq<int>
    decreases head
  {
    if 0 < head < |pool| && pool[head].next < head then [pool[head].taskId] + ListOf(pool, pool[head].next) else []
  }

  /** New entries change no existing list. */
  lemma {:induction false} ListStable(pool: seq<Entry>, more: seq<Entry>, head: int)
    requires head < |pool| && Descending(pool)
    ensures ListOf(pool + more, head) == ListOf(pool, head)
    decreases head
  {
    if 0 < head {
      assert (pool + more)[head] == pool[head];
      ListStable(pool, more, pool[head].next);
    }
  }

  lemma PrependList(pool: seq<Entry>, head: int, task: int)
    requires 0 < |pool| && head < |pool| && Descending(pool)
    ensures Descending(pool + [Entry(task, head)])
    ensures ListOf(pool + [Entry(task, head)], |pool|) == [task] + ListOf(pool, head)
  {
    ListStable(pool, [Entry(task, head)], head);
  }

  // ---- Interleaved lists -----------------------------------------------------

  /** A request to prepend a task to one of many lists. */
  datatype PrependOp = PrependOp(list: nat, task: int)

  datatype Lists = Lists(pool: seq<Entry>, heads: map<nat, int>)

  function HeadOf(s: Lists, list: nat): int {
    if list in s.heads then s.heads[list] else -1
  }

  /** The pool after the given requests, in order. */
  function Replay(ops: seq<PrependOp>): Lists {
    if ops == [] then Lists([Entry(-1, -1)], map[])
    else
      var s, op := Replay(ops[..|ops| - 1]), ops[|ops| - 1];
      Lists(s.pool + [Entry(op.task, HeadOf(s, op.list))], s.heads[op.list := |s.pool|])
  }

  /** The tasks prepended to one list, newest first. */
  function Requested(ops: seq<PrependOp>, list: nat): seq<int> {
    if ops == [] then []
    else
      var op := ops[|ops| - 1];
      (if op.list == list then [op.task] else []) + Requested(ops[..|ops| - 1], list)
  }

  /** After any interleaving of requests to any number of lists, each head denotes exactly
      the tasks prepended to its own list. */
  lemma {:induction false} InterleavedLists(ops: seq<PrependOp>, list: nat)
    ensures var s := Replay(ops);
            && |s.pool| == |ops| + 1 && Descending(s.pool) && HeadOf(s, list) < |s.pool|
            && ListOf(s.pool, HeadOf(s, list)) == Requested(ops, list)
  {
    if ops != [] {
      var earlier, op := ops[..|ops| - 1], ops[|ops| - 1];
      var s := Replay(earlier);
      InterleavedLists(earlier, list);
      InterleavedLists(earlier, op.list);
      PrependList(s.pool, HeadOf(s, op.list), op.task);
      if op.list != list {
        ListStable(s.pool, [Entry(op.task, HeadOf(s, op.list))], HeadOf(s, list));
      }
    }
  }

  // ---- The pool object --------------------------------------------------------

  class DepListPool {
    const capacity: nat
    const pool: array<Entry>
    var top: nat

    ghost predicate Valid()
      reads this, pool
    {
      pool.Length == capacity + 1 && 1 <= top <= capacity + 1 && Descending(pool[..top])
    }

    ghost function List(head: int): seq<int>
      requires Valid()
      reads this, pool
    {
      ListOf(pool[..top], head)
    }

    constructor (cap: nat)
      requires cap > 0
      ensures Valid() && capacity == cap && top == 1 && fresh(pool)
    {
      capacity := cap;
      pool := new Entry[cap + 1](_ => Entry(-1, -1));
      top := 1;
    }

    /** Returns the offset of a fresh entry, or 0 when the pool is exhausted. */
    method AllocOne() returns (idx: nat)
      requires Valid()
      modifies this, pool
      ensures Valid()
      ensures idx == if old(top) > capacity then 0 else old(top)
      ensures idx == 0 ==> top == old(top) && pool[..] == old(pool[..])
      ensures idx > 0 ==> top == old(top) + 1 && pool[..top] == old(pool[..top]) + [Entry(-1, -1)]
    {
      if top > capacity {
        return 0;
      }
      idx := top;
      pool[idx] := Entry(-1, -1);
      top := top + 1;
    }

    /** The new list is the old one with the task in front; no other list changes. The code
        asserts that the pool is not exhausted. */
    method Prepend(head: int, task: int) returns (idx: nat)
      requires Valid() && head < top && top <= capacity
      modifies this, pool
      ensures Valid() && idx == old(top) && top == old(top) + 1
      ensures pool[..top] == old(pool[..top]) + [Entry(task, head)]
      ensures List(idx) == [task] + old(List(head))
      ensures forall h: int :: h < old(top) ==> List(h) == old(List(h))
    {
      ghost var before := pool[..top];
      idx := AllocOne();
      pool[idx] := Entry(task, head);
      assert pool[..top] == before + [Entry(task, head)];
      PrependList(before, head, task);
      forall h: int | h < |before| ensures ListOf(pool[..top], h) == ListOf(before, h) {
        ListStable(before, [Entry(task, head)], h);
      }
    }

    /** The length of a list, by walking it; the walk ends because offsets decrease. */
    method Count(head: int) returns (n: nat)
      requires Valid() && head < top
      ensures n == |List(head)|
    {
      n := 0;
      var cur := head;
      while cur > 0
        invariant cur < top
        invariant n + |ListOf(pool[..top], cur)| == |List(head)|
        decreases cur
      {
        n := n + 1;
        cur := pool[cur].next;
      }
    }
  }
}

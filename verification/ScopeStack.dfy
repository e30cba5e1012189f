/** The stack of open scopes: one flat buffer of task ids, and where each scope begins in it. */
module ScopeStacks {
  import opened Invariant
  import opened TaskRings

  /** Drops the scope's reference in the descriptor of one task. */
  function Drop(slots: seq<Descriptor>, id: nat): (r: seq<Descriptor>)
    requires |slots| > 0
    ensures |r| == |slots|
  {
    var d := slots[id % |slots|];
    slots[id % |slots| := d.(fanoutRef := d.fanoutRef + 1)]
  }

  /** Drops the scope's reference in the descriptors of the listed tasks. */
  function Dropped(slots: seq<Descriptor>, list: seq<nat>): (r: seq<Descriptor>)
    requires |slots| > 0
    ensures |r| == |slots|
  {
    if list == [] then slots else Drop(Dropped(slots, list[..|list| - 1]), list[|list| - 1])
  }

  lemma DropNext(slots: seq<Descriptor>, list: seq<nat>, k: nat)
    requires |slots| > 0 && k < |list|
    ensures Dropped(slots, list[..k + 1]) == Drop(Dropped(slots, list[..k]), list[k])
  {
    var more := list[..k + 1];
    assert |more| == k + 1 && more[k] == list[k] && more[..k] == list[..k];
  }

  lemma {:induction false} FlatPrefix(open: seq<seq<nat>>, d: nat)
    requires d <= |open|
    ensures |Flat(open[..d])| <= |Flat(open)| && Flat(open)[..|Flat(open[..d])|] == Flat(open[..d])
    decreases |open|
  {
    if d == |open| {
      assert open[..d] == open;
    } else {
      var front := open[..|open| - 1];
      assert front[..d] == open[..d];
      FlatPrefix(front, d);
    }
  }

  class ScopeStack {
    const tasks: array<nat>
    const begins: array<nat>
    var size: nat
    var top: int
    ghost var open: seq<seq<nat>>   // the open scopes, innermost last

    ghost predicate Valid()
      reads this, tasks, begins
    {
      && tasks != begins
      && top == |open| - 1 && |open| <= begins.Length
      && size == |Flat(open)| <= tasks.Length
      && tasks[..size] == Flat(open)
      && forall d :: 0 <= d < |open| ==> begins[d] == |Flat(open[..d])|
    }

    constructor (maxDepth: nat, maxTasks: nat)
      ensures Valid() && open == [] && fresh(tasks) && fresh(begins)
      ensures tasks.Length == maxTasks && begins.Length == maxDepth
    {
      tasks := new nat[maxTasks](_ => 0);
      begins := new nat[maxDepth](_ => 0);
      size := 0;
      top := -1;
      open := [];
    }

    /** The code asserts that the depth is below the maximum. */
    method ScopeBegin()
      requires Valid() && |open| < begins.Length
      modifies this, begins
      ensures Valid() && open == old(open) + [[]]
    {
      top := top + 1;
      begins[top] := size;
      ghost var was := open;
      open := was + [[]];
      assert open[..|was|] == was;
      forall d | 0 <= d < |was| ensures open[..d] == was[..d] { }
    }

    /** The code asserts that the buffer is not full. */
    method AddTask(id: nat)
      requires Valid() && open != [] && size < tasks.Length
      modifies this, tasks
      ensures Valid()
      ensures open == old(open)[|old(open)| - 1 := old(open)[|old(open)| - 1] + [id]]
    {
      tasks[size] := id;
      size := size + 1;
      ghost var was := open;
      open := was[|was| - 1 := was[|was| - 1] + [id]];
      FlatAdd(was, id);
      forall d | 0 <= d < |open| ensures open[..d] == was[..d] { }
    }

    /** Ends the innermost scope: each of its tasks loses one reference, in submission
        order, and the buffer shrinks to where the scope began. */
    method ScopeEnd(ring: TaskRing)
      requires Valid() && open != [] && ring.slots.Length > 0
      modifies this, ring.slots
      ensures Valid() && open == old(open)[..|old(open)| - 1]
      ensures ring.slots[..] == Dropped(old(ring.slots[..]), old(open)[|old(open)| - 1])
    {
      ghost var ending := open[|open| - 1];
      var begin := begins[top];
      assert Flat(open) == Flat(open[..|open| - 1]) + ending;
      var i := begin;
      while i < size
        modifies ring.slots
        invariant begin <= i <= size
        invariant ring.slots[..] == Dropped(old(ring.slots[..]), ending[..i - begin])
      {
        var id := tasks[i];
        assert id == Flat(open)[i] == ending[i - begin];
        DropNext(old(ring.slots[..]), ending, i - begin);
        var d := ring.Get(id);
        ring.Put(id, d.(fanoutRef := d.fanoutRef + 1));
        i := i + 1;
      }
      assert ending[..size - begin] == ending;
      Pop(begin);
    }

    method Pop(begin: nat)
      requires Valid() && open != [] && begin == begins[top]
      modifies this
      ensures Valid() && open == old(open)[..|old(open)| - 1]
    {
      size := begin;
      top := top - 1;
      FlatPrefix(open, |open| - 1);
      ghost var was := open;
      open := was[..|was| - 1];
      forall d | 0 <= d < |open| ensures open[..d] == was[..d] { }
    }

    method TasksInCurrentScope() returns (n: nat)
      requires Valid()
      ensures n == if open == [] then 0 else |open[|open| - 1]|
    {
      if top < 0 {
        return 0;
      }
      n := size - begins[top];
    }
  }
}

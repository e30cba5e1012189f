/** Whole runs of the orchestrator object, and how much of the dependency pool they use. */
module OrchestratorRuns {
  import opened Lifecycle
  import opened Invariant
  import opened Runs
  import opened Progress
  import opened Orchestrators
  import opened HandleLog
  import opened MapService
  import opened MapRoom

  /** The dependency edges ever registered. */
  function EdgeCount(ts: seq<Task>): nat {
    if ts == [] then 0 else EdgeCount(ts[..|ts| - 1]) + |ts[|ts| - 1].producers|
  }

  ghost predicate SameProducers(ts: seq<Task>, us: seq<Task>) {
    |ts| == |us| && forall i :: 0 <= i < |ts| ==> us[i].producers == ts[i].producers
  }

  lemma {:induction false} EdgesSame(ts: seq<Task>, us: seq<Task>)
    requires SameProducers(ts, us)
    ensures EdgeCount(us) == EdgeCount(ts)
  {
    if ts != [] { EdgesSame(ts[..|ts| - 1], us[..|us| - 1]); }
  }

  /** Every step registers one edge for each read that finds a producer, and none goes. */
  lemma StepEdges(s: Orch, step: Step)
    requires Inv(s) && Enabled(s, step) && StepReadsFresh(s, step)
    ensures EdgeCount(Next(s, step).tasks) == EdgeCount(s.tasks) + |StepReads(s, step)|
  {
    var us := Next(s, step).tasks;
    SameLength(s, step);
    forall i | 0 <= i < |s.tasks| ensures us[i].producers == s.tasks[i].producers { StepAges(s, step, i); }
    EdgesSame(s.tasks, us[..|s.tasks|]);
    if step.SubmitTask? || step.SubmitGroup? {
      NewProducers(s, step);
    } else {
      assert us[..|s.tasks|] == us;
    }
  }

  lemma EdgeStep(run: Run, k: nat)
    requires FreshRun(run) && k < |run.steps|
    ensures EdgeCount(run.states[k].tasks) <= EdgeCount(run.states[k + 1].tasks)
  {
    RunKeepsInv(run, k);
    StepEdges(run.states[k], run.steps[k]);
  }

  lemma {:induction false} EdgesGrow(run: Run, i: nat, k: nat)
    requires FreshRun(run) && i <= k < |run.states|
    ensures EdgeCount(run.states[i].tasks) <= EdgeCount(run.states[k].tasks)
    decreases k
  {
    if i < k {
      EdgesGrow(run, i, k - 1);
      EdgeStep(run, k - 1);
    }
  }

  /** The step finds the pool entries that its edges need. */
  predicate RoomFor(s: Orch, step: Step, depCapacity: nat) {
    var found := |StepReads(s, step)|;
    found > 0 ==> 1 + 2 * (EdgeCount(s.tasks) + found) <= depCapacity + 1
  }

  lemma RoomForExactly(s: Orch, step: Step, depCapacity: nat)
    requires Inv(s) && Enabled(s, step) && StepReadsFresh(s, step)
    ensures 2 * EdgeCount(s.tasks) <= depCapacity && RoomFor(s, step, depCapacity) <==>
            2 * EdgeCount(Next(s, step).tasks) <= depCapacity
  {
    StepEdges(s, step);
  }

  /** Each of the first k steps finds the pool entries that its edges need. */
  ghost predicate RoomTo(run: Run, depCapacity: nat, k: nat)
    requires IsRun(run) && k < |run.states|
  {
    k == 0 || (RoomTo(run, depCapacity, k - 1) && RoomFor(run.states[k - 1], run.steps[k - 1], depCapacity))
  }

  /** Each step in turn finds the pool entries it needs if and only if the pool has two for
      every edge of the whole run: its capacity bounds the edges of an orchestrator's life. */
  lemma {:induction false} PoolBoundsAllEdges(run: Run, depCapacity: nat, k: nat)
    requires FreshRun(run) && k < |run.states|
    ensures RoomTo(run, depCapacity, k) <==> 2 * EdgeCount(run.states[k].tasks) <= depCapacity
  {
    if k > 0 {
      PoolBoundsAllEdges(run, depCapacity, k - 1);
      PoolStep(run, depCapacity, k - 1);
    }
  }

  lemma PoolStep(run: Run, depCapacity: nat, k: nat)
    requires FreshRun(run) && k < |run.steps|
    ensures 2 * EdgeCount(run.states[k].tasks) <= depCapacity && RoomFor(run.states[k], run.steps[k], depCapacity) <==>
            2 * EdgeCount(run.states[k + 1].tasks) <= depCapacity
  {
    RunKeepsInv(run, k);
    RoomForExactly(run.states[k], run.steps[k], depCapacity);
  }

  /** A new orchestrator carries out any run that never reads from a CONSUMED task, through
      any amount of slot reuse, and ends in the run's last state, with the tensor map holding
      the run's inserts and bounds. What is asked for is a dependency pool with two entries
      for each edge the run registers, as entries are never given back, and a tensor map that
      serves the run. */
  method PerformAll(window: nat, heapCapacity: nat, depCapacity: nat, numBuckets: nat, poolSize: nat,
                    mix: nat -> nat, steps: seq<Step>, ghost run: Run) returns (o: Orchestrator)
    requires window > 0 && depCapacity > 0 && numBuckets > 0 && poolSize > 0
    requires FreshRun(run) && run.window == window && run.capacity == heapCapacity && run.steps == steps
    requires 2 * EdgeCount(run.states[|steps|].tasks) <= depCapacity
    requires RunServed(run, M.Empty(numBuckets, poolSize, mix), |steps|)
    ensures fresh(o.Repr()) && o.Coupled() && o.Mapped() && Inv(o.model) && o.model == run.states[|steps|]
    ensures o.deps.top == 1 + 2 * EdgeCount(o.model.tasks)
    ensures o.MapStart() == M.Empty(numBuckets, poolSize, mix) && o.log == Log(run, |steps|)
  {
    o := new Orchestrator(window, heapCapacity, depCapacity, numBuckets, poolSize, mix);
    for i := 0 to |steps|
      invariant fresh(o.Repr()) && o.Coupled() && o.Mapped() && Inv(o.model) && o.model == run.states[i]
      invariant o.deps.top == 1 + 2 * EdgeCount(o.model.tasks) && o.deps.capacity == depCapacity
      invariant o.MapStart() == M.Empty(numBuckets, poolSize, mix) && o.log == Log(run, i)
    {
      RunKept(run, numBuckets, poolSize, mix, i);
      StepEdges(run.states[i], steps[i]);
      EdgesGrow(run, i + 1, |steps|);
      o.Perform(steps[i]);
    }
  }

  /** A program that writes at most q handles a task, none with an unretired producer, needs
      a map with room for the writes of a window, and then runs for ever. */
  method PerformFresh(window: nat, heapCapacity: nat, depCapacity: nat, numBuckets: nat, poolSize: nat,
                      mix: nat -> nat, steps: seq<Step>, q: nat, ghost run: Run) returns (o: Orchestrator)
    requires window > 0 && depCapacity > 0 && numBuckets > 0 && poolSize > 0
    requires FreshRun(run) && run.window == window && run.capacity == heapCapacity && run.steps == steps
    requires 2 * EdgeCount(run.states[|steps|].tasks) <= depCapacity
    requires RunWritesFew(run, q, |steps|) && window * q <= poolSize
    ensures fresh(o.Repr()) && o.Coupled() && o.Mapped() && Inv(o.model) && o.model == run.states[|steps|]
  {
    RunIsRoomy(run, numBuckets, poolSize, mix, q, |steps|);
    o := PerformAll(window, heapCapacity, depCapacity, numBuckets, poolSize, mix, steps, run);
  }
}

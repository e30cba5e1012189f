/** Building runs of the level runtime on its slots, step by step over ids as long as no slot
    is taken twice. */
module LevelScripts {
  import opened Common
  import opened LevelProtocol
  import opened LevelInvariant
  import opened LevelRuns
  import opened LevelTheorems
  import opened LevelCoupling
  import opened LevelSimulation
  import opened LevelSlotTheorems

  function End(run: SlotRun): S.Slotted
    requires run.states != []
  {
    run.states[|run.states| - 1]
  }

  /** A run on slots that has reached a state coupled to l. */
  ghost predicate At(run: SlotRun, l: Level) {
    SplitSlotRun(run) && Couples(End(run), l) && Inv(l)
  }

  lemma Append(run: SlotRun, m: S.Move) returns (longer: SlotRun)
    requires SplitSlotRun(run) && CanStep(End(run), m) && S.IsSplit(m)
    ensures SplitSlotRun(longer) && End(longer) == S.DoMove(End(run), m)
    ensures longer.window == run.window && longer.capacity == run.capacity
  {
    longer := run.(moves := run.moves + [m], states := run.states + [S.DoMove(End(run), m)]);
    forall i | 0 <= i < |longer.moves|
      ensures CanStep(longer.states[i], longer.moves[i])
              && longer.states[i + 1] == S.DoMove(longer.states[i], longer.moves[i])
    {
      if i < |run.moves| { assert longer.states[i] == run.states[i] && longer.states[i + 1] == run.states[i + 1]; }
    }
  }

  /** One step over ids, carried out on the slots. */
  lemma Go(run: SlotRun, l: Level, step: Step) returns (longer: SlotRun, r: Level)
    requires At(run, l) && Enabled(l, step) && IsSplit(step) && !step.Notice?
             && (step.Publish? ==> |l.tasks| < l.window)
    ensures At(longer, r) && r == Next(l, step)
    ensures longer.window == run.window && longer.capacity == run.capacity
  {
    var m := StepPossible(End(run), l, step);
    MoveFollows(End(run), l, m);
    RoomyIsVacant(End(run), l);
    longer := Append(run, m);
    StepKeepsInv(l, step);
    r := Next(l, step);
  }

  predicate Usual(l: Level, step: Step) {
    Enabled(l, step) && IsSplit(step) && !step.Notice? && (step.Publish? ==> |l.tasks| < l.window)
  }

  /** The steps lead from l to r over ids, taking no slot twice. */
  predicate Leads(l: Level, steps: seq<Step>, r: Level)
    decreases |steps|
  {
    if steps == [] then l == r else Usual(l, steps[0]) && Leads(Next(l, steps[0]), steps[1..], r)
  }

  lemma {:induction false} GoAll(run: SlotRun, l: Level, steps: seq<Step>, r: Level) returns (longer: SlotRun)
    requires At(run, l) && Leads(l, steps, r)
    ensures At(longer, r) && longer.window == run.window && longer.capacity == run.capacity
    decreases |steps|
  {
    if steps == [] {
      longer := run;
    } else {
      var next, mid := Go(run, l, steps[0]);
      longer := GoAll(next, mid, steps[1..], r);
    }
  }

  lemma {:induction false} LeadsOn(a: Level, steps: seq<Step>, l: Level, step: Step)
    requires Leads(a, steps, l) && Usual(l, step)
    ensures Leads(a, steps + [step], Next(l, step))
    decreases |steps|
  {
    if steps == [] {
      assert (steps + [step])[1..] == [];
    } else {
      LeadsOn(Next(a, steps[0]), steps[1..], l, step);
      assert (steps + [step])[1..] == steps[1..] + [step];
    }
  }

  /** Takes one more step. */
  lemma Take(a: Level, steps: seq<Step>, l: Level, step: Step) returns (more: seq<Step>, r: Level)
    requires Leads(a, steps, l) && Usual(l, step)
    ensures Leads(a, more, r) && r == Next(l, step)
  {
    LeadsOn(a, steps, l, step);
    more, r := steps + [step], Next(l, step);
  }

  lemma Begin(w: nat, capacity: nat) returns (run: SlotRun)
    requires 0 < w <= capacity
    ensures run.window == w && run.capacity == capacity && At(run, Init(w))
  {
    StartCouples(w, capacity);
    InitInv(w);
    run := SlotRun(w, capacity, [], [S.Start(w, capacity)]);
  }

  /** A task without inputs, as published. */
  function Source(output: nat): Task {
    Task([], [output], [], [], false, 0, 0, [], 1, 0, Ready, Waiting, 0, [], [], 1)
  }

  lemma PublishSource(s: Level, output: nat)
    ensures DoPublish(s, [], [output]) ==
            s.(tasks := s.tasks + [Source(output)], producerOf := s.producerOf[output := |s.tasks|],
               queue := s.queue + [|s.tasks|], linking := None)
  {
    assert [output][..0] == [];
    assert NewTask(s, [], [output]) == Source(output);
    assert Owned(s.producerOf, [output], |s.tasks|) == s.producerOf[output := |s.tasks|];
  }

  /** Inputs whose producers are all found. */
  lemma {:induction false} FindsAll(s: Level, inputs: seq<nat>, producers: seq<nat>)
    requires |inputs| == |producers|
    requires forall i :: 0 <= i < |inputs| ==> inputs[i] != INVALID_HANDLE && Lookup(s, inputs[i]) == Some(producers[i])
    ensures Within(s, inputs) == producers && Outside(s, inputs) == []
  {
    if inputs != [] {
      var n := |inputs| - 1;
      FindsAll(s, inputs[..n], producers[..n]);
      assert producers[..n] + [producers[n]] == producers;
    }
  }

  /** Telling a finished producer: it learns of the consumer, which credits itself. */
  lemma LinkDone(s: Level, c: nat, p: nat)
    requires LinkReady(s) && s.linking == Some(c) && p == s.tasks[c].producers[s.tasks[c].linked] && p != c
             && DoneAt(s, p)
    ensures var y, x := s.tasks[p], s.tasks[c];
            DoLink(s) == s.(tasks := s.tasks[p := y.(fanout := [c] + y.fanout, fanoutCount := y.fanoutCount + 1)]
                                           [c := x.(linked := x.linked + 1, faninRef := x.faninRef + 1,
                                                    credits := [p] + x.credits)])
  {
  }

  /** Task t, first in the queue, is taken, runs and stores COMPLETED. */
  function Executed(l: Level, t: nat): Level
    requires l.queue != [] && t < |l.tasks|
  {
    l.(queue := l.queue[1..], ready := l.ready + (set h | h in l.tasks[t].outputs),
       tasks := l.tasks[t := l.tasks[t].(status := Completed, phase := Stored)])
  }

  lemma Execute(a: Level, steps: seq<Step>, l: Level, t: nat) returns (more: seq<Step>)
    requires Leads(a, steps, l) && l.queue != [] && l.queue[0] == t < |l.tasks|
    ensures Leads(a, more, Executed(l, t))
  {
    var r;
    var x := l.tasks[t];
    more, r := Take(a, steps, l, Dequeue);
    assert r == l.(queue := l.queue[1..], tasks := l.tasks[t := x.(status := Running, phase := Executing)]);
    more, r := Take(a, more, r, Mark(t));
    assert r == l.(queue := l.queue[1..], ready := l.ready + (set h | h in x.outputs),
                   tasks := l.tasks[t := x.(status := Running, phase := Marked)]);
    more, r := Take(a, more, r, Store(t));
    assert r.tasks == Executed(l, t).tasks;
  }

  /** Task t, without consumers, goes on to release its producers. */
  function Unblocked(l: Level, t: nat): Level
    requires t < |l.tasks|
  {
    SetPhase(l, t, Unlinking(|l.tasks[t].producers|))
  }

  lemma Unblock(a: Level, steps: seq<Step>, l: Level, t: nat) returns (more: seq<Step>)
    requires Leads(a, steps, l) && t < |l.tasks| && l.tasks[t].phase == Stored && l.tasks[t].fanout == []
    ensures Leads(a, more, Unblocked(l, t))
  {
    var r;
    more, r := Take(a, steps, l, Lock(t));
    assert r == SetPhase(l, t, Walking([]));
    more, r := Take(a, more, r, Unlock(t));
    assert r.tasks == Unblocked(l, t).tasks;
  }

  /** State k of a run as written, reached with at most n admissions. */
  ghost predicate Admits(run: SlotRun, w: nat, capacity: nat, k: nat, n: nat) {
    && SplitSlotRun(run) && run.window == w && run.capacity == capacity
    && k < |run.states| && run.states[k].count <= n
  }
}

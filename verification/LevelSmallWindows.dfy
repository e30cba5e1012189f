/** Windows of one and two, which are too small for the level runtime as written to go
    wrong: with a window of one nothing retires, and with a window of two at most one task
    does, so at most three tasks are ever admitted, and each is queued exactly once. */
module LevelSmallWindows {
  import opened Common
  import opened LevelProtocol
  import opened LevelInvariant
  import opened LevelTheorems
  import opened LevelCoupling
  import opened LevelSlotTheorems
  import opened LevelSlotQueue
  import opened LevelDoubleEnqueue
  import opened LevelTwoTasks
  import opened LevelThirdTask

  // ---- The first two tasks ------------------------------------------------------------------

  lemma {:induction false} TasksGrow(run: Run, k: nat)
    requires IsRun(run) && 0 < k < |run.states|
    ensures |run.states[k - 1].tasks| <= |run.states[k].tasks|
  {
    RunKeepsInv(run, k - 1);
    StepLength(run.states[k - 1], run.steps[k - 1]);
  }

  lemma StepLength(l: Level, step: Step)
    requires Enabled(l, step)
    ensures |Next(l, step).tasks| >= |l.tasks|
  {
  }

  lemma NextKeepsTwo(run: Run, k: nat)
    requires IsRun(run) && k < |run.steps| && TwoInv(run.states[k]) && |run.states[k + 1].tasks| <= 2
    ensures TwoInv(run.states[k + 1])
  {
    var l, step := run.states[k], run.steps[k];
    assert Enabled(l, step) && run.states[k + 1] == Next(l, step);
    assert Inv(l) by { RunKeepsInv(run, k); }
    TwoStepKeeps(l, step);
  }

  lemma {:induction false} RunKeepsTwo(run: Run, k: nat)
    requires IsRun(run) && k < |run.states| && |run.states[k].tasks| <= 2
    ensures TwoInv(run.states[k])
  {
    if k > 0 {
      TasksGrow(run, k);
      RunKeepsTwo(run, k - 1);
      NextKeepsTwo(run, k - 1);
    }
  }

  /** A state of a run on slots that has admitted at most two tasks, within the window. */
  lemma EarlyState(run: SlotRun, k: nat) returns (l: Level)
    requires IsSlotRun(run) && k < |run.states| && run.states[k].count <= run.window && run.states[k].count <= 2
    ensures Couples(run.states[k], l) && Inv(l) && TwoInv(l)
  {
    FewAdmissionsAreRoomy(run, k);
    var ids := Simulation(run, k);
    l := ids.states[k];
    assert Couples(run.states[k], l);
    RunKeepsInv(ids, k);
    RunKeepsTwo(ids, k);
  }

  // ---- A window of one -----------------------------------------------------------------------

  lemma NotRetired(l: Level, i: nat)
    requires Inv(l) && i < |l.tasks| && l.tasks[i].status != Consumed
    ensures l.last <= i
  {
  }

  /** With a window of one only one task is ever admitted. */
  lemma {:induction false} WindowOneAdmitsOne(run: SlotRun, k: nat)
    requires IsSlotRun(run) && run.window == 1 && k < |run.states|
    ensures run.states[k].count <= 1
  {
    if k > 0 {
      WindowOneAdmitsOne(run, k - 1);
      var s, m := run.states[k - 1], run.moves[k - 1];
      MoveKeepsSizes(s, m, run.states[k]);
      BufferKept(run, k - 1);
      var l := EarlyState(run, k - 1);
      if s.count == 1 { NotRetired(l, 0); }
    }
  }

  // ---- A window of two: the third task -------------------------------------------------------

  /** When a third task finds room, both others have visited their consumers. */
  lemma RoomForThird(l: Level)
    requires Inv(l) && TwoInv(l) && |l.tasks| == 2 && l.window == 2 && l.linking.None? && HasSpace(l)
    ensures l.last == 1 && Releasing(l.tasks[0]) && Releasing(l.tasks[1])
    ensures l.tasks[1].status == Completed && l.tasks[1].fanoutCount == 1 && l.tasks[1].fanoutRef == 0
    ensures l.tasks[0].producers == [] && All(l.tasks[1].producers, 0)
  {
    NotRetired(l, 1);
    ProducersAreFirst(l);
    SecondIsLeaf(l);
    assert PhaseOk(l.tasks[0]) && PhaseOk(l.tasks[1]);
    assert WakeOk(l, 1);
  }

  lemma JobsOfTwo(s: S.Slotted, l: Level, n: nat)
    requires JobsShown(s.jobs, l.tasks) && |l.tasks| == 2 && Releasing(l.tasks[0]) && Releasing(l.tasks[1])
    requires l.tasks[0].producers == [] && All(l.tasks[1].producers, 0)
    ensures JobsOk(s.jobs, n, 0)
  {
    assert HasJob(s.jobs, 0) && HasJob(s.jobs, 1);
    forall j | 0 <= j < |s.jobs| ensures JobOk(s.jobs[j], n, 0) { assert JobShown(s.jobs[j], l.tasks); }
    var i :| 0 <= i < |s.jobs| && s.jobs[i].id == 0;
    var j :| 0 <= j < |s.jobs| && s.jobs[j].id == 1;
    assert Ids(s.jobs)[i] == 0 && Ids(s.jobs)[j] == 1;
  }

  /** With task 0 retired the only producer to be found is task 1. */
  lemma {:induction false} FindsSecond(l: Level, inputs: seq<nat>)
    requires l.last == 1 && forall h :: h in l.producerOf ==> l.producerOf[h] < 2
    ensures All(Within(l, inputs), 1)
  {
    if inputs != [] { FindsSecond(l, inputs[..|inputs| - 1]); }
  }

  lemma PublishThree(s: S.Slotted, l: Level, inputs: seq<nat>, outputs: seq<nat>)
    requires Couples(s, l) && Inv(l) && TwoInv(l) && s.count == 2 && |s.slots| == 2
    requires CanStep(s, S.Publish(inputs, outputs)) && QueueInv(s)
    ensures ThreeInv(S.DoPublish(s, inputs, outputs))
  {
    var t, r := NewTask(S.Names(s), inputs, outputs), S.DoPublish(s, inputs, outputs);
    RoomForThird(l);
    FindsSecond(S.Names(s), inputs);
    JobsOfTwo(s, l, |t.producers|);
    assert R.Owned(2, 2, 1) && s.slots[1] == S.Shown(l.tasks[1], 1);
    ThirdIsNew(s, t);
    assert S.At(s, 2) == s.slots[0];
    assert r.slots == [S.Shown(t, 2), s.slots[1]];
    if t.fanin == 0 { QueuedOnPublish(s, inputs, outputs); }
  }

  /** The new descriptor, with the second task waiting to be told. */
  lemma ThirdIsNew(s: S.Slotted, t: Task)
    requires |s.slots| == 2 && Second(s.slots[1], 0) && All(t.producers, 1)
    requires t.fanin == |t.producers| + |t.externals| && t.faninRef == 0 && t.fanout == [] && !t.noticed
    requires t.status == if t.fanin == 0 then Ready else Pending
    ensures SlotsOk([S.Shown(t, 2), s.slots[1]], if t.fanin == 0 then None else Some(S.Submission(2, t.producers)))
  {
  }

  lemma ThirdTakesSlot(run: SlotRun, k: nat)
    requires IsSlotRun(run) && run.window == 2 && k < |run.moves| && run.states[k].count == 2 && run.moves[k].Publish?
    ensures ThreeInv(run.states[k + 1])
  {
    var l := EarlyState(run, k);
    RunKeepsQueue(run, k);
    BufferKept(run, k);
    PublishThree(run.states[k], l, run.moves[k].inputs, run.moves[k].outputs);
  }

  /** With a window of two at most three tasks are ever admitted, and with three the third
      has taken slot 0. */
  lemma {:induction false} WindowTwoAdmitsThree(run: SlotRun, k: nat)
    requires IsSlotRun(run) && run.window == 2 && k < |run.states|
    ensures run.states[k].count <= 3 && (run.states[k].count == 3 ==> ThreeInv(run.states[k]))
  {
    if k > 0 {
      WindowTwoAdmitsThree(run, k - 1);
      var s, m := run.states[k - 1], run.moves[k - 1];
      MoveKeepsSizes(s, m, run.states[k]);
      BufferKept(run, k - 1);
      QueuedAtMostOnce(run, k - 1);
      if s.count == 3 {
        MoveThree(s, m);
      } else if s.count == 2 && m.Publish? {
        ThirdTakesSlot(run, k - 1);
      }
    }
  }
}

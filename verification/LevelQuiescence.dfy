/** The level runtime never gets stuck: when its submitter, workers and scheduler can do
    nothing more, every task has run to its end, unless it depends on a tensor of another
    level that is not ready. */
module LevelQuiescence {
  import opened Common
  import opened LevelProtocol
  import opened LevelInvariant
  import opened LevelRuns
  import opened LevelTheorems
  import opened LevelCoupling
  import opened LevelSimulation
  import opened LevelSlotTheorems

  // ---- Over ids -------------------------------------------------------------------------------

  /** Steps that the outside world makes, or that retire finished tasks. */
  predicate FromOutside(step: Step) {
    step.Publish? || step.SetReady? || step.Advance?
  }

  /** Task t awaits a tensor that is not ready, or depends on a task that does. */
  ghost predicate Blocked(l: Level, t: nat)
    requires t < |l.tasks|
  {
    || (exists h :: h in l.tasks[t].externals && h !in l.ready)
    || (exists p: nat :: p in l.tasks[t].producers && p < t && Blocked(l, p))
  }

  /** A worker in the midst of a task can go on. */
  lemma WorkerStep(l: Level, t: nat) returns (step: Step)
    requires Inv(l) && t < |l.tasks| && l.tasks[t].phase != Waiting && l.tasks[t].phase != Finished
    ensures Enabled(l, step) && !step.Notice? && !FromOutside(step)
  {
    assert PhaseOk(l.tasks[t]);
    match l.tasks[t].phase
    case Executing => step := Mark(t);
    case Marked => step := Store(t);
    case Stored => step := Lock(t);
    case Walking(rest) => step := if rest == [] then Unlock(t) else Walk(t);
    case Unlinking(left) => step := if left == 0 then Finish(t) else Unlink(t);
  }

  /** A submission under way can go on, or the worker it waits for can. */
  lemma SubmitterStep(l: Level) returns (step: Step)
    requires Inv(l) && l.linking.Some?
    ensures Enabled(l, step) && !step.Notice? && !FromOutside(step)
  {
    var c := l.linking.value;
    assert CountsOk(l.tasks[c]) && ListsOk(l, c);
    if l.tasks[c].linked < |l.tasks[c].producers| {
      var p := l.tasks[c].producers[l.tasks[c].linked];
      assert p in l.tasks[c].producers;
      if l.tasks[p].phase.Walking? { step := WorkerStep(l, p); } else { step := Link; }
    } else {
      step := Check;
    }
  }

  /** Whatever an unblocked task that has not finished waits for, some step can be made. */
  lemma {:induction false} TaskStep(l: Level, t: nat) returns (step: Step)
    requires Inv(l) && t < |l.tasks| && l.tasks[t].phase != Finished && !Blocked(l, t)
    ensures Enabled(l, step) && Scanned(l, step) && !FromOutside(step)
    decreases t
  {
    var x := l.tasks[t];
    if l.linking.Some? {
      step := SubmitterStep(l);
    } else if l.queue != [] {
      assert l.queue[0] in l.queue;
      step := Dequeue;
    } else if x.phase != Waiting {
      step := WorkerStep(l, t);
    } else {
      step := WaitingStep(l, t);
    }
  }

  lemma {:induction false} WaitingStep(l: Level, t: nat) returns (step: Step)
    requires Inv(l) && l.linking.None? && l.queue == [] && t < |l.tasks| && l.tasks[t].phase == Waiting
             && !Blocked(l, t)
    ensures Enabled(l, step) && Scanned(l, step) && !FromOutside(step)
    decreases t, 0
  {
    var x := l.tasks[t];
    WaitingIsPending(l, t);
    assert ListsOk(l, t) && PhaseOk(x);
    if p :| p in x.producers && !Propagated(l, p) {
      assert !Blocked(l, p);
      step := TaskStep(l, p);
    } else if !x.noticed && x.externals != [] {
      step := Notice(t);
    } else {
      FedIsEnqueued(l, t);
      assert false;
    }
  }

  lemma WaitingIsPending(l: Level, t: nat)
    requires Inv(l) && l.queue == [] && t < |l.tasks| && l.tasks[t].phase == Waiting
    ensures l.tasks[t].status == Pending && l.last <= t
  {
    assert PhaseOk(l.tasks[t]);
    assert t in l.queue <==> l.tasks[t].status == Ready;
  }

  /** With exact credits a task that was ever woken was not blocked, and is not now. */
  lemma {:induction false} WokenNotBlocked(l: Level, t: nat)
    requires Inv(l) && Exact(l) && t < |l.tasks| && l.tasks[t].status != Pending
    ensures !Blocked(l, t)
    decreases t
  {
    WokenHasAll(l, t);
    assert InputsOk(l, t);
    forall p: nat | p in l.tasks[t].producers && p < t ensures !Blocked(l, p) {
      assert DoneAt(l, p);
      WokenNotBlocked(l, p);
    }
  }

  // ---- On the slots ----------------------------------------------------------------------------

  /** The same told from the descriptors. */
  ghost predicate Stalled(s: S.Slotted, t: nat)
    requires |s.slots| > 0
  {
    || (exists h :: h in S.At(s, t).externals && h !in s.ready)
    || (exists p: nat :: p in S.At(s, t).producers && p < t && Stalled(s, p))
  }

  lemma {:induction false} StalledIsBlocked(s: S.Slotted, l: Level, t: nat)
    requires Couples(s, l) && |l.tasks| <= |s.slots| && t < |l.tasks|
    ensures Stalled(s, t) <==> Blocked(l, t)
    decreases t
  {
    assert R.Owned(|l.tasks|, |s.slots|, t) && S.At(s, t) == S.Shown(l.tasks[t], t);
    forall p: nat | p in l.tasks[t].producers && p < t ensures Stalled(s, p) <==> Blocked(l, p) {
      StalledIsBlocked(s, l, p);
    }
  }

  /** The job of a task is done exactly when its worker has finished. */
  lemma DoneIsFinished(s: S.Slotted, l: Level, t: nat)
    requires Couples(s, l) && t < |l.tasks|
    ensures S.WorkAt(s.jobs, t) == Some(S.Done) <==> l.tasks[t].phase == Finished
  {
    WorkAtNone(s.jobs, t);
    if S.WorkAt(s.jobs, t).Some? { WorkAtSome(s.jobs, l.tasks, t); }
  }

  /** In every interleaving of the code as written, up to a window of admissions: as long as a
      task that is not stalled has not run to its end, the submitter, a worker or the
      scheduler can move. */
  lemma NeverStuck(run: SlotRun, k: nat, t: nat) returns (m: S.Move)
    requires IsSlotRun(run) && k < |run.states| && t < run.states[k].count <= run.window
    requires |run.states[k].slots| > 0 && !Stalled(run.states[k], t) && S.WorkAt(run.states[k].jobs, t) != Some(S.Done)
    ensures CanStep(run.states[k], m) && !m.Publish? && !m.SetReady? && !m.Advance?
  {
    FewAdmissionsAreRoomy(run, k);
    var ids := Simulation(run, k);
    assert Couples(run.states[k], ids.states[k]);
    assert Inv(ids.states[k]) by { RunKeepsInv(ids, k); }
    BufferKept(run, k);
    m := SlotStep(run.states[k], ids.states[k], t);
  }

  lemma SlotStep(s: S.Slotted, l: Level, t: nat) returns (m: S.Move)
    requires Couples(s, l) && Inv(l) && t < |l.tasks| <= |s.slots|
    requires !Stalled(s, t) && S.WorkAt(s.jobs, t) != Some(S.Done)
    ensures CanStep(s, m) && !m.Publish? && !m.SetReady? && !m.Advance?
  {
    assert !Blocked(l, t) by { StalledIsBlocked(s, l, t); }
    assert l.tasks[t].phase != Finished by { DoneIsFinished(s, l, t); }
    var step := TaskStep(l, t);
    m := MoveOf(s, l, step);
  }

  lemma MoveOf(s: S.Slotted, l: Level, step: Step) returns (m: S.Move)
    requires Couples(s, l) && l.last <= |l.tasks| <= l.last + l.window
    requires Enabled(l, step) && Scanned(l, step) && !FromOutside(step)
    ensures CanStep(s, m) && !m.Publish? && !m.SetReady? && !m.Advance?
  {
    m := StepPossible(s, l, step);
    SameKind(s, m);
  }

  lemma SameKind(s: S.Slotted, m: S.Move)
    requires CanStep(s, m)
    ensures FromOutside(StepOf(s, m)) <==> m.Publish? || m.SetReady? || m.Advance?
  {
  }

  /** Without the overlap no stalled task is ever taken: so when nothing can move, the tasks
      that have run to their end are exactly those that are not stalled. */
  lemma StalledNeverTaken(run: SlotRun, k: nat, t: nat)
    requires CleanSlotRun(run) && k < |run.states| && t < run.states[k].count
    requires |run.states[k].slots| > 0 && Stalled(run.states[k], t)
    ensures S.WorkAt(run.states[k].jobs, t) == None && S.At(run.states[k], t).status == Pending
  {
    var ids := CleanSimulation(run, k);
    var s, l := run.states[k], ids.states[k];
    assert Couples(s, l);
    CleanRunIsExact(ids, k);
    SlotNothingRetires(run, k);
    StalledIsBlocked(s, l, t);
    if l.tasks[t].status != Pending {
      WokenNotBlocked(l, t);
      assert false;
    }
    assert PhaseOk(l.tasks[t]) && S.At(s, t) == S.Shown(l.tasks[t], t);
    WorkAtNone(s.jobs, t);
    if S.WorkAt(s.jobs, t).Some? { WorkAtSome(s.jobs, l.tasks, t); }
  }
}

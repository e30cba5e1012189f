/** How tasks, groups, scopes and buffers move along a run. */
module Progress {
  import opened Common
  import opened Lifecycle
  import opened Tally
  import opened Ledger
  import opened Submission
  import opened Groups
  import opened Invariant
  import opened Runs

  /** What a task keeps while the run goes on: its inputs and shape never change, and
      completion, consumption, start and token are never taken back. */
  predicate Ages(x: Task, y: Task) {
    && y.producers == x.producers && y.preDone == x.preDone
    && y.isGroup == x.isGroup && y.groupSize == x.groupSize
    && y.scoped == x.scoped && y.heapEnd == x.heapEnd
    && (x.released ==> y.released)
    && (IsDone(x) ==> IsDone(y))
    && (x.status == Consumed ==> y.status == Consumed)
    && (x.status != Pending ==> y.status != Pending)
  }

  /** Which token changes a step makes: only the end of a scope gives tokens, to the
      tasks of the innermost scope. */
  predicate TokenMove(s: Orch, step: Step, x: Task, y: Task, i: nat) {
    y.released == (x.released || (step.ScopeEnd? && s.scopes != [] && i in s.scopes[|s.scopes| - 1]))
  }

  lemma EvolvedAges(ts: seq<Task>, us: seq<Task>, t: nat, i: nat)
    requires Evolved(ts, us, t) && i < |ts|
    ensures Ages(ts[i], us[i]) && us[i].released == ts[i].released
  {
  }

  lemma SubmitAges(s: Orch, step: Step, i: nat)
    requires Inv(s) && Enabled(s, step) && StepReadsFresh(s, step) && i < |s.tasks|
    requires step.SubmitTask? || step.SubmitGroup?
    ensures i < |Next(s, step).tasks| && Ages(s.tasks[i], Next(s, step).tasks[i])
    ensures Next(s, step).tasks[i].released == s.tasks[i].released
  {
    match step
    case SubmitTask(params) => RegisterShows(s, params, false, 0);
    case SubmitGroup(params, size) =>
      RegisterShows(s, params, true, size);
      if size == 0 {
        RegisterKeepsTally(s, params, true, 0);
        var r := Register(s, params, true, 0);
        CompleteEvolves(r, |s.tasks|);
        EvolvedAges(r.tasks, Complete(r, |s.tasks|).tasks, |s.tasks|, i);
      }
  }

  lemma ReportAges(s: Orch, id: int, i: nat)
    requires Inv(s) && Enabled(s, Report(id)) && i < |s.tasks|
    ensures i < |DoReport(s, id).tasks| && Ages(s.tasks[i], DoReport(s, id).tasks[i])
    ensures DoReport(s, id).tasks[i].released == s.tasks[i].released
  {
    ReportedLive(s, id);
    if id in s.subOf {
      SubReportAges(s, id, i);
    } else {
      var r := s.(inflight := s.inflight - {id});
      CompleteEvolves(r, id);
      EvolvedAges(r.tasks, Complete(r, id).tasks, id, i);
    }
  }

  lemma SubReportAges(s: Orch, id: int, i: nat)
    requires Inv(s) && id in s.subOf && i < |s.tasks|
    ensures i < |DoReport(s, id).tasks| && Ages(s.tasks[i], DoReport(s, id).tasks[i])
    ensures DoReport(s, id).tasks[i].released == s.tasks[i].released
  {
    var r, g := Counted(s, id), s.subOf[id];
    CountedAccounts(s, id);
    CountedKeeps(s, id);
    if r.tasks[g].subDone >= r.tasks[g].groupSize {
      CompleteEvolves(r, g);
      EvolvedAges(r.tasks, Complete(r, g).tasks, g, i);
    }
  }

  lemma ScopeEndAges(s: Orch, i: nat)
    requires Inv(s) && s.scopes != [] && i < |s.tasks|
    ensures i < |EndScope(s).tasks| && Ages(s.tasks[i], EndScope(s).tasks[i])
    ensures EndScope(s).tasks[i].released == (s.tasks[i].released || i in s.scopes[|s.scopes| - 1])
  {
    UnscopedAt(s, i);
    assert EndScope(s).tasks == Unscoped(s).tasks;
  }

  /** Every step lets every existing task age, and moves tokens only when a scope ends. */
  lemma StepAges(s: Orch, step: Step, i: nat)
    requires Inv(s) && Enabled(s, step) && StepReadsFresh(s, step) && i < |s.tasks|
    ensures i < |Next(s, step).tasks|
    ensures Ages(s.tasks[i], Next(s, step).tasks[i])
    ensures TokenMove(s, step, s.tasks[i], Next(s, step).tasks[i], i)
  {
    match step
    case SubmitTask(_) => SubmitAges(s, step, i);
    case SubmitGroup(_, _) => SubmitAges(s, step, i);
    case Report(id) => ReportAges(s, id, i);
    case ScopeEnd => ScopeEndAges(s, i);
    case _ =>
  }

  /** The producers of a new task are what its reads find. */
  lemma NewProducers(s: Orch, step: Step)
    requires Inv(s) && Enabled(s, step) && StepReadsFresh(s, step) && (step.SubmitTask? || step.SubmitGroup?)
    ensures var us := Next(s, step).tasks;
            |us| == |s.tasks| + 1 && us[|s.tasks|].producers == Sources(s, step.params, |s.tasks|)
  {
    SameLength(s, step);
    match step
    case SubmitTask(params) => RegisterShows(s, params, false, 0);
    case SubmitGroup(params, size) =>
      RegisterShows(s, params, true, size);
      if size == 0 {
        var r, tid := Register(s, params, true, 0), |s.tasks|;
        RegisterKeepsTally(s, params, true, 0);
        CompleteEvolves(r, tid);
        EvolvedAges(r.tasks, Complete(r, tid).tasks, tid, tid);
      }
  }

  lemma {:induction false} RunAges(run: Run, j: nat, k: nat, i: nat)
    requires FreshRun(run)
    requires j <= k < |run.states| && i < |run.states[j].tasks|
    ensures i < |run.states[k].tasks| && Ages(run.states[j].tasks[i], run.states[k].tasks[i])
    decreases k
  {
    if j < k {
      RunAges(run, j, k - 1, i);
      RunKeepsInv(run, k - 1);
      StepAges(run.states[k - 1], run.steps[k - 1], i);
    }
  }

  // ---- Groups ----------------------------------------------------------------

  /** In every state of a scoped run a non-empty group has been started if and only if all
      its producers are finished and none of them was finished when it was submitted; the
      stored specs are exactly those of the non-empty groups still waiting. */
  lemma GroupStartedExactly(run: Run, k: nat, g: nat)
    requires ScopedRun(run) && k < |run.states|
    requires g < |run.states[k].tasks| && run.states[k].tasks[g].isGroup && run.states[k].tasks[g].groupSize > 0
    ensures var s := run.states[k]; var t := s.tasks[g];
            && (t.status != Pending <==> t.preDone == 0 && forall p :: p in t.producers ==> DoneAt(s.tasks, p))
            && (g in s.specs <==> t.status == Pending)
  {
    ScopedRunKeepsInv(run, k);
    var s := run.states[k];
    assert StartAt(s.tasks, g) && GroupAt(s, g);
    DoneCountFull(s.tasks, s.tasks[g].producers);
  }

  lemma SpecsAreWaitingGroups(run: Run, k: nat, g: nat)
    requires ScopedRun(run) && k < |run.states|
    ensures g in run.states[k].specs <==>
            g < |run.states[k].tasks| && run.states[k].tasks[g].isGroup && run.states[k].tasks[g].groupSize > 0
            && run.states[k].tasks[g].status == Pending
  {
    ScopedRunKeepsInv(run, k);
    if g < |run.states[k].tasks| { assert GroupAt(run.states[k], g); }
  }

  /** How many of the named producers were finished at submission is what preDone records. */
  lemma PreDoneAtSubmission(s: Orch, params: seq<Param>, size: nat)
    requires Inv(s) && HasSpace(s) && s.dispatching.None? && FreshReads(s, params) && size > 0
    ensures var r := DoSubmitGroup(s, params, size);
            && r.tasks[|s.tasks|].producers == Sources(s, params, |s.tasks|)
            && r.tasks[|s.tasks|].preDone == DoneCount(s.tasks, Sources(s, params, |s.tasks|))
  {
    var r, q, tid := Register(s, params, true, size), DoSubmitGroup(s, params, size), |s.tasks|;
    RegisterShows(s, params, true, size);
    RegisterKeepsBalance(s, params, true, size);
    assert TallyAt(r.tasks, tid);
    forall x | x in r.tasks[tid].producers ensures DoneAt(s.tasks, x) == DoneAt(r.tasks, x) { }
    DoneCountSame(s.tasks, r.tasks, r.tasks[tid].producers);
  }

  /** A group that named a finished producer waits for ever: no run ever starts it. */
  lemma LateGroupNeverStarts(run: Run, j: nat, k: nat, g: nat)
    requires ScopedRun(run) && j <= k < |run.states|
    requires g < |run.states[j].tasks| && run.states[j].tasks[g].isGroup && run.states[j].tasks[g].groupSize > 0
    requires run.states[j].tasks[g].preDone > 0
    ensures g < |run.states[k].tasks| && run.states[k].tasks[g].status == Pending
    ensures run.states[k].last <= g
  {
    ScopedIsFresh(run);
    RunAges(run, j, k, g);
    GroupStartedExactly(run, k, g);
    ScopedRunKeepsInv(run, k);
  }

  /** A group that waits for itself. */
  predicate SelfReader(t: Task, g: nat) {
    t.isGroup && t.groupSize > 0 && g in t.producers && t.status == Pending
  }

  lemma SelfReaderStays(s: Orch, step: Step, g: nat)
    requires Inv(s) && Enabled(s, step) && StepReadsFresh(s, step) && g < |s.tasks| && SelfReader(s.tasks[g], g)
    ensures g < |Next(s, step).tasks| && SelfReader(Next(s, step).tasks[g], g)
  {
    var r := Next(s, step);
    StepKeepsInv(s, step);
    StepAges(s, step, g);
    PendingGroupUntouched(s, step, g);
    assert StartAt(r.tasks, g);
    DoneCountFull(r.tasks, r.tasks[g].producers);
  }

  /** A group that reads its own output waits for itself: no run ever starts it. */
  lemma {:induction false} SelfReaderNeverStarts(run: Run, j: nat, k: nat, g: nat)
    requires ScopedRun(run) && j <= k < |run.states|
    requires g < |run.states[j].tasks| && SelfReader(run.states[j].tasks[g], g)
    ensures g < |run.states[k].tasks| && SelfReader(run.states[k].tasks[g], g)
    decreases k
  {
    if j < k {
      SelfReaderNeverStarts(run, j, k - 1, g);
      ScopedRunKeepsInv(run, k - 1);
      SelfReaderStays(run.states[k - 1], run.steps[k - 1], g);
    }
  }

  /** A waiting group starts in exactly one way: a report completes its last unfinished
      producer, and all its sub-tasks are handed over in that step. */
  lemma GroupStartsWithLastProducer(s: Orch, step: Step, g: nat)
    requires Inv(s) && Enabled(s, step) && StepReadsFresh(s, step)
    requires g < |s.tasks| && s.tasks[g].isGroup && s.tasks[g].status == Pending
    requires g < |Next(s, step).tasks| && Next(s, step).tasks[g].status != Pending
    ensures var r := Next(s, step);
            && r.tasks[g].status == Running && r.tasks[g].subDone == 0
            && |Subs(r.subOf, g)| == r.tasks[g].groupSize
            && (forall p :: p in r.tasks[g].producers ==> DoneAt(r.tasks, p))
            && (exists p :: p in s.tasks[g].producers && !DoneAt(s.tasks, p))
  {
    var r := Next(s, step);
    StepKeepsInv(s, step);
    StepAges(s, step, g);
    assert GroupAt(s, g) && GroupAt(r, g) && StartAt(s.tasks, g) && StartAt(r.tasks, g);
    DoneCountFull(s.tasks, s.tasks[g].producers);
    DoneCountFull(r.tasks, r.tasks[g].producers);
    PendingGroupUntouched(s, step, g);
  }

  lemma PendingSettle(x: Task, n: nat, m: nat)
    requires x.status == Pending && x.isGroup
    ensures var y := Settle(x, n, m, false);
            y.subDone == x.subDone && (y.status == Pending || y.status == Running)
  {
  }

  /** Until it starts, a waiting group has no sub-task out and none counted. */
  lemma PendingGroupUntouched(s: Orch, step: Step, g: nat)
    requires Inv(s) && Enabled(s, step) && StepReadsFresh(s, step)
    requires g < |s.tasks| && s.tasks[g].isGroup && s.tasks[g].status == Pending
    ensures var r := Next(s, step);
            && g < |r.tasks| && r.tasks[g].subDone == 0 && Left(r, g) == 0
            && (r.tasks[g].status == Pending || r.tasks[g].status == Running)
  {
    assert GroupAt(s, g);
    match step
    case SubmitTask(params) => RegisterShows(s, params, false, 0);
    case SubmitGroup(params, size) => SubmitGroupUntouched(s, params, size, g);
    case DispatchNext => assert GroupAt(s, s.dispatching.value.0);
    case Report(id) => ReportUntouched(s, id, g);
    case ScopeEnd => UnscopedAt(s, g);
    case _ =>
  }

  lemma SubmitGroupUntouched(s: Orch, params: seq<Param>, size: nat, g: nat)
    requires Inv(s) && HasSpace(s) && s.dispatching.None?
    requires g < |s.tasks| && s.tasks[g].isGroup && s.tasks[g].status == Pending && s.tasks[g].subDone == 0
    ensures var r := DoSubmitGroup(s, params, size);
            && g < |r.tasks| && r.tasks[g].subDone == 0 && Left(r, g) == 0
            && (r.tasks[g].status == Pending || r.tasks[g].status == Running)
  {
    RegisterShows(s, params, true, size);
    if size == 0 {
      var r, tid := Register(s, params, true, 0), |s.tasks|;
      RegisterKeepsTally(s, params, true, 0);
      CompleteEvolves(r, tid);
      CompleteKeeps(r, tid);
      PendingSettle(r.tasks[g], Count(r.tasks[tid].producers, g), Count(r.tasks[tid].consumers, g));
    }
  }

  lemma ReportUntouched(s: Orch, id: int, g: nat)
    requires Inv(s) && Enabled(s, Report(id))
    requires g < |s.tasks| && s.tasks[g].isGroup && s.tasks[g].status == Pending
    ensures var r := DoReport(s, id);
            && g < |r.tasks| && r.tasks[g].subDone == s.tasks[g].subDone && Left(r, g) == Left(s, g)
            && (r.tasks[g].status == Pending || r.tasks[g].status == Running)
  {
    ReportedLive(s, id);
    if id in s.subOf {
      var r, t := Counted(s, id), s.subOf[id];
      CountedKeeps(s, id);
      if r.tasks[t].subDone >= r.tasks[t].groupSize {
        CompleteEvolves(r, t);
        CompleteKeeps(r, t);
        PendingSettle(r.tasks[g], Count(r.tasks[t].producers, g), Count(r.tasks[t].consumers, g));
      }
    } else {
      var r := s.(inflight := s.inflight - {id});
      CompleteEvolves(r, id);
      CompleteKeeps(r, id);
      PendingSettle(r.tasks[g], Count(r.tasks[id].producers, g), Count(r.tasks[id].consumers, g));
    }
  }

  /** Sub-task conservation: of a running group, the sub-tasks handed over so far are the
      counted reports plus the outstanding ids. */
  lemma SubTaskConservation(run: Run, k: nat, g: nat)
    requires ScopedRun(run) && k < |run.states|
    requires g < |run.states[k].tasks| && run.states[k].tasks[g].isGroup
    ensures var s := run.states[k]; var t := s.tasks[g];
            && (t.status == Running ==> t.subDone + |Subs(s.subOf, g)| == t.groupSize - Left(s, g)
                                        && t.subDone < t.groupSize)
            && (t.status != Running ==> Subs(s.subOf, g) == {} && Left(s, g) == 0)
            && (IsDone(t) ==> t.subDone == t.groupSize)
            && (forall id :: id in Subs(s.subOf, g) ==> id in s.inflight && id < 0)
  {
    ScopedRunKeepsInv(run, k);
    assert GroupAt(run.states[k], g);
    forall id | id in Subs(run.states[k].subOf, g) ensures id in run.states[k].inflight && id < 0 {
      assert Awaited(run.states[k], id);
    }
  }

  /** A group completes with the report that brings the count to its size, and with no
      earlier one, even while later sub-tasks are still to be handed over. */
  lemma GroupCompletesOnLastReport(s: Orch, id: int)
    requires Inv(s) && id in s.subOf
    ensures var r, g := DoReport(s, id), s.subOf[id];
            && g < |s.tasks| == |r.tasks| && !IsDone(s.tasks[g])
            && (IsDone(r.tasks[g]) <==> s.tasks[g].subDone + 1 == s.tasks[g].groupSize)
            && r.tasks[g].subDone == s.tasks[g].subDone + 1
            && id !in r.inflight && id !in r.subOf
            && (IsDone(r.tasks[g]) ==> Subs(r.subOf, g) == {} && Left(s, g) == 0)
  {
    var r, g := Counted(s, id), s.subOf[id];
    CountedAccounts(s, id);
    CountedKeeps(s, id);
    ReportSubKeeps(s, id);
    assert GroupAt(s, g);
    if r.tasks[g].subDone >= r.tasks[g].groupSize {
      CompleteEvolves(r, g);
      CompleteKeeps(r, g);
      EvolvedAt(r.tasks, Complete(r, g).tasks, g, g);
      assert GroupAt(DoReport(s, id), g);
      SubIdsStayFresh(s, id);
    }
  }

  /** A reported synthetic id is never issued again by the step that consumes it. */
  lemma SubIdsStayFresh(s: Orch, id: int)
    requires Inv(s) && id in s.subOf
    ensures id !in DoReport(s, id).subOf && id !in DoReport(s, id).inflight
  {
    var r, g := Counted(s, id), s.subOf[id];
    CountedAccounts(s, id);
    CountedKeeps(s, id);
    ReportSubKeeps(s, id);
    if r.tasks[g].subDone >= r.tasks[g].groupSize {
      CompleteAddsOlderIds(r, g, id);
    }
    assert !Awaited(DoReport(s, id), id);
  }

  lemma {:induction false} LaunchAddsOlderIds(s: Orch, g: nat, n: nat, id: int)
    requires id > s.nextSub && id !in s.subOf
    ensures id !in Launch(s, g, n).subOf && Launch(s, g, n).nextSub < id
    decreases n
  {
    if n > 0 { LaunchAddsOlderIds(LaunchSub(s, g), g, n - 1, id); }
  }

  lemma {:induction false} WakeAddsOlderIds(s: Orch, list: seq<nat>, id: int)
    requires id > s.nextSub && id !in s.subOf
    ensures id !in WakeAll(s, list).subOf
    decreases |list|
  {
    if list != [] {
      var c := list[0];
      if c < |s.tasks| && Wakeable(s.tasks[c]) && s.tasks[c].isGroup && c in s.specs {
        LaunchAddsOlderIds(s.(tasks := SetStatus(s.tasks, c, Running)), c, s.specs[c], id);
      }
      WakeAddsOlderIds(WakeOne(s, c), list[1..], id);
    }
  }

  lemma CompleteAddsOlderIds(s: Orch, t: nat, id: int)
    requires t < |s.tasks| && id > s.nextSub && id !in s.subOf
    ensures id !in Complete(s, t).subOf
  {
    var s0 := s.(tasks := SetStatus(s.tasks, t, Completed));
    var ts2 := SatisfyAll(ReleaseAll(s0.tasks, s.tasks[t].producers), s.tasks[t].consumers);
    WakeAddsOlderIds(s0.(tasks := ts2), s.tasks[t].consumers, id);
  }
}

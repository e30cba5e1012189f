/** Whole runs of the orchestrator: what holds in every reachable state. */
module Runs {
  import opened Common
  import opened Lifecycle
  import opened Tally
  import opened Ledger
  import opened Submission
  import opened Groups
  import opened Invariant

  /** A run from an empty orchestrator, with the states before and after each step. */
  datatype Run = Run(window: nat, capacity: nat, steps: seq<Step>, states: seq<Orch>)

  ghost predicate IsRun(run: Run) {
    && |run.states| == |run.steps| + 1
    && run.states[0] == Init(run.window, run.capacity)
    && (forall i :: 0 <= i < |run.steps| ==>
          Enabled(run.states[i], run.steps[i]) && run.states[i + 1] == Next(run.states[i], run.steps[i]))
  }

  /** A run whose submissions never read from a CONSUMED task. */
  ghost predicate FreshRun(run: Run) {
    IsRun(run) && forall i :: 0 <= i < |run.steps| ==> StepReadsFresh(run.states[i], run.steps[i])
  }

  ghost predicate StepReadsScoped(s: Orch, step: Step) {
    match step
    case SubmitTask(params) => ScopedReads(s, params)
    case SubmitGroup(params, _) => ScopedReads(s, params)
    case _ => true
  }

  /** A run that keeps the discipline of scoped reads: an input is named only while its
      producer's scope is open. */
  ghost predicate ScopedRun(run: Run) {
    IsRun(run) && forall i :: 0 <= i < |run.steps| ==> StepReadsScoped(run.states[i], run.steps[i])
  }

  /** Every state of a run that never reads from a CONSUMED task satisfies the invariant. */
  lemma {:induction false} RunKeepsInv(run: Run, k: nat)
    requires FreshRun(run) && k < |run.states|
    ensures Inv(run.states[k])
  {
    if k == 0 {
      InitInv(run.window, run.capacity);
    } else {
      RunKeepsInv(run, k - 1);
      StepKeepsInv(run.states[k - 1], run.steps[k - 1]);
    }
  }

  /** Scoped reads are enough: such a run never reads from a CONSUMED task. */
  lemma {:induction false} ScopedRunKeepsInv(run: Run, k: nat)
    requires ScopedRun(run) && k < |run.states|
    ensures Inv(run.states[k])
    ensures k < |run.steps| ==> StepReadsFresh(run.states[k], run.steps[k])
  {
    if k == 0 {
      InitInv(run.window, run.capacity);
    } else {
      ScopedRunKeepsInv(run, k - 1);
      StepKeepsInv(run.states[k - 1], run.steps[k - 1]);
    }
    if k < |run.steps| {
      assert StepReadsScoped(run.states[k], run.steps[k]);
      match run.steps[k]
      case SubmitTask(params) => ScopedReadsAreFresh(run.states[k], params);
      case SubmitGroup(params, _) => ScopedReadsAreFresh(run.states[k], params);
      case _ =>
    }
  }

  lemma ScopedIsFresh(run: Run)
    requires ScopedRun(run)
    ensures FreshRun(run)
  {
    forall i | 0 <= i < |run.steps| ensures StepReadsFresh(run.states[i], run.steps[i]) { ScopedRunKeepsInv(run, i); }
  }

  /** For a plain task the condition is exact: the invariant survives submission if and
      only if no parameter reads from a CONSUMED task. */
  lemma FreshReadsExact(s: Orch, params: seq<Param>)
    requires Inv(s) && HasSpace(s)
    ensures Inv(DoSubmitTask(s, params)) <==> FreshReads(s, params)
  {
    if FreshReads(s, params) {
      SubmitTaskKeeps(s, params);
    } else {
      var p :| p in Sources(s, params, |s.tasks|) && p < |s.tasks| && s.tasks[p].status == Consumed;
      StaleReadUnbalances(s, params, false, 0, p);
      var r, q := Register(s, params, false, 0), DoSubmitTask(s, params);
      assert q.tasks[p] == r.tasks[p];
      assert !RetainAt(q.tasks, p);
    }
  }

  /** The same for a group with sub-tasks. */
  lemma FreshGroupReadsExact(s: Orch, params: seq<Param>, size: nat)
    requires Inv(s) && HasSpace(s) && s.dispatching.None? && size > 0
    ensures Inv(DoSubmitGroup(s, params, size)) <==> FreshReads(s, params)
  {
    if FreshReads(s, params) {
      SubmitGroupKeeps(s, params, size);
    } else {
      var p :| p in Sources(s, params, |s.tasks|) && p < |s.tasks| && s.tasks[p].status == Consumed;
      StaleReadUnbalances(s, params, true, size, p);
      var r, q := Register(s, params, true, size), DoSubmitGroup(s, params, size);
      assert q.tasks[p] == r.tasks[p];
      assert !RetainAt(q.tasks, p);
    }
  }

  /** For every step the condition is exact: the invariant survives if and only if a task
      or a group with sub-tasks reads from no CONSUMED task. */
  lemma StepKeepsInvExactly(s: Orch, step: Step)
    requires Inv(s) && Enabled(s, step)
    ensures Inv(Next(s, step)) <==> StepReadsFresh(s, step)
  {
    match step
    case SubmitTask(params) => FreshReadsExact(s, params);
    case SubmitGroup(params, size) =>
      if size > 0 { FreshGroupReadsExact(s, params, size); } else { SubmitEmptyGroupKeeps(s, params); }
    case _ => StepKeepsInv(s, step);
  }

  // ---- Retirement safety ---------------------------------------------------

  /** A retired task has completed, its scope has ended and every consumer it ever
      registered has completed. */
  lemma RetiredIsFinished(run: Run, k: nat, id: nat)
    requires ScopedRun(run) && k < |run.states|
    requires id < run.states[k].last
    ensures id < |run.states[k].tasks|
    ensures var t := run.states[k].tasks[id];
            && IsDone(t) && t.scoped && t.released
            && id !in Flat(run.states[k].scopes)
            && forall c :: c in t.consumers ==> DoneAt(run.states[k].tasks, c)
  {
    ScopedRunKeepsInv(run, k);
    var s := run.states[k];
    assert TallyAt(s.tasks, id) && RetainAt(s.tasks, id);
    TokenAtMostOne(s.tasks, id);
  }

  /** The ids whose descriptors a step reads or writes. */
  ghost predicate Reaches(s: Orch, step: Step, id: nat) {
    match step
    case SubmitTask(params) => id == |s.tasks| || id in Sources(s, params, |s.tasks|)
    case SubmitGroup(params, _) => id == |s.tasks| || id in Sources(s, params, |s.tasks|)
    case DispatchNext => s.dispatching.Some? && id == s.dispatching.value.0
    case Report(r) =>
      var t := if r in s.subOf then s.subOf[r] else r;
      id == t || (0 <= t < |s.tasks| && (id in s.tasks[t].producers || id in s.tasks[t].consumers))
    case ScopeEnd =>
      (s.scopes != [] && id in s.scopes[|s.scopes| - 1]) || s.last <= id < |s.tasks|
    case Advance => s.last <= id < |s.tasks|
    case _ => false
  }

  /** In the ring, slot id % run.window still belongs to id: no younger task has taken it. */
  predicate OwnsSlot(s: Orch, id: nat)
    requires s.window > 0
  {
    id < |s.tasks| && forall j :: id < j < |s.tasks| ==> j % s.window != id % s.window
  }

  lemma LiveOwnsSlot(s: Orch, id: nat)
    requires s.window > 0 && s.last <= id < |s.tasks| <= s.last + s.window
    ensures OwnsSlot(s, id)
  {
    forall j | id < j < |s.tasks| ensures j % s.window != id % s.window {
      ModInjective(id, j, s.window);
    }
  }

  /** A producer with an unfinished consumer has not retired. */
  lemma ProducerLive(s: Orch, t: nat, p: nat)
    requires Inv(s) && t < |s.tasks| && !IsDone(s.tasks[t]) && p in s.tasks[t].producers
    ensures s.last <= p <= t
  {
    assert Mirrored(s.tasks, p, t);
    assert t in s.tasks[p].consumers;
    assert TallyAt(s.tasks, p) && RetainAt(s.tasks, p);
    TokenAtMostOne(s.tasks, p);
  }

  lemma {:induction false} SourcesLive(s: Orch, params: seq<Param>, tid: nat, id: nat)
    requires HandlesKnown(s) && s.last <= tid && |s.tasks| <= tid && id in Sources(s, params, tid)
    ensures s.last <= id <= tid
    decreases |params|
  {
    var earlier := params[..|params| - 1];
    if id in Sources(s, earlier, tid) { SourcesLive(s, earlier, tid, id); }
  }

  /** The task a report is about is running, hence unretired. */
  lemma ReportedLive(s: Orch, r: int)
    requires Inv(s) && r in s.inflight
    ensures var t := if r in s.subOf then s.subOf[r] else r;
            s.last <= t < |s.tasks| && s.tasks[t].status == Running
  {
    assert Awaited(s, r);
    if r in s.subOf { CountedAccounts(s, r); }
  }

  lemma ReachedIsLive(s: Orch, step: Step, id: nat)
    requires Inv(s) && Enabled(s, step) && Reaches(s, step, id)
    ensures s.last <= id < |s.tasks| || (id == |s.tasks| && (step.SubmitTask? || step.SubmitGroup?))
  {
    match step
    case SubmitTask(params) => if id != |s.tasks| { SourcesLive(s, params, |s.tasks|, id); }
    case SubmitGroup(params, _) => if id != |s.tasks| { SourcesLive(s, params, |s.tasks|, id); }
    case DispatchNext => assert GroupAt(s, id);
    case Report(r) =>
      ReportedLive(s, r);
      var t := if r in s.subOf then s.subOf[r] else r;
      if id in s.tasks[t].producers { ProducerLive(s, t, id); }
    case ScopeEnd =>
      if id in s.scopes[|s.scopes| - 1] {
        assert id in Flat(s.scopes);
        ScopeHoldsLive(s, id);
      }
    case _ =>
  }

  lemma SameLength(s: Orch, step: Step)
    requires Inv(s) && Enabled(s, step)
    ensures Next(s, step).window == s.window
    ensures |Next(s, step).tasks| == |s.tasks| + if step.SubmitTask? || step.SubmitGroup? then 1 else 0
  {
    match step
    case SubmitTask(params) => RegisterShows(s, params, false, 0);
    case SubmitGroup(params, size) =>
      RegisterShows(s, params, true, size);
      if size == 0 { CompleteKeeps(Register(s, params, true, 0), |s.tasks|); }
    case Report(r) =>
      if r in s.subOf {
        CompleteKeeps(Counted(s, r), s.subOf[r]);
      } else if 0 <= r < |s.tasks| {
        CompleteKeeps(s.(inflight := s.inflight - {r}), r);
      }
    case _ =>
  }

  /** What a submission leaves of handles, task count and bound. */
  lemma SubmitShows(s: Orch, step: Step, o: Orch)
    requires Inv(s) && Enabled(s, step) && (step.SubmitTask? || step.SubmitGroup?)
    requires o == s.(tasks := s.tasks + [if step.SubmitTask? then NewTask(false, 0) else NewTask(true, step.size)])
    ensures var r := Next(s, step);
            r.latest == Scan(o, step.params).latest && |r.tasks| == |o.tasks| && r.last == s.last
  {
    ScanKeepsFrame(o, step.params);
    if step.SubmitGroup? && step.size == 0 { CompleteKeeps(Register(s, step.params, true, 0), |s.tasks|); }
  }

  /** What the other steps leave of handles and bound. */
  lemma OtherStepsKeep(s: Orch, step: Step)
    requires Inv(s) && Enabled(s, step) && !step.SubmitTask? && !step.SubmitGroup?
    ensures var r := Next(s, step); r.latest == s.latest && |r.tasks| == |s.tasks| && r.last >= s.last
  {
    SameLength(s, step);
    match step
    case Report(id) => ReportKeepsHandles(s, id);
    case ScopeEnd => assert EndScope(s).latest == s.latest;
    case _ =>
  }

  lemma ReportKeepsHandles(s: Orch, id: int)
    requires Inv(s) && Enabled(s, Report(id))
    ensures DoReport(s, id).latest == s.latest && DoReport(s, id).last == s.last
  {
    ReportedLive(s, id);
    if id in s.subOf {
      CompleteKeeps(Counted(s, id), s.subOf[id]);
    } else {
      CompleteKeeps(s.(inflight := s.inflight - {id}), id);
    }
  }

  /** Every descriptor access of every step of a scoped run lands in the slot that still
      belongs to the id it was made for, before and after the step. */
  lemma AccessesOwnSlots(run: Run, k: nat, id: nat)
    requires run.window > 0 && ScopedRun(run)
    requires k < |run.steps| && Reaches(run.states[k], run.steps[k], id)
    ensures run.states[k + 1].window == run.states[k].window == run.window && OwnsSlot(run.states[k + 1], id)
    ensures id < |run.states[k].tasks| ==> OwnsSlot(run.states[k], id)
  {
    var s, r := run.states[k], run.states[k + 1];
    RunWindow(run, k);
    ScopedRunKeepsInv(run, k);
    ReachedIsLive(s, run.steps[k], id);
    SameLength(s, run.steps[k]);
    if id < |s.tasks| { LiveOwnsSlot(s, id); }
    if |r.tasks| == |s.tasks| {
      assert OwnsSlot(r, id);
    } else {
      forall j | id < j < |r.tasks| ensures j % run.window != id % run.window { ModInjective(id, j, run.window); }
    }
  }

  lemma {:induction false} RunWindow(run: Run, k: nat)
    requires ScopedRun(run) && k < |run.states|
    ensures run.states[k].window == run.window
  {
    if k > 0 {
      RunWindow(run, k - 1);
      ScopedRunKeepsInv(run, k - 1);
      SameLength(run.states[k - 1], run.steps[k - 1]);
    }
  }

  /** Reference counts, between calls: what each counter of a task stands for. */
  lemma RefcountConservation(run: Run, k: nat, id: nat)
    requires ScopedRun(run) && k < |run.states|
    requires id < |run.states[k].tasks|
    ensures var t := run.states[k].tasks[id];
            && t.fanoutCount == 1 + |t.consumers|
            && t.fanoutRef == (if t.released then 1 else 0) + DoneCount(run.states[k].tasks, t.consumers)
            && (t.status == Consumed <==> IsDone(t) && t.fanoutRef == t.fanoutCount)
            && (forall c :: 0 <= c < |run.states[k].tasks| ==>
                  Count(t.consumers, c) == Count(run.states[k].tasks[c].producers, id))
  {
    ScopedRunKeepsInv(run, k);
    var ts := run.states[k].tasks;
    assert TallyAt(ts, id) && RetainAt(ts, id);
    forall c | 0 <= c < |ts| ensures Count(ts[id].consumers, c) == Count(ts[c].producers, id) {
      assert Mirrored(ts, id, c);
    }
  }
}

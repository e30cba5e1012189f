/** What the protocol over ids guarantees over every interleaving. LevelSlotTheorems says how
    far this holds for the runtime on its slots. */
module LevelTheorems {
  import opened Common
  import opened LevelProtocol
  import opened LevelInvariant
  import opened LevelRuns

  datatype Run = Run(window: nat, steps: seq<Step>, states: seq<Level>)

  ghost predicate IsRun(run: Run) {
    && |run.states| == |run.steps| + 1
    && run.states[0] == Init(run.window)
    && (forall i :: 0 <= i < |run.steps| ==>
          Enabled(run.states[i], run.steps[i]) && run.states[i + 1] == Next(run.states[i], run.steps[i]))
  }

  /** An interleaving, of either kind, in which no producer is told of a consumer between
      its store of COMPLETED and its lock. */
  ghost predicate CleanRun(run: Run) {
    IsRun(run) && forall i :: 0 <= i < |run.steps| ==> Clean(run.states[i], run.steps[i])
  }

  lemma InitInv(window: nat)
    ensures Inv(Init(window)) && Exact(Init(window))
  {
  }

  lemma {:induction false} RunKeepsInv(run: Run, k: nat)
    requires IsRun(run) && k < |run.states|
    ensures Inv(run.states[k])
  {
    if k == 0 {
      InitInv(run.window);
    } else {
      RunKeepsInv(run, k - 1);
      StepKeepsInv(run.states[k - 1], run.steps[k - 1]);
    }
  }

  lemma {:induction false} CleanRunIsExact(run: Run, k: nat)
    requires CleanRun(run) && k < |run.states|
    ensures Inv(run.states[k]) && Exact(run.states[k])
  {
    if k == 0 {
      InitInv(run.window);
    } else {
      CleanRunIsExact(run, k - 1);
      StepKeepsInv(run.states[k - 1], run.steps[k - 1]);
      StepKeepsExact(run.states[k - 1], run.steps[k - 1]);
    }
  }

  // ---- Safety -----------------------------------------------------------------------------

  /** In every clean interleaving a worker starts a task only after each of its producers
      at this level has completed, and with the ready flag of every input tensor set. */
  lemma StartsWithInputsReady(run: Run, k: nat)
    requires CleanRun(run) && k < |run.steps| && run.steps[k] == Dequeue
    ensures var s := run.states[k]; var t := s.queue[0];
            && t < |s.tasks|
            && (forall p :: p in s.tasks[t].producers ==> DoneAt(s, p))
            && (forall h :: h in s.tasks[t].inputs && h != INVALID_HANDLE ==> h in s.ready)
  {
    CleanRunIsExact(run, k);
    var s := run.states[k];
    var t := s.queue[0];
    assert t in s.queue;
    WokenHasAll(s, t);
    assert InputsOk(s, t);
    forall h | h in s.tasks[t].inputs && h != INVALID_HANDLE ensures h in s.ready {
      if exists p :: p in s.tasks[t].producers && p < |s.tasks| && h in s.tasks[p].outputs {
        var p :| p in s.tasks[t].producers && p < |s.tasks| && h in s.tasks[p].outputs;
        assert DoneAt(s, p) && InputsOk(s, p);
      }
    }
  }

  /** No scope is ever opened at this level, so in every clean interleaving no task is ever
      released as often as it expects, none is CONSUMED, nothing retires, and at most a
      window of tasks is ever admitted. */
  lemma NothingRetires(run: Run, k: nat)
    requires CleanRun(run) && k < |run.states|
    ensures var s := run.states[k];
            && s.last == 0 && |s.tasks| <= s.window
            && forall i :: 0 <= i < |s.tasks| ==>
                 s.tasks[i].status != Consumed && s.tasks[i].fanoutRef < s.tasks[i].fanoutCount
  {
    CleanRunIsExact(run, k);
    var s := run.states[k];
    forall i | 0 <= i < |s.tasks| ensures s.tasks[i].fanoutRef < s.tasks[i].fanoutCount {
      NeverFullyReleased(s, i);
    }
  }

  // ---- Retirement, in every interleaving ----------------------------------------------------

  /** The first unretired task is not CONSUMED. */
  predicate Stopped(s: Level) {
    s.last < |s.tasks| ==> s.tasks[s.last].status != Consumed
  }

  lemma ConsumeStops(s: Level, t: nat)
    requires Stopped(s) && s.last <= |s.tasks|
    ensures Stopped(CheckConsumed(s, t))
  {
  }

  lemma TryReadyStops(s: Level, t: nat)
    requires Stopped(s)
    ensures Stopped(TryReady(s, t))
  {
  }

  lemma StepStops(s: Level, step: Step)
    requires Stopped(s) && s.last <= |s.tasks| && Enabled(s, step)
    ensures Stopped(Next(s, step))
  {
    match step
    case Link => LinkStops(s);
    case Check => TryReadyStops(s, s.linking.value);
    case Walk(t) => WalkStops(s, t);
    case Unlink(t) => UnlinkStops(s, t);
    case Finish(t) => ConsumeStops(SetPhase(s, t, Finished), t);
    case Notice(t) => NoticeStops(s, t);
    case Publish(_, _) =>
    case SetReady(_) =>
    case Advance =>
    case _ => WorkerStops(s, step);
  }

  lemma WalkStops(s: Level, t: nat)
    requires Stopped(s) && Enabled(s, Walk(t))
    ensures Stopped(DoWalk(s, t))
  {
    var rest := s.tasks[t].phase.rest;
    TryReadyStops(Credit(SetPhase(s, t, Walking(rest[1..])), rest[0], t), rest[0]);
  }

  lemma UnlinkStops(s: Level, t: nat)
    requires Stopped(s) && s.last <= |s.tasks| && Enabled(s, Unlink(t))
    ensures Stopped(DoUnlink(s, t))
  {
    var left := s.tasks[t].phase.left - 1;
    var p := s.tasks[t].producers[left];
    ConsumeStops(Release(SetPhase(s, t, Unlinking(left)), p, t), p);
  }

  lemma NoticeStops(s: Level, t: nat)
    requires Stopped(s) && Enabled(s, Notice(t))
    ensures Stopped(DoNotice(s, t))
  {
    var x := s.tasks[t];
    TryReadyStops(s.(tasks := s.tasks[t := x.(noticed := true, faninRef := x.faninRef + |x.externals|)]), t);
  }

  lemma LinkStops(s: Level)
    requires Stopped(s) && LinkReady(s)
    ensures Stopped(DoLink(s))
  {
  }

  lemma WorkerStops(s: Level, step: Step)
    requires Stopped(s) && Enabled(s, step)
    requires step.Dequeue? || step.Mark? || step.Store? || step.Lock? || step.StoreLocked? || step.Unlock?
    ensures Stopped(Next(s, step))
  {
  }

  /** In every state of every interleaving all has retired that can: every task below
      last_task_alive is CONSUMED, and the first unretired one is not. */
  lemma {:induction false} RetiredExactly(run: Run, k: nat)
    requires IsRun(run) && k < |run.states|
    ensures var s := run.states[k];
            && s.last <= |s.tasks| && (forall i :: 0 <= i < s.last ==> s.tasks[i].status == Consumed)
            && (s.last < |s.tasks| ==> s.tasks[s.last].status != Consumed)
  {
    RunKeepsInv(run, k);
    if k > 0 {
      RetiredExactly(run, k - 1);
      RunKeepsInv(run, k - 1);
      StepStops(run.states[k - 1], run.steps[k - 1]);
    }
  }

  /** A task whose worker has finished is CONSUMED once it has been released as often as it
      expects. */
  predicate Collected(x: Task) {
    x.phase == Finished && x.fanoutRef >= x.fanoutCount ==> x.status == Consumed
  }

  /** A step makes a task CONSUMED only if it has completed and been released that often. */
  predicate CollectedFairly(x: Task, y: Task) {
    x.status != Consumed && y.status == Consumed ==> IsDone(x) && y.fanoutRef >= y.fanoutCount
  }

  lemma ConsumeCollects(s: Level, t: nat, i: nat)
    requires i < |s.tasks| && (i != t ==> Collected(s.tasks[i]))
    requires i == t && s.tasks[t].phase == Finished ==> IsDone(s.tasks[t])
    ensures |CheckConsumed(s, t).tasks| == |s.tasks| && Collected(CheckConsumed(s, t).tasks[i])
    ensures CollectedFairly(s.tasks[i], CheckConsumed(s, t).tasks[i])
  {
  }

  lemma TryReadyCollects(s: Level, t: nat, i: nat)
    requires i < |s.tasks| && Collected(s.tasks[i]) && (s.tasks[i].status == Pending ==> s.tasks[i].phase != Finished)
    ensures |TryReady(s, t).tasks| == |s.tasks| && Collected(TryReady(s, t).tasks[i])
    ensures CollectedFairly(s.tasks[i], TryReady(s, t).tasks[i])
  {
  }

  lemma StepCollects(s: Level, step: Step, i: nat)
    requires Enabled(s, step) && i < |s.tasks| && Collected(s.tasks[i]) && BodiesOk(s) && QueueOk(s)
    ensures i < |Next(s, step).tasks| && Collected(Next(s, step).tasks[i])
    ensures CollectedFairly(s.tasks[i], Next(s, step).tasks[i])
  {
    assert PhaseOk(s.tasks[i]);
    match step
    case Check => TryReadyCollects(s, s.linking.value, i);
    case Walk(t) => WalkCollects(s, t, i);
    case Unlink(t) => UnlinkCollects(s, t, i);
    case Finish(t) => ConsumeCollects(SetPhase(s, t, Finished), t, i);
    case Notice(t) => NoticeCollects(s, t, i);
    case Link => LinkCollects(s, i);
    case Publish(_, _) =>
    case SetReady(_) =>
    case Advance =>
    case _ => WorkerCollects(s, step, i);
  }

  lemma LinkCollects(s: Level, i: nat)
    requires LinkReady(s) && i < |s.tasks| && Collected(s.tasks[i])
    ensures |DoLink(s).tasks| == |s.tasks| && Collected(DoLink(s).tasks[i])
    ensures CollectedFairly(s.tasks[i], DoLink(s).tasks[i])
  {
  }

  lemma WalkCollects(s: Level, t: nat, i: nat)
    requires Enabled(s, Walk(t)) && i < |s.tasks| && Collected(s.tasks[i]) && PhaseOk(s.tasks[i])
    ensures |DoWalk(s, t).tasks| == |s.tasks| && Collected(DoWalk(s, t).tasks[i])
    ensures CollectedFairly(s.tasks[i], DoWalk(s, t).tasks[i])
  {
    var rest := s.tasks[t].phase.rest;
    TryReadyCollects(Credit(SetPhase(s, t, Walking(rest[1..])), rest[0], t), rest[0], i);
  }

  lemma UnlinkCollects(s: Level, t: nat, i: nat)
    requires Enabled(s, Unlink(t)) && i < |s.tasks| && Collected(s.tasks[i]) && PhaseOk(s.tasks[i])
    ensures |DoUnlink(s, t).tasks| == |s.tasks| && Collected(DoUnlink(s, t).tasks[i])
    ensures CollectedFairly(s.tasks[i], DoUnlink(s, t).tasks[i])
  {
    var left := s.tasks[t].phase.left - 1;
    var p := s.tasks[t].producers[left];
    ConsumeCollects(Release(SetPhase(s, t, Unlinking(left)), p, t), p, i);
  }

  lemma NoticeCollects(s: Level, t: nat, i: nat)
    requires Enabled(s, Notice(t)) && i < |s.tasks| && Collected(s.tasks[i]) && PhaseOk(s.tasks[i])
    ensures |DoNotice(s, t).tasks| == |s.tasks| && Collected(DoNotice(s, t).tasks[i])
    ensures CollectedFairly(s.tasks[i], DoNotice(s, t).tasks[i])
  {
    var x := s.tasks[t];
    TryReadyCollects(s.(tasks := s.tasks[t := x.(noticed := true, faninRef := x.faninRef + |x.externals|)]), t, i);
  }

  lemma WorkerCollects(s: Level, step: Step, i: nat)
    requires Enabled(s, step) && i < |s.tasks| && Collected(s.tasks[i])
    requires step.Dequeue? || step.Mark? || step.Store? || step.Lock? || step.StoreLocked? || step.Unlock?
    ensures |Next(s, step).tasks| == |s.tasks| && Collected(Next(s, step).tasks[i])
    ensures CollectedFairly(s.tasks[i], Next(s, step).tasks[i])
  {
  }

  /** In every interleaving a finished task is CONSUMED as soon as it has been released as
      often as it expects, and no task becomes CONSUMED in any other way. */
  lemma {:induction false} ConsumedExactly(run: Run, k: nat, i: nat)
    requires IsRun(run) && k < |run.states| && i < |run.states[k].tasks|
    ensures var x := run.states[k].tasks[i];
            x.phase == Finished && x.fanoutRef >= x.fanoutCount ==> x.status == Consumed
    ensures k > 0 && i < |run.states[k - 1].tasks| ==>
              var x, y := run.states[k - 1].tasks[i], run.states[k].tasks[i];
              x.status != Consumed && y.status == Consumed ==> IsDone(x) && y.fanoutRef >= y.fanoutCount
  {
    if k > 0 {
      var s, step := run.states[k - 1], run.steps[k - 1];
      if i < |s.tasks| {
        ConsumedExactly(run, k - 1, i);
        RunKeepsInv(run, k - 1);
        StepCollects(s, step, i);
      } else {
        NewIsFresh(s, step);
      }
    }
  }

  lemma NewIsFresh(s: Level, step: Step)
    requires Enabled(s, step)
    ensures forall i :: |s.tasks| <= i < |Next(s, step).tasks| ==> Next(s, step).tasks[i].phase == Waiting
  {
    if !step.Publish? { SameCount(s, step); }
  }

  lemma SameCount(s: Level, step: Step)
    requires Enabled(s, step) && !step.Publish?
    ensures |Next(s, step).tasks| == |s.tasks|
  {
  }

  // ---- Wake-ups, in every interleaving ------------------------------------------------------

  /** The worker of p has visited all its consumers. */
  predicate Propagated(s: Level, p: nat) {
    p < |s.tasks| && (s.tasks[p].phase.Unlinking? || s.tasks[p].phase == Finished)
  }

  lemma FedIsEnqueued(s: Level, t: nat)
    requires Inv(s) && t < |s.tasks| && s.linking != Some(t)
    requires forall p :: p in s.tasks[t].producers ==> Propagated(s, p)
    requires s.tasks[t].noticed || s.tasks[t].externals == []
    ensures s.tasks[t].enqueued == 1
  {
    var x := s.tasks[t];
    assert WakeOk(s, t) && CountsOk(x) && PhaseOk(x);
    assert |x.producers| <= |x.credits| by {
      forall p: nat ensures Count(x.producers, p) <= Count(x.credits, p) { CreditedBy(s, p, t); }
      CountsBound(x.producers, x.credits);
    }
  }

  /** A producer that has visited its consumers has credited each as often as it was told. */
  lemma CreditedBy(s: Level, p: nat, t: nat)
    requires Inv(s) && t < |s.tasks| && s.linking != Some(t)
    requires p in s.tasks[t].producers ==> Propagated(s, p)
    ensures Count(s.tasks[t].producers, p) <= Count(s.tasks[t].credits, p)
  {
    var x := s.tasks[t];
    if p in x.producers {
      assert WakeOk(s, t) && CountsOk(x) && PhaseOk(s.tasks[p]);
      assert Told(x) == x.producers;
      assert PairOk(s, p, t);
    }
  }

  /** No wake-up is lost: once a task's submission is over, its producers have visited
      their consumers and its externals have been noticed, it has been put on the ready
      queue exactly once. This holds for split and fused steps alike, as long as every task
      keeps a descriptor of its own. */
  lemma NoLostWakeup(run: Run, k: nat, t: nat)
    requires IsRun(run) && k < |run.states| && t < |run.states[k].tasks|
    requires run.states[k].linking != Some(t)
    requires forall p :: p in run.states[k].tasks[t].producers ==> Propagated(run.states[k], p)
    requires run.states[k].tasks[t].noticed || run.states[k].tasks[t].externals == []
    ensures run.states[k].tasks[t].enqueued == 1
  {
    RunKeepsInv(run, k);
    FedIsEnqueued(run.states[k], t);
  }
}

/** The binary reduction carried out by the level runtime: in every interleaving on the
    slots in which COMPLETED is stored inside the lock, the pair tasks run in an order that
    respects their edges, so the root holds the fold of the leaves. */
module ReduceOnLevel {
  import opened Common
  import opened LevelProtocol
  import opened LevelTheorems
  import opened LevelCoupling
  import opened LevelSimulation
  import opened LevelSlotTheorems
  import T = TreeReduce

  // ---- Over ids ---------------------------------------------------------------------

  /** A submission of pair task i. */
  predicate IsPair(inputs: seq<nat>, outputs: seq<nat>, tasks: seq<T.PairTask>, i: nat) {
    i < |tasks| && inputs == [tasks[i].a, tasks[i].b] && outputs == [tasks[i].out]
  }

  /** The tensor is not one that a pair task writes. */
  predicate Outside(h: nat, base: nat, n: nat) {
    h < base || base + n <= h
  }

  predicate AllOutside(hs: seq<nat>, base: nat, n: nat) {
    forall i :: 0 <= i < |hs| ==> Outside(hs[i], base, n)
  }

  /** What a submission may be: a pair task, or any other task that writes only leaves or
      tensors outside the reduction. */
  ghost predicate Allowed(inputs: seq<nat>, outputs: seq<nat>, tasks: seq<T.PairTask>, base: nat) {
    (exists i: nat :: IsPair(inputs, outputs, tasks, i)) || AllOutside(outputs, base, |tasks|)
  }

  /** The index of the pair task that has these outputs, if it is one. */
  function IndexOf(outputs: seq<nat>, base: nat, n: nat): Option<nat> {
    if outputs != [] && !Outside(outputs[0], base, n) then Some(outputs[0] - base) else None
  }

  lemma AllowedIndex(inputs: seq<nat>, outputs: seq<nat>, tasks: seq<T.PairTask>, base: nat)
    requires Allowed(inputs, outputs, tasks, base) && T.SingleAssignment(tasks, base)
    ensures match IndexOf(outputs, base, |tasks|)
            case Some(i) => IsPair(inputs, outputs, tasks, i)
            case None => AllOutside(outputs, base, |tasks|)
  {
  }

  /** The step submits only what is allowed; other levels flag no tensor of
      the reduction. */
  ghost predicate Builds(step: Step, tasks: seq<T.PairTask>, base: nat) {
    && (step.Publish? ==> Allowed(step.inputs, step.outputs, tasks, base))
    && (step.SetReady? ==> Outside(step.handle, base, |tasks|))
  }

  ghost predicate BuildRun(run: Run, tasks: seq<T.PairTask>, base: nat) {
    CleanRun(run) && forall i :: 0 <= i < |run.steps| ==> Builds(run.steps[i], tasks, base)
  }

  /** The pair task that the step finishes running, if it is one. */
  function Marked1(s: Level, step: Step, tasks: seq<T.PairTask>, base: nat): seq<nat>
    requires Enabled(s, step)
  {
    if step.Mark? then
      match IndexOf(s.tasks[step.t].outputs, base, |tasks|)
      case Some(i) => [i]
      case None => []
    else []
  }

  /** The pair tasks whose function has returned in the first k steps, in order. */
  ghost function Marks(run: Run, tasks: seq<T.PairTask>, base: nat, k: nat): seq<nat>
    requires IsRun(run) && k < |run.states|
  {
    if k == 0 then [] else Marks(run, tasks, base, k - 1) + Marked1(run.states[k - 1], run.steps[k - 1], tasks, base)
  }

  /** A submitted task is a pair task, with its inputs ready once it is taken, or writes no
      tensor of the reduction. */
  predicate Carries(s: Level, t: nat, tasks: seq<T.PairTask>, base: nat)
    requires t < |s.tasks|
  {
    match IndexOf(s.tasks[t].outputs, base, |tasks|)
    case Some(i) =>
      && IsPair(s.tasks[t].inputs, s.tasks[t].outputs, tasks, i)
      && (s.tasks[t].phase != Waiting ==> tasks[i].a in s.ready && tasks[i].b in s.ready)
    case None => AllOutside(s.tasks[t].outputs, base, |tasks|)
  }

  /** Of the tensors that are not leaves, those flagged ready were written by marked tasks. */
  ghost predicate KeepsPace(s: Level, done: seq<nat>, tasks: seq<T.PairTask>, base: nat) {
    && (forall t :: 0 <= t < |s.tasks| ==> Carries(s, t, tasks, base))
    && (forall h :: h in s.ready && !Outside(h, base, |tasks|) ==> h - base in done)
  }

  /** A pair task at the head of the queue has its inputs ready. */
  predicate HeadReady(s: Level, tasks: seq<T.PairTask>, base: nat) {
    s.queue != [] && s.queue[0] < |s.tasks| &&
    match IndexOf(s.tasks[s.queue[0]].outputs, base, |tasks|)
    case Some(i) => i < |tasks| && tasks[i].a in s.ready && tasks[i].b in s.ready
    case None => true
  }

  lemma TakenIsReady(run: Run, k: nat, tasks: seq<T.PairTask>, base: nat)
    requires BuildRun(run, tasks, base) && Valid(tasks, base)
    requires k < |run.steps| && run.steps[k] == Dequeue
    requires forall t :: 0 <= t < |run.states[k].tasks| ==> Carries(run.states[k], t, tasks, base)
    ensures HeadReady(run.states[k], tasks, base)
  {
    StartsWithInputsReady(run, k);
    var s := run.states[k];
    var t := s.queue[0];
    assert Carries(s, t, tasks, base);
    match IndexOf(s.tasks[t].outputs, base, |tasks|)
    case Some(i) => assert tasks[i].a in s.tasks[t].inputs && tasks[i].b in s.tasks[t].inputs;
    case None =>
  }

  /** What a step leaves of a submitted task. */
  predicate SameShape(x: Task, y: Task) {
    y.inputs == x.inputs && y.outputs == x.outputs
  }

  predicate SameShapeAndPhase(s: Level, r: Level, t: nat) {
    t < |s.tasks| == |r.tasks| && SameShape(s.tasks[t], r.tasks[t]) && r.tasks[t].phase == s.tasks[t].phase
  }

  lemma TryReadyShape(s: Level, c: nat, t: nat)
    requires t < |s.tasks|
    ensures SameShapeAndPhase(s, TryReady(s, c), t)
  {
  }

  lemma CheckConsumedShape(s: Level, c: nat, t: nat)
    requires t < |s.tasks|
    ensures SameShapeAndPhase(s, CheckConsumed(s, c), t)
  {
  }

  lemma WalkShape(s: Level, u: nat, t: nat)
    requires Enabled(s, Walk(u)) && t < |s.tasks|
    ensures var r := DoWalk(s, u); t < |r.tasks| && SameShape(s.tasks[t], r.tasks[t])
                                   && (t != u ==> r.tasks[t].phase == s.tasks[t].phase)
  {
    var rest := s.tasks[u].phase.rest;
    TryReadyShape(Credit(SetPhase(s, u, Walking(rest[1..])), rest[0], u), rest[0], t);
  }

  lemma UnlinkShape(s: Level, u: nat, t: nat)
    requires Enabled(s, Unlink(u)) && t < |s.tasks|
    ensures var r := DoUnlink(s, u); t < |r.tasks| && SameShape(s.tasks[t], r.tasks[t])
                                     && (t != u ==> r.tasks[t].phase == s.tasks[t].phase)
  {
    var left := s.tasks[u].phase.left - 1;
    CheckConsumedShape(Release(SetPhase(s, u, Unlinking(left)), s.tasks[u].producers[left], u),
                       s.tasks[u].producers[left], t);
  }

  lemma LinkShape(s: Level, t: nat)
    requires LinkReady(s) && t < |s.tasks|
    ensures SameShapeAndPhase(s, DoLink(s), t)
  {
  }

  /** A task keeps its shape, and leaves the queue only by being taken. */
  lemma StepShape(s: Level, step: Step, t: nat)
    requires Enabled(s, step) && t < |s.tasks|
    ensures var r := Next(s, step);
            && t < |r.tasks| && SameShape(s.tasks[t], r.tasks[t])
            && (r.tasks[t].phase == s.tasks[t].phase || (step == Dequeue && t == s.queue[0]) || IsWorkOn(step, t))
  {
    match step
    case Link => LinkShape(s, t);
    case Check => TryReadyShape(s, s.linking.value, t);
    case Walk(u) => WalkShape(s, u, t);
    case Unlink(u) => UnlinkShape(s, u, t);
    case Finish(u) => CheckConsumedShape(SetPhase(s, u, Finished), u, t);
    case _ =>
  }

  /** A worker's step on task t itself. */
  predicate IsWorkOn(step: Step, t: nat) {
    match step
    case Mark(u) => u == t
    case Store(u) => u == t
    case Lock(u) => u == t
    case StoreLocked(u) => u == t
    case Walk(u) => u == t
    case Unlock(u) => u == t
    case Unlink(u) => u == t
    case Finish(u) => u == t
    case _ => false
  }

  /** A worker only works on a task it has taken. */
  lemma WorkIsTaken(s: Level, step: Step, t: nat)
    requires Enabled(s, step) && IsWorkOn(step, t)
    ensures t < |s.tasks| && s.tasks[t].phase != Waiting
  {
  }

  lemma StepReady(s: Level, step: Step)
    requires Enabled(s, step)
    ensures Next(s, step).ready == s.ready + match step
                                             case Mark(t) => (set h | h in s.tasks[t].outputs)
                                             case SetReady(h) => {h}
                                             case _ => {}
    ensures |Next(s, step).tasks| == |s.tasks| + if step.Publish? then 1 else 0
  {
  }

  // ---- Every step keeps pace ------------------------------------------------------------

  /** What is asked of the pair tasks: they are those of Build, over valid handles. */
  ghost predicate Valid(tasks: seq<T.PairTask>, base: nat) {
    && base > 0 && T.SingleAssignment(tasks, base)
    && forall i :: 0 <= i < |tasks| ==> tasks[i].a > 0 && tasks[i].b > 0
  }

  lemma NewCarries(s: Level, step: Step, tasks: seq<T.PairTask>, base: nat)
    requires Enabled(s, step) && step.Publish? && Builds(step, tasks, base) && Valid(tasks, base)
    ensures |Next(s, step).tasks| == |s.tasks| + 1 && Carries(Next(s, step), |s.tasks|, tasks, base)
  {
    AllowedIndex(step.inputs, step.outputs, tasks, base);
  }

  lemma StepCarries(s: Level, step: Step, tasks: seq<T.PairTask>, base: nat, t: nat)
    requires Enabled(s, step) && t < |s.tasks| && Carries(s, t, tasks, base)
    requires step == Dequeue ==> HeadReady(s, tasks, base)
    ensures t < |Next(s, step).tasks| && Carries(Next(s, step), t, tasks, base)
  {
    StepReady(s, step);
    StepShape(s, step, t);
    if IsWorkOn(step, t) { WorkIsTaken(s, step, t); }
  }

  lemma StepKeepsPace(s: Level, step: Step, done: seq<nat>, tasks: seq<T.PairTask>, base: nat)
    requires Enabled(s, step) && Builds(step, tasks, base) && Valid(tasks, base) && KeepsPace(s, done, tasks, base)
    requires step == Dequeue ==> HeadReady(s, tasks, base)
    ensures KeepsPace(Next(s, step), done + Marked1(s, step, tasks, base), tasks, base)
  {
    var r, after := Next(s, step), done + Marked1(s, step, tasks, base);
    StepReady(s, step);
    forall t | 0 <= t < |r.tasks| ensures Carries(r, t, tasks, base) {
      if t < |s.tasks| {
        assert Carries(s, t, tasks, base);
        StepCarries(s, step, tasks, base, t);
      } else {
        NewCarries(s, step, tasks, base);
      }
    }
    if step.Mark? { assert Carries(s, step.t, tasks, base); }
    forall h | h in r.ready && !Outside(h, base, |tasks|) ensures h - base in after {
      if h in s.ready { assert h - base in done; }
    }
  }

  lemma MarkRespects(s: Level, done: seq<nat>, t: nat, tasks: seq<T.PairTask>, base: nat, i: nat)
    requires Enabled(s, Mark(t)) && Valid(tasks, base) && KeepsPace(s, done, tasks, base)
             && T.Respects(tasks, base, done)
    requires IndexOf(s.tasks[t].outputs, base, |tasks|) == Some(i)
    ensures T.Respects(tasks, base, done + [i])
  {
    var after := done + [i];
    assert Carries(s, t, tasks, base);
    forall k | 0 <= k < |after|
      ensures after[k] < |tasks|
      ensures tasks[after[k]].a < base || tasks[after[k]].a - base in after[..k]
      ensures tasks[after[k]].b < base || tasks[after[k]].b - base in after[..k]
    {
      if k < |done| { assert after[..k] == done[..k]; } else { assert after[..k] == done; }
    }
  }

  lemma PaceOn(run: Run, tasks: seq<T.PairTask>, base: nat, k: nat, done: seq<nat>)
    requires BuildRun(run, tasks, base) && Valid(tasks, base) && k < |run.steps|
    requires KeepsPace(run.states[k], done, tasks, base) && T.Respects(tasks, base, done)
    ensures var after := done + Marked1(run.states[k], run.steps[k], tasks, base);
            KeepsPace(run.states[k + 1], after, tasks, base) && T.Respects(tasks, base, after)
  {
    var s, step := run.states[k], run.steps[k];
    if step == Dequeue { TakenIsReady(run, k, tasks, base); }
    StepKeepsPace(s, step, done, tasks, base);
    if step.Mark? && IndexOf(s.tasks[step.t].outputs, base, |tasks|).Some? {
      MarkRespects(s, done, step.t, tasks, base, IndexOf(s.tasks[step.t].outputs, base, |tasks|).value);
    } else {
      assert done + [] == done;
    }
  }

  /** In every run without the overlap the pair tasks run in an order that respects their
      edges, whatever else is submitted. */
  lemma {:induction false} MarksRespect(run: Run, tasks: seq<T.PairTask>, base: nat, k: nat)
    requires BuildRun(run, tasks, base) && Valid(tasks, base) && k < |run.states|
    ensures T.Respects(tasks, base, Marks(run, tasks, base, k))
    ensures KeepsPace(run.states[k], Marks(run, tasks, base, k), tasks, base)
  {
    if k > 0 {
      MarksRespect(run, tasks, base, k - 1);
      PaceOn(run, tasks, base, k - 1, Marks(run, tasks, base, k - 1));
    }
  }

  // ---- On the slots ------------------------------------------------------------------------

  /** The move submits only what is allowed; other levels flag no tensor of
      the reduction. */
  ghost predicate BuildsSlot(m: S.Move, tasks: seq<T.PairTask>, base: nat) {
    && (m.Publish? ==> Allowed(m.inputs, m.outputs, tasks, base))
    && (m.SetReady? ==> Outside(m.handle, base, |tasks|))
  }

  ghost predicate BuildSlotRun(run: SlotRun, tasks: seq<T.PairTask>, base: nat) {
    CleanSlotRun(run) && forall i :: 0 <= i < |run.moves| ==> BuildsSlot(run.moves[i], tasks, base)
  }

  /** The pair task that the move finishes running, by the outputs in its slot. */
  function SlotMarked1(s: S.Slotted, m: S.Move, tasks: seq<T.PairTask>, base: nat): seq<nat>
    requires CanStep(s, m)
  {
    if m.Mark? then
      match IndexOf(S.Own(s, m.job).outputs, base, |tasks|)
      case Some(i) => [i]
      case None => []
    else []
  }

  /** The pair tasks whose function has returned in the first k moves, in order. */
  ghost function SlotMarks(run: SlotRun, tasks: seq<T.PairTask>, base: nat, k: nat): seq<nat>
    requires IsSlotRun(run) && k < |run.states|
  {
    if k == 0 then [] else SlotMarks(run, tasks, base, k - 1) + SlotMarked1(run.states[k - 1], run.moves[k - 1],
          tasks, base)
  }

  lemma SlotMarkedIs(s: S.Slotted, l: Level, m: S.Move, tasks: seq<T.PairTask>, base: nat)
    requires Couples(s, l) && CanStep(s, m) && Enabled(l, StepOf(s, m))
    ensures SlotMarked1(s, m, tasks, base) == Marked1(l, StepOf(s, m), tasks, base)
  {
    if m.Mark? {
      var j := m.job;
      assert JobShown(s.jobs[j], l.tasks);
      assert InReach(l, s.jobs[j].id);
      assert S.Own(s, j) == S.Shown(l.tasks[s.jobs[j].id], s.jobs[j].id);
    }
  }

  lemma {:induction false} SlotMarksAre(run: SlotRun, ids: Run, tasks: seq<T.PairTask>, base: nat, n: nat, k: nat)
    requires IsSlotRun(run) && k <= n < |run.states| && Mirrors(run, ids, n)
    ensures SlotMarks(run, tasks, base, k) == Marks(ids, tasks, base, k)
  {
    if k > 0 {
      SlotMarksAre(run, ids, tasks, base, n, k - 1);
      assert Couples(run.states[k - 1], ids.states[k - 1]);
      assert ids.steps[k - 1] == StepOf(run.states[k - 1], run.moves[k - 1]);
      SlotMarkedIs(run.states[k - 1], ids.states[k - 1], run.moves[k - 1], tasks, base);
    }
  }

  lemma BuildsMirrored(s: S.Slotted, m: S.Move, tasks: seq<T.PairTask>, base: nat)
    requires CanStep(s, m) && BuildsSlot(m, tasks, base)
    ensures Builds(StepOf(s, m), tasks, base)
  {
  }

  lemma SlotMarksRespect(run: SlotRun, tasks: seq<T.PairTask>, base: nat, k: nat)
    requires BuildSlotRun(run, tasks, base) && Valid(tasks, base) && k < |run.states|
    ensures T.Respects(tasks, base, SlotMarks(run, tasks, base, k))
  {
    var ids := CleanSimulation(run, k);
    forall i | 0 <= i < k ensures Builds(ids.steps[i], tasks, base) {
      assert ids.steps[i] == StepOf(run.states[i], run.moves[i]);
      BuildsMirrored(run.states[i], run.moves[i], tasks, base);
    }
    MarksRespect(ids, tasks, base, k);
    SlotMarksAre(run, ids, tasks, base, k, k);
  }

  /** The reduction on the runtime: submit the pair tasks of Build to the level runtime, in
      any order and among any other tasks, such as those that produce the leaves; in every
      interleaving on the slots without the overlap, once the root's task has run, the
      values written in the order of running leave in the root the left-to-right fold of
      the leaves, for any associative pair function. */
  lemma RootHoldsFold<V(!new)>(run: SlotRun, k: nat, f: (V, V) -> V, val: nat -> V, tasks: seq<T.PairTask>, base: nat,
                               leaves: seq<nat>, root: nat)
    requires BuildSlotRun(run, tasks, base) && Valid(tasks, base) && k < |run.states|
    requires base <= root < base + |tasks| && T.Yield(tasks, base, root) == leaves && T.Associative(f)
    requires root - base in SlotMarks(run, tasks, base, k)
    ensures leaves != [] && T.Respects(tasks, base, SlotMarks(run, tasks, base, k))
    ensures var w := T.ExecuteAll(f, val, base, tasks, SlotMarks(run, tasks, base, k));
            root in w && w[root] == T.Fold(f, val, leaves)
  {
    SlotMarksRespect(run, tasks, base, k);
    T.ScheduleIndependence(f, val, tasks, base, leaves, root, SlotMarks(run, tasks, base, k));
  }

  /** In particular in every fused interleaving. */
  lemma FusedRootHoldsFold<V(!new)>(run: SlotRun, k: nat, f: (V, V) -> V, val: nat -> V, tasks: seq<T.PairTask>,
                                    base: nat,
                                    leaves: seq<nat>, root: nat)
    requires FusedSlotRun(run) && (forall i :: 0 <= i < |run.moves| ==>
               BuildsSlot(run.moves[i], tasks, base))
    requires Valid(tasks, base) && k < |run.states|
    requires base <= root < base + |tasks| && T.Yield(tasks, base, root) == leaves && T.Associative(f)
    requires root - base in SlotMarks(run, tasks, base, k)
    ensures leaves != [] && T.Respects(tasks, base, SlotMarks(run, tasks, base, k))
    ensures var w := T.ExecuteAll(f, val, base, tasks, SlotMarks(run, tasks, base, k));
            root in w && w[root] == T.Fold(f, val, leaves)
  {
    FusedSlotRunIsClean(run);
    RootHoldsFold(run, k, f, val, tasks, base, leaves, root);
  }
}

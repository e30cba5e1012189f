/** Scopes, draining and buffer lifetimes. */
module Lifetimes {
  import opened Common
  import opened HeapRings
  import opened Lifecycle
  import opened Tally
  import opened Ledger
  import opened Submission
  import opened Invariant
  import opened Runs
  import opened Progress

  // ---- Which calls go through -----------------------------------------------

  /** In every run: a submission finds room exactly while fewer than a window of tasks are
      unretired, a buffer exactly when there is a free place for it, a scope can be opened up
      to eight deep and ended while one is open; all of them, and an advance, when no group is
      being handed over; and exactly the ids that are in flight can be reported. */
  lemma CallsGoThrough(run: Run, k: nat, params: seq<Param>, size: nat, bytes: nat, id: int)
    requires FreshRun(run) && k < |run.states|
    ensures var s := run.states[k];
            var free := s.dispatching.None?;
            && (Enabled(s, SubmitTask(params)) <==> free && |s.tasks| < s.last + s.window)
            && (Enabled(s, SubmitGroup(params, size)) <==> free && |s.tasks| < s.last + s.window)
            && (Enabled(s, AllocTensor(bytes)) <==> free && (bytes == 0 || exists p: nat :: FreeAt(s.heap, bytes, p)))
            && (Enabled(s, ScopeBegin) <==> free && |s.scopes| < 8)
            && (Enabled(s, ScopeEnd) <==> free && s.scopes != [])
            && (Enabled(s, Advance) <==> free)
            && (Enabled(s, DispatchNext) <==> !free)
            && (Enabled(s, Report(id)) <==> id in s.inflight)
  {
    var s := run.states[k];
    RunKeepsInv(run, k);
    FitsExactly(s.heap, bytes);
    if id in s.inflight { ReportedLive(s, id); }
  }

  // ---- Scopes --------------------------------------------------------------

  /** A task submitted inside a scope is held by the innermost one until that scope ends:
      in every state it is in the flat buffer exactly when it has no token yet. The buffer
      holds distinct unretired ids, so it never outgrows the window. */
  lemma ScopeBufferBound(run: Run, k: nat)
    requires ScopedRun(run) && k < |run.states|
    ensures var s := run.states[k];
            && Distinct(Flat(s.scopes))
            && (forall i :: i in Flat(s.scopes) ==> s.last <= i < |s.tasks| && !s.tasks[i].released)
            && (forall i :: 0 <= i < |s.tasks| && s.tasks[i].scoped && !s.tasks[i].released ==> i in Flat(s.scopes))
            && |Flat(s.scopes)| <= |s.tasks| - s.last <= s.window
  {
    ScopedRunKeepsInv(run, k);
    var s := run.states[k];
    forall i | i in Flat(s.scopes) ensures s.last <= i < |s.tasks| { ScopeHoldsLive(s, i); }
    forall j | 0 <= j < |Flat(s.scopes)| ensures s.last <= Flat(s.scopes)[j] < |s.tasks| {
      assert Flat(s.scopes)[j] in Flat(s.scopes);
    }
    DistinctBounded(Flat(s.scopes), s.last, |s.tasks|);
  }

  /** Submission registers the new task with the innermost open scope and no other. */
  lemma JoinsInnermostScope(s: Orch, step: Step)
    requires Inv(s) && Enabled(s, step) && (step.SubmitTask? || step.SubmitGroup?)
    ensures var r := Next(s, step);
            && |r.tasks| == |s.tasks| + 1
            && r.scopes == (if s.scopes == [] then []
                            else s.scopes[..|s.scopes| - 1] + [s.scopes[|s.scopes| - 1] + [|s.tasks|]])
  {
    match step
    case SubmitTask(params) => RegisterShows(s, params, false, 0);
    case SubmitGroup(params, size) =>
      RegisterShows(s, params, true, size);
      if size == 0 { CompleteKeeps(Register(s, params, true, 0), |s.tasks|); }
  }

  /** The open scopes after a step. */
  function ScopesAfter(s: Orch, step: Step): seq<seq<nat>> {
    var n := |s.scopes|;
    match step
    case ScopeBegin => s.scopes + [[]]
    case ScopeEnd => if n == 0 then [] else s.scopes[..n - 1]
    case SubmitTask(_) => if n == 0 then [] else s.scopes[..n - 1] + [s.scopes[n - 1] + [|s.tasks|]]
    case SubmitGroup(_, _) => if n == 0 then [] else s.scopes[..n - 1] + [s.scopes[n - 1] + [|s.tasks|]]
    case _ => s.scopes
  }

  /** Scopes nest: they change at their begin, at their end and by joining the innermost. The
      heap grows only by a request, to the end of the first free place. */
  lemma ScopesAndHeapMove(s: Orch, step: Step)
    requires Inv(s) && Enabled(s, step)
    ensures var r := Next(s, step);
            && r.scopes == ScopesAfter(s, step) && r.heap.capacity == s.heap.capacity
            && (step.AllocTensor? && step.bytes > 0 ==>
                  exists p: nat :: && FreeAt(s.heap, step.bytes, p)
                                   && (forall q: nat :: FreeAt(s.heap, step.bytes, q) ==> p <= q)
                                   && r.heap.top == p + step.bytes
                                   && r.buffers == s.buffers + [Buffer(p, step.bytes, |s.tasks|)])
            && (!(step.AllocTensor? && step.bytes > 0) ==> r.heap.top == s.heap.top && r.buffers == s.buffers)
  {
    match step
    case SubmitTask(params) =>
      JoinsInnermostScope(s, step);
      RegisterShows(s, params, false, 0);
    case SubmitGroup(params, size) =>
      JoinsInnermostScope(s, step);
      SubmitGroupHeap(s, params, size);
    case Report(id) => ReportLeavesRest(s, id);
    case AllocTensor(bytes) => FitsExactly(s.heap, bytes);
    case _ =>
  }

  lemma SubmitGroupHeap(s: Orch, params: seq<Param>, size: nat)
    requires Inv(s)
    ensures var r := DoSubmitGroup(s, params, size); r.heap == s.heap && r.buffers == s.buffers
  {
    RegisterShows(s, params, true, size);
    if size == 0 { CompleteKeeps(Register(s, params, true, 0), |s.tasks|); }
  }

  lemma ReportLeavesRest(s: Orch, id: int)
    requires Inv(s) && Enabled(s, Report(id))
    ensures var r := DoReport(s, id); r.scopes == s.scopes && r.heap == s.heap && r.buffers == s.buffers
  {
    ReportedLive(s, id);
    if id in s.subOf {
      CompleteKeeps(Counted(s, id), s.subOf[id]);
    } else {
      CompleteKeeps(s.(inflight := s.inflight - {id}), id);
    }
  }

  // ---- Draining --------------------------------------------------------------

  /** What a step does to the bound of retirement. */
  ghost predicate LastMoves(s: Orch, step: Step, r: Orch) {
    && s.last <= r.last <= |r.tasks|
    && (step.ScopeEnd? || step.Advance? ==> r.last == |r.tasks| || r.tasks[r.last].status != Consumed)
    && (!step.ScopeEnd? && !step.Advance? ==> r.last == s.last)
  }

  lemma StepRetires(s: Orch, step: Step)
    requires Inv(s) && Enabled(s, step)
    ensures LastMoves(s, step, Next(s, step))
  {
    match step
    case SubmitTask(params) => RegisterShows(s, params, false, 0);
    case SubmitGroup(params, size) => SubmitGroupLast(s, params, size);
    case Report(id) =>
      ReportKeepsLast(s, id);
      SameLength(s, step);
    case _ =>
  }

  lemma SubmitGroupLast(s: Orch, params: seq<Param>, size: nat)
    requires Inv(s)
    ensures var r := DoSubmitGroup(s, params, size); r.last == s.last && |r.tasks| == |s.tasks| + 1
  {
    RegisterShows(s, params, true, size);
    if size == 0 { CompleteKeeps(Register(s, params, true, 0), |s.tasks|); }
  }

  /** The end of a scope and an advance retire all they can: the first unretired task is
      left because it is not CONSUMED. No other step retires anything. Whatever has retired
      is CONSUMED and has given back its heap space up to its mark. */
  lemma RetiresAllItCan(run: Run, k: nat)
    requires FreshRun(run) && k < |run.steps|
    ensures var s, step, r := run.states[k], run.steps[k], run.states[k + 1];
            && s.last <= r.last <= |r.tasks|
            && (step.ScopeEnd? || step.Advance? ==> r.last == |r.tasks| || r.tasks[r.last].status != Consumed)
            && (!step.ScopeEnd? && !step.Advance? ==> r.last == s.last)
            && (forall i :: 0 <= i < r.last ==> r.tasks[i].status == Consumed)
            && r.heap.tail == (if r.last == 0 then 0 else r.tasks[r.last - 1].heapEnd)
  {
    assert Inv(run.states[k]) by { RunKeepsInv(run, k); }
    StepRetires(run.states[k], run.steps[k]);
    RunKeepsInv(run, k + 1);
  }

  /** A task that is scoped and finished, with no scope open any more, is CONSUMED. */
  lemma FinishedIsConsumed(s: Orch, i: nat)
    requires Inv(s) && s.scopes == [] && i < |s.tasks| && s.tasks[i].scoped && IsDone(s.tasks[i])
    requires forall c :: i <= c < |s.tasks| ==> IsDone(s.tasks[c])
    ensures s.tasks[i].status == Consumed
  {
    assert TallyAt(s.tasks, i) && RetainAt(s.tasks, i);
    assert i !in Flat(s.scopes);
    forall c | c in s.tasks[i].consumers ensures DoneAt(s.tasks, c) { }
    DoneCountFull(s.tasks, s.tasks[i].consumers);
  }

  /** When the outermost scope ends and every unretired task was submitted in a scope and is
      finished, the ring is empty. */
  lemma LastScopeEmptiesRing(run: Run, k: nat)
    requires FreshRun(run) && k < |run.steps| && run.steps[k].ScopeEnd? && |run.states[k].scopes| == 1
    requires forall i :: run.states[k].last <= i < |run.states[k].tasks| ==>
               run.states[k].tasks[i].scoped && IsDone(run.states[k].tasks[i])
    ensures var r := run.states[k + 1];
            && r.last == |r.tasks| && r.scopes == []
            && r.heap.tail == (if |r.tasks| == 0 then 0 else r.tasks[|r.tasks| - 1].heapEnd)
  {
    var s, r := run.states[k], run.states[k + 1];
    RunKeepsInv(run, k);
    RunKeepsInv(run, k + 1);
    RetiresAllItCan(run, k);
    SameLength(s, ScopeEnd);
    forall i | s.last <= i < |r.tasks| ensures r.tasks[i].scoped && IsDone(r.tasks[i]) {
      StepAges(s, ScopeEnd, i);
    }
    if r.last < |r.tasks| { FinishedIsConsumed(r, r.last); }
  }

  /** When every unretired task was submitted in a scope and is finished, and no scope is
      open, one advance retires them all. */
  lemma DrainEmptiesRing(run: Run, k: nat)
    requires ScopedRun(run) && k < |run.states| && run.states[k].scopes == []
    requires forall i :: run.states[k].last <= i < |run.states[k].tasks| ==>
               run.states[k].tasks[i].scoped && IsDone(run.states[k].tasks[i])
    ensures Inv(run.states[k]) && AdvanceRing(run.states[k]).last == |run.states[k].tasks|
  {
    ScopedRunKeepsInv(run, k);
    var s := run.states[k];
    forall i | s.last <= i < |s.tasks| ensures s.tasks[i].status == Consumed { FinishedIsConsumed(s, i); }
  }

  /** A stretch of steps from any state. */
  ghost predicate IsStretch(steps: seq<Step>, states: seq<Orch>) {
    && |states| == |steps| + 1
    && (forall i :: 0 <= i < |steps| ==> Enabled(states[i], steps[i]) && states[i + 1] == Next(states[i], steps[i]))
  }

  /** Until the scope of the oldest task ends, no sequence of reports, hand-overs and
      advances retires anything: a full ring stays full. */
  lemma {:induction false} OpenScopeBlocksRing(steps: seq<Step>, states: seq<Orch>, k: nat)
    requires IsStretch(steps, states) && k < |states| && Inv(states[0])
    requires forall i :: 0 <= i < |steps| ==> steps[i].Report? || steps[i].Advance? || steps[i].DispatchNext?
    requires states[0].last < |states[0].tasks| && !states[0].tasks[states[0].last].released
    ensures Inv(states[k]) && |states[k].tasks| == |states[0].tasks| && states[k].last == states[0].last
    ensures !states[k].tasks[states[0].last].released
    ensures HasSpace(states[k]) == HasSpace(states[0])
  {
    if k > 0 {
      var s := states[k - 1];
      OpenScopeBlocksRing(steps, states, k - 1);
      StepKeepsInv(s, steps[k - 1]);
      StepAges(s, steps[k - 1], s.last);
      SameLength(s, steps[k - 1]);
      ScopeHoldsLive(s, s.last);
      if steps[k - 1].Report? { ReportKeepsLast(s, steps[k - 1].id); }
    } else {
      assert states[k].last == states[0].last;
    }
  }

  lemma ReportKeepsLast(s: Orch, id: int)
    requires Inv(s) && Enabled(s, Report(id))
    ensures DoReport(s, id).last == s.last
  {
    ReportedLive(s, id);
    if id in s.subOf {
      CompleteKeeps(Counted(s, id), s.subOf[id]);
    } else {
      CompleteKeeps(s.(inflight := s.inflight - {id}), id);
    }
  }

  // ---- Buffers ---------------------------------------------------------------

  /** Buffer b was allocated before its owner was submitted; until the owner retires its
      bytes are not reclaimed and no other such buffer shares one. */
  lemma BufferOutlivesOwner(run: Run, k: nat, b: nat, c: nat, p: nat, q: nat)
    requires ScopedRun(run) && k < |run.states|
    requires b < |run.states[k].buffers| && c < |run.states[k].buffers| && b != c
    requires run.states[k].last <= run.states[k].buffers[b].owner
    requires run.states[k].last <= run.states[k].buffers[c].owner
    requires 0 <= p - run.states[k].buffers[b].start < run.states[k].buffers[b].size
    requires 0 <= q - run.states[k].buffers[c].start < run.states[k].buffers[c].size
    ensures run.states[k].heap.tail <= run.states[k].buffers[b].start
    ensures run.states[k].heap.capacity > 0 && p % run.states[k].heap.capacity != q % run.states[k].heap.capacity
  {
    ScopedRunKeepsInv(run, k);
    var s := run.states[k];
    assert BufferAt(s, s.buffers[b]) && BufferAt(s, s.buffers[c]);
    if b < c {
      ModInjective(p, q, s.heap.capacity);
    } else {
      ModInjective(q, p, s.heap.capacity);
    }
  }

  /** A new buffer starts at or after the end of every earlier one, belongs to the next task
      to be submitted, and shares no byte with any unreclaimed position before it. */
  lemma BufferOwner(s: Orch, bytes: nat)
    requires HeapOk(s) && bytes > 0 && Fits(s.heap, bytes)
    ensures var r, n := DoAlloc(s, bytes), |s.buffers|;
            && |r.buffers| == n + 1 && r.buffers[n].owner == |s.tasks| && r.heap.tail <= r.buffers[n].start
            && (forall k :: 0 <= k < n ==> r.buffers[k].start + r.buffers[k].size <= r.buffers[n].start)
            && (forall p: nat, q: nat :: r.heap.tail <= p < r.buffers[n].start <= q < r.buffers[n].start + bytes ==>
                  p % s.heap.capacity != q % s.heap.capacity)
  {
    var r, n := DoAlloc(s, bytes), |s.buffers|;
    StartIsFirstFit(s.heap, bytes);
    forall k | 0 <= k < n ensures r.buffers[k].start + r.buffers[k].size <= r.buffers[n].start {
      assert BufferAt(s, s.buffers[k]);
    }
    forall p: nat, q: nat | r.heap.tail <= p < r.buffers[n].start <= q < r.buffers[n].start + bytes
      ensures p % s.heap.capacity != q % s.heap.capacity
    {
      ModInjective(p, q, s.heap.capacity);
    }
  }
}

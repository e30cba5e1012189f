/** What the level runtime guarantees on its slots. The protocol over ids carries over as
    long as no submission takes a slot still in use; without the overlap of a store of
    COMPLETED and a registration that is always so. */
module LevelSlotTheorems {
  import opened Common
  import opened LevelProtocol
  import opened LevelInvariant
  import opened LevelRuns
  import opened LevelTheorems
  import opened LevelCoupling
  import opened LevelSimulation

  datatype SlotRun = SlotRun(window: nat, capacity: nat, moves: seq<S.Move>, states: seq<S.Slotted>)

  predicate CanStep(s: S.Slotted, m: S.Move) {
    |s.slots| > 0 && |s.buf| > 0 && S.CanMove(s, m)
  }

  /** An interleaving on the slots, with a ready queue at least as large as the window. */
  ghost predicate IsSlotRun(run: SlotRun) {
    && 0 < run.window <= run.capacity
    && |run.states| == |run.moves| + 1
    && run.states[0] == S.Start(run.window, run.capacity)
    && (forall i :: 0 <= i < |run.moves| ==>
          CanStep(run.states[i], run.moves[i]) && run.states[i + 1] == S.DoMove(run.states[i], run.moves[i]))
  }

  /** Up to state k no submission took a slot still in use. */
  ghost predicate RoomyTo(run: SlotRun, k: nat) {
    forall i :: 0 <= i < k && i < |run.moves| && i < |run.states| && run.moves[i].Publish? ==>
      |run.states[i].slots| > 0 && S.Roomy(run.states[i])
  }

  lemma StartCouples(window: nat, capacity: nat)
    requires 0 < window <= capacity
    ensures Couples(S.Start(window, capacity), Init(window))
  {
    assert Q.Pending(S.Start(window, capacity).buf, 0, 0) == [];
  }

  /** The interleaving over ids that a run on slots goes through. */
  ghost predicate Mirrors(run: SlotRun, ids: Run, k: nat)
    requires IsSlotRun(run) && k < |run.states|
  {
    && IsRun(ids) && ids.window == run.window && |ids.steps| == k
    && (forall i :: 0 <= i <= k ==> Couples(run.states[i], ids.states[i]))
    && (forall i :: 0 <= i < k ==> ids.steps[i] == StepOf(run.states[i], run.moves[i]))
  }

  lemma {:induction false} Simulation(run: SlotRun, k: nat) returns (ids: Run)
    requires IsSlotRun(run) && k < |run.states| && RoomyTo(run, k)
    ensures Mirrors(run, ids, k)
  {
    if k == 0 {
      StartCouples(run.window, run.capacity);
      ids := Run(run.window, [], [Init(run.window)]);
    } else {
      var earlier := Simulation(run, k - 1);
      RunKeepsInv(earlier, k - 1);
      var s, l := run.states[k - 1], earlier.states[k - 1];
      MoveFollows(s, l, run.moves[k - 1]);
      ids := Run(run.window, earlier.steps + [StepOf(s, run.moves[k - 1])],
                 earlier.states + [Next(l, StepOf(s, run.moves[k - 1]))]);
      MirrorsOn(run, earlier, ids, k);
    }
  }

  /** The run over ids goes on by the step of the next move. */
  lemma MirrorsOn(run: SlotRun, earlier: Run, ids: Run, k: nat)
    requires IsSlotRun(run) && 0 < k < |run.states| && Mirrors(run, earlier, k - 1)
    requires var s, l := run.states[k - 1], earlier.states[k - 1];
             && Follows(s, l, run.moves[k - 1])
             && ids == Run(run.window, earlier.steps + [StepOf(s, run.moves[k - 1])],
                           earlier.states + [Next(l, StepOf(s, run.moves[k - 1]))])
    ensures Mirrors(run, ids, k)
  {
    RunOn(earlier, StepOf(run.states[k - 1], run.moves[k - 1]));
    forall i | 0 <= i <= k ensures Couples(run.states[i], ids.states[i]) {
      if i < k { assert ids.states[i] == earlier.states[i]; }
    }
  }

  lemma RunOn(run: Run, step: Step)
    requires IsRun(run) && Enabled(run.states[|run.steps|], step)
    ensures IsRun(Run(run.window, run.steps + [step], run.states + [Next(run.states[|run.steps|], step)]))
  {
    var longer := Run(run.window, run.steps + [step], run.states + [Next(run.states[|run.steps|], step)]);
    forall i | 0 <= i < |longer.steps|
      ensures Enabled(longer.states[i], longer.steps[i])
              && longer.states[i + 1] == Next(longer.states[i], longer.steps[i])
    {
      if i < |run.steps| { assert longer.states[i] == run.states[i] && longer.states[i + 1] == run.states[i + 1]; }
    }
  }

  // ---- Wake-ups ---------------------------------------------------------------------------

  function Ids(jobs: seq<S.Job>): (r: seq<nat>)
    ensures |r| == |jobs| && forall j :: 0 <= j < |r| ==> r[j] == jobs[j].id
  {
    seq(|jobs|, j requires 0 <= j < |jobs| => jobs[j].id)
  }

  /** Every id ever put on the ready queue: those taken, and those waiting. */
  function Entered(s: S.Slotted): seq<nat>
    requires |s.buf| > 0 && s.head <= s.tail
  {
    Ids(s.jobs) + Q.Pending(s.buf, s.head, s.tail)
  }

  /** The worker of p has visited all consumers. */
  predicate Visited(s: S.Slotted, p: nat) {
    var w := S.WorkAt(s.jobs, p);
    w.Some? && (w.value.Unlinking? || w.value.Done?)
  }

  /** Task t has its slot, its submission is over, its producers have visited their
      consumers and its externals have been noticed. */
  ghost predicate Fed(s: S.Slotted, t: nat)
    requires |s.slots| > 0
  {
    && R.Owned(s.count, |s.slots|, t)
    && !(s.linking.Some? && s.linking.value.tid == t)
    && (forall p :: p in S.At(s, t).producers ==> Visited(s, p))
    && (S.At(s, t).noticed || S.At(s, t).externals == [])
  }

  ghost predicate NothingLost(s: S.Slotted) {
    && |s.slots| > 0 && |s.buf| > 0 && s.head <= s.tail
    && forall t: nat :: Fed(s, t) ==> t in Entered(s)
  }

  lemma {:induction false} WorkAtUnique(jobs: seq<S.Job>, j: nat)
    requires j < |jobs| && forall i, k :: 0 <= i < k < |jobs| ==> jobs[i].id != jobs[k].id
    ensures S.WorkAt(jobs, jobs[j].id) == Some(jobs[j].work)
  {
    if j < |jobs| - 1 { WorkAtUnique(jobs[..|jobs| - 1], j); }
  }

  /** A change to one job is not seen by other tasks. */
  lemma {:induction false} WorkAtOther(jobs: seq<S.Job>, j: nat, work: S.Work, id: nat)
    requires j < |jobs| && jobs[j].id != id
    ensures S.WorkAt(jobs[j := jobs[j].(work := work)], id) == S.WorkAt(jobs, id)
  {
    var after, n := jobs[j := jobs[j].(work := work)], |jobs| - 1;
    if j == n {
      assert after[..n] == jobs[..n];
    } else if jobs[n].id != id {
      assert after[..n] == jobs[..n][j := jobs[j].(work := work)];
      WorkAtOther(jobs[..n], j, work, id);
    }
  }

  lemma VisitedIsPropagated(s: S.Slotted, l: Level, p: nat)
    requires Couples(s, l) && Visited(s, p)
    ensures Propagated(l, p)
  {
    WorkAtSome(s.jobs, l.tasks, p);
  }

  lemma EnqueuedIsEntered(s: S.Slotted, l: Level, t: nat)
    requires Couples(s, l) && QueueOk(l) && BodiesOk(l) && t < |l.tasks| && l.tasks[t].enqueued == 1
    ensures t in Entered(s)
  {
    assert PhaseOk(l.tasks[t]);
    if l.tasks[t].phase == Waiting {
      assert t in l.queue;
    } else {
      assert HasJob(s.jobs, t);
      var j :| 0 <= j < |s.jobs| && s.jobs[j].id == t;
      assert Entered(s)[j] == t;
    }
  }

  /** No wake-up is lost on the slots as long as no submission takes a slot still in use. */
  lemma SlotNoLostWakeup(run: SlotRun, k: nat)
    requires IsSlotRun(run) && k < |run.states| && RoomyTo(run, k)
    ensures NothingLost(run.states[k])
  {
    var ids := Simulation(run, k);
    var s, l := run.states[k], ids.states[k];
    assert Couples(s, l);
    RunKeepsInv(ids, k);
    forall t: nat | Fed(s, t) ensures t in Entered(s) {
      assert S.At(s, t) == S.Shown(l.tasks[t], t);
      forall p | p in l.tasks[t].producers ensures Propagated(l, p) { VisitedIsPropagated(s, l, p); }
      NoLostWakeup(ids, k, t);
      EnqueuedIsEntered(s, l, t);
    }
  }

  /** Nor is any task put on the ready queue twice. */
  lemma SlotNoDoubleEnqueue(run: SlotRun, k: nat)
    requires IsSlotRun(run) && k < |run.states| && RoomyTo(run, k)
    ensures var s := run.states[k];
            && |s.buf| > 0 && s.head <= s.tail
            && Distinct(Entered(s)) && (forall t :: t in Entered(s) ==> t < s.count)
  {
    var ids := Simulation(run, k);
    assert Couples(run.states[k], ids.states[k]);
    RunKeepsInv(ids, k);
    EnteredDistinct(run.states[k], ids.states[k]);
  }

  lemma EnteredDistinct(s: S.Slotted, l: Level)
    requires Couples(s, l) && Inv(l)
    ensures Distinct(Entered(s)) && forall t :: t in Entered(s) ==> t < s.count
  {
    var e, n := Entered(s), |s.jobs|;
    forall j | 0 <= j < |e| ensures e[j] < s.count && (j < n ==> l.tasks[e[j]].phase != Waiting)
        && (j >= n ==> l.tasks[e[j]].phase == Waiting) {
      if j < n {
        assert JobShown(s.jobs[j], l.tasks);
      } else {
        assert e[j] == l.queue[j - n] && e[j] in l.queue;
        assert PhaseOk(l.tasks[e[j]]);
      }
    }
    forall i, j | 0 <= i < j < |e| ensures e[i] != e[j] {
      if i >= n { assert e[i] == l.queue[i - n] && e[j] == l.queue[j - n]; }
    }
  }

  lemma {:induction false} BufferKept(run: SlotRun, k: nat)
    requires IsSlotRun(run) && k < |run.states|
    ensures |run.states[k].buf| == run.capacity && |run.states[k].slots| == run.window
  {
    if k > 0 {
      BufferKept(run, k - 1);
      MoveKeepsSizes(run.states[k - 1], run.moves[k - 1], run.states[k]);
    }
  }

  lemma MoveKeepsSizes(s: S.Slotted, m: S.Move, r: S.Slotted)
    requires CanStep(s, m) && r == S.DoMove(s, m)
    ensures |r.slots| == |s.slots| && |r.buf| == |s.buf| && r.count == s.count + if m.Publish? then 1 else 0
  {
  }

  /** As long as no submission takes a slot still in use, all has retired that can: the
      first unretired task, in its own slot, is not CONSUMED. */
  lemma SlotRetiredExactly(run: SlotRun, k: nat)
    requires IsSlotRun(run) && k < |run.states| && RoomyTo(run, k)
    ensures var s := run.states[k];
            && |s.slots| > 0 && s.last <= s.count <= s.last + |s.slots|
            && (s.last < s.count ==> S.At(s, s.last).taskId == s.last && S.At(s, s.last).status != Consumed)
            && (forall i: nat :: s.count <= i + |s.slots| && i < s.last ==>
                 S.At(s, i).taskId == i && S.At(s, i).status == Consumed)
  {
    var ids := Simulation(run, k);
    var s, l := run.states[k], ids.states[k];
    assert Couples(s, l);
    RetiredExactly(ids, k);
    RunKeepsInv(ids, k);
    forall i: nat | R.Owned(|l.tasks|, |s.slots|, i) ensures S.At(s, i) == S.Shown(l.tasks[i], i) { }
    if s.last < s.count { assert R.Owned(|l.tasks|, |s.slots|, s.last); }
    forall i: nat | s.count <= i + |s.slots| && i < s.last ensures S.At(s, i).taskId == i
        && S.At(s, i).status == Consumed {
      assert R.Owned(|l.tasks|, |s.slots|, i);
    }
  }

  /** A worker is walking the consumers of task id. */
  predicate Walked(jobs: seq<S.Job>, id: nat) {
    exists j :: 0 <= j < |jobs| && jobs[j].id == id && jobs[j].work.Walking?
  }

  /** On the same condition the lock word of a task is set exactly while its worker walks the
      consumers, one worker has the task at most, and meanwhile no consumer can register. */
  lemma LockExcludes(run: SlotRun, k: nat, id: nat)
    requires IsSlotRun(run) && k < |run.states| && RoomyTo(run, k)
    ensures var s := run.states[k];
            && |s.slots| > 0
            && (R.Owned(s.count, |s.slots|, id) ==> (S.At(s, id).locked <==> Walked(s.jobs, id)))
            && (forall i, j :: 0 <= i < j < |s.jobs| ==> s.jobs[i].id != s.jobs[j].id)
            && (s.linking.Some? && s.linking.value.todo != [] && Walked(s.jobs, s.linking.value.todo[0]) ==>
                  !CanStep(s, S.Link))
  {
    var ids := Simulation(run, k);
    var s, l := run.states[k], ids.states[k];
    assert Couples(s, l);
    if R.Owned(s.count, |s.slots|, id) { LockShown(s, l, id); }
    if s.linking.Some? && s.linking.value.todo != [] {
      var c := l.linking.value;
      assert s.linking.value.todo[0] == l.tasks[c].producers[l.tasks[c].linked];
      LockShown(s, l, s.linking.value.todo[0]);
    }
  }

  lemma LockShown(s: S.Slotted, l: Level, id: nat)
    requires Couples(s, l) && R.Owned(|l.tasks|, |s.slots|, id)
    ensures S.At(s, id).locked <==> Walked(s.jobs, id)
  {
    assert S.At(s, id) == S.Shown(l.tasks[id], id);
    if l.tasks[id].phase.Walking? {
      assert HasJob(s.jobs, id);
      var j :| 0 <= j < |s.jobs| && s.jobs[j].id == id;
      assert JobShown(s.jobs[j], l.tasks);
    }
    if Walked(s.jobs, id) {
      var j :| 0 <= j < |s.jobs| && s.jobs[j].id == id && s.jobs[j].work.Walking?;
      assert JobShown(s.jobs[j], l.tasks);
    }
  }

  // ---- Admissions ---------------------------------------------------------------------------

  lemma {:induction false} CountGrows(run: SlotRun, i: nat, k: nat)
    requires IsSlotRun(run) && i <= k < |run.states|
    ensures run.states[i].count <= run.states[k].count
    decreases k
  {
    if i < k {
      CountGrows(run, i, k - 1);
      MoveKeepsSizes(run.states[k - 1], run.moves[k - 1], run.states[k]);
    }
  }

  /** As long as at most a window of tasks is admitted, no slot is reused. */
  lemma FewAdmissionsAreRoomy(run: SlotRun, k: nat)
    requires IsSlotRun(run) && k < |run.states| && run.states[k].count <= run.window
    ensures RoomyTo(run, k)
  {
    forall i | 0 <= i < k && run.moves[i].Publish? ensures |run.states[i].slots| > 0 && S.Roomy(run.states[i]) {
      BufferKept(run, i);
      MoveKeepsSizes(run.states[i], run.moves[i], run.states[i + 1]);
      CountGrows(run, i + 1, k);
    }
  }

  // ---- Without the overlap ---------------------------------------------------------------------

  /** The move does not tell a producer that sits between its store and its lock. */
  predicate CleanMove(s: S.Slotted, m: S.Move) {
    m.Link? && s.linking.Some? && s.linking.value.todo != [] ==>
      S.WorkAt(s.jobs, s.linking.value.todo[0]) != Some(S.Stored)
  }

  ghost predicate CleanSlotRun(run: SlotRun) {
    IsSlotRun(run) && forall i :: 0 <= i < |run.moves| ==> CleanMove(run.states[i], run.moves[i])
  }

  ghost predicate FusedSlotRun(run: SlotRun) {
    IsSlotRun(run) && forall i :: 0 <= i < |run.moves| ==> S.IsFused(run.moves[i])
  }

  ghost predicate SplitSlotRun(run: SlotRun) {
    IsSlotRun(run) && forall i :: 0 <= i < |run.moves| ==> S.IsSplit(run.moves[i])
  }

  lemma CleanMoveIsClean(s: S.Slotted, l: Level, m: S.Move)
    requires Couples(s, l) && Inv(l) && CanStep(s, m) && CleanMove(s, m) && Enabled(l, StepOf(s, m))
    ensures Clean(l, StepOf(s, m))
  {
    if m.Link? {
      var c := l.linking.value;
      var p := l.tasks[c].producers[l.tasks[c].linked];
      assert s.linking.value.todo[0] == p;
      WorkAtNone(s.jobs, p);
      if S.WorkAt(s.jobs, p).Some? { WorkAtSome(s.jobs, l.tasks, p); }
    }
  }

  /** Without the overlap a run on slots is, step by step, a clean run over ids: nothing
      retires, so no slot is ever reused. */
  lemma {:induction false} CleanSimulation(run: SlotRun, k: nat) returns (ids: Run)
    requires CleanSlotRun(run) && k < |run.states|
    ensures RoomyTo(run, k) && Mirrors(run, ids, k) && CleanRun(ids)
  {
    if k == 0 {
      ids := Simulation(run, 0);
    } else {
      var earlier := CleanSimulation(run, k - 1);
      CleanRunIsExact(earlier, k - 1);
      assert Couples(run.states[k - 1], earlier.states[k - 1]);
      assert RoomyTo(run, k);
      ids := Simulation(run, k);
      RunKeepsInv(ids, k);
      forall i | 0 <= i < k ensures Clean(ids.states[i], ids.steps[i]) {
        RunKeepsInv(ids, i);
        assert Couples(run.states[i], ids.states[i]);
        CleanMoveIsClean(run.states[i], ids.states[i], run.moves[i]);
      }
    }
  }

  lemma {:induction false} FusedNeverStored(run: SlotRun, k: nat, j: nat)
    requires FusedSlotRun(run) && k < |run.states| && j < |run.states[k].jobs|
    ensures run.states[k].jobs[j].work != S.Stored
    decreases k
  {
    if k > 0 {
      if j < |run.states[k - 1].jobs| { FusedNeverStored(run, k - 1, j); }
      FusedMoveStores(run.states[k - 1], run.moves[k - 1], j);
    }
  }

  lemma FusedMoveStores(s: S.Slotted, m: S.Move, j: nat)
    requires CanStep(s, m) && S.IsFused(m) && j < |S.DoMove(s, m).jobs|
    requires j < |s.jobs| ==> s.jobs[j].work != S.Stored
    ensures S.DoMove(s, m).jobs[j].work != S.Stored
  {
  }

  lemma {:induction false} WorkAtFrom(jobs: seq<S.Job>, id: nat)
    requires forall j :: 0 <= j < |jobs| ==> jobs[j].work != S.Stored
    ensures S.WorkAt(jobs, id) != Some(S.Stored)
  {
    if jobs != [] { WorkAtFrom(jobs[..|jobs| - 1], id); }
  }

  lemma FusedSlotRunIsClean(run: SlotRun)
    requires FusedSlotRun(run)
    ensures CleanSlotRun(run)
  {
    forall i | 0 <= i < |run.moves| ensures CleanMove(run.states[i], run.moves[i]) {
      var s := run.states[i];
      forall j | 0 <= j < |s.jobs| ensures s.jobs[j].work != S.Stored { FusedNeverStored(run, i, j); }
      if s.linking.Some? && s.linking.value.todo != [] { WorkAtFrom(s.jobs, s.linking.value.todo[0]); }
    }
  }

  /** What a worker finds in the slot of the task it takes next: the task's own descriptor,
      every producer's own descriptor marked finished, every input tensor ready. */
  ghost predicate StartsReady(s: S.Slotted)
    requires |s.slots| > 0 && |s.buf| > 0
  {
    var t := s.buf[s.head % |s.buf|];
    var d := S.At(s, t);
    && d.taskId == t
    && (forall p :: p in d.producers ==>
          S.At(s, p).taskId == p && (S.At(s, p).status == Completed || S.At(s, p).status == Consumed))
    && (forall h :: h in d.inputs && h != INVALID_HANDLE ==> h in s.ready)
  }

  /** On the slots, in every interleaving without the overlap. */
  lemma SlotStartsWithInputsReady(run: SlotRun, k: nat)
    requires CleanSlotRun(run) && k < |run.moves| && run.moves[k] == S.Dequeue
    ensures CanStep(run.states[k], S.Dequeue) && StartsReady(run.states[k])
  {
    var ids := CleanSimulation(run, k + 1);
    var s, l := run.states[k], ids.states[k];
    assert Couples(s, l) && ids.steps[k] == Dequeue;
    StartsWithInputsReady(ids, k);
    CleanRunIsExact(ids, k);
    PendingTail(s.buf, s.head, s.tail);
    StartsReadyShown(s, l);
  }

  lemma StartsReadyShown(s: S.Slotted, l: Level)
    requires Couples(s, l) && Inv(l) && l.last == 0 && l.queue != []
             && s.buf[s.head % |s.buf|] == l.queue[0] < |l.tasks|
    requires forall p :: p in l.tasks[l.queue[0]].producers ==> DoneAt(l, p)
    requires forall h :: h in l.tasks[l.queue[0]].inputs && h != INVALID_HANDLE ==> h in l.ready
    ensures StartsReady(s)
  {
    var t := l.queue[0];
    assert R.Owned(|l.tasks|, |s.slots|, t) && S.At(s, t) == S.Shown(l.tasks[t], t);
    forall p | p in l.tasks[t].producers
      ensures S.At(s, p).taskId == p && (S.At(s, p).status == Completed || S.At(s, p).status == Consumed)
    {
      assert DoneAt(l, p);
      assert R.Owned(|l.tasks|, |s.slots|, p) && S.At(s, p) == S.Shown(l.tasks[p], p);
    }
  }

  /** The same for every fused interleaving. */
  lemma FusedSlotStartsWithInputsReady(run: SlotRun, k: nat)
    requires FusedSlotRun(run) && k < |run.moves| && run.moves[k] == S.Dequeue
    ensures CanStep(run.states[k], S.Dequeue) && StartsReady(run.states[k])
  {
    FusedSlotRunIsClean(run);
    SlotStartsWithInputsReady(run, k);
  }

  /** Without the overlap nothing retires on the slots, and at most a window of tasks is
      ever admitted. */
  lemma SlotNothingRetires(run: SlotRun, k: nat)
    requires CleanSlotRun(run) && k < |run.states|
    ensures var s := run.states[k];
            && s.last == 0 && s.count <= run.window == |s.slots|
            && forall i: nat :: i < s.count ==>
                 S.At(s, i).taskId == i && S.At(s, i).status != Consumed
                     && S.At(s, i).fanoutRef < S.At(s, i).fanoutCount
  {
    var ids := CleanSimulation(run, k);
    var s, l := run.states[k], ids.states[k];
    assert Couples(s, l);
    NothingRetires(ids, k);
    BufferKept(run, k);
    forall i: nat | i < s.count
      ensures S.At(s, i).taskId == i && S.At(s, i).status != Consumed && S.At(s, i).fanoutRef < S.At(s, i).fanoutCount
    {
      assert R.Owned(|l.tasks|, |s.slots|, i) && S.At(s, i) == S.Shown(l.tasks[i], i);
    }
  }

  // ---- The other direction ------------------------------------------------------------------------

  lemma JobOf(s: S.Slotted, l: Level, t: nat) returns (j: nat)
    requires Couples(s, l) && t < |l.tasks| && l.tasks[t].phase != Waiting
    ensures j < |s.jobs| && s.jobs[j].id == t && s.jobs[j].work == WorkOf(l.tasks[t])
    ensures l.tasks[t].phase != Finished ==> S.At(s, t) == S.Shown(l.tasks[t], t)
  {
    assert HasJob(s.jobs, t);
    j :| 0 <= j < |s.jobs| && s.jobs[j].id == t;
    assert JobShown(s.jobs[j], l.tasks);
    assert InReach(l, t);
  }

  lemma WalkStepPossible(s: S.Slotted, l: Level, step: Step) returns (m: S.Move)
    requires Couples(s, l) && Enabled(l, step) && (step.Walk? || step.Unlock?)
    ensures CanStep(s, m) && StepOf(s, m) == step && !m.Publish? && S.IsSplit(m)
  {
    var j := JobOf(s, l, step.t);
    m := if step.Walk? then S.Walk(j) else S.Unlock(j);
  }

  lemma UnlinkStepPossible(s: S.Slotted, l: Level, step: Step) returns (m: S.Move)
    requires Couples(s, l) && Enabled(l, step) && (step.Unlink? || step.Finish?)
    ensures CanStep(s, m) && StepOf(s, m) == step && !m.Publish? && S.IsSplit(m)
  {
    var t := step.t;
    var j := JobOf(s, l, t);
    assert |l.tasks[t].producers[..l.tasks[t].phase.left]| == l.tasks[t].phase.left;
    m := if step.Unlink? then S.Unlink(j) else S.Finish(j);
  }

  lemma WorkerStepPossible(s: S.Slotted, l: Level, step: Step) returns (m: S.Move)
    requires Couples(s, l) && Enabled(l, step) && (step.Mark? || step.Store? || step.Lock? || step.StoreLocked?)
    ensures CanStep(s, m) && StepOf(s, m) == step && !m.Publish? && S.IsSplit(m) == IsSplit(step)
  {
    var j := JobOf(s, l, step.t);
    match step
    case Mark(_) => m := S.Mark(j);
    case Store(_) => m := S.Store(j);
    case Lock(_) => m := S.Lock(j);
    case StoreLocked(_) => m := S.StoreLocked(j);
  }

  lemma LinkPossible(s: S.Slotted, l: Level)
    requires Couples(s, l) && Enabled(l, Link)
    ensures CanStep(s, S.Link)
  {
    var c := l.linking.value;
    var p := l.tasks[c].producers[l.tasks[c].linked];
    assert s.linking.value.todo[0] == p;
    assert R.Owned(|l.tasks|, |s.slots|, p) && S.At(s, p) == S.Shown(l.tasks[p], p);
  }

  /** The scheduler looks at a task: it is unretired and PENDING. Over ids it may also look
      at others, to no effect on the queue. */
  predicate Scanned(l: Level, step: Step) {
    step.Notice? ==> l.last <= step.t < |l.tasks| && l.tasks[step.t].status == Pending
  }

  lemma NoticePossible(s: S.Slotted, l: Level, t: nat)
    requires Couples(s, l) && l.last <= |l.tasks| <= l.last + l.window
    requires Enabled(l, Notice(t)) && Scanned(l, Notice(t))
    ensures CanStep(s, S.Notice(t))
  {
    assert R.Owned(|l.tasks|, |s.slots|, t) && S.At(s, t) == S.Shown(l.tasks[t], t);
  }

  /** Every step over ids is a move on the slots. */
  lemma StepPossible(s: S.Slotted, l: Level, step: Step) returns (m: S.Move)
    requires Couples(s, l) && l.last <= |l.tasks| <= l.last + l.window && Enabled(l, step) && Scanned(l, step)
    ensures CanStep(s, m) && StepOf(s, m) == step && (m.Publish? <==> step.Publish?)
    ensures S.IsSplit(m) == IsSplit(step)
  {
    match step
    case Publish(inputs, outputs) => m := S.Publish(inputs, outputs);
    case Link => LinkPossible(s, l); m := S.Link;
    case Check => m := S.Check;
    case Dequeue => m := S.Dequeue;
    case SetReady(h) => m := S.SetReady(h);
    case Advance => m := S.Advance;
    case Notice(t) => NoticePossible(s, l, t); m := S.Notice(t);
    case Mark(_) => m := WorkerStepPossible(s, l, step);
    case Store(_) => m := WorkerStepPossible(s, l, step);
    case Lock(_) => m := WorkerStepPossible(s, l, step);
    case StoreLocked(_) => m := WorkerStepPossible(s, l, step);
    case Walk(_) => m := WalkStepPossible(s, l, step);
    case Unlock(_) => m := WalkStepPossible(s, l, step);
    case _ => m := UnlinkStepPossible(s, l, step);
  }
}

/** The tensor map in the service of the orchestrator: the inserts and invalidations that a
    run makes, in order, and when the map answers a lookup as the lifecycle's handle map does. */
module HandleLog {
  import opened Common
  import opened Lifecycle
  import opened Tally
  import opened Submission
  import opened Invariant
  import opened Runs
  import M = TensorMaps
  import L = TensorMapRuns

  /** The inserts of a parameter list, in order. */
  function Inserts(params: seq<Param>, tid: nat): seq<L.MapOp> {
    if params == [] then []
    else
      var p := params[|params| - 1];
      Inserts(params[..|params| - 1], tid) + if Writes(p) then [L.Put(p.handle, tid, true)] else []
  }

  /** What a step does to the tensor map. */
  function StepLog(s: Orch, step: Step): seq<L.MapOp>
    requires Enabled(s, step)
  {
    match step
    case SubmitTask(params) => Inserts(params, |s.tasks|)
    case SubmitGroup(params, _) => Inserts(params, |s.tasks|)
    case _ => Moved(s.last, Next(s, step).last)
  }

  ghost function Log(run: Run, k: nat): seq<L.MapOp>
    requires IsRun(run) && k < |run.states|
  {
    if k == 0 then [] else Log(run, k - 1) + StepLog(run.states[k - 1], run.steps[k - 1])
  }

  function AllPuts(ops: seq<L.MapOp>): seq<L.MapOp> {
    L.Puts(ops, |ops|)
  }

  lemma {:induction false} PutsArePuts(ops: seq<L.MapOp>, k: nat)
    requires k <= |ops|
    ensures forall i :: 0 <= i < |L.Puts(ops, k)| ==> L.Puts(ops, k)[i].Put?
  {
    if k > 0 { PutsArePuts(ops, k - 1); }
  }

  lemma {:induction false} PutsPrefix(ops: seq<L.MapOp>, more: seq<L.MapOp>, k: nat)
    requires k <= |ops|
    ensures L.Puts(ops + more, k) == L.Puts(ops, k)
  {
    if k > 0 { PutsPrefix(ops, more, k - 1); }
  }

  lemma AllPutsAppend(ops: seq<L.MapOp>, op: L.MapOp)
    ensures AllPuts(ops + [op]) == AllPuts(ops) + if op.Put? then [op] else []
  {
    PutsPrefix(ops, [op], |ops|);
  }

  // ---- The log and the handle map ----------------------------------------------------

  predicate NewestIs(latest: map<nat, nat>, puts: seq<L.MapOp>, h: nat)
    requires forall i :: 0 <= i < |puts| ==> puts[i].Put?
  {
    var j := L.Newest(puts, h);
    (h in latest <==> j >= 0) && (j >= 0 ==> latest[h] == puts[j].producer)
  }

  /** The handle map holds the newest insert of each handle; inserts come in the order of
      task ids, none by a task not yet submitted; the bound is last_task_alive. */
  ghost predicate AgreesWith(latest: map<nat, nat>, count: nat, last: nat, ops: seq<L.MapOp>) {
    var puts := AllPuts(ops);
    && (forall i :: 0 <= i < |puts| ==> puts[i].Put? && puts[i].producer < count)
    && L.InOrder(puts)
    && (forall h: nat :: NewestIs(latest, puts, h))
    && L.Bound(ops) == last
  }

  ghost predicate Agrees(s: Orch, ops: seq<L.MapOp>) {
    AgreesWith(s.latest, |s.tasks|, s.last, ops)
  }

  lemma NewestAppend(puts: seq<L.MapOp>, op: L.MapOp, h: nat)
    requires op.Put? && forall i :: 0 <= i < |puts| ==> puts[i].Put?
    ensures forall i :: 0 <= i < |puts + [op]| ==> (puts + [op])[i].Put?
    ensures L.Newest(puts + [op], h) == if op.handle == h then |puts| else L.Newest(puts, h)
  {
    assert (puts + [op])[..|puts|] == puts;
  }

  /** A write by the newest task takes the handle over in both. */
  lemma WriteAgrees(latest: map<nat, nat>, tid: nat, last: nat, ops: seq<L.MapOp>, h: nat)
    requires AgreesWith(latest, tid + 1, last, ops)
    ensures AgreesWith(latest[h := tid], tid + 1, last, ops + [L.Put(h, tid, true)])
  {
    var op := L.Put(h, tid, true);
    var puts := AllPuts(ops);
    AllPutsAppend(ops, op);
    assert L.Bound(ops + [op]) == L.Bound(ops) by { assert (ops + [op])[..|ops|] == ops; }
    var after, more := latest[h := tid], puts + [op];
    forall g: nat ensures NewestIs(after, more, g) {
      assert NewestIs(latest, puts, g);
      NewestAppend(puts, op, g);
    }
  }

  /** The scan and the log keep step, parameter by parameter. */
  lemma {:induction false} ScanAgrees(o: Orch, ops: seq<L.MapOp>, params: seq<Param>)
    requires |o.tasks| > 0 && Agrees(o, ops)
    ensures Agrees(Scan(o, params), ops + Inserts(params, |o.tasks| - 1))
  {
    if params == [] {
      assert ops + Inserts(params, |o.tasks| - 1) == ops;
    } else {
      var earlier, p, tid := params[..|params| - 1], params[|params| - 1], |o.tasks| - 1;
      var mid, log := Scan(o, earlier), ops + Inserts(earlier, tid);
      ScanAgrees(o, ops, earlier);
      ScanKeepsFrame(o, earlier);
      var s1 := ScanOne(mid, p).(latest := mid.latest);
      assert Agrees(s1, log);
      if Writes(p) {
        WriteAgrees(s1.latest, tid, s1.last, log, p.handle);
        assert ops + Inserts(params, tid) == log + [L.Put(p.handle, tid, true)];
      } else {
        assert ops + Inserts(params, tid) == log;
      }
    }
  }

  /** The bound that the log is given when retirement gets from last to now. */
  function Moved(last: nat, now: nat): seq<L.MapOp> {
    if now > last then [L.Invalidate(now)] else []
  }

  /** More tasks and a later bound change nothing else. */
  lemma BoundAgrees(latest: map<nat, nat>, count: nat, last: nat, ops: seq<L.MapOp>, more: nat, now: nat)
    requires AgreesWith(latest, count, last, ops) && more >= count && now >= last
    ensures AgreesWith(latest, more, now, ops + Moved(last, now))
  {
    if now > last {
      AllPutsAppend(ops, L.Invalidate(now));
      assert AllPuts(ops + [L.Invalidate(now)]) == AllPuts(ops);
    } else {
      assert ops + [] == ops;
    }
  }

  /** A step that touches no handle leaves the log alone but for a new bound. */
  lemma RestAgrees(s: Orch, r: Orch, ops: seq<L.MapOp>)
    requires Agrees(s, ops) && r.latest == s.latest && |r.tasks| >= |s.tasks| && r.last >= s.last
    ensures Agrees(r, ops + Moved(s.last, r.last))
  {
    BoundAgrees(s.latest, |s.tasks|, s.last, ops, |r.tasks|, r.last);
  }

  lemma RegisterAgrees(s: Orch, ops: seq<L.MapOp>, params: seq<Param>, isGroup: bool, size: nat)
    requires Agrees(s, ops) && HandlesKnown(s) && s.last <= |s.tasks|
    ensures Agrees(Register(s, params, isGroup, size), ops + Inserts(params, |s.tasks|))
  {
    var o := s.(tasks := s.tasks + [NewTask(isGroup, size)]);
    RestAgrees(s, o, ops);
    assert ops + [] == ops;
    ScanAgrees(o, ops, params);
    ScanKeepsFrame(o, params);
  }

  lemma SubmitAgrees(s: Orch, step: Step, ops: seq<L.MapOp>)
    requires Inv(s) && Enabled(s, step) && Agrees(s, ops) && (step.SubmitTask? || step.SubmitGroup?)
    ensures Agrees(Next(s, step), ops + StepLog(s, step))
  {
    match step
    case SubmitTask(params) =>
      RegisterAgrees(s, ops, params, false, 0);
      assert Agrees(Register(s, params, false, 0), ops + Inserts(params, |s.tasks|));
    case SubmitGroup(params, size) =>
      RegisterAgrees(s, ops, params, true, size);
      var r := Register(s, params, true, size);
      if size == 0 { CompleteKeeps(r, |s.tasks|); }
      assert Next(s, step).latest == r.latest && |Next(s, step).tasks| == |r.tasks| && Next(s, step).last == r.last;
  }

  lemma StepAgrees(s: Orch, step: Step, ops: seq<L.MapOp>)
    requires Inv(s) && Enabled(s, step) && Agrees(s, ops)
    ensures Agrees(Next(s, step), ops + StepLog(s, step))
  {
    if step.SubmitTask? || step.SubmitGroup? {
      SubmitAgrees(s, step, ops);
    } else {
      OtherStepsKeep(s, step);
      RestAgrees(s, Next(s, step), ops);
    }
  }

  /** In every run the log of its inserts and the lifecycle's handle map say the same. */
  lemma {:induction false} RunAgrees(run: Run, k: nat)
    requires FreshRun(run) && k < |run.states|
    ensures Agrees(run.states[k], Log(run, k))
  {
    if k > 0 {
      RunAgrees(run, k - 1);
      RunKeepsInv(run, k - 1);
      StepAgrees(run.states[k - 1], run.steps[k - 1], Log(run, k - 1));
    }
  }

  // ---- What the tensor map answers --------------------------------------------------------

  function Answer(found: Option<nat>): int {
    match found
    case Some(p) => p
    case None => -1
  }

  lemma LatestLiveIsLookup(s: Orch, ops: seq<L.MapOp>, h: nat)
    requires Agrees(s, ops)
    ensures forall i :: 0 <= i < |AllPuts(ops)| ==> AllPuts(ops)[i].Put?
    ensures L.LatestLive(AllPuts(ops), h, s.last) == Answer(Lookup(s, h))
  {
    assert NewestIs(s.latest, AllPuts(ops), h);
  }

  /** A tensor map that has been given the inserts and bounds of the log answers as the
      lifecycle's handle map, if and only if the newest producer of the handle, when
      unretired, is still among the last poolSize inserts. */
  lemma MapAnswersLookup(s: Orch, buckets: nat, poolSize: nat, mix: nat -> nat, ops: seq<L.MapOp>,
                         states: seq<M.Chained>, h: nat)
    requires Agrees(s, ops) && L.IsRun(buckets, poolSize, mix, ops, states)
    requires forall i :: 0 <= i < |ops| ==> L.Safe(states[i], ops[i])
    ensures M.WellFormed(states[|ops|])
    ensures forall i :: 0 <= i < |AllPuts(ops)| ==> AllPuts(ops)[i].Put?
    ensures L.Lookup(states[|ops|], h) == Answer(Lookup(s, h)) <==>
            (Lookup(s, h).Some? ==> L.Recent(|AllPuts(ops)|, poolSize, L.Newest(AllPuts(ops), h)))
  {
    L.RunKeepsRecords(buckets, poolSize, mix, ops, states, |ops|);
    L.MapBound(buckets, poolSize, mix, ops, states, |ops|);
    assert ops[..|ops|] == ops;
    LatestLiveIsLookup(s, ops, h);
    L.LookupIsLatest(states[|ops|], AllPuts(ops), h);
  }

  /** So it is for every lookup that a submission of a run makes: before parameter i, the
      map has seen the log of the run and the submission's own earlier writes. */
  lemma MapServesScan(run: Run, k: nat, params: seq<Param>, i: nat, isGroup: bool, size: nat,
                      buckets: nat, poolSize: nat, mix: nat -> nat, ops: seq<L.MapOp>, states: seq<M.Chained>, h: nat)
    requires FreshRun(run) && k < |run.states| && i <= |params|
    requires ops == Log(run, k) + Inserts(params[..i], |run.states[k].tasks|)
    requires L.IsRun(buckets, poolSize, mix, ops, states) && forall j :: 0 <= j < |ops| ==> L.Safe(states[j], ops[j])
    ensures var s := run.states[k];
            var mid := Scan(s.(tasks := s.tasks + [NewTask(isGroup, size)]), params[..i]);
            && M.WellFormed(states[|ops|])
            && (forall j :: 0 <= j < |AllPuts(ops)| ==> AllPuts(ops)[j].Put?)
            && (L.Lookup(states[|ops|], h) == Answer(Lookup(mid, h)) <==>
                (Lookup(mid, h).Some? ==> L.Recent(|AllPuts(ops)|, poolSize, L.Newest(AllPuts(ops), h))))
  {
    var s := run.states[k];
    var o := s.(tasks := s.tasks + [NewTask(isGroup, size)]);
    RunAgrees(run, k);
    RestAgrees(s, o, Log(run, k));
    assert Log(run, k) + [] == Log(run, k);
    ScanAgrees(o, Log(run, k), params[..i]);
    MapAnswersLookup(Scan(o, params[..i]), buckets, poolSize, mix, ops, states, h);
  }
}

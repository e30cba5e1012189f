/** The tensor map inside the orchestrator: what it keeps of the log of inserts and bounds,
    and what a submission asks of it so that its lookups find the lifecycle's producers. */
module MapService {
  import opened Common
  import opened Lifecycle
  import opened Submission
  import opened Invariant
  import opened Runs
  import opened HandleLog

  /** The map after the operations of a log; nothing is inserted into broken chains. */
  ghost function MapOf(start: M.Chained, ops: seq<L.MapOp>): M.Chained {
    if ops == [] then start else Told(MapOf(start, ops[..|ops| - 1]), ops[|ops| - 1])
  }

  ghost function Told(c: M.Chained, op: L.MapOp): M.Chained {
    match op
    case Put(handle, producer, isOutput) => if M.WellFormed(c) then M.Insert(c, handle, producer, isOutput) else c
    case Invalidate(last) => c.(last := last)
  }

  /** The map c holds the log, and the log says what the lifecycle's handles say. */
  ghost predicate Kept(c: M.Chained, start: M.Chained, ops: seq<L.MapOp>,
                       latest: map<nat, nat>, count: nat, last: nat) {
    && c == MapOf(start, ops) && |c.pool| == |start.pool| && c.last == last
    && L.Records(c, AllPuts(ops)) && AgreesWith(latest, count, last, ops)
  }

  lemma StartKept(buckets: nat, poolSize: nat, mix: nat -> nat)
    requires buckets > 0 && poolSize > 0
    ensures var c := M.Empty(buckets, poolSize, mix); Kept(c, c, [], map[], 0, 0)
  {
    M.EmptyWellFormed(buckets, poolSize, mix);
  }

  lemma MapOfAppend(start: M.Chained, ops: seq<L.MapOp>, op: L.MapOp)
    ensures MapOf(start, ops + [op]) == Told(MapOf(start, ops), op)
    ensures M.WellFormed(MapOf(start, ops)) ==> MapOf(start, ops + [op]) == L.Apply(MapOf(start, ops), op)
  {
    assert (ops + [op])[..|ops|] == ops;
  }

  /** A safe insert by the newest task. */
  lemma WriteKept(c: M.Chained, start: M.Chained, ops: seq<L.MapOp>, latest: map<nat, nat>, tid: nat, last: nat, h: nat)
    requires Kept(c, start, ops, latest, tid + 1, last) && L.Safe(c, L.Put(h, tid, true))
    ensures Kept(M.Insert(c, h, tid, true), start, ops + [L.Put(h, tid, true)], latest[h := tid], tid + 1, last)
  {
    var op := L.Put(h, tid, true);
    MapOfAppend(start, ops, op);
    M.InsertKeeps(c, h, tid, true);
    L.PutKeepsRecords(c, AllPuts(ops), op);
    AllPutsAppend(ops, op);
    WriteAgrees(latest, tid, last, ops, h);
  }

  /** A later bound. */
  lemma BoundKept(c: M.Chained, start: M.Chained, ops: seq<L.MapOp>, latest: map<nat, nat>, count: nat, last: nat,
                  now: nat)
    requires Kept(c, start, ops, latest, count, last) && now > last
    ensures Kept(c.(last := now), start, ops + [L.Invalidate(now)], latest, count, now)
  {
    var op := L.Invalidate(now);
    MapOfAppend(start, ops, op);
    AllPutsAppend(ops, op);
    assert AllPuts(ops + [op]) == AllPuts(ops);
    assert L.Records(c.(last := now), AllPuts(ops)) by { L.InvalidateKeepsRecords(c, AllPuts(ops), now); }
    assert AgreesWith(latest, count, now, ops + [op]) by { BoundAgrees(latest, count, last, ops, count, now); }
  }

  lemma MoreKept(c: M.Chained, start: M.Chained, ops: seq<L.MapOp>, latest: map<nat, nat>, count: nat, last: nat)
    requires Kept(c, start, ops, latest, count, last)
    ensures Kept(c, start, ops, latest, count + 1, last)
  {
    BoundAgrees(latest, count, last, ops, count + 1, last);
    assert ops + [] == ops;
  }

  // ---- What a submission asks of the map ---------------------------------------------------

  /** The newest insert of the handle is among the last poolSize ones. */
  ghost predicate InPool(ops: seq<L.MapOp>, poolSize: nat, h: nat) {
    PutsArePuts(ops, |ops|);
    L.Recent(|AllPuts(ops)|, poolSize, L.Newest(AllPuts(ops), h))
  }

  predicate IsLive(latest: map<nat, nat>, last: nat, h: nat) {
    h in latest && latest[h] >= last
  }

  /** The map answers as the lifecycle's handles. */
  lemma KeptAnswers(c: M.Chained, start: M.Chained, ops: seq<L.MapOp>, latest: map<nat, nat>, count: nat, last: nat,
                    h: nat)
    requires Kept(c, start, ops, latest, count, last)
    ensures L.Lookup(c, h) == (if IsLive(latest, last, h) then latest[h] else -1)
            <==> (IsLive(latest, last, h) ==> InPool(ops, |start.pool|, h))
  {
    assert NewestIs(latest, AllPuts(ops), h);
    L.LookupIsLatest(c, AllPuts(ops), h);
  }

  /** Parameter p of task tid, after the operations ops: its read finds the newest producer,
      if live, still in the pool, and its write recycles no entry that is still linked. */
  ghost predicate ParamServed(start: M.Chained, ops: seq<L.MapOp>, p: Param, found: Option<nat>, tid: nat) {
    && (Reads(p) && found.Some? ==> InPool(ops, |start.pool|, p.handle))
    && (Writes(p) ==> L.Safe(MapOf(start, ops), L.Put(p.handle, tid, true)))
  }

  /** So for all parameters, each after the submission's own earlier writes. */
  ghost predicate ScanServed(start: M.Chained, ops: seq<L.MapOp>, s: Orch, params: seq<Param>) {
    forall i :: 0 <= i < |params| ==> ServedAt(start, ops, s, params, i)
  }

  ghost predicate ServedAt(start: M.Chained, ops: seq<L.MapOp>, s: Orch, params: seq<Param>, i: nat)
    requires i < |params|
  {
    var tid := |s.tasks|;
    ParamServed(start, ops + Inserts(params[..i], tid), params[i], Found(s, params[..i], params[i].handle, tid), tid)
  }

  ghost predicate StepServed(start: M.Chained, ops: seq<L.MapOp>, s: Orch, step: Step) {
    match step
    case SubmitTask(params) => ScanServed(start, ops, s, params)
    case SubmitGroup(params, _) => ScanServed(start, ops, s, params)
    case _ => true
  }

  ghost predicate RunServed(run: Run, start: M.Chained, k: nat)
    requires IsRun(run) && k < |run.states|
  {
    forall i :: 0 <= i < k ==> StepServed(start, Log(run, i), run.states[i], run.steps[i])
  }

  // ---- What being served gives -------------------------------------------------------------

  lemma ServedAtPrefix(start: M.Chained, ops: seq<L.MapOp>, s: Orch, params: seq<Param>, n: nat, i: nat)
    requires i < n <= |params|
    ensures ServedAt(start, ops, s, params[..n], i) <==> ServedAt(start, ops, s, params, i)
  {
    assert params[..n][..i] == params[..i];
  }

  lemma ServedPrefix(start: M.Chained, ops: seq<L.MapOp>, s: Orch, params: seq<Param>, n: nat)
    requires ScanServed(start, ops, s, params) && n <= |params|
    ensures ScanServed(start, ops, s, params[..n])
  {
    forall i | 0 <= i < n ensures ServedAt(start, ops, s, params[..n], i) {
      ServedAtPrefix(start, ops, s, params, n, i);
    }
  }

  /** The last parameter is served as well. */
  lemma ServedOn(start: M.Chained, ops: seq<L.MapOp>, s: Orch, params: seq<Param>)
    requires params != [] && ScanServed(start, ops, s, params[..|params| - 1])
    requires ServedAt(start, ops, s, params, |params| - 1)
    ensures ScanServed(start, ops, s, params)
  {
    forall i | 0 <= i < |params| - 1 ensures ServedAt(start, ops, s, params, i) {
      ServedAtPrefix(start, ops, s, params, |params| - 1, i);
    }
  }

  /** State s with a slot opened for its next task. */
  predicate Opened(s: Orch, o: Orch) {
    |o.tasks| == |s.tasks| + 1 && o.latest == s.latest && o.last == s.last
  }

  /** The map is kept along the parameters that are served. */
  lemma {:induction false} ScanKept(start: M.Chained, ops: seq<L.MapOp>, s: Orch, o: Orch, params: seq<Param>)
    requires Opened(s, o) && Kept(MapOf(start, ops), start, ops, s.latest, |s.tasks|, s.last)
    requires ScanServed(start, ops, s, params)
    ensures var more, r := ops + Inserts(params, |s.tasks|), Scan(o, params);
            Kept(MapOf(start, more), start, more, r.latest, |o.tasks|, s.last)
  {
    var tid := |s.tasks|;
    if params == [] {
      assert ops + Inserts(params, tid) == ops;
      MoreKept(MapOf(start, ops), start, ops, s.latest, tid, s.last);
    } else {
      var earlier, p := params[..|params| - 1], params[|params| - 1];
      var mid, log := Scan(o, earlier), ops + Inserts(earlier, tid);
      ServedPrefix(start, ops, s, params, |params| - 1);
      assert ServedAt(start, ops, s, params, |params| - 1);
      ScanKept(start, ops, s, o, earlier);
      if Writes(p) {
        var op := L.Put(p.handle, tid, true);
        assert ops + Inserts(params, tid) == log + [op];
        WriteKept(MapOf(start, log), start, log, mid.latest, tid, s.last, p.handle);
        MapOfAppend(start, log, op);
      } else {
        assert ops + Inserts(params, tid) == log;
      }
    }
  }

  /** The map can be used, and a read of p finds in it what the lifecycle finds. */
  ghost predicate Answers(c: M.Chained, found: Option<nat>, p: Param) {
    M.WellFormed(c) && (Reads(p) ==> L.Lookup(c, p.handle) == Answer(found))
  }

  /** So for all parameters of task tid. */
  ghost predicate ScanAnswered(start: M.Chained, ops: seq<L.MapOp>, s: Orch, params: seq<Param>, tid: nat) {
    forall i :: 0 <= i < |params| ==>
      Answers(MapOf(start, ops + Inserts(params[..i], tid)), Found(s, params[..i], params[i].handle, tid), params[i])
  }

  lemma AnsweredOpened(start: M.Chained, ops: seq<L.MapOp>, s: Orch, o: Orch, params: seq<Param>, tid: nat)
    requires ScanAnswered(start, ops, s, params, tid) && o.latest == s.latest && o.last == s.last
    ensures ScanAnswered(start, ops, o, params, tid)
  {
    forall i | 0 <= i < |params|
      ensures Answers(MapOf(start, ops + Inserts(params[..i], tid)),
                      Found(o, params[..i], params[i].handle, tid), params[i])
    {
      assert Found(o, params[..i], params[i].handle, tid) == Found(s, params[..i], params[i].handle, tid);
    }
  }

  /** Being served, the submission finds the lifecycle's producers. */
  lemma ServedIsAnswered(start: M.Chained, ops: seq<L.MapOp>, s: Orch, params: seq<Param>)
    requires s.last <= |s.tasks| && KeptIn(start, ops, s) && ScanServed(start, ops, s, params)
    ensures ScanAnswered(start, ops, s, params, |s.tasks|)
  {
    var o := s.(tasks := s.tasks + [NewTask(false, 0)]);
    forall i | 0 <= i < |params|
      ensures Answers(MapOf(start, ops + Inserts(params[..i], |s.tasks|)),
                      Found(s, params[..i], params[i].handle, |s.tasks|), params[i])
    {
      ServedPrefix(start, ops, s, params, i);
      ScanKept(start, ops, s, o, params[..i]);
      ParamAnswered(start, ops, s, o, params, i);
    }
  }

  lemma ParamAnswered(start: M.Chained, ops: seq<L.MapOp>, s: Orch, o: Orch, params: seq<Param>, i: nat)
    requires Opened(s, o) && s.last <= |s.tasks| && i < |params| && ScanServed(start, ops, s, params)
    requires var more, r := ops + Inserts(params[..i], |s.tasks|), Scan(o, params[..i]);
             Kept(MapOf(start, more), start, more, r.latest, |o.tasks|, s.last)
    ensures Answers(MapOf(start, ops + Inserts(params[..i], |s.tasks|)),
                    Found(s, params[..i], params[i].handle, |s.tasks|), params[i])
  {
    var more, r, h := ops + Inserts(params[..i], |s.tasks|), Scan(o, params[..i]), params[i].handle;
    assert ServedAt(start, ops, s, params, i);
    FoundIsLookup(o, params[..i], h);
    ScanKeepsFrame(o, params[..i]);
    assert Found(s, params[..i], h, |s.tasks|) == Lookup(r, h);
    KeptAnswers(MapOf(start, more), start, more, r.latest, |o.tasks|, s.last, h);
  }

  ghost predicate KeptIn(start: M.Chained, ops: seq<L.MapOp>, s: Orch) {
    Kept(MapOf(start, ops), start, ops, s.latest, |s.tasks|, s.last)
  }

  lemma SubmitKept(s: Orch, step: Step, start: M.Chained, ops: seq<L.MapOp>)
    requires Inv(s) && Enabled(s, step) && (step.SubmitTask? || step.SubmitGroup?)
    requires KeptIn(start, ops, s) && StepServed(start, ops, s, step)
    ensures KeptIn(start, ops + StepLog(s, step), Next(s, step))
  {
    var o := s.(tasks := s.tasks + [if step.SubmitTask? then NewTask(false, 0) else NewTask(true, step.size)]);
    ScanKept(start, ops, s, o, step.params);
    SubmitShows(s, step, o);
  }

  lemma RetireKept(s: Orch, r: Orch, start: M.Chained, ops: seq<L.MapOp>)
    requires KeptIn(start, ops, s) && r.latest == s.latest && |r.tasks| == |s.tasks| && r.last >= s.last
    ensures KeptIn(start, ops + Moved(s.last, r.last), r)
  {
    if r.last > s.last {
      MapOfAppend(start, ops, L.Invalidate(r.last));
      BoundKept(MapOf(start, ops), start, ops, s.latest, |s.tasks|, s.last, r.last);
    } else {
      assert ops + Moved(s.last, r.last) == ops;
    }
  }

  lemma StepKept(s: Orch, step: Step, start: M.Chained, ops: seq<L.MapOp>)
    requires Inv(s) && Enabled(s, step) && KeptIn(start, ops, s) && StepServed(start, ops, s, step)
    ensures KeptIn(start, ops + StepLog(s, step), Next(s, step))
  {
    if step.SubmitTask? || step.SubmitGroup? {
      SubmitKept(s, step, start, ops);
    } else {
      OtherStepsKeep(s, step);
      RetireKept(s, Next(s, step), start, ops);
    }
  }

  /** In a run whose steps are served the map holds the log throughout. */
  lemma {:induction false} RunKept(run: Run, buckets: nat, poolSize: nat, mix: nat -> nat, k: nat)
    requires FreshRun(run) && buckets > 0 && poolSize > 0 && k < |run.states|
    requires RunServed(run, M.Empty(buckets, poolSize, mix), k)
    ensures KeptIn(M.Empty(buckets, poolSize, mix), Log(run, k), run.states[k])
  {
    if k == 0 {
      StartKept(buckets, poolSize, mix);
    } else {
      RunKept(run, buckets, poolSize, mix, k - 1);
      RunKeepsInv(run, k - 1);
      StepKept(run.states[k - 1], run.steps[k - 1], M.Empty(buckets, poolSize, mix), Log(run, k - 1));
    }
  }

  // ---- Before the pool wraps ---------------------------------------------------------------

  lemma {:induction false} PutsOfPrefix(ops: seq<L.MapOp>, more: seq<L.MapOp>)
    ensures |AllPuts(ops)| <= |AllPuts(ops + more)|
  {
    if more == [] {
      assert ops + more == ops;
    } else {
      PutsOfPrefix(ops, more[..|more| - 1]);
      AllPutsAppend(ops + more[..|more| - 1], more[|more| - 1]);
      assert ops + more[..|more| - 1] + [more[|more| - 1]] == ops + more;
    }
  }

  lemma PutsSnoc(ops: seq<L.MapOp>, params: seq<Param>, tid: nat)
    requires params != []
    ensures var n := |params| - 1;
            |AllPuts(ops + Inserts(params, tid))|
              == |AllPuts(ops + Inserts(params[..n], tid))| + if Writes(params[n]) then 1 else 0
  {
    var n := |params| - 1;
    var log := ops + Inserts(params[..n], tid);
    if Writes(params[n]) {
      AllPutsAppend(log, L.Put(params[n].handle, tid, true));
      assert ops + Inserts(params, tid) == log + [L.Put(params[n].handle, tid, true)];
    } else {
      assert ops + Inserts(params, tid) == log;
    }
  }

  /** With room in the pool the next parameter is served. */
  lemma FreePoolServes(start: M.Chained, log: seq<L.MapOp>, latest: map<nat, nat>, tid: nat, last: nat,
                       p: Param, found: Option<nat>)
    requires Kept(MapOf(start, log), start, log, latest, tid + 1, last)
    requires found.Some? ==> IsLive(latest, last, p.handle)
    requires |AllPuts(log)| + (if Writes(p) then 1 else 0) <= |start.pool|
    ensures ParamServed(start, log, p, found, tid)
  {
    assert NewestIs(latest, AllPuts(log), p.handle);
    if Writes(p) { L.FreeSlotIsSafe(MapOf(start, log), AllPuts(log), L.Put(p.handle, tid, true)); }
  }

  /** What a parameter finds is live in the handles of the scan so far. */
  lemma FoundIsLive(s: Orch, o: Orch, earlier: seq<Param>, h: nat)
    requires Opened(s, o) && s.last <= |s.tasks|
    ensures Found(s, earlier, h, |s.tasks|).Some? ==> IsLive(Scan(o, earlier).latest, s.last, h)
    ensures Found(s, earlier, h, |s.tasks|).Some? ==>
              Found(s, earlier, h, |s.tasks|).value == Scan(o, earlier).latest[h]
  {
    FoundIsLookup(o, earlier, h);
    ScanKeepsFrame(o, earlier);
  }

  lemma {:induction false} FirstLapServesScan(start: M.Chained, ops: seq<L.MapOp>, s: Orch, o: Orch, params: seq<Param>)
    requires Opened(s, o) && KeptIn(start, ops, s) && s.last <= |s.tasks|
    requires |AllPuts(ops + Inserts(params, |s.tasks|))| <= |start.pool|
    ensures ScanServed(start, ops, s, params)
  {
    if params != [] {
      var earlier := params[..|params| - 1];
      PutsSnoc(ops, params, |s.tasks|);
      FirstLapServesScan(start, ops, s, o, earlier);
      ScanKept(start, ops, s, o, earlier);
      var p, tid := params[|params| - 1], |s.tasks|;
      FoundIsLive(s, o, earlier, p.handle);
      FreePoolServes(start, ops + Inserts(earlier, tid), Scan(o, earlier).latest, tid, s.last, p,
                     Found(s, earlier, p.handle, tid));
      ServedOn(start, ops, s, params);
    }
  }

  lemma FirstLapServesStep(start: M.Chained, ops: seq<L.MapOp>, s: Orch, step: Step)
    requires Inv(s) && Enabled(s, step) && KeptIn(start, ops, s)
    requires |AllPuts(ops + StepLog(s, step))| <= |start.pool|
    ensures StepServed(start, ops, s, step)
  {
    if step.SubmitTask? || step.SubmitGroup? {
      FirstLapServesScan(start, ops, s, s.(tasks := s.tasks + [NewTask(false, 0)]), step.params);
    }
  }

  lemma ServedNext(run: Run, start: M.Chained, k: nat)
    requires IsRun(run) && k < |run.steps| && RunServed(run, start, k)
    requires StepServed(start, Log(run, k), run.states[k], run.steps[k])
    ensures RunServed(run, start, k + 1)
  {
  }

  /** A run that makes no more inserts than the pool has entries is served throughout. */
  lemma {:induction false} FirstLapServes(run: Run, buckets: nat, poolSize: nat, mix: nat -> nat, k: nat)
    requires FreshRun(run) && buckets > 0 && poolSize > 0 && k < |run.states|
    requires |AllPuts(Log(run, k))| <= poolSize
    ensures RunServed(run, M.Empty(buckets, poolSize, mix), k)
  {
    if k > 0 {
      var s, step, ops := run.states[k - 1], run.steps[k - 1], Log(run, k - 1);
      PutsOfPrefix(ops, StepLog(s, step));
      FirstLapServes(run, buckets, poolSize, mix, k - 1);
      RunKept(run, buckets, poolSize, mix, k - 1);
      RunKeepsInv(run, k - 1);
      FirstLapServesStep(M.Empty(buckets, poolSize, mix), ops, s, step);
      ServedNext(run, M.Empty(buckets, poolSize, mix), k - 1);
    }
  }
}

/** When the tensor map serves an orchestrator for ever, through any amount of recycling: no
    task writes a handle that has an unretired producer, and the pool has room for the
    writes of a window of tasks. */
module MapRoom {
  import opened Common
  import opened Lifecycle
  import opened Submission
  import opened Invariant
  import opened Runs
  import opened HandleLog
  import opened MapService
  import T = TensorMapObjects

  // ---- What a program promises -----------------------------------------------------------------

  /** The parameters write at most q handles, none with an unretired producer. */
  ghost predicate WritesFew(s: Orch, params: seq<Param>, q: nat) {
    && |Inserts(params, |s.tasks|)| <= q
    && forall i :: 0 <= i < |params| && Writes(params[i]) ==> Lookup(s, params[i].handle).None?
  }

  ghost predicate StepWritesFew(s: Orch, step: Step, q: nat) {
    match step
    case SubmitTask(params) => WritesFew(s, params, q)
    case SubmitGroup(params, _) => WritesFew(s, params, q)
    case _ => true
  }

  ghost predicate RunWritesFew(run: Run, q: nat, k: nat)
    requires IsRun(run) && k < |run.states|
  {
    forall i :: 0 <= i < k ==> StepWritesFew(run.states[i], run.steps[i], q)
  }

  // ---- How old an insert can be -------------------------------------------------------------------

  /** An insert by task t is followed by at most q inserts for each task since, t included,
      and by those that task tid has made so far. */
  ghost predicate Aged(puts: seq<L.MapOp>, tid: nat, q: nat, own: nat) {
    forall j :: 0 <= j < |puts| ==>
      puts[j].Put? && puts[j].producer <= tid && |puts| - j <= (tid - puts[j].producer) * q + own
  }

  lemma AgedWrite(puts: seq<L.MapOp>, tid: nat, q: nat, own: nat, h: nat)
    requires Aged(puts, tid, q, own)
    ensures Aged(puts + [L.Put(h, tid, true)], tid, q, own + 1)
  {
  }

  lemma AgedNext(puts: seq<L.MapOp>, tid: nat, q: nat, own: nat)
    requires Aged(puts, tid, q, own) && own <= q
    ensures Aged(puts, tid + 1, q, 0)
  {
    forall j | 0 <= j < |puts|
      ensures puts[j].Put? && puts[j].producer <= tid + 1 && |puts| - j <= (tid + 1 - puts[j].producer) * q + 0
    {
      var d := tid - puts[j].producer;
      assert (d + 1) * q == d * q + q;
    }
  }

  lemma AgedIsRecent(puts: seq<L.MapOp>, tid: nat, q: nat, own: nat, last: nat, window: nat, poolSize: nat, j: nat)
    requires Aged(puts, tid, q, own) && own <= q && j < |puts| && puts[j].producer >= last
    requires tid < last + window && window * q <= poolSize
    ensures L.Recent(|puts|, poolSize, j)
  {
    var d := tid - puts[j].producer;
    TimesGrows(d + 1, window, q);
    assert (d + 1) * q == d * q + q;
  }

  lemma TimesGrows(a: nat, b: nat, q: nat)
    requires a <= b
    ensures a * q <= b * q
  {
    assert b * q == a * q + (b - a) * q;
  }

  // ---- One parameter ------------------------------------------------------------------------------

  /** All inserts of the handle by unretired tasks are by task tid. */
  ghost predicate OnlyBy(puts: seq<L.MapOp>, h: nat, last: nat, tid: nat) {
    forall j :: 0 <= j < |puts| && puts[j].Put? && puts[j].handle == h && puts[j].producer >= last ==>
      puts[j].producer == tid
  }

  lemma NoneLive(s: Orch, ops: seq<L.MapOp>, h: nat)
    requires Agrees(s, ops) && Lookup(s, h).None?
    ensures OnlyBy(AllPuts(ops), h, s.last, |s.tasks|)
  {
    var puts := AllPuts(ops);
    assert NewestIs(s.latest, puts, h);
    var n := L.Newest(puts, h);
    forall j | 0 <= j < |puts| && puts[j].handle == h ensures puts[j].producer < s.last {
      assert j <= n;
      assert puts[j].producer <= puts[n].producer;
    }
  }

  lemma {:induction false} ScanOnlyBy(ops: seq<L.MapOp>, params: seq<Param>, h: nat, last: nat, tid: nat)
    requires OnlyBy(AllPuts(ops), h, last, tid)
    ensures OnlyBy(AllPuts(ops + Inserts(params, tid)), h, last, tid)
  {
    if params == [] {
      assert ops + Inserts(params, tid) == ops;
    } else {
      var n := |params| - 1;
      var log := ops + Inserts(params[..n], tid);
      ScanOnlyBy(ops, params[..n], h, last, tid);
      if Writes(params[n]) {
        AllPutsAppend(log, L.Put(params[n].handle, tid, true));
        assert ops + Inserts(params, tid) == log + [L.Put(params[n].handle, tid, true)];
      } else {
        assert ops + Inserts(params, tid) == log;
      }
    }
  }

  /** A linked entry is one of the inserts, so none is stale. */
  lemma FindsNone(c: M.Chained, puts: seq<L.MapOp>, h: nat, tid: nat)
    requires L.Records(c, puts) && OnlyBy(puts, h, c.last, tid)
    ensures L.FindsNoOlder(c, L.Put(h, tid, true))
  {
    forall i | 0 <= i < |c.pool| && M.Linked(c, i) ensures !M.Stale(c.pool[i], h, tid, c.last) {
      var j :| L.Recent(|puts|, |c.pool|, j) && j % |c.pool| == i;
      assert L.RecordOk(c, puts, j);
    }
  }

  /** The map so far, in the midst of a submission. */
  ghost predicate Roomy(start: M.Chained, log: seq<L.MapOp>, tid: nat, q: nat, own: nat) {
    L.AllValid(MapOf(start, log)) && Aged(AllPuts(log), tid, q, own)
  }

  lemma RoomyServes(start: M.Chained, log: seq<L.MapOp>, latest: map<nat, nat>, tid: nat, last: nat,
                    p: Param, found: Option<nat>, window: nat, q: nat, own: nat)
    requires Kept(MapOf(start, log), start, log, latest, tid + 1, last) && Roomy(start, log, tid, q, own)
    requires own <= q && tid < last + window && window * q <= |start.pool|
    requires found.Some? ==> IsLive(latest, last, p.handle)
    requires Writes(p) ==> OnlyBy(AllPuts(log), p.handle, last, tid)
    ensures ParamServed(start, log, p, found, tid)
    ensures Writes(p) ==> Roomy(start, log + [L.Put(p.handle, tid, true)], tid, q, own + 1)
  {
    if found.Some? { LiveIsInPool(start, log, latest, tid, last, p.handle, window, q, own); }
    if Writes(p) { FreshWriteIsSafe(start, log, latest, tid, last, p.handle, q, own); }
  }

  lemma LiveIsInPool(start: M.Chained, log: seq<L.MapOp>, latest: map<nat, nat>, tid: nat, last: nat,
                     h: nat, window: nat, q: nat, own: nat)
    requires AgreesWith(latest, tid + 1, last, log) && Aged(AllPuts(log), tid, q, own)
    requires own <= q && tid < last + window && window * q <= |start.pool| && IsLive(latest, last, h)
    ensures InPool(log, |start.pool|, h)
  {
    var puts := AllPuts(log);
    assert NewestIs(latest, puts, h);
    AgedIsRecent(puts, tid, q, own, last, window, |start.pool|, L.Newest(puts, h));
  }

  lemma FreshWriteIsSafe(start: M.Chained, log: seq<L.MapOp>, latest: map<nat, nat>, tid: nat, last: nat,
                         h: nat, q: nat, own: nat)
    requires Kept(MapOf(start, log), start, log, latest, tid + 1, last) && Roomy(start, log, tid, q, own)
    requires OnlyBy(AllPuts(log), h, last, tid)
    ensures L.Safe(MapOf(start, log), L.Put(h, tid, true))
    ensures Roomy(start, log + [L.Put(h, tid, true)], tid, q, own + 1)
  {
    var c, op := MapOf(start, log), L.Put(h, tid, true);
    FindsNone(c, AllPuts(log), h, tid);
    L.NoOlderKeepsValid(c, op);
    MapOfAppend(start, log, op);
    AllPutsAppend(log, op);
    AgedWrite(AllPuts(log), tid, q, own, h);
  }

  // ---- One submission ---------------------------------------------------------------------------

  lemma {:induction false} RoomyScan(start: M.Chained, ops: seq<L.MapOp>, s: Orch, o: Orch, params: seq<Param>, q: nat)
    requires Opened(s, o) && KeptIn(start, ops, s) && Roomy(start, ops, |s.tasks|, q, 0)
    requires s.last <= |s.tasks| < s.last + s.window && s.window * q <= |start.pool| && WritesFew(s, params, q)
    ensures ScanServed(start, ops, s, params)
    ensures Roomy(start, ops + Inserts(params, |s.tasks|), |s.tasks|, q, |Inserts(params, |s.tasks|)|)
  {
    var tid := |s.tasks|;
    if params == [] {
      assert ops + Inserts(params, tid) == ops;
    } else {
      var earlier, p := params[..|params| - 1], params[|params| - 1];
      var log, own := ops + Inserts(earlier, tid), |Inserts(earlier, tid)|;
      assert forall i :: 0 <= i < |earlier| ==> earlier[i] == params[i];
      RoomyScan(start, ops, s, o, earlier, q);
      ScanKept(start, ops, s, o, earlier);
      FoundIsLive(s, o, earlier, p.handle);
      if Writes(p) {
        NoneLive(s, ops, p.handle);
        ScanOnlyBy(ops, earlier, p.handle, s.last, tid);
        assert ops + Inserts(params, tid) == log + [L.Put(p.handle, tid, true)];
      } else {
        assert ops + Inserts(params, tid) == log;
      }
      RoomyServes(start, log, Scan(o, earlier).latest, tid, s.last, p, Found(s, earlier, p.handle, tid), s.window, q,
                  own);
      ServedOn(start, ops, s, params);
    }
  }

  // ---- Whole runs -------------------------------------------------------------------------------

  ghost predicate RoomyIn(start: M.Chained, ops: seq<L.MapOp>, s: Orch, q: nat) {
    KeptIn(start, ops, s) && Roomy(start, ops, |s.tasks|, q, 0) && s.window * q <= |start.pool|
  }

  lemma RoomySubmit(s: Orch, step: Step, start: M.Chained, ops: seq<L.MapOp>, q: nat)
    requires Inv(s) && Enabled(s, step) && (step.SubmitTask? || step.SubmitGroup?)
    requires RoomyIn(start, ops, s, q) && StepWritesFew(s, step, q)
    ensures StepServed(start, ops, s, step) && Roomy(start, ops + StepLog(s, step), |s.tasks| + 1, q, 0)
  {
    var params, tid := step.params, |s.tasks|;
    RoomyScan(start, ops, s, s.(tasks := s.tasks + [NewTask(false, 0)]), params, q);
    AgedNext(AllPuts(ops + Inserts(params, tid)), tid, q, |Inserts(params, tid)|);
  }

  lemma RoomyRetire(s: Orch, now: nat, start: M.Chained, ops: seq<L.MapOp>, q: nat)
    requires RoomyIn(start, ops, s, q)
    ensures Roomy(start, ops + Moved(s.last, now), |s.tasks|, q, 0)
  {
    if now > s.last {
      var op := L.Invalidate(now);
      L.NoOlderKeepsValid(MapOf(start, ops), op);
      MapOfAppend(start, ops, op);
      AllPutsAppend(ops, op);
      assert AllPuts(ops + [op]) == AllPuts(ops);
    } else {
      assert ops + Moved(s.last, now) == ops;
    }
  }

  lemma RoomyStep(s: Orch, step: Step, start: M.Chained, ops: seq<L.MapOp>, q: nat)
    requires Inv(s) && Enabled(s, step) && RoomyIn(start, ops, s, q) && StepWritesFew(s, step, q)
    ensures StepServed(start, ops, s, step) && RoomyIn(start, ops + StepLog(s, step), Next(s, step), q)
  {
    SameLength(s, step);
    if step.SubmitTask? || step.SubmitGroup? {
      RoomySubmit(s, step, start, ops, q);
    } else {
      RoomyRetire(s, Next(s, step).last, start, ops, q);
    }
    StepKept(s, step, start, ops);
  }

  lemma RoomyStart(buckets: nat, poolSize: nat, mix: nat -> nat, window: nat, capacity: nat, q: nat)
    requires buckets > 0 && poolSize > 0 && window * q <= poolSize
    ensures RoomyIn(M.Empty(buckets, poolSize, mix), [], Init(window, capacity), q)
  {
    StartKept(buckets, poolSize, mix);
    M.EmptyWellFormed(buckets, poolSize, mix);
  }

  lemma {:induction false} RunIsRoomy(run: Run, buckets: nat, poolSize: nat, mix: nat -> nat, q: nat, k: nat)
    requires FreshRun(run) && buckets > 0 && poolSize > 0 && k < |run.states|
    requires run.window * q <= poolSize && RunWritesFew(run, q, k)
    ensures RoomyIn(M.Empty(buckets, poolSize, mix), Log(run, k), run.states[k], q)
    ensures RunServed(run, M.Empty(buckets, poolSize, mix), k)
  {
    if k == 0 {
      RoomyStart(buckets, poolSize, mix, run.window, run.capacity, q);
    } else {
      RunIsRoomy(run, buckets, poolSize, mix, q, k - 1);
      RunKeepsInv(run, k - 1);
      RoomyStep(run.states[k - 1], run.steps[k - 1], M.Empty(buckets, poolSize, mix), Log(run, k - 1), q);
      ServedNext(run, M.Empty(buckets, poolSize, mix), k - 1);
    }
  }

  // ---- Rewriting a handle ------------------------------------------------------------------------

  function Output(h: nat): Step { SubmitTask([Param(Access.Output, h)]) }

  function Update(h: nat): Step { SubmitTask([Param(InOut, h)]) }

  /** Nothing has been consumed or retired, and one more task can be submitted. */
  predicate Open(s: Orch, n: nat) {
    && |s.tasks| == n && s.last == 0 && s.window == 3 && s.dispatching.None?
    && forall i :: 0 <= i < n ==> s.tasks[i].status == Running
  }

  lemma SubmitOpen(s: Orch, n: nat, p: Param)
    requires Open(s, n) && n < 3 && HandlesKnown(s)
    ensures Enabled(s, SubmitTask([p])) && StepReadsFresh(s, SubmitTask([p]))
    ensures Open(Next(s, SubmitTask([p])), n + 1) && HandlesKnown(Next(s, SubmitTask([p])))
  {
    RegisterShows(s, [p], false, 0);
  }

  lemma InsertsOne(p: Param, tid: nat)
    requires p.access == InOut || p.access == Access.Output
    ensures Inserts([p], tid) == [L.Put(p.handle, tid, true)]
  {
    assert [p][..0] == [];
  }

  lemma CycleOf(mix: nat -> nat)
    ensures var c := MapOf(M.Empty(1, 2, mix), [L.Put(1, 0, true), L.Put(1, 1, true), L.Put(2, 2, true)]);
            c.buckets == [0] && |c.pool| == 2 && c.pool[0].next == 1 && c.pool[1].next == 0
  {
    var start, a, b, c := M.Empty(1, 2, mix), L.Put(1, 0, true), L.Put(1, 1, true), L.Put(2, 2, true);
    T.ThreeInsertsMakeACycle(mix);
    assert MapOf(start, []) == start;
    MapOfAppend(start, [], a);
    MapOfAppend(start, [a], b);
    MapOfAppend(start, [a, b], c);
    assert [] + [a] == [a] && [a] + [b] == [a, b] && [a, b] + [c] == [a, b, c];
  }

  lemma RunOfThree(p: Param, q: Param, r: Param) returns (run: Run)
    ensures FreshRun(run) && run.steps == [SubmitTask([p]), SubmitTask([q]), SubmitTask([r])]
    ensures |run.states| == 4 && forall i :: 0 <= i < 3 ==> |run.states[i].tasks| == i
  {
    var s0 := Init(3, 0);
    SubmitOpen(s0, 0, p);
    var s1 := Next(s0, SubmitTask([p]));
    SubmitOpen(s1, 1, q);
    var s2 := Next(s1, SubmitTask([q]));
    SubmitOpen(s2, 2, r);
    run := Run(3, 0, [SubmitTask([p]), SubmitTask([q]), SubmitTask([r])], [s0, s1, s2, Next(s2, SubmitTask([r]))]);
  }

  lemma LogGrows(run: Run, k: nat, p: Param)
    requires IsRun(run) && k < |run.steps| && run.steps[k] == SubmitTask([p]) && |run.states[k].tasks| == k
    requires p.access == InOut || p.access == Access.Output
    ensures Log(run, k + 1) == Log(run, k) + [L.Put(p.handle, k, true)]
  {
    InsertsOne(p, k);
  }

  /** Three submissions, of which the second updates what the first wrote, leave a map with a
      pool of two broken: the update invalidates the first entry, whose place the third
      submission recycles although it is still linked, and the links run in a circle. */
  lemma UpdateBreaksMap(mix: nat -> nat) returns (run: Run)
    ensures FreshRun(run) && run.steps == [Output(1), Update(1), Output(2)]
    ensures var c := MapOf(M.Empty(1, 2, mix), Log(run, 3));
            c.buckets == [0] && |c.pool| == 2 && c.pool[0].next == 1 && c.pool[1].next == 0
  {
    run := RunOfThree(Param(Access.Output, 1), Param(InOut, 1), Param(Access.Output, 2));
    LogGrows(run, 0, Param(Access.Output, 1));
    LogGrows(run, 1, Param(InOut, 1));
    LogGrows(run, 2, Param(Access.Output, 2));
    assert Log(run, 3) == [L.Put(1, 0, true), L.Put(1, 1, true), L.Put(2, 2, true)];
    CycleOf(mix);
  }
}

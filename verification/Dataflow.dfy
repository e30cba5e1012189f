/** Which tasks depend on which, told from the submitted parameter lists alone: a task waits
    for the newest unretired writer of each handle it reads. */
module Dataflow {
  import opened Common
  import opened Lifecycle
  import opened Tally
  import opened Ledger
  import opened Submission
  import opened Invariant
  import opened Runs
  import opened Progress

  // ---- What the orchestration program says -------------------------------------------------

  /** The parameter lists of the tasks and groups submitted by these steps, by task id. */
  function Lists(steps: seq<Step>): seq<seq<Param>> {
    if steps == [] then [] else Lists(steps[..|steps| - 1]) + ListOf(steps[|steps| - 1])
  }

  function ListOf(step: Step): seq<seq<Param>> {
    match step
    case SubmitTask(params) => [params]
    case SubmitGroup(params, _) => [params]
    case _ => []
  }

  /** One of the first n parameters names the handle as output or in-out. */
  predicate WritesIn(params: seq<Param>, n: nat, h: nat) {
    exists j :: 0 <= j < n && j < |params| && params[j].handle == h
                && (params[j].access == Output || params[j].access == InOut)
  }

  predicate WrittenBy(lists: seq<seq<Param>>, u: nat, h: nat) {
    u < |lists| && WritesIn(lists[u], |lists[u]|, h)
  }

  /** Of the tasks with these parameter lists u is the newest that writes h. */
  ghost predicate NewestWriter(lists: seq<seq<Param>>, u: nat, h: nat) {
    WrittenBy(lists, u, h) && forall v :: u < v < |lists| ==> !WrittenBy(lists, v, h)
  }

  /** Parameter i of the next task reads what task u wrote: its own earlier parameters come
      first, then the newest task that wrote the handle, unless that one has retired. */
  ghost predicate Feeds(lists: seq<seq<Param>>, last: nat, params: seq<Param>, i: nat, u: nat) {
    && i < |params| && (params[i].access == Input || params[i].access == InOut)
    && var h := params[i].handle;
       if WritesIn(params, i, h) then u == |lists| else last <= u && NewestWriter(lists, u, h)
  }

  /** Task u feeds one of the parameters of the next task. */
  ghost predicate Feeder(lists: seq<seq<Param>>, last: nat, params: seq<Param>, u: nat) {
    exists i: nat :: Feeds(lists, last, params, i, u)
  }

  // ---- The handles of a run ----------------------------------------------------------------

  /** The handle map names the newest writer of each handle ever written. */
  ghost predicate LatestOf(latest: map<nat, nat>, lists: seq<seq<Param>>) {
    forall h: nat :: if h in latest then NewestWriter(lists, latest[h], h)
                     else forall u: nat :: !WrittenBy(lists, u, h)
  }

  lemma WrittenInIs(params: seq<Param>, h: nat)
    ensures WrittenIn(params, h) <==> WritesIn(params, |params|, h)
  {
    if WrittenIn(params, h) {
      var k :| 0 <= k < |params| && Writes(params[k]) && params[k].handle == h;
      assert params[k].access == Output || params[k].access == InOut;
    }
    if WritesIn(params, |params|, h) {
      var j :| 0 <= j < |params| && params[j].handle == h && (params[j].access == Output || params[j].access == InOut);
      assert Writes(params[j]);
    }
  }

  /** The scan of one more list takes over the handles that the list writes. */
  lemma ScanLatest(o: Orch, lists: seq<seq<Param>>, params: seq<Param>)
    requires |o.tasks| == |lists| + 1 && LatestOf(o.latest, lists)
    ensures LatestOf(Scan(o, params).latest, lists + [params])
  {
    var after, more := Scan(o, params).latest, lists + [params];
    forall h: nat ensures if h in after then NewestWriter(more, after[h], h)
        else forall u: nat :: !WrittenBy(more, u, h) {
      ScanHandles(o, params, h);
      WrittenInIs(params, h);
      forall u: nat | u < |lists| ensures WrittenBy(more, u, h)
          <==> WrittenBy(lists, u, h) { assert more[u] == lists[u]; }
      assert WrittenBy(more, |lists|, h) <==> WritesIn(params, |params|, h);
    }
  }

  lemma {:induction false} RunLatest(run: Run, k: nat)
    requires FreshRun(run) && k < |run.states|
    ensures |Lists(run.steps[..k])| == |run.states[k].tasks|
    ensures LatestOf(run.states[k].latest, Lists(run.steps[..k]))
  {
    if k > 0 {
      var s, step := run.states[k - 1], run.steps[k - 1];
      RunLatest(run, k - 1);
      RunKeepsInv(run, k - 1);
      assert run.steps[..k][..k - 1] == run.steps[..k - 1];
      StepLatest(s, step, Lists(run.steps[..k - 1]));
    }
  }

  lemma StepLatest(s: Orch, step: Step, lists: seq<seq<Param>>)
    requires Inv(s) && Enabled(s, step) && |lists| == |s.tasks| && LatestOf(s.latest, lists)
    ensures var r := Next(s, step); |lists + ListOf(step)| == |r.tasks| && LatestOf(r.latest, lists + ListOf(step))
  {
    if step.SubmitTask? || step.SubmitGroup? {
      var o := s.(tasks := s.tasks + [if step.SubmitTask? then NewTask(false, 0) else NewTask(true, step.size)]);
      SubmitShows(s, step, o);
      ScanLatest(o, lists, step.params);
    } else {
      OtherStepsKeep(s, step);
      assert lists + ListOf(step) == lists;
    }
  }

  // ---- The edges of a submission --------------------------------------------------------------

  /** The parameters, among the first n, that are fed by u. */
  ghost function FedBy(lists: seq<seq<Param>>, last: nat, params: seq<Param>, n: nat, u: nat): set<nat> {
    set i | 0 <= i < n && Feeds(lists, last, params, i, u)
  }

  /** What parameter i finds is the task that feeds it. */
  lemma FoundFeeds(s: Orch, lists: seq<seq<Param>>, params: seq<Param>, i: nat, u: nat)
    requires |lists| == |s.tasks| && LatestOf(s.latest, lists) && i < |params|
    ensures var p := params[i];
            Reads(p) && Found(s, params[..i], p.handle, |s.tasks|) == Some(u) <==> Feeds(lists, s.last, params, i, u)
  {
    var h := params[i].handle;
    WrittenInIs(params[..i], h);
    assert WritesIn(params[..i], i, h) <==> WritesIn(params, i, h) by { WritesInPrefix(params, i, h); }
  }

  lemma WritesInPrefix(params: seq<Param>, i: nat, h: nat)
    requires i <= |params|
    ensures WritesIn(params[..i], i, h) <==> WritesIn(params, i, h)
  {
    if WritesIn(params[..i], i, h) {
      var j :| 0 <= j < i && params[..i][j].handle == h && (params[..i][j].access == Output || params[..i][j].access
          == InOut);
      assert params[j] == params[..i][j];
    }
    if WritesIn(params, i, h) {
      var j :| 0 <= j < i && params[j].handle == h && (params[j].access == Output || params[j].access == InOut);
      assert params[j] == params[..i][j];
    }
  }

  lemma FedByNext(lists: seq<seq<Param>>, last: nat, params: seq<Param>, n: nat, u: nat)
    ensures |FedBy(lists, last, params, n + 1, u)|
            == |FedBy(lists, last, params, n, u)| + if Feeds(lists, last, params, n, u) then 1 else 0
  {
    var now, earlier := FedBy(lists, last, params, n + 1, u), FedBy(lists, last, params, n, u);
    if Feeds(lists, last, params, n, u) {
      assert now == earlier + {n};
    } else {
      assert now == earlier;
    }
  }

  lemma SourcesNext(s: Orch, params: seq<Param>, n: nat, u: nat)
    requires n < |params|
    ensures var p, tid := params[n], |s.tasks|;
            Count(Sources(s, params[..n + 1], tid), u) == Count(Sources(s, params[..n], tid), u)
              + if Reads(p) && Found(s, params[..n], p.handle, tid) == Some(u) then 1 else 0
  {
    assert params[..n + 1][..n] == params[..n];
    SourcesSnoc(s, params[..n + 1], |s.tasks|);
    var found := Found(s, params[..n], params[n].handle, |s.tasks|);
    if Reads(params[n]) && found.Some? { CountPrepend(Sources(s, params[..n], |s.tasks|), u, found.value); }
  }

  lemma {:induction false} SourcesAreFeeders(s: Orch, lists: seq<seq<Param>>, params: seq<Param>, n: nat, u: nat)
    requires |lists| == |s.tasks| && LatestOf(s.latest, lists) && n <= |params|
    ensures Count(Sources(s, params[..n], |s.tasks|), u) == |FedBy(lists, s.last, params, n, u)|
  {
    if n == 0 {
      assert FedBy(lists, s.last, params, 0, u) == {};
    } else {
      SourcesAreFeeders(s, lists, params, n - 1, u);
      FoundFeeds(s, lists, params, n - 1, u);
      NextFeeder(s, lists, params, n - 1, u);
    }
  }

  lemma NextFeeder(s: Orch, lists: seq<seq<Param>>, params: seq<Param>, n: nat, u: nat)
    requires n < |params|
    requires Count(Sources(s, params[..n], |s.tasks|), u) == |FedBy(lists, s.last, params, n, u)|
    requires Reads(params[n]) && Found(s, params[..n], params[n].handle, |s.tasks|) == Some(u)
             <==> Feeds(lists, s.last, params, n, u)
    ensures Count(Sources(s, params[..n + 1], |s.tasks|), u) == |FedBy(lists, s.last, params, n + 1, u)|
  {
    FedByNext(lists, s.last, params, n, u);
    SourcesNext(s, params, n, u);
  }

  /** What the two disciplines ask of a submission, told from the parameter lists: that no
      task which feeds it is CONSUMED, or that the scope of each has not ended. */
  lemma DisciplinesMean(run: Run, k: nat, params: seq<Param>)
    requires FreshRun(run) && k < |run.states|
    ensures var s, lists := run.states[k], Lists(run.steps[..k]);
            && (FreshReads(s, params) <==>
                forall u: nat :: Feeder(lists, s.last, params, u) && u < |s.tasks| ==> s.tasks[u].status != Consumed)
            && (ScopedReads(s, params) <==>
                forall u: nat :: Feeder(lists, s.last, params, u) && u < |s.tasks| ==> !s.tasks[u].released)
  {
    var s, lists := run.states[k], Lists(run.steps[..k]);
    RunLatest(run, k);
    assert params[..|params|] == params;
    forall u: nat ensures u in Sources(s, params, |s.tasks|) <==> Feeder(lists, s.last, params, u) {
      SourcesAreFeeders(s, lists, params, |params|, u);
      FedByMeans(lists, s.last, params, u);
    }
  }

  /** In every run that reads from no CONSUMED task, and from then on for ever: task t has u
      among its producers once for each of its parameters that reads what u wrote, u has t
      among its consumers as often, and t waits for that many completions. */
  lemma EdgesFromParams(run: Run, k: nat, m: nat, u: nat)
    requires FreshRun(run) && k < m < |run.states| && (run.steps[k].SubmitTask? || run.steps[k].SubmitGroup?)
    ensures var params, lists, t := run.steps[k].params, Lists(run.steps[..k]), |run.states[k].tasks|;
            && |lists| == t < |run.states[m].tasks|
            && var fed := set i | 0 <= i < |params| && Feeds(lists, run.states[k].last, params, i, u);
               && Count(run.states[m].tasks[t].producers, u) == |fed|
               && (u in run.states[m].tasks[t].producers <==> Feeder(lists, run.states[k].last, params, u))
               && (u < |run.states[m].tasks| ==> Count(run.states[m].tasks[u].consumers, t) == |fed|)
  {
    var s, params, t := run.states[k], run.steps[k].params, |run.states[k].tasks|;
    RunLatest(run, k);
    RunKeepsInv(run, k);
    NewProducers(s, run.steps[k]);
    RunAges(run, k + 1, m, t);
    assert params[..|params|] == params;
    var lists := Lists(run.steps[..k]);
    SourcesAreFeeders(s, lists, params, |params|, u);
    var fed := set i | 0 <= i < |params| && Feeds(lists, s.last, params, i, u);
    assert fed == FedBy(lists, s.last, params, |params|, u);
    FedByMeans(lists, s.last, params, u);
    if u < |run.states[m].tasks| { ProducersMirror(run, m, u, t); }
  }

  lemma FedByMeans(lists: seq<seq<Param>>, last: nat, params: seq<Param>, u: nat)
    ensures var fed := FedBy(lists, last, params, |params|, u);
            |fed| > 0 <==> Feeder(lists, last, params, u)
  {
    var fed := FedBy(lists, last, params, |params|, u);
    if i: nat :| Feeds(lists, last, params, i, u) {
      assert i in fed;
    } else {
      assert fed == {};
    }
  }

  lemma ProducersMirror(run: Run, m: nat, u: nat, t: nat)
    requires FreshRun(run) && m < |run.states| && u < |run.states[m].tasks| && t < |run.states[m].tasks|
    ensures Count(run.states[m].tasks[u].consumers, t) == Count(run.states[m].tasks[t].producers, u)
  {
    RunKeepsInv(run, m);
    assert Mirrored(run.states[m].tasks, u, t);
  }

  // ---- When a group starts -----------------------------------------------------------------

  /** Task u, at submission and now, is no obstacle to the start of group t. */
  ghost predicate Arrived(was: Orch, now: Orch, t: nat, u: nat) {
    u < t <= |was.tasks| && u < |now.tasks| && !IsDone(was.tasks[u]) && IsDone(now.tasks[u])
  }

  lemma {:induction false} NoneDone(ts: seq<Task>, list: seq<nat>)
    ensures DoneCount(ts, list) == 0 <==> forall p :: p in list ==> !DoneAt(ts, p)
  {
    if list != [] {
      NoneDone(ts, list[1..]);
      assert list == [list[0]] + list[1..];
    }
  }

  /** The same, told from the producer list. */
  lemma StartedByProducers(run: Run, k: nat, m: nat)
    requires ScopedRun(run) && k < m < |run.states| && run.steps[k].SubmitGroup? && run.steps[k].size > 0
    ensures var s, r, t := run.states[k], run.states[m], |run.states[k].tasks|;
            && t < |r.tasks|
            && (r.tasks[t].status != Pending <==> forall u :: u in r.tasks[t].producers ==> Arrived(s, r, t, u))
  {
    var s, r, t := run.states[k], run.states[m], |run.states[k].tasks|;
    ScopedIsFresh(run);
    GroupShape(run, k, m);
    GroupAtBirth(run, k, m);
    GroupStartedExactly(run, m, t);
    NoneDone(s.tasks, r.tasks[t].producers);
    ProducersOlder(run, m, t);
  }

  lemma ProducersOlder(run: Run, m: nat, t: nat)
    requires FreshRun(run) && m < |run.states| && t < |run.states[m].tasks|
    ensures forall u :: u in run.states[m].tasks[t].producers ==> u <= t
  {
    RunKeepsInv(run, m);
  }

  /** What the group's history field is about, and that a group never overcomes waiting for
      itself. */
  lemma GroupAtBirth(run: Run, k: nat, m: nat)
    requires ScopedRun(run) && k < m < |run.states| && run.steps[k].SubmitGroup? && run.steps[k].size > 0
    ensures var s, r, t := run.states[k], run.states[m], |run.states[k].tasks|;
            && t < |r.tasks| && r.tasks[t].preDone == DoneCount(s.tasks, r.tasks[t].producers)
            && (t in r.tasks[t].producers ==> r.tasks[t].status == Pending)
  {
    var s, params, t := run.states[k], run.steps[k].params, |run.states[k].tasks|;
    ScopedIsFresh(run);
    RunKeepsInv(run, k);
    PreDoneAtSubmission(s, params, run.steps[k].size);
    GroupShape(run, k, k + 1);
    RunAges(run, k + 1, m, t);
    var born := run.states[k + 1].tasks[t];
    if t in born.producers {
      RegisterShows(s, params, true, run.steps[k].size);
      assert SelfReader(born, t);
      SelfReaderNeverStarts(run, k + 1, m, t);
    }
  }

  /** A non-empty group has started if and only if every task that feeds one of its
      parameters is another task, was unfinished when the group was submitted, and has
      finished since. */
  lemma GroupStartsExactly(run: Run, k: nat, m: nat)
    requires ScopedRun(run) && k < m < |run.states| && run.steps[k].SubmitGroup? && run.steps[k].size > 0
    ensures var s, r, t := run.states[k], run.states[m], |run.states[k].tasks|;
            var lists, params := Lists(run.steps[..k]), run.steps[k].params;
            && t < |r.tasks|
            && (r.tasks[t].status != Pending <==>
                forall u: nat :: Feeder(lists, s.last, params, u) ==> Arrived(s, r, t, u))
  {
    var s, r, t := run.states[k], run.states[m], |run.states[k].tasks|;
    var lists, params := Lists(run.steps[..k]), run.steps[k].params;
    StartedByProducers(run, k, m);
    ScopedIsFresh(run);
    forall u: nat ensures u in r.tasks[t].producers <==> Feeder(lists, s.last, params, u) {
      EdgesFromParams(run, k, m, u);
    }
  }

  lemma GroupShape(run: Run, k: nat, m: nat)
    requires FreshRun(run) && k < m < |run.states| && run.steps[k].SubmitGroup?
    ensures var t := |run.states[k].tasks|;
            && t < |run.states[m].tasks|
            && run.states[m].tasks[t].isGroup && run.states[m].tasks[t].groupSize == run.steps[k].size
  {
    var s, params, size := run.states[k], run.steps[k].params, run.steps[k].size;
    RunKeepsInv(run, k);
    NewProducers(s, run.steps[k]);
    RegisterShows(s, params, true, size);
    if size == 0 {
      RegisterKeepsTally(s, params, true, 0);
      CompleteEvolves(Register(s, params, true, 0), |s.tasks|);
      EvolvedAges(Register(s, params, true, 0).tasks, run.states[k + 1].tasks, |s.tasks|, |s.tasks|);
    }
    RunAges(run, k + 1, m, |s.tasks|);
  }
}

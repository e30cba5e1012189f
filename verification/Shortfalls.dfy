/** Runs of the code as written that fall short of what it is for: a read outside its
    producer's scope ends in a slot that another task has taken, and a group that reads
    from a finished producer, or from itself, waits for ever. */
module Shortfalls {
  import opened Common
  import opened Lifecycle
  import opened Submission
  import opened Invariant
  import opened Runs
  import opened Progress

  lemma ScanSingle(s: Orch, p: Param)
    requires |s.tasks| > 0
    ensures Scan(s, [p]) == ScanOne(s, p)
  {
    assert [p][..0] == [];
  }

  /** A plain task as submitted, with its dependency list. */
  function Fresh(scoped: bool, producers: seq<nat>, preDone: nat): Task {
    NewTask(false, 0).(status := Running, scoped := scoped, producers := producers,
                       faninCount := |producers|, preDone := preDone)
  }

  lemma SubmitBare(s: Orch)
    requires s.heap.top == 0 && s.scopes == []
    ensures DoSubmitTask(s, []) ==
            s.(tasks := s.tasks + [Fresh(false, [], 0)], inflight := s.inflight + {|s.tasks|})
  {
  }

  lemma SubmitWriter(s: Orch, h: nat)
    requires s.heap.top == 0 && |s.scopes| == 1
    ensures DoSubmitTask(s, [Param(Output, h)]) ==
            s.(tasks := s.tasks + [Fresh(true, [], 0)], latest := s.latest[h := |s.tasks|],
               scopes := [s.scopes[0] + [|s.tasks|]], inflight := s.inflight + {|s.tasks|})
  {
    ScanSingle(s.(tasks := s.tasks + [NewTask(false, 0)]), Param(Output, h));
  }

  /** A task with no dependencies that completes outside the reach of any other. */
  lemma CompleteAlone(s: Orch, t: nat)
    requires t < |s.tasks| && s.tasks[t].producers == [] && s.tasks[t].consumers == []
    ensures Complete(s, t) == s.(tasks := s.tasks[t := CheckConsumed(s.tasks[t].(status := Completed))])
  {
  }

  function Last(run: Run): Orch
    requires run.states != []
  {
    run.states[|run.states| - 1]
  }

  /** The run continued by one step. */
  function Then(run: Run, step: Step): Run
    requires run.states != [] && Enabled(Last(run), step)
  {
    Run(run.window, run.capacity, run.steps + [step], run.states + [Next(Last(run), step)])
  }

  lemma ThenIsRun(run: Run, step: Step)
    requires IsRun(run) && Enabled(Last(run), step)
    ensures IsRun(Then(run, step)) && Last(Then(run, step)) == Next(Last(run), step)
    ensures ScopedRun(run) && StepReadsScoped(Last(run), step) ==> ScopedRun(Then(run, step))
  {
    var r := Then(run, step);
    forall i | 0 <= i < |r.steps|
      ensures Enabled(r.states[i], r.steps[i]) && r.states[i + 1] == Next(r.states[i], r.steps[i])
    {
      if i < |run.steps| { assert r.states[i] == run.states[i] && r.states[i + 1] == run.states[i + 1]; }
    }
  }

  function Start(window: nat, capacity: nat): Run {
    Run(window, capacity, [], [Init(window, capacity)])
  }

  // ---- A read outside its producer's scope ------------------------------------

  function Scoped1(): Orch {
    Init(4, 0).(tasks := [Fresh(true, [], 0), Fresh(true, [], 0)], scopes := [[0, 1]],
                latest := map[5 := 0, 6 := 1], inflight := {0, 1})
  }

  function Closed(): Orch {
    Init(4, 0).(tasks := [Fresh(true, [], 0).(fanoutRef := 1, released := true),
                          Fresh(true, [], 0).(status := Consumed, fanoutRef := 1, released := true)],
                latest := map[5 := 0, 6 := 1], inflight := {0})
  }

  lemma ReachScoped1()
    ensures var s1 := Init(4, 0).(scopes := [[]]);
            && Next(Init(4, 0), ScopeBegin) == s1
            && Enabled(s1, SubmitTask([Param(Output, 5)]))
            && Enabled(Next(s1, SubmitTask([Param(Output, 5)])), SubmitTask([Param(Output, 6)]))
            && Next(Next(s1, SubmitTask([Param(Output, 5)])), SubmitTask([Param(Output, 6)])) == Scoped1()
  {
    var s1 := Init(4, 0).(scopes := [[]]);
    SubmitWriter(s1, 5);
    var s2 := Next(s1, SubmitTask([Param(Output, 5)]));
    SubmitWriter(s2, 6);
    var s3 := Next(s2, SubmitTask([Param(Output, 6)]));
    assert s3.latest == map[5 := 0, 6 := 1];
    assert s3.inflight == {0, 1};
    assert s3.scopes[0] == [0, 1];
  }

  lemma ReachClosed()
    ensures Enabled(Scoped1(), Report(1)) && Enabled(Next(Scoped1(), Report(1)), ScopeEnd)
    ensures Next(Next(Scoped1(), Report(1)), ScopeEnd) == Closed()
  {
    var s := Scoped1();
    CompleteAlone(s.(inflight := s.inflight - {1}), 1);
    var s4 := Next(s, Report(1));
    assert s4.inflight == {0};
    assert s4.tasks == [Fresh(true, [], 0), Fresh(true, [], 0).(status := Completed)];
    var ts := GiveTokens(s4.tasks, [0, 1]);
    assert [0, 1][..1] == [0] && [0][..0] == [];
    assert GiveTokens(s4.tasks, [0]) == [Fresh(true, [], 0).(fanoutRef := 1, released := true), s4.tasks[1]];
    assert ts == [Fresh(true, [], 0).(fanoutRef := 1, released := true),
                  Fresh(true, [], 0).(status := Completed, fanoutRef := 1, released := true)];
    assert CheckRange(ts, 0, 0) == ts;
    assert CheckRange(ts, 0, 1) == ts;
    assert CheckRange(ts, 0, 2) == Closed().tasks;
    assert Unscoped(s4) == Closed();
    assert Cursor(Closed().tasks, 0) == 0;
  }

  function Reused(): Orch {
    Init(4, 0).(tasks := [Fresh(true, [], 0).(status := Consumed, fanoutRef := 1, released := true),
                          Fresh(true, [], 0).(status := Consumed, fanoutRef := 1, released := true,
                                              fanoutCount := 2, consumers := [2]),
                          Fresh(false, [1], 1), Fresh(false, [], 0), Fresh(false, [], 0), Fresh(false, [], 0)],
                latest := map[5 := 0, 6 := 1], inflight := {2, 3, 4, 5}, last := 2)
  }

  function StaleReader(): Orch {
    Closed().(tasks := [Closed().tasks[0], Closed().tasks[1].(fanoutCount := 2, consumers := [2]),
                        Fresh(false, [1], 1)],
              inflight := {0, 2})
  }

  lemma ReachStaleReader()
    ensures Enabled(Closed(), SubmitTask([Param(Input, 6)]))
    ensures Next(Closed(), SubmitTask([Param(Input, 6)])) == StaleReader()
  {
    var s := Closed();
    var o := s.(tasks := s.tasks + [NewTask(false, 0)]);
    ScanSingle(o, Param(Input, 6));
    assert Lookup(o, 6) == Some(1);
    assert Scan(o, [Param(Input, 6)]).tasks == AddEdge(o.tasks, 1, 2);
    assert AddEdge(o.tasks, 1, 2)[2] == NewTask(false, 0).(producers := [1], preDone := 1);
    assert s.inflight + {2} == {0, 2};
    var r := Next(s, SubmitTask([Param(Input, 6)]));
    assert |r.tasks| == 3;
    assert r.tasks[0] == StaleReader().tasks[0];
    assert [2] + o.tasks[1].consumers == [2];
    assert r.tasks[1] == StaleReader().tasks[1];
    assert r.tasks[2] == StaleReader().tasks[2];
  }

  /** Tasks 0 and 1 have retired; task 2, which reads from 1, is running. */
  function Advanced(): Orch {
    Reused().(tasks := Reused().tasks[..3], inflight := {2})
  }

  lemma ReachAdvanced()
    ensures Enabled(StaleReader(), Report(0)) && Enabled(Next(StaleReader(), Report(0)), Advance)
    ensures Next(Next(StaleReader(), Report(0)), Advance) == Advanced()
  {
    var s := StaleReader();
    CompleteAlone(s.(inflight := s.inflight - {0}), 0);
    var d := Next(s, Report(0));
    assert d.inflight == {2};
    assert d.tasks == Reused().tasks[..3];
    assert Cursor(d.tasks, 2) == 2 && Cursor(d.tasks, 1) == 2 && Cursor(d.tasks, 0) == 2;
  }

  lemma ReachReused()
    ensures var a, t := Advanced(), SubmitTask([]);
            && Enabled(a, t) && Enabled(Next(a, t), t) && Enabled(Next(Next(a, t), t), t)
            && Next(Next(Next(a, t), t), t) == Reused()
  {
    var a := Advanced();
    SubmitBare(a);
    var b := Next(a, SubmitTask([]));
    SubmitBare(b);
    var c := Next(b, SubmitTask([]));
    SubmitBare(c);
    assert Next(c, SubmitTask([])).inflight == {2, 3, 4, 5};
    assert Next(c, SubmitTask([])).tasks == Reused().tasks;
  }

  /** Without scoped reads retirement is unsafe: in this run task 2, the registered consumer
      of task 1, is still running although 1 has retired, and its report will release a
      descriptor for 1 in the slot that now belongs to task 5. */
  lemma StaleReadReachesReusedSlot() returns (run: Run)
    ensures IsRun(run) && run.window == 4
    ensures var s := run.states[|run.steps|];
            && |s.tasks| == 6 && Enabled(s, Report(2)) && Reaches(s, Report(2), 1)
            && 1 < s.last && 2 in s.tasks[1].consumers && !DoneAt(s.tasks, 2)
            && s.window == 4 && !OwnsSlot(s, 1) && OwnsSlot(s, 5) && 5 % 4 == 1
  {
    run := RunToClosed();
    ReachStaleReader();
    run := Step1(run, SubmitTask([Param(Input, 6)]));
    run := RunToReused(run);
    assert 5 % 4 == 1 % 4;
  }

  lemma RunToClosed() returns (run: Run)
    ensures IsRun(run) && run.window == 4 && Last(run) == Closed()
  {
    ReachScoped1();
    ReachClosed();
    run := Start(4, 0);
    run := Step1(run, ScopeBegin);
    run := Step1(run, SubmitTask([Param(Output, 5)]));
    run := Step1(run, SubmitTask([Param(Output, 6)]));
    run := Step1(run, Report(1));
    run := Step1(run, ScopeEnd);
  }

  lemma RunToReused(from: Run) returns (run: Run)
    requires IsRun(from) && Last(from) == StaleReader()
    ensures IsRun(run) && run.window == from.window && Last(run) == Reused()
  {
    ReachAdvanced();
    ReachReused();
    run := Step1(from, Report(0));
    run := Step1(run, Advance);
    run := Step1(run, SubmitTask([]));
    run := Step1(run, SubmitTask([]));
    run := Step1(run, SubmitTask([]));
  }

  lemma Step1(run: Run, step: Step) returns (longer: Run)
    requires IsRun(run) && Enabled(Last(run), step)
    ensures IsRun(longer) && longer.window == run.window && |longer.steps| == |run.steps| + 1
    ensures Last(longer) == Next(Last(run), step)
    ensures ScopedRun(run) && StepReadsScoped(Last(run), step) ==> ScopedRun(longer)
  {
    ThenIsRun(run, step);
    longer := Then(run, step);
  }

  // ---- A group behind a finished producer ---------------------------------------

  function Finished(): Orch {
    Init(4, 0).(tasks := [Fresh(true, [], 0).(status := Completed)], scopes := [[0]], latest := map[7 := 0])
  }

  lemma ReachFinished()
    ensures var s1 := Init(4, 0).(scopes := [[]]);
            && Next(Init(4, 0), ScopeBegin) == s1
            && Enabled(s1, SubmitTask([Param(Output, 7)]))
            && Enabled(Next(s1, SubmitTask([Param(Output, 7)])), Report(0))
            && Next(Next(s1, SubmitTask([Param(Output, 7)])), Report(0)) == Finished()
  {
    var s1 := Init(4, 0).(scopes := [[]]);
    SubmitWriter(s1, 7);
    var s2 := Next(s1, SubmitTask([Param(Output, 7)]));
    assert s2.inflight == {0} && s2.scopes[0] == [0] && s2.latest == map[7 := 0];
    CompleteAlone(s2.(inflight := s2.inflight - {0}), 0);
    assert Next(s2, Report(0)).inflight == {};
  }

  lemma SubmitLateGroup()
    ensures var r := DoSubmitGroup(Finished(), [Param(Input, 7)], 1);
            && |r.tasks| == 2 && r.tasks[1].isGroup && r.tasks[1].groupSize == 1
            && r.tasks[1].producers == [0] && r.tasks[1].preDone == 1 && DoneAt(r.tasks, 0)
  {
    var s := Finished();
    var o := s.(tasks := s.tasks + [NewTask(true, 1)]);
    ScanSingle(o, Param(Input, 7));
    assert Lookup(o, 7) == Some(0);
    assert AddEdge(o.tasks, 0, 1)[1] == NewTask(true, 1).(producers := [0], preDone := 1);
  }

  lemma RunToFinished() returns (run: Run)
    ensures ScopedRun(run) && |run.states| == 4 && Last(run) == Finished()
  {
    ReachFinished();
    run := Start(4, 0);
    run := Step1(run, ScopeBegin);
    run := Step1(run, SubmitTask([Param(Output, 7)]));
    run := Step1(run, Report(0));
  }

  lemma RunToLateGroup() returns (run: Run)
    ensures ScopedRun(run) && |run.states| == 5
    ensures run.states[4] == DoSubmitGroup(Finished(), [Param(Input, 7)], 1)
  {
    run := RunToFinished();
    run := Step1(run, SubmitGroup([Param(Input, 7)], 1));
  }

  /** A program that keeps every read in scope, and whose group starts in none of its
      continuations although its only producer has completed. */
  lemma LateGroupHangs() returns (prefix: Run)
    ensures ScopedRun(prefix) && |prefix.states| == 5 && |prefix.states[4].tasks| == 2
    ensures prefix.states[4].tasks[1].producers == [0] && DoneAt(prefix.states[4].tasks, 0)
    ensures forall run: Run, k: nat ::
              ScopedRun(run) && 4 <= k < |run.states| && run.states[4] == prefix.states[4] ==>
                |run.states[k].tasks| >= 2 && run.states[k].tasks[1].status == Pending
  {
    prefix := RunToLateGroup();
    SubmitLateGroup();
    var s4 := prefix.states[4];
    forall run: Run, k: nat | ScopedRun(run) && 4 <= k < |run.states| && run.states[4] == s4
      ensures |run.states[k].tasks| >= 2 && run.states[k].tasks[1].status == Pending
    {
      LateGroupNeverStarts(run, 4, k, 1);
    }
  }

  // ---- A group that reads its own output -------------------------------------------

  const SELF_READ: seq<Param> := [Param(Output, 7), Param(Input, 7)]

  lemma SubmitSelfReader()
    ensures var r := DoSubmitGroup(Init(4, 0), SELF_READ, 1);
            && |r.tasks| == 1 && r.tasks[0].isGroup && r.tasks[0].groupSize == 1
            && r.tasks[0].producers == [0] && r.tasks[0].status == Pending
  {
    var s := Init(4, 0);
    RegisterShows(s, SELF_READ, true, 1);
    var first := SELF_READ[..1];
    assert first == [Param(Output, 7)] && first[..0] == [];
    assert WrittenIn(first, 7) by { assert Writes(first[0]) && first[0].handle == 7; }
    assert Sources(s, first, 0) == [];
    assert Found(s, first, 7, 0) == Some(0);
    assert Sources(s, SELF_READ, 0) == [0];
  }

  /** A group that names its output before it reads it gets itself as a producer and starts
      in no continuation, although every read is in scope. */
  lemma SelfReadHangs() returns (prefix: Run)
    ensures ScopedRun(prefix) && |prefix.states| == 2 && |prefix.states[1].tasks| == 1
    ensures prefix.states[1].tasks[0].producers == [0]
    ensures forall run: Run, k: nat ::
              ScopedRun(run) && 1 <= k < |run.states| && run.states[1] == prefix.states[1] ==>
                |run.states[k].tasks| >= 1 && run.states[k].tasks[0].status == Pending
  {
    SubmitSelfReader();
    prefix := Step1(Start(4, 0), SubmitGroup(SELF_READ, 1));
    var s1 := prefix.states[1];
    forall run: Run, k: nat | ScopedRun(run) && 1 <= k < |run.states| && run.states[1] == s1
      ensures |run.states[k].tasks| >= 1 && run.states[k].tasks[0].status == Pending
    {
      SelfReaderNeverStarts(run, 1, k, 0);
    }
  }
}

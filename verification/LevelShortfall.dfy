/** A run of the level runtime as written, for every window of at least three, in which a
    task with two producers is put on the ready queue while one of them has not started. */
module LevelShortfall {
  import opened Common
  import opened LevelProtocol
  import opened LevelSlotTheorems
  import opened LevelScripts
  import opened LevelSlotQueue
  import R = TaskRings

  /** Tasks 0 and 1 are queued. */
  function Queued(w: nat): Level {
    Init(w).(tasks := [Source(1), Source(2)], producerOf := map[1 := 0, 2 := 1], queue := [0, 1])
  }

  lemma ReachQueued(w: nat) returns (steps: seq<Step>)
    requires 3 <= w
    ensures Leads(Init(w), steps, Queued(w))
  {
    var l := Init(w);
    PublishSource(l, 1);
    steps, l := Take(Init(w), [], l, Publish([], [1]));
    PublishSource(l, 2);
    steps, l := Take(Init(w), steps, l, Publish([], [2]));
    assert l.tasks == Queued(w).tasks && l.queue == [0, 1] && l.producerOf == map[1 := 0, 2 := 1];
  }

  /** Task 0 has stored COMPLETED and not taken its lock; task 1 waits in the queue. */
  function Between(w: nat): Level {
    Queued(w).(tasks := [Source(1).(status := Completed, phase := Stored), Source(2)], ready := {1}, queue := [1])
  }

  lemma ReachBetween(w: nat) returns (steps: seq<Step>)
    ensures Leads(Queued(w), steps, Between(w))
  {
    var l := Queued(w);
    steps, l := Take(Queued(w), [], l, Dequeue);
    assert l.tasks == [Source(1).(status := Running, phase := Executing), Source(2)] && l.queue == [1];
    steps, l := Take(Queued(w), steps, l, Mark(0));
    assert l.ready == {1} && l.tasks == [Source(1).(status := Running, phase := Marked), Source(2)];
    steps, l := Take(Queued(w), steps, l, Store(0));
    assert l.tasks == Between(w).tasks;
  }

  /** A task that reads the outputs of tasks 0 and 1, as published. */
  function Reader(): Task {
    Task([1, 2], [3], [0, 1], [], false, 2, 0, [], 1, 0, Pending, Waiting, 0, [], [], 0)
  }

  function Published(w: nat): Level {
    Between(w).(tasks := Between(w).tasks + [Reader()], producerOf := map[1 := 0, 2 := 1, 3 := 2], linking := Some(2))
  }

  lemma PublishReader(w: nat)
    ensures DoPublish(Between(w), [1, 2], [3]) == Published(w)
  {
    var s := Between(w);
    assert [3][..0] == [];
    assert [1, 2][..1] == [1] && [1][..0] == [];
    assert Lookup(s, 1) == Some(0) && Lookup(s, 2) == Some(1);
    assert Within(s, [1]) == [0];
    assert Within(s, [1, 2]) == [0, 1];
    assert Outside(s, [1]) == [];
    assert Outside(s, [1, 2]) == [];
  }

  /** Task 2 has told task 0 of itself and, finding it completed, credited itself. */
  function Told(w: nat): Level {
    Published(w).(tasks := [Between(w).tasks[0].(fanout := [2], fanoutCount := 2), Source(2),
                            Reader().(linked := 1, faninRef := 1, credits := [0])])
  }

  lemma TellFirst(w: nat)
    ensures LinkReady(Published(w)) && DoLink(Published(w)) == Told(w)
  {
    LinkDone(Published(w), 2, 0);
    var r := DoLink(Published(w));
    assert r.tasks[0].fanout == [2] && r.tasks[2].credits == [0];
    assert r.tasks == Told(w).tasks;
  }

  /** The walk of task 0 has credited task 2 once more and queued it. */
  function Premature(w: nat): Level {
    Told(w).(tasks := [Told(w).tasks[0].(phase := Walking([])), Source(2),
                       Reader().(linked := 1, faninRef := 2, credits := [0, 0], status := Ready, enqueued := 1)],
             queue := [1, 2])
  }

  lemma WalkFirst(w: nat)
    ensures var s := Told(w).(tasks := Told(w).tasks[0 := Told(w).tasks[0].(phase := Walking([2]))]);
            DoWalk(s, 0) == Premature(w)
  {
    var s := Told(w).(tasks := Told(w).tasks[0 := Told(w).tasks[0].(phase := Walking([2]))]);
    var c := Credit(SetPhase(s, 0, Walking([])), 2, 0);
    assert [2][1..] == [] && [0] + [0] == [0, 0];
    assert c.tasks == [Told(w).tasks[0].(phase := Walking([])), Source(2),
                       Reader().(linked := 1, faninRef := 2, credits := [0, 0])];
    assert DoWalk(s, 0) == TryReady(c, 2);
    assert DoWalk(s, 0).tasks == Premature(w).tasks;
  }

  lemma ReachPremature(w: nat) returns (steps: seq<Step>)
    requires 3 <= w
    ensures Leads(Between(w), steps, Premature(w))
  {
    var l := Between(w);
    PublishReader(w);
    steps, l := Take(Between(w), [], l, Publish([1, 2], [3]));
    TellFirst(w);
    steps, l := Take(Between(w), steps, l, Link);
    steps, l := Take(Between(w), steps, l, Lock(0));
    assert l.tasks == Told(w).tasks[0 := Told(w).tasks[0].(phase := Walking([2]))];
    WalkFirst(w);
    steps, l := Take(Between(w), steps, l, Walk(0));
  }

  /** The edge from task 0 is credited once by the submitter and once by the walk, so task 2
      is queued although its producer 1 is still waiting in the queue itself: as written,
      completion and registration are not mutually exclusive. */
  lemma PrematureEnqueue(w: nat, capacity: nat) returns (run: SlotRun)
    requires 3 <= w <= capacity
    ensures SplitSlotRun(run) && run.window == w && run.capacity == capacity && run.states != []
    ensures var s := End(run);
            && |s.slots| == w && |s.buf| == capacity && s.head <= s.tail
            && Queue(s) == [1, 2] && S.At(s, 2).producers == [0, 1] && S.At(s, 2).fanin == 2
            && S.At(s, 1).taskId == 1 && S.At(s, 1).status == Ready
  {
    run := Begin(w, capacity);
    var a := ReachQueued(w);
    run := GoAll(run, Init(w), a, Queued(w));
    a := ReachBetween(w);
    run := GoAll(run, Queued(w), a, Between(w));
    a := ReachPremature(w);
    run := GoAll(run, Between(w), a, Premature(w));
    var s, l := End(run), Premature(w);
    BufferKept(run, |run.states| - 1);
    assert R.Owned(|l.tasks|, |s.slots|, 1) && S.At(s, 1) == S.Shown(l.tasks[1], 1);
    assert R.Owned(|l.tasks|, |s.slots|, 2) && S.At(s, 2) == S.Shown(l.tasks[2], 2);
  }
}

/** A run of the level runtime as written in which a wake-up is lost. A task is queued too
    early and releases its other producer before it has told it of itself; that producer
    retires while it sits between its store and its lock, and the next submissions reuse its
    slot, so its walk finds an empty list. */
module LevelLostWakeup {
  import opened Common
  import opened LevelProtocol
  import opened LevelInvariant
  import opened LevelScripts
  import opened LevelCoupling
  import opened LevelSimulation
  import opened LevelSlotTheorems
  import opened LevelSlotQueue
  import opened LevelDoubleEnqueue
  import opened LevelDoomed

  // ---- Waypoints, over ids ---------------------------------------------------------------

  /** The task whose wake-up will be lost: it reads the output of task 0. */
  function Victim(): Task {
    Task([1], [3], [0], [], false, 1, 0, [], 1, 0, Pending, Waiting, 1, [], [], 0)
  }

  /** A task that reads both outputs twice. */
  function Greedy(): Task {
    Task([2, 2, 1, 1], [4], [1, 1, 0, 0], [], false, 4, 0, [], 1, 0, Pending, Waiting, 0, [], [], 0)
  }

  function First(): Task { Source(1).(fanout := [2], fanoutCount := 2) }

  /** Tasks 0 and 1 are queued; task 2 waits for 0. */
  function Submitted(w: nat): Level {
    Init(w).(tasks := [First(), Source(2), Victim()], producerOf := map[1 := 0, 2 := 1, 3 := 2], queue := [0, 1])
  }

  lemma PublishVictim(s: Level)
    requires s.tasks == [Source(1), Source(2)] && s.producerOf == map[1 := 0, 2 := 1] && s.last == 0
    ensures DoPublish(s, [1], [3]) ==
            s.(tasks := [Source(1), Source(2), Victim().(linked := 0)], producerOf := map[1 := 0, 2 := 1, 3 := 2],
               linking := Some(2))
  {
    assert [3][..0] == [] && [1][..0] == [];
    assert Lookup(s, 1) == Some(0);
    assert Within(s, [1]) == [0] && Outside(s, [1]) == [];
    assert Owned(s.producerOf, [3], 2) == map[1 := 0, 2 := 1, 3 := 2];
  }

  lemma LinkVictim(s: Level)
    requires s.tasks == [Source(1), Source(2), Victim().(linked := 0)] && s.linking == Some(2)
    ensures LinkReady(s) && DoLink(s) == s.(tasks := [First(), Source(2), Victim()])
  {
    assert DoLink(s).tasks[0].fanout == [2];
    assert DoLink(s).tasks == [First(), Source(2), Victim()];
  }

  /** Tasks 0 and 1 are queued. */
  function Sources(w: nat): Level {
    Init(w).(tasks := [Source(1), Source(2)], producerOf := map[1 := 0, 2 := 1], queue := [0, 1])
  }

  lemma ReachSources(w: nat) returns (steps: seq<Step>)
    requires 4 <= w
    ensures Leads(Init(w), steps, Sources(w))
  {
    var a, l := Init(w), Init(w);
    steps := [];
    PublishSource(l, 1);
    steps, l := Take(a, steps, l, Publish([], [1]));
    PublishSource(l, 2);
    steps, l := Take(a, steps, l, Publish([], [2]));
    assert l.tasks == [Source(1), Source(2)] && l.queue == [0, 1] && l.producerOf == map[1 := 0, 2 := 1];
  }

  lemma ReachSubmitted(w: nat) returns (steps: seq<Step>)
    requires 4 <= w
    ensures Leads(Sources(w), steps, Submitted(w))
  {
    var a, l := Sources(w), Sources(w);
    steps := [];
    PublishVictim(l);
    steps, l := Take(a, steps, l, Publish([1], [3]));
    LinkVictim(l);
    steps, l := Take(a, steps, l, Link);
    steps, l := Take(a, steps, l, Check);
    assert l == Submitted(w);
  }

  /** Task 0 has run; task 1 sits between its store and its lock. */
  function Racing(w: nat): Level {
    Submitted(w).(tasks := [First().(status := Running, phase := Marked),
                            Source(2).(status := Completed, phase := Stored), Victim()],
                  ready := {1, 2}, queue := [])
  }

  /** Task 0 has run. */
  function Ran(w: nat): Level {
    Submitted(w).(tasks := [First().(status := Running, phase := Marked), Source(2), Victim()], ready := {1},
                  queue := [1])
  }

  lemma ReachRan(w: nat) returns (steps: seq<Step>)
    ensures Leads(Submitted(w), steps, Ran(w))
  {
    var l := Submitted(w);
    steps, l := Take(Submitted(w), [], l, Dequeue);
    assert l.tasks == [First().(status := Running, phase := Executing), Source(2), Victim()] && l.queue == [1];
    steps, l := Take(Submitted(w), steps, l, Mark(0));
    assert l.ready == {1} && l.tasks == Ran(w).tasks;
  }

  lemma ReachRacing(w: nat) returns (steps: seq<Step>)
    ensures Leads(Ran(w), steps, Racing(w))
  {
    var l := Ran(w);
    steps, l := Take(Ran(w), [], l, Dequeue);
    assert l.tasks == [Racing(w).tasks[0], Source(2).(status := Running, phase := Executing), Victim()]
           && l.queue == [];
    steps, l := Take(Ran(w), steps, l, Mark(1));
    assert l.tasks == [Racing(w).tasks[0], Source(2).(status := Running, phase := Marked), Victim()]
           && l.ready == {1, 2};
    steps, l := Take(Ran(w), steps, l, Store(1));
    assert l.tasks == Racing(w).tasks;
  }

  /** Task 3 has told task 1 of itself twice and credited itself twice. */
  function Greeted(w: nat): Level {
    Racing(w).(tasks := [Racing(w).tasks[0], Racing(w).tasks[1].(fanout := [3, 3], fanoutCount := 3), Victim(),
                         Greedy().(linked := 2, faninRef := 2, credits := [1, 1])],
               producerOf := map[1 := 0, 2 := 1, 3 := 2, 4 := 3], linking := Some(3))
  }

  function GreedyPublished(w: nat): Level {
    Racing(w).(tasks := Racing(w).tasks + [Greedy()], producerOf := map[1 := 0, 2 := 1, 3 := 2, 4 := 3],
               linking := Some(3))
  }

  lemma PublishGreedy(w: nat)
    ensures DoPublish(Racing(w), [2, 2, 1, 1], [4]) == GreedyPublished(w)
  {
    var s := Racing(w);
    FindsAll(s, [2, 2, 1, 1], [1, 1, 0, 0]);
    assert [4][..0] == [];
    assert Owned(s.producerOf, [4], 3) == map[1 := 0, 2 := 1, 3 := 2, 4 := 3];
  }

  lemma GreetOnce(w: nat)
    ensures var s := GreedyPublished(w);
            && LinkReady(s)
            && DoLink(s) == s.(tasks := [s.tasks[0], s.tasks[1].(fanout := [3], fanoutCount := 2), Victim(),
                                         Greedy().(linked := 1, faninRef := 1, credits := [1])])
  {
    var s := GreedyPublished(w);
    LinkDone(s, 3, 1);
    assert [3] + s.tasks[1].fanout == [3] && [1] + s.tasks[3].credits == [1];
    assert DoLink(s).tasks == [s.tasks[0], s.tasks[1].(fanout := [3], fanoutCount := 2), Victim(),
                               Greedy().(linked := 1, faninRef := 1, credits := [1])];
  }

  lemma GreetTwice(w: nat)
    ensures var s := DoLink(GreedyPublished(w)); LinkReady(s) && DoLink(s) == Greeted(w)
    ensures LinkReady(GreedyPublished(w))
  {
    GreetOnce(w);
    var s := DoLink(GreedyPublished(w));
    LinkDone(s, 3, 1);
    assert [3] + [3] == [3, 3] && [1] + [1] == [1, 1];
    assert DoLink(s).tasks == Greeted(w).tasks;
  }

  lemma ReachGreeted(w: nat) returns (steps: seq<Step>)
    requires 4 <= w
    ensures Leads(Racing(w), steps, Greeted(w))
  {
    var l := Racing(w);
    PublishGreedy(w);
    steps, l := Take(Racing(w), [], l, Publish([2, 2, 1, 1], [4]));
    GreetTwice(w);
    steps, l := Take(Racing(w), steps, l, Link);
    steps, l := Take(Racing(w), steps, l, Link);
  }

  /** The walk of task 1 has credited task 3 twice more and queued it. */
  function Doubled(w: nat): Level {
    Greeted(w).(tasks := [Greeted(w).tasks[0], Greeted(w).tasks[1].(phase := Unlinking(0)), Victim(),
                          Greedy().(linked := 2, faninRef := 4, credits := [1, 1, 1, 1], status := Ready,
                                    enqueued := 1)],
                queue := [3])
  }

  function Locked(w: nat, rest: seq<nat>, x: Task): Level {
    Greeted(w).(tasks := [Greeted(w).tasks[0], Greeted(w).tasks[1].(phase := Walking(rest)), Victim(), x])
  }

  lemma WalkOnce(w: nat)
    ensures var x := Greedy().(linked := 2, faninRef := 3, credits := [1, 1, 1]);
            DoWalk(Locked(w, [3, 3], Greeted(w).tasks[3]), 1) == Locked(w, [3], x)
  {
    var s, x := Locked(w, [3, 3], Greeted(w).tasks[3]), Greedy().(linked := 2, faninRef := 3, credits := [1, 1, 1]);
    assert [3, 3][1..] == [3] && [1] + [1, 1] == [1, 1, 1];
    assert DoWalk(s, 1).tasks == Locked(w, [3], x).tasks;
  }

  lemma WalkTwice(w: nat)
    ensures var x := Greedy().(linked := 2, faninRef := 3, credits := [1, 1, 1]);
            DoWalk(Locked(w, [3], x), 1) == Locked(w, [], Doubled(w).tasks[3]).(queue := [3])
  {
    var x := Greedy().(linked := 2, faninRef := 3, credits := [1, 1, 1]);
    var s := Locked(w, [3], x);
    assert [3][1..] == [] && [1] + [1, 1, 1] == [1, 1, 1, 1];
    var c := Credit(SetPhase(s, 1, Walking([])), 3, 1);
    assert c.tasks == Locked(w, [], x.(faninRef := 4, credits := [1, 1, 1, 1])).tasks;
    assert DoWalk(s, 1) == TryReady(c, 3);
    assert DoWalk(s, 1).tasks == Locked(w, [], Doubled(w).tasks[3]).tasks;
  }

  lemma LockSecond(w: nat)
    ensures Enabled(Greeted(w), Lock(1)) && Next(Greeted(w), Lock(1)) == Locked(w, [3, 3], Greeted(w).tasks[3])
  {
    assert Next(Greeted(w), Lock(1)).tasks == Locked(w, [3, 3], Greeted(w).tasks[3]).tasks;
  }

  lemma UnlockSecond(w: nat)
    ensures var s := Locked(w, [], Doubled(w).tasks[3]).(queue := [3]);
            Enabled(s, Unlock(1)) && Next(s, Unlock(1)) == Doubled(w)
  {
    var s := Locked(w, [], Doubled(w).tasks[3]).(queue := [3]);
    assert Next(s, Unlock(1)).tasks == Doubled(w).tasks;
  }

  lemma ReachDoubled(w: nat) returns (steps: seq<Step>)
    ensures Leads(Greeted(w), steps, Doubled(w))
  {
    var l := Greeted(w);
    LockSecond(w);
    steps, l := Take(Greeted(w), [], l, Lock(1));
    WalkOnce(w);
    steps, l := Take(Greeted(w), steps, l, Walk(1));
    WalkTwice(w);
    steps, l := Take(Greeted(w), steps, l, Walk(1));
    UnlockSecond(w);
    steps, l := Take(Greeted(w), steps, l, Unlock(1));
  }

  /** Task 3 has run and is about to release its producers. */
  function Early(w: nat): Level {
    Doubled(w).(tasks := Doubled(w).tasks[3 := Doubled(w).tasks[3].(status := Completed, phase := Unlinking(4))],
                queue := [], ready := {1, 2, 4})
  }

  lemma ReachEarly(w: nat) returns (steps: seq<Step>)
    ensures Leads(Doubled(w), steps, Early(w))
  {
    var a, l := Doubled(w), Doubled(w);
    steps := [];
    steps, l := Take(a, steps, l, Dequeue);
    steps, l := Take(a, steps, l, Mark(3));
    assert l.ready == {1, 2, 4};
    steps, l := Take(a, steps, l, Store(3));
    steps, l := Take(a, steps, l, Lock(3));
    assert l.tasks[3] == Doubled(w).tasks[3].(status := Completed, phase := Walking([]));
    steps, l := Take(a, steps, l, Unlock(3));
    assert l.tasks == Early(w).tasks;
  }

  /** Task 0 has stored COMPLETED; task 3 has released it twice and it has retired. */
  function Retired(w: nat): Level {
    Early(w).(tasks := [First().(status := Consumed, phase := Stored, fanoutRef := 2, releases := [3, 3]),
                        Early(w).tasks[1], Victim(), Early(w).tasks[3].(phase := Unlinking(2))],
              last := 1)
  }

  /** Task 0 has been released n times; task 3 has left entries to release. */
  function Releasing(w: nat, releases: seq<nat>, left: nat): Level {
    Early(w).(tasks := [First().(status := Completed, phase := Stored, fanoutRef := |releases|, releases := releases),
                        Early(w).tasks[1], Victim(), Early(w).tasks[3].(phase := Unlinking(left))])
  }

  lemma StoreFirst(w: nat)
    ensures Enabled(Early(w), Store(0)) && Next(Early(w), Store(0)) == Releasing(w, [], 4)
  {
    assert Next(Early(w), Store(0)).tasks == Releasing(w, [], 4).tasks;
  }

  lemma ReleaseFirst(w: nat, releases: seq<nat>, left: nat)
    requires left == 3 || left == 4
    ensures Release(SetPhase(Releasing(w, releases, left), 3, Unlinking(left - 1)), 0, 3)
            == Releasing(w, [3] + releases, left - 1)
  {
    assert Release(SetPhase(Releasing(w, releases, left), 3, Unlinking(left - 1)), 0, 3).tasks ==
           Releasing(w, [3] + releases, left - 1).tasks;
  }

  lemma ReleaseOnce(w: nat)
    ensures Enabled(Releasing(w, [], 4), Unlink(3)) && Next(Releasing(w, [], 4), Unlink(3)) == Releasing(w, [3], 3)
  {
    ReleaseFirst(w, [], 4);
    assert [3] + [] == [3];
  }

  lemma ReleaseTwice(w: nat)
    ensures Enabled(Releasing(w, [3], 3), Unlink(3)) && Next(Releasing(w, [3], 3), Unlink(3)) == Retired(w)
  {
    ReleaseFirst(w, [3], 3);
    assert [3] + [3] == [3, 3];
    var m := Releasing(w, [3, 3], 2);
    var c := m.(tasks := m.tasks[0 := m.tasks[0].(status := Consumed)]);
    assert c.tasks == Retired(w).tasks;
    assert Cursor(c.tasks, 1) == 1 && Cursor(c.tasks, 0) == 1;
  }

  lemma ReachRetired(w: nat) returns (steps: seq<Step>)
    ensures Leads(Early(w), steps, Retired(w))
  {
    var l := Early(w);
    StoreFirst(w);
    steps, l := Take(Early(w), [], l, Store(0));
    ReleaseOnce(w);
    steps, l := Take(Early(w), steps, l, Unlink(3));
    ReleaseTwice(w);
    steps, l := Take(Early(w), steps, l, Unlink(3));
  }

  /** The submission of task 3 is over. */
  function Quiet(w: nat): Level {
    Retired(w).(tasks := [Retired(w).tasks[0].(fanout := [3, 3, 2], fanoutCount := 4), Retired(w).tasks[1], Victim(),
                          Retired(w).tasks[3].(linked := 4, faninRef := 6, credits := [0, 0, 1, 1, 1, 1])],
                linking := None)
  }

  /** Task 3 has told task 0 of itself. */
  function Telling(w: nat, fanout: seq<nat>, linked: nat, credits: seq<nat>): Level {
    Retired(w).(tasks := [Retired(w).tasks[0].(fanout := fanout, fanoutCount := |fanout| + 1), Retired(w).tasks[1],
                          Victim(),
                          Retired(w).tasks[3].(linked := linked, faninRef := |credits|, credits := credits)])
  }

  lemma TellFirst(w: nat, fanout: seq<nat>, linked: nat, credits: seq<nat>)
    requires linked == 2 || linked == 3
    ensures LinkReady(Telling(w, fanout, linked, credits))
    ensures DoLink(Telling(w, fanout, linked, credits)) == Telling(w, [3] + fanout, linked + 1, [0] + credits)
  {
    LinkDone(Telling(w, fanout, linked, credits), 3, 0);
    assert DoLink(Telling(w, fanout, linked, credits)).tasks
           == Telling(w, [3] + fanout, linked + 1, [0] + credits).tasks;
  }

  lemma ReachQuiet(w: nat) returns (steps: seq<Step>)
    ensures Leads(Retired(w), steps, Quiet(w))
  {
    var l := Retired(w);
    assert l.tasks == Telling(w, [2], 2, [1, 1, 1, 1]).tasks;
    TellFirst(w, [2], 2, [1, 1, 1, 1]);
    steps, l := Take(Retired(w), [], l, Link);
    TellFirst(w, [3] + [2], 3, [0] + [1, 1, 1, 1]);
    steps, l := Take(Retired(w), steps, l, Link);
    assert [3] + ([3] + [2]) == [3, 3, 2] && [0] + ([0] + [1, 1, 1, 1]) == [0, 0, 1, 1, 1, 1];
    steps, l := Take(Retired(w), steps, l, Check);
    assert l.tasks == Quiet(w).tasks;
  }

  lemma RunToQuiet(w: nat, capacity: nat) returns (run: SlotRun)
    requires 4 <= w <= capacity
    ensures run.window == w && run.capacity == capacity && At(run, Quiet(w))
  {
    run := Begin(w, capacity);
    var a := ReachSources(w);
    run := GoAll(run, Init(w), a, Sources(w));
    a := ReachSubmitted(w);
    run := GoAll(run, Sources(w), a, Submitted(w));
    a := ReachRan(w);
    run := GoAll(run, Submitted(w), a, Ran(w));
    a := ReachRacing(w);
    run := GoAll(run, Ran(w), a, Racing(w));
    a := ReachGreeted(w);
    run := GoAll(run, Racing(w), a, Greeted(w));
    a := ReachDoubled(w);
    run := GoAll(run, Greeted(w), a, Doubled(w));
    a := ReachEarly(w);
    run := GoAll(run, Doubled(w), a, Early(w));
    a := ReachRetired(w);
    run := GoAll(run, Early(w), a, Retired(w));
    a := ReachQuiet(w);
    run := GoAll(run, Retired(w), a, Quiet(w));
  }

  // ---- Filling the ring ---------------------------------------------------------------------

  /** Task 0 has retired unvisited; task 2 waits for it. */
  predicate Looming(l: Level, w: nat) {
    && l.window == w && 4 <= |l.tasks| <= w && l.last == 1 && l.linking.None?
    && l.tasks[0].phase == Stored && l.tasks[2] == Victim()
  }

  lemma {:induction false} Fill(run: SlotRun, l: Level, w: nat) returns (longer: SlotRun, r: Level)
    requires At(run, l) && Looming(l, w)
    ensures At(longer, r) && Looming(r, w) && |r.tasks| == w
    ensures longer.window == run.window && longer.capacity == run.capacity
    decreases w - |l.tasks|
  {
    if |l.tasks| == w {
      longer, r := run, l;
    } else {
      var next, mid := Go(run, l, Publish([], []));
      longer, r := Fill(next, mid, w);
    }
  }

  // ---- The last admission --------------------------------------------------------------------

  /** The new task in slot 0. */
  lemma TakeSlotZero(s: S.Slotted, l: Level, w: nat)
    requires Couples(s, l) && Inv(l) && Looming(l, w) && |l.tasks| == w
    ensures CanStep(s, S.Publish([], []))
    ensures var r := S.DoMove(s, S.Publish([], []));
            && r.slots[0].fanout == [] && r.slots[0].producers == [] && r.slots[0].status == Ready && !r.slots[0].locked
            && r.slots[2] == S.Shown(Victim(), 2) && |r.slots| == w && r.count == w + 1
            && (forall x :: 0 < x < w ==> r.slots[x] == s.slots[x])
            && r.jobs == s.jobs && r.linking.None? && |r.buf| == |s.buf| && r.last == s.last
            && r.head <= r.tail && Q.Pending(r.buf, r.head, r.tail) == l.queue + [w]
  {
    LoomingShows(s, l, w);
    PublishNothing(s, w);
    Q.EnqueueKeeps(s.buf, s.head, s.tail, w);
  }

  lemma LoomingShows(s: S.Slotted, l: Level, w: nat)
    requires Couples(s, l) && Inv(l) && Looming(l, w) && |l.tasks| == w
    ensures |s.slots| == s.count == w > 2 && s.slots[2] == S.Shown(Victim(), 2) && s.linking.None? && w < s.last + w
    ensures |s.buf| >= w && s.head <= s.tail < s.head + w && Q.Pending(s.buf, s.head, s.tail) == l.queue
  {
    assert R.Owned(|l.tasks|, |s.slots|, 2) && s.slots[2] == S.Shown(l.tasks[2], 2);
    QueueRoom(l);
  }

  /** A task without parameters takes slot 0 and is queued. */
  lemma PublishNothing(s: S.Slotted, w: nat)
    requires |s.slots| == w > 0 && |s.buf| > 0 && s.linking.None? && s.count == w < s.last + w
    ensures CanStep(s, S.Publish([], []))
    ensures var r := S.DoMove(s, S.Publish([], []));
            && r == s.(slots := s.slots[0 := r.slots[0]], count := w + 1, buf := s.buf[s.tail % |s.buf| := w],
                       tail := s.tail + 1)
            && r.slots[0].fanout == [] && r.slots[0].producers == [] && r.slots[0].status == Ready && !r.slots[0].locked
  {
    assert w % w == 0;
  }

  /** The worker of task 0 walks the new task's empty list and finishes. */
  lemma WalkNothing(run: SlotRun, j: nat) returns (longer: SlotRun)
    requires SplitSlotRun(run)
    requires var s := End(run);
             && |s.slots| >= 4 && |s.buf| > 0 && j < |s.jobs| && s.jobs[j] == S.Job(0, S.Stored)
             && s.slots[0].fanout == [] && s.slots[0].producers == [] && s.slots[0].status == Ready
                && !s.slots[0].locked
    ensures SplitSlotRun(longer) && longer.window == run.window && longer.capacity == run.capacity
    ensures var s, r := End(run), End(longer);
            r == s.(jobs := s.jobs[j := S.Job(0, S.Done)])
  {
    var s := End(run);
    longer := Append(run, S.Lock(j));
    assert End(longer) == s.(slots := s.slots[0 := s.slots[0].(locked := true)],
                             jobs := s.jobs[j := S.Job(0, S.Walking([]))]);
    longer := Append(longer, S.Unlock(j));
    assert End(longer).jobs == s.jobs[j := S.Job(0, S.Unlinking([]))] && End(longer).slots == s.slots;
    longer := Append(longer, S.Finish(j));
  }

  /** Task 2 is fed and has never been queued. */
  lemma VictimLost(s: S.Slotted, l: Level, r: S.Slotted, j: nat, w: nat)
    requires Couples(s, l) && Inv(l) && Looming(l, w) && |l.tasks| == w && j < |s.jobs| && s.jobs[j].id == 0
    requires r.jobs == s.jobs[j := S.Job(0, S.Done)] && |r.slots| == w && r.slots[2] == S.Shown(Victim(), 2)
    requires r.count == w + 1 && r.linking.None? && |r.buf| > 0 && r.head <= r.tail
    requires Q.Pending(r.buf, r.head, r.tail) == l.queue + [w]
    ensures Fed(r, 2) && 2 !in Entered(r)
  {
    assert S.At(r, 2) == S.Shown(Victim(), 2);
    WorkAtUnique(r.jobs, j);
    assert Visited(r, 0);
    var e := Entered(r);
    forall k | 0 <= k < |e| ensures e[k] != 2 {
      if k < |r.jobs| {
        assert JobShown(s.jobs[k], l.tasks) && e[k] == s.jobs[k].id;
      } else {
        assert e[k] == (l.queue + [w])[k - |r.jobs|];
        if k - |r.jobs| < |l.queue| { assert e[k] in l.queue; }
      }
    }
  }

  /** Nobody but task 0 has task 2 on its list, so with slot 0 taken nobody has. */
  lemma VictimOnNoList(s: S.Slotted, l: Level, r: S.Slotted, j: nat, w: nat)
    requires Couples(s, l) && Inv(l) && Looming(l, w) && |l.tasks| == w && j < |s.jobs| && s.jobs[j].id == 0
    requires r.jobs == s.jobs[j := S.Job(0, S.Done)] && |r.slots| == w && r.slots[0].fanout == []
    requires forall x :: 0 < x < w ==> r.slots[x] == s.slots[x]
    ensures OnNoList(r, 2)
  {
    forall x | 0 <= x < w ensures NotOn(r.slots[x].fanout, 2) {
      if x > 0 { SlotNotOn(s, l, x); }
    }
    forall k | 0 <= k < |r.jobs| ensures NotWalked(r.jobs[k].work, 2) {
      if k != j { JobNotOn(s, l, j, k); }
    }
  }

  lemma SlotNotOn(s: S.Slotted, l: Level, x: nat)
    requires Couples(s, l) && Inv(l) && 2 < |l.tasks| == |s.slots| && l.tasks[2] == Victim() && 0 < x < |s.slots|
    ensures NotOn(s.slots[x].fanout, 2)
  {
    SmallMod(x, |s.slots|);
    assert R.Owned(|l.tasks|, |s.slots|, x) && s.slots[x] == S.Shown(l.tasks[x], x);
    ListedBy(l, x);
  }

  lemma JobNotOn(s: S.Slotted, l: Level, j: nat, k: nat)
    requires Couples(s, l) && Inv(l) && 2 < |l.tasks| && l.tasks[2] == Victim()
    requires j < |s.jobs| && k < |s.jobs| && j != k && s.jobs[j].id == 0
    ensures NotWalked(s.jobs[k].work, 2)
  {
    assert JobShown(s.jobs[k], l.tasks) && s.jobs[k].id != 0;
    ListedBy(l, s.jobs[k].id);
  }

  /** Task 2 has told task 0 and nobody else. */
  lemma ListedBy(l: Level, p: nat)
    requires Inv(l) && |l.tasks| > 2 && l.tasks[2] == Victim() && 0 < p < |l.tasks|
    ensures NotOn(l.tasks[p].fanout, 2) && NotOn(WalkList(l.tasks[p]), 2)
  {
    assert PairOk(l, p, 2);
    assert Told(l.tasks[2]) == [0];
    assert ListsOk(l, p);
  }

  /** The state before the last admissions, and the run to it. */
  lemma RunToTaken(w: nat, capacity: nat) returns (run: SlotRun, j: nat, s: S.Slotted, l: Level)
    requires 4 <= w <= capacity
    ensures SplitSlotRun(run) && run.window == w && run.capacity == capacity
    ensures Couples(s, l) && Inv(l) && Looming(l, w) && |l.tasks| == w && j < |s.jobs|
            && s.jobs[j] == S.Job(0, S.Stored)
    ensures CanStep(s, S.Publish([], [])) && End(run) == S.DoMove(s, S.Publish([], []))
  {
    var first := RunToQuiet(w, capacity);
    var filled;
    filled, l := Fill(first, Quiet(w), w);
    s := End(filled);
    TakeSlotZero(s, l, w);
    j := JobOf(s, l, 0);
    run := Append(filled, S.Publish([], []));
  }

  /** Nothing that can still happen from this state puts the task on the queue. */
  ghost predicate NeverQueued(s: S.Slotted, t: nat) {
    forall run: SlotRun, m: nat, k: nat ::
      IsSlotRun(run) && m <= k < |run.states| && run.states[m] == s ==>
        |run.states[k].buf| > 0 && run.states[k].head <= run.states[k].tail && t !in Entered(run.states[k])
  }

  /** For every window of at least four tasks: one admission more than the window, and task
      2, whose submission is over and whose only producer, task 0, has visited its consumers,
      has not been queued and is queued in no continuation. */
  lemma LostWakeup(w: nat, capacity: nat) returns (run: SlotRun)
    requires 4 <= w <= capacity
    ensures SplitSlotRun(run) && run.window == w && run.capacity == capacity && run.states != []
    ensures var s := End(run);
            && s.count == w + 1 && |s.slots| == w && Fed(s, 2) && S.At(s, 2).taskId == 2 && S.At(s, 2).producers == [0]
            && !NothingLost(s) && NeverQueued(s, 2)
  {
    var taken, j, s, l := RunToTaken(w, capacity);
    TakeSlotZero(s, l, w);
    run := WalkNothing(taken, j);
    var e := End(run);
    VictimLost(s, l, e, j, w);
    VictimOnNoList(s, l, e, j, w);
    RunKeepsQueue(run, |run.states| - 1);
    assert Doomed(e);
    forall other: SlotRun, m: nat, k: nat | IsSlotRun(other) && m <= k < |other.states| && other.states[m] == e
      ensures |other.states[k].buf| > 0 && other.states[k].head <= other.states[k].tail
              && 2 !in Entered(other.states[k])
    {
      DoomedForever(other, m, k);
    }
  }
}

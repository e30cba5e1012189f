/** A run of the level runtime as written in which an id is put on the ready queue twice: the
    last entry of a walk is visited after two admissions more than the window have reused
    both the walking task's slot and the slot of the consumer it is about to visit. */
module LevelStaleWalk {
  import opened Common
  import opened LevelProtocol
  import opened LevelSlotTheorems
  import opened LevelScripts
  import opened LevelSlotQueue

  // ---- Waypoints, over ids -------------------------------------------------------------

  /** Task 0 has stored COMPLETED and not taken its lock. */
  function Root(): Task {
    Source(1).(status := Completed, phase := Stored)
  }

  function Stored0(w: nat): Level {
    Init(w).(tasks := [Root()], producerOf := map[1 := 0], ready := {1})
  }

  lemma ReachStored0(w: nat) returns (steps: seq<Step>)
    requires 4 <= w
    ensures Leads(Init(w), steps, Stored0(w))
  {
    var l := Init(w);
    PublishSource(l, 1);
    steps, l := Take(Init(w), [], l, Publish([], [1]));
    assert l.tasks == [Source(1)] && l.queue == [0] && l.producerOf == map[1 := 0];
    steps := Execute(Init(w), steps, l, 0);
    var r := Executed(l, 0);
    assert r.tasks == [Root()] && r.queue == [] && r.ready == {1};
  }

  /** Task 1 reads the output of task 0, as published. */
  function Child(): Task {
    Task([1], [2], [0], [], false, 1, 0, [], 1, 0, Pending, Waiting, 0, [], [], 0)
  }

  function WithChild(w: nat, x: Task): Level {
    Stored0(w).(tasks := [Root().(fanout := [1], fanoutCount := 2), x], producerOf := map[1 := 0, 2 := 1])
  }

  lemma PublishChild(w: nat)
    ensures DoPublish(Stored0(w), [1], [2]) ==
            Stored0(w).(tasks := [Root(), Child()], producerOf := map[1 := 0, 2 := 1], linking := Some(1))
  {
    var s := Stored0(w);
    assert [2][..0] == [] && [1][..0] == [];
    assert Lookup(s, 1) == Some(0);
    assert Within(s, [1]) == [0] && Outside(s, [1]) == [];
    assert Owned(s.producerOf, [2], 1) == map[1 := 0, 2 := 1];
  }

  /** Told by a finished producer, task 1 credits itself and is queued. */
  function Queued1(w: nat): Level {
    WithChild(w, Child().(linked := 1, faninRef := 1, credits := [0], status := Ready, enqueued := 1)).(queue := [1])
  }

  lemma LinkChild(w: nat)
    ensures var s := Stored0(w).(tasks := [Root(), Child()], producerOf := map[1 := 0, 2 := 1], linking := Some(1));
            && LinkReady(s)
            && DoLink(s) == WithChild(w, Child().(linked := 1, faninRef := 1, credits := [0])).(linking := Some(1))
  {
    var s := Stored0(w).(tasks := [Root(), Child()], producerOf := map[1 := 0, 2 := 1], linking := Some(1));
    LinkDone(s, 1, 0);
    assert [1] + Root().fanout == [1] && [0] + Child().credits == [0];
    assert DoLink(s).tasks == WithChild(w, Child().(linked := 1, faninRef := 1, credits := [0])).tasks;
  }

  lemma ReachQueued1(w: nat) returns (steps: seq<Step>)
    requires 4 <= w
    ensures Leads(Stored0(w), steps, Queued1(w))
  {
    var l := Stored0(w);
    PublishChild(w);
    steps, l := Take(Stored0(w), [], l, Publish([1], [2]));
    LinkChild(w);
    steps, l := Take(Stored0(w), steps, l, Link);
    steps, l := Take(Stored0(w), steps, l, Check);
    assert l.tasks == Queued1(w).tasks && l.queue == [1];
  }

  /** Task 1 has run and released task 0 once. */
  function Child1(): Task {
    Child().(linked := 1, faninRef := 1, credits := [0], status := Completed, enqueued := 1, phase := Unlinking(0))
  }

  function Ran1(w: nat): Level {
    WithChild(w, Child1()).(tasks := [Root().(fanout := [1], fanoutCount := 2, fanoutRef := 1, releases := [1]),
                                      Child1()],
                            ready := {1, 2})
  }

  function Running1(w: nat, ph: Phase): Level {
    WithChild(w, Child1().(phase := ph)).(ready := {1, 2})
  }

  lemma ReachRunning1(w: nat) returns (steps: seq<Step>)
    ensures Leads(Queued1(w), steps, Running1(w, Unlinking(1)))
  {
    var l := Queued1(w);
    steps := Execute(l, [], l, 1);
    var r := Executed(l, 1);
    assert r.tasks == Running1(w, Stored).tasks && r.queue == [] && r.ready == {1, 2};
    steps := Unblock(l, steps, r, 1);
    assert Unblocked(r, 1).tasks == Running1(w, Unlinking(1)).tasks;
  }

  lemma ReachRan1(w: nat) returns (steps: seq<Step>)
    ensures Leads(Running1(w, Unlinking(1)), steps, Ran1(w))
  {
    var l := Running1(w, Unlinking(1));
    UnlinkChild(w);
    steps, l := Take(l, [], l, Unlink(1));
  }

  lemma UnlinkChild(w: nat)
    ensures var s := Running1(w, Unlinking(1)); Enabled(s, Unlink(1)) && DoUnlink(s, 1) == Ran1(w)
  {
    var s := Running1(w, Unlinking(1));
    var r := Release(SetPhase(s, 1, Unlinking(0)), 0, 1);
    assert [1] + s.tasks[0].releases == [1];
    assert r.tasks == Ran1(w).tasks;
  }

  /** Task 2, a second root, has stored COMPLETED and not taken its lock. */
  function Second(): Task {
    Source(3).(status := Completed, phase := Stored)
  }

  function Stored2(w: nat): Level {
    Ran1(w).(tasks := Ran1(w).tasks + [Second()], producerOf := map[1 := 0, 2 := 1, 3 := 2], ready := {1, 2, 3})
  }

  lemma ReachStored2(w: nat) returns (steps: seq<Step>)
    requires 4 <= w
    ensures Leads(Ran1(w), steps, Stored2(w))
  {
    var l := Ran1(w);
    PublishSource(l, 3);
    steps, l := Take(Ran1(w), [], l, Publish([], [3]));
    assert l == Ran1(w).(tasks := Ran1(w).tasks + [Source(3)], producerOf := map[1 := 0, 2 := 1, 3 := 2], queue := [2]);
    steps := Execute(Ran1(w), steps, l, 2);
    var r := Executed(l, 2);
    assert r.tasks == Stored2(w).tasks && r.queue == [] && r.ready == {1, 2, 3};
  }

  /** Task 3 reads task 2 twice and tasks 0 and 1 once, as published. */
  function Greedy(): Task {
    Task([3, 3, 1, 2], [4], [2, 2, 0, 1], [], false, 4, 0, [], 1, 0, Pending, Waiting, 0, [], [], 0)
  }

  /** The four tasks of the run. */
  function Four(w: nat, a: Task, b: Task, c: Task, g: Task): Level {
    Stored2(w).(tasks := [a, b, c, g], producerOf := map[1 := 0, 2 := 1, 3 := 2, 4 := 3])
  }

  /** The first two tasks as they are until task 3 releases them. */
  function A(): Task { Root().(fanout := [1], fanoutCount := 2, fanoutRef := 1, releases := [1]) }

  function Linking(w: nat, c: Task, g: Task): Level {
    Four(w, A(), Child1(), c, g).(linking := Some(3))
  }

  lemma PublishGreedy(w: nat)
    ensures DoPublish(Stored2(w), [3, 3, 1, 2], [4]) == Linking(w, Second(), Greedy())
  {
    var s := Stored2(w);
    assert [4][..0] == [];
    FindsAll(s, [3, 3, 1, 2], [2, 2, 0, 1]);
    assert Owned(s.producerOf, [4], 3) == map[1 := 0, 2 := 1, 3 := 2, 4 := 3];
    assert s.tasks + [Greedy()] == [A(), Child1(), Second(), Greedy()];
  }

  function Heard(fanout: seq<nat>): Task {
    Second().(fanout := fanout, fanoutCount := |fanout| + 1)
  }

  function Credits(linked: nat, credits: seq<nat>): Task {
    Greedy().(linked := linked, faninRef := |credits|, credits := credits)
  }

  lemma TellSecond(w: nat, fanout: seq<nat>, linked: nat, credits: seq<nat>)
    requires linked < 2
    ensures var s := Linking(w, Heard(fanout), Credits(linked, credits));
            LinkReady(s) && DoLink(s) == Linking(w, Heard([3] + fanout), Credits(linked + 1, [2] + credits))
  {
    var s := Linking(w, Heard(fanout), Credits(linked, credits));
    LinkDone(s, 3, 2);
    assert DoLink(s).tasks == Linking(w, Heard([3] + fanout), Credits(linked + 1, [2] + credits)).tasks;
  }

  function Told2(w: nat): Level {
    Linking(w, Heard([3, 3]), Credits(2, [2, 2]))
  }

  lemma TellTwice(w: nat)
    ensures var s := Linking(w, Second(), Greedy()); LinkReady(s) && LinkReady(DoLink(s))
                                                     && DoLink(DoLink(s)) == Told2(w)
  {
    assert Second() == Heard([]) && Greedy() == Credits(0, []);
    TellSecond(w, [], 0, []);
    assert [3] + [] == [3] && [2] + [] == [2];
    TellSecond(w, [3], 1, [2]);
    assert [3] + [3] == [3, 3] && [2] + [2] == [2, 2];
  }

  lemma ReachTold2(w: nat) returns (steps: seq<Step>)
    requires 4 <= w
    ensures Leads(Stored2(w), steps, Told2(w))
  {
    var l := Stored2(w);
    PublishGreedy(w);
    steps, l := Take(Stored2(w), [], l, Publish([3, 3, 1, 2], [4]));
    TellTwice(w);
    steps, l := Take(Stored2(w), steps, l, Link);
    steps, l := Take(Stored2(w), steps, l, Link);
  }

  /** The walk of task 2 has credited task 3 twice more and queued it. */
  function Doubled(w: nat): Level {
    Linking(w, Heard([3, 3]).(phase := Unlinking(0)),
            Credits(2, [2, 2, 2, 2]).(status := Ready, enqueued := 1)).(queue := [3])
  }

  /** Task 2 walks its consumers, task 3 twice. */
  function Walking2(w: nat, rest: seq<nat>, credits: seq<nat>): Level {
    Linking(w, Heard([3, 3]).(phase := Walking(rest)), Credits(2, credits))
  }

  function Walked2(w: nat): Level {
    SetPhase(Doubled(w), 2, Walking([]))
  }

  lemma WalkTwice(w: nat)
    ensures DoWalk(Walking2(w, [3, 3], [2, 2]), 2) == Walking2(w, [3], [2, 2, 2])
    ensures DoWalk(Walking2(w, [3], [2, 2, 2]), 2) == Walked2(w)
  {
    WalkOnto(w, [3, 3], [2, 2]);
    WalkOnto(w, [3], [2, 2, 2]);
    assert [3, 3][1..] == [3] && [3][1..] == [];
    assert [2] + [2, 2] == [2, 2, 2] && [2] + [2, 2, 2] == [2, 2, 2, 2];
    assert TryReady(Walking2(w, [], [2, 2, 2, 2]), 3).tasks == Walked2(w).tasks;
  }

  lemma WalkOnto(w: nat, rest: seq<nat>, credits: seq<nat>)
    requires rest != [] && rest[0] == 3
    ensures DoWalk(Walking2(w, rest, credits), 2) == TryReady(Walking2(w, rest[1..], [2] + credits), 3)
  {
    var s, c := Walking2(w, rest, credits), Walking2(w, rest[1..], [2] + credits);
    assert Credit(SetPhase(s, 2, Walking(rest[1..])), 3, 2).tasks == c.tasks;
  }

  lemma LockSecond(w: nat)
    ensures Enabled(Told2(w), Lock(2)) && Next(Told2(w), Lock(2)) == Walking2(w, [3, 3], [2, 2])
  {
    assert Next(Told2(w), Lock(2)).tasks == Walking2(w, [3, 3], [2, 2]).tasks;
  }

  lemma UnlockSecond(w: nat)
    ensures Enabled(Walked2(w), Unlock(2)) && Next(Walked2(w), Unlock(2)) == Doubled(w)
  {
    assert Next(Walked2(w), Unlock(2)).tasks == Doubled(w).tasks;
  }

  lemma ReachWalking2(w: nat) returns (steps: seq<Step>)
    ensures Leads(Told2(w), steps, Walking2(w, [3], [2, 2, 2]))
  {
    var l := Told2(w);
    LockSecond(w);
    steps, l := Take(Told2(w), [], l, Lock(2));
    assert l == Walking2(w, [3, 3], [2, 2]);
    assert DoWalk(l, 2) == Walking2(w, [3], [2, 2, 2]) by { WalkTwice(w); }
    steps, l := Take(Told2(w), steps, l, Walk(2));
  }

  lemma ReachDoubled(w: nat) returns (steps: seq<Step>)
    ensures Leads(Walking2(w, [3], [2, 2, 2]), steps, Doubled(w))
  {
    var l := Walking2(w, [3], [2, 2, 2]);
    assert DoWalk(l, 2) == Walked2(w) by { WalkTwice(w); }
    steps, l := Take(Walking2(w, [3], [2, 2, 2]), [], l, Walk(2));
    UnlockSecond(w);
    steps, l := Take(Walking2(w, [3], [2, 2, 2]), steps, l, Unlock(2));
  }

  /** Task 3 has run; it has released nobody yet. */
  function Early(): Task {
    Credits(2, [2, 2, 2, 2]).(status := Completed, enqueued := 1)
  }

  function Releasing(w: nat, a: Task, b: Task, left: nat): Level {
    Four(w, a, b, Heard([3, 3]).(phase := Unlinking(0)), Early().(phase := Unlinking(left))).(
      linking := Some(3), ready := {1, 2, 3, 4})
  }

  lemma ReachEarly(w: nat) returns (steps: seq<Step>)
    ensures Leads(Doubled(w), steps, Releasing(w, A(), Child1(), 4))
  {
    var l, e := Doubled(w), Releasing(w, A(), Child1(), 4);
    steps := Execute(l, [], l, 3);
    var r := Executed(l, 3);
    assert r.tasks == [l.tasks[0], l.tasks[1], l.tasks[2], Early().(phase := Stored)];
    assert r.queue == [] && r.ready == {1, 2, 3, 4};
    steps := Unblock(l, steps, r, 3);
    assert Unblocked(r, 3).tasks == e.tasks;
  }

  /** Tasks 0 and 1 once task 3 has released them: both are CONSUMED. */
  function A1(): Task { A().(fanoutRef := 2, releases := [3, 1], status := Consumed) }

  function B1(): Task { Child1().(fanoutRef := 1, releases := [3], status := Consumed) }

  function Retired(w: nat): Level {
    Releasing(w, A1(), B1(), 2).(last := 2)
  }

  lemma ReleaseChild(w: nat)
    ensures var s := Releasing(w, A(), Child1(), 4);
            Enabled(s, Unlink(3)) && DoUnlink(s, 3) == Releasing(w, A(), B1(), 3)
  {
    var s := Releasing(w, A(), Child1(), 4);
    var m := Release(SetPhase(s, 3, Unlinking(3)), 1, 3);
    assert [3] + Child1().releases == [3];
    assert m.tasks == Releasing(w, A(), B1().(status := Completed), 3).tasks;
    assert CheckConsumed(m, 1).tasks == Releasing(w, A(), B1(), 3).tasks;
  }

  lemma ReleaseRoot(w: nat)
    ensures var s := Releasing(w, A(), B1(), 3); Enabled(s, Unlink(3)) && DoUnlink(s, 3) == Retired(w)
  {
    var s := Releasing(w, A(), B1(), 3);
    var m := Release(SetPhase(s, 3, Unlinking(2)), 0, 3);
    assert [3] + A().releases == [3, 1];
    assert m.tasks == Releasing(w, A1().(status := Completed), B1(), 2).tasks;
    var c := m.(tasks := m.tasks[0 := A1()]);
    assert c.tasks == Retired(w).tasks;
    assert Cursor(c.tasks, 2) == 2 && Cursor(c.tasks, 1) == 2 && Cursor(c.tasks, 0) == 2;
  }

  lemma ReachRetired(w: nat) returns (steps: seq<Step>)
    ensures Leads(Releasing(w, A(), Child1(), 4), steps, Retired(w))
  {
    var a := Releasing(w, A(), Child1(), 4);
    var l := a;
    ReleaseChild(w);
    steps, l := Take(a, [], l, Unlink(3));
    ReleaseRoot(w);
    steps, l := Take(a, steps, l, Unlink(3));
  }

  /** Task 3 has told tasks 0 and 1 of itself; its submission is over. */
  function Over(w: nat): Level {
    Retired(w).(tasks := [A1().(fanout := [3, 1], fanoutCount := 3), B1().(fanout := [3], fanoutCount := 2),
                          Retired(w).tasks[2],
                          Retired(w).tasks[3].(linked := 4, faninRef := 6, credits := [1, 0, 2, 2, 2, 2])],
                linking := None)
  }

  function Told0(w: nat): Level {
    Retired(w).(tasks := [A1().(fanout := [3, 1], fanoutCount := 3), B1(), Retired(w).tasks[2],
                          Retired(w).tasks[3].(linked := 3, faninRef := 5, credits := [0, 2, 2, 2, 2])])
  }

  lemma TellRoot(w: nat)
    ensures LinkReady(Retired(w)) && DoLink(Retired(w)) == Told0(w)
  {
    LinkDone(Retired(w), 3, 0);
    assert [3] + A1().fanout == [3, 1] && [0] + [2, 2, 2, 2] == [0, 2, 2, 2, 2];
    assert DoLink(Retired(w)).tasks == Told0(w).tasks;
  }

  lemma TellChild(w: nat)
    ensures LinkReady(Told0(w)) && DoLink(Told0(w)) == Over(w).(linking := Some(3))
  {
    LinkDone(Told0(w), 3, 1);
    assert [3] + B1().fanout == [3] && [1] + [0, 2, 2, 2, 2] == [1, 0, 2, 2, 2, 2];
    assert DoLink(Told0(w)).tasks == Over(w).tasks;
  }

  lemma ReachOver(w: nat) returns (steps: seq<Step>)
    ensures Leads(Retired(w), steps, Over(w))
  {
    var l := Retired(w);
    TellRoot(w);
    steps, l := Take(Retired(w), [], l, Link);
    TellChild(w);
    steps, l := Take(Retired(w), steps, l, Link);
    steps, l := Take(Retired(w), steps, l, Check);
  }

  /** Task 0, retired, has visited task 3 and has task 1 left to visit. */
  function Leftover(w: nat): Level {
    Over(w).(tasks := [Over(w).tasks[0].(phase := Walking([1])), Over(w).tasks[1], Over(w).tasks[2],
                       Over(w).tasks[3].(faninRef := 7, credits := [0, 1, 0, 2, 2, 2, 2])])
  }

  lemma WalkRoot(w: nat)
    ensures DoWalk(SetPhase(Over(w), 0, Walking([3, 1])), 0) == Leftover(w)
  {
    var s := SetPhase(Over(w), 0, Walking([3, 1]));
    assert [3, 1][1..] == [1] && [0] + [1, 0, 2, 2, 2, 2] == [0, 1, 0, 2, 2, 2, 2];
    var c := Credit(SetPhase(s, 0, Walking([1])), 3, 0);
    assert c.tasks == Leftover(w).tasks;
    assert DoWalk(s, 0) == TryReady(c, 3);
  }

  lemma ReachLeftover(w: nat) returns (steps: seq<Step>)
    ensures Leads(Over(w), steps, Leftover(w))
  {
    var l := Over(w);
    steps, l := Take(Over(w), [], l, Lock(0));
    assert l == SetPhase(Over(w), 0, Walking([3, 1]));
    WalkRoot(w);
    steps, l := Take(Over(w), steps, l, Walk(0));
  }

  lemma RunToTold2(w: nat, capacity: nat) returns (run: SlotRun)
    requires 4 <= w <= capacity
    ensures run.window == w && run.capacity == capacity && At(run, Told2(w))
  {
    run := Begin(w, capacity);
    var a := ReachStored0(w);
    run := GoAll(run, Init(w), a, Stored0(w));
    a := ReachQueued1(w);
    run := GoAll(run, Stored0(w), a, Queued1(w));
    a := ReachRunning1(w);
    run := GoAll(run, Queued1(w), a, Running1(w, Unlinking(1)));
    a := ReachRan1(w);
    run := GoAll(run, Running1(w, Unlinking(1)), a, Ran1(w));
    a := ReachStored2(w);
    run := GoAll(run, Ran1(w), a, Stored2(w));
    a := ReachTold2(w);
    run := GoAll(run, Stored2(w), a, Told2(w));
  }

  lemma RunToLeftover(w: nat, capacity: nat) returns (run: SlotRun)
    requires 4 <= w <= capacity
    ensures run.window == w && run.capacity == capacity && At(run, Leftover(w))
  {
    run := RunToTold2(w, capacity);
    var a := ReachWalking2(w);
    run := GoAll(run, Told2(w), a, Walking2(w, [3], [2, 2, 2]));
    a := ReachDoubled(w);
    run := GoAll(run, Walking2(w, [3], [2, 2, 2]), a, Doubled(w));
    a := ReachEarly(w);
    run := GoAll(run, Doubled(w), a, Releasing(w, A(), Child1(), 4));
    a := ReachRetired(w);
    run := GoAll(run, Releasing(w, A(), Child1(), 4), a, Retired(w));
    a := ReachOver(w);
    run := GoAll(run, Retired(w), a, Over(w));
    a := ReachLeftover(w);
    run := GoAll(run, Over(w), a, Leftover(w));
  }

  // ---- Filling the ring ---------------------------------------------------------------------

  /** Tasks 0 and 1 have retired; 0 has 1 left to visit. */
  predicate Looming(l: Level, w: nat) {
    && l.window == w && 4 <= |l.tasks| <= w && l.last == 2 && l.linking.None?
    && l.tasks[0].phase == Walking([1]) && l.tasks[1].phase != Waiting
  }

  lemma {:induction false} Fill(run: SlotRun, l: Level, w: nat) returns (longer: SlotRun, r: Level)
    requires At(run, l) && Looming(l, w)
    ensures At(longer, r) && Looming(r, w) && |r.tasks| == w
    ensures longer.window == run.window && longer.capacity == run.capacity
    decreases w - |l.tasks|
  {
    if |l.tasks| == w {
      longer, r := run, l;
    } else {
      var next, mid := Go(run, l, Publish([], []));
      longer, r := Fill(next, mid, w);
    }
  }

  // ---- Two admissions more than the window -----------------------------------------------------

  /** A task that reads handle 5, whose producer is p, as published. */
  function Reader(p: nat): Task {
    Task([5], [6], [p], [], false, 1, 0, [], 1, 0, Pending, Waiting, 0, [], [], 0)
  }

  lemma NewReader(l: Level, p: nat)
    requires 5 in l.producerOf && l.producerOf[5] == p >= l.last
    ensures NewTask(l, [5], [6]) == Reader(p)
  {
    assert Lookup(l, 5) == Some(p);
    FindsAll(l, [5], [p]);
  }

  /** Slot 0 goes to task w, a root; slot 1 to task w + 1, which waits for it. */
  ghost predicate Overtaken(s: S.Slotted, w: nat) {
    && |s.slots| == w >= 4 && |s.buf| > 0 && s.linking.None? && s.count == w + 2
    && s.slots[1] == S.Shown(Reader(w), w + 1)
  }

  lemma TakeSlotZero(run: SlotRun, w: nat) returns (longer: SlotRun)
    requires SplitSlotRun(run) && var s := End(run);
             |s.slots| == w >= 4 && |s.buf| > 0 && s.linking.None? && s.count == w && s.last == 2
    ensures SplitSlotRun(longer) && longer.window == run.window && longer.capacity == run.capacity
    ensures var s, r := End(run), End(longer);
            && |r.slots| == w && |r.buf| == |s.buf| && r.linking.None? && r.count == w + 1 && r.last == 2
            && r.jobs == s.jobs && r.slots[0] == S.Shown(Source(5), w)
            && 5 in r.producerOf && r.producerOf[5] == w
  {
    var s := End(run);
    PublishSource(S.Names(s), 5);
    assert NewTask(S.Names(s), [], [5]) == Source(5) by { assert [5][..0] == []; }
    assert w % w == 0;
    assert [5][..0] == [];
    longer := Append(run, S.Publish([], [5]));
  }

  lemma TakeSlotOne(run: SlotRun, w: nat) returns (longer: SlotRun)
    requires SplitSlotRun(run) && var s := End(run);
             && |s.slots| == w >= 4 && |s.buf| > 0 && s.linking.None? && s.count == w + 1 && s.last == 2
             && s.slots[0] == S.Shown(Source(5), w) && 5 in s.producerOf && s.producerOf[5] == w
    ensures SplitSlotRun(longer) && longer.window == run.window && longer.capacity == run.capacity
    ensures Overtaken(End(longer), w) && End(longer).jobs == End(run).jobs
  {
    NewReader(S.Names(End(run)), w);
    NextSlots(w);
    longer := Append(run, S.Publish([5], [6]));
    var s := End(longer);
    assert s.slots[1] == S.Shown(Reader(w), w + 1) && s.linking == Some(S.Submission(w + 1, [w]));
    assert s.slots[0] == S.Shown(Source(5), w);
    longer := Append(longer, S.Link);
    assert End(longer).slots[1] == S.Shown(Reader(w), w + 1);
    longer := Append(longer, S.Check);
  }

  lemma NextSlots(w: nat)
    requires w >= 4
    ensures w % w == 0 && (w + 1) % w == 1
  {
    DivModUnique(w + 1, 1, 1, w);
  }

  /** The leftover entry reaches slot 1 and queues the old id. */
  ghost predicate Requeued(s: S.Slotted, r: S.Slotted) {
    && r.count == s.count && |r.jobs| == |s.jobs| && (forall i :: 0 <= i < |s.jobs| ==> r.jobs[i].id == s.jobs[i].id)
    && |r.buf| > 0 && r.head <= r.tail && 1 in Queue(r)
  }

  lemma StaleVisit(s: S.Slotted, w: nat, j: nat)
    requires Overtaken(s, w) && QueueInv(s) && j < |s.jobs| && s.jobs[j] == S.Job(0, S.Walking([1]))
    ensures CanStep(s, S.Walk(j)) && Requeued(s, S.DoWalk(s, j))
  {
    assert 1 % w == 1;
    WalkKeeps(s, j);
    var r := S.DoWalk(s, j);
    assert r.tail == s.tail + 1 && r.head == s.head;
    assert |Queue(r)| == |Queue(s)| + 1;
    assert Queue(r)[|Queue(s)|] == 1;
  }

  lemma VisitStale(run: SlotRun, w: nat, j: nat) returns (longer: SlotRun)
    requires SplitSlotRun(run) && Overtaken(End(run), w) && j < |End(run).jobs|
    requires End(run).jobs[j] == S.Job(0, S.Walking([1]))
    ensures SplitSlotRun(longer) && longer.window == run.window && longer.capacity == run.capacity
    ensures Requeued(End(run), End(longer))
  {
    assert QueueInv(End(run)) by { RunKeepsQueue(run, |run.states| - 1); }
    StaleVisit(End(run), w, j);
    longer := Append(run, S.Walk(j));
  }

  /** For every window of at least four: with two admissions more, task 1, which has a job
      already, is put on the ready queue again. */
  lemma DoubleEnqueue(w: nat, capacity: nat) returns (run: SlotRun)
    requires 4 <= w <= capacity
    ensures SplitSlotRun(run) && run.window == w && run.capacity == capacity && run.states != []
    ensures var s := End(run);
            && s.count == w + 2 && |s.buf| > 0 && s.head <= s.tail
            && 1 in Ids(s.jobs) && 1 in Queue(s) && !Distinct(Entered(s))
  {
    var first := RunToLeftover(w, capacity);
    var filled, l := Fill(first, Leftover(w), w);
    var s := End(filled);
    var j := JobOf(s, l, 0);
    var i := JobOf(s, l, 1);
    run := TakeSlotZero(filled, w);
    run := TakeSlotOne(run, w);
    run := VisitStale(run, w, j);
    var e := End(run);
    assert Ids(e.jobs)[i] == 1;
    QueuedTwice(e, 1);
  }

  lemma QueuedTwice(s: S.Slotted, id: nat)
    requires |s.buf| > 0 && s.head <= s.tail && id in Ids(s.jobs) && id in Queue(s)
    ensures !Distinct(Entered(s))
  {
    var i :| 0 <= i < |Ids(s.jobs)| && Ids(s.jobs)[i] == id;
    var j :| 0 <= j < |Queue(s)| && Queue(s)[j] == id;
    assert Entered(s)[i] == Entered(s)[|s.jobs| + j] && i < |s.jobs| + j;
  }

  /** Each id is queued at most once. */
  ghost predicate NothingTwice(s: S.Slotted) {
    |s.buf| > 0 && s.head <= s.tail && Distinct(Entered(s))
  }
}

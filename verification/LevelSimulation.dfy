/** Every move on the slots is the step of the protocol over ids, until a submission takes
    the slot of a task that is still in use. */
module LevelSimulation {
  import opened Common
  import opened LevelProtocol
  import opened LevelInvariant
  import opened LevelSteps
  import opened LevelRuns
  import opened LevelCoupling

  /** The ready queue never holds more than a window of tasks. */
  lemma QueueRoom(l: Level)
    requires QueueOk(l) && RingOk(l)
    ensures |l.queue| <= |l.tasks| - l.last <= l.window
  {
    forall j | 0 <= j < |l.queue| ensures l.last <= l.queue[j] < |l.tasks| { assert l.queue[j] in l.queue; }
    DistinctBounded(l.queue, l.last, |l.tasks|);
  }

  // ---- Steps of a worker on its own task ---------------------------------------------

  /** The worker of job j writes its own descriptor and moves on. */
  lemma ProgressCouples(s: S.Slotted, l: Level, j: nat, x: Task)
    requires Couples(s, l) && j < |s.jobs| && s.jobs[j].id < |l.tasks|
    requires var t := s.jobs[j].id;
             x.linked == l.tasks[t].linked && MovesOn(l, l.(tasks := l.tasks[t := x]), t)
    ensures var t := s.jobs[j].id;
            && Couples(S.Progress(s, j, S.Shown(x, t), WorkOf(x)), l.(tasks := l.tasks[t := x]))
            && S.Own(s, j) == S.Shown(l.tasks[t], t)
  {
    var t := s.jobs[j].id;
    var r := l.(tasks := l.tasks[t := x]);
    assert InReach(l, t);
    WriteShows(s.slots, l.tasks, t, x);
    MovesOnReach(l, r, t);
    MovesOnJobs(s.jobs, l, r, j, t);
  }

  /** The same when the descriptor does not change. */
  lemma SetWorkCouples(s: S.Slotted, l: Level, j: nat, ph: Phase)
    requires Couples(s, l) && j < |s.jobs| && s.jobs[j].id < |l.tasks|
    requires var t := s.jobs[j].id;
             ph.Walking? == l.tasks[t].phase.Walking? && MovesOn(l, SetPhase(l, t, ph), t)
    ensures var r := SetPhase(l, s.jobs[j].id, ph);
            Couples(S.SetWork(s, j, WorkOf(r.tasks[s.jobs[j].id])), r)
  {
    var t := s.jobs[j].id;
    var x := l.tasks[t].(phase := ph);
    ProgressCouples(s, l, j, x);
    assert S.Put(s, t, S.Shown(x, t)) == s;
  }

  /** The step of the protocol that a move makes. */
  function StepOf(s: S.Slotted, m: S.Move): Step
    requires |s.slots| > 0 && S.CanMove(s, m)
  {
    match m
    case Publish(inputs, outputs) => Publish(inputs, outputs)
    case Link => Link
    case Check => Check
    case Dequeue => Dequeue
    case Mark(j) => Mark(s.jobs[j].id)
    case Store(j) => Store(s.jobs[j].id)
    case Lock(j) => Lock(s.jobs[j].id)
    case StoreLocked(j) => StoreLocked(s.jobs[j].id)
    case Walk(j) => Walk(s.jobs[j].id)
    case Unlock(j) => Unlock(s.jobs[j].id)
    case Unlink(j) => Unlink(s.jobs[j].id)
    case Finish(j) => Finish(s.jobs[j].id)
    case Notice(t) => Notice(t)
    case SetReady(h) => SetReady(h)
    case Advance => Advance
  }

  /** The move is an enabled step over ids and leads to coupled states. */
  ghost predicate Follows(s: S.Slotted, l: Level, m: S.Move)
    requires |s.slots| > 0 && |s.buf| > 0 && S.CanMove(s, m)
  {
    Enabled(l, StepOf(s, m)) && Couples(S.DoMove(s, m), Next(l, StepOf(s, m)))
  }

  /** What a job says about its task. */
  ghost predicate JobHolds(s: S.Slotted, l: Level, j: nat) {
    j < |s.jobs| &&
    var t := s.jobs[j].id;
    && t < |l.tasks| && l.tasks[t].phase != Waiting && s.jobs[j].work == WorkOf(l.tasks[t])
    && PhaseOk(l.tasks[t]) && InReach(l, t)
    && l.last <= |l.tasks| <= l.last + l.window
  }

  lemma JobFacts(s: S.Slotted, l: Level, j: nat)
    requires Couples(s, l) && Inv(l) && j < |s.jobs|
    ensures JobHolds(s, l, j)
  {
    assert JobShown(s.jobs[j], l.tasks);
    assert InReach(l, s.jobs[j].id);
  }

  // ---- Marking, storing, locking --------------------------------------------------------

  lemma MarkCouples(s: S.Slotted, l: Level, j: nat, t: nat)
    requires Couples(s, l) && j < |s.jobs| && s.jobs[j].id == t < |l.tasks| && l.tasks[t].phase == Executing
    requires R.Owned(|l.tasks|, l.window, t)
    ensures Couples(S.SetWork(s, j, S.Marked).(ready := s.ready + set h | h in S.Own(s, j).outputs),
                    SetPhase(l, t, Marked).(ready := l.ready + set h | h in l.tasks[t].outputs))
  {
    var s1, r := S.SetWork(s, j, S.Marked), SetPhase(l, t, Marked);
    assert Couples(s1, r) by { SetWorkCouples(s, l, j, Marked); }
    assert S.Own(s, j) == S.Shown(l.tasks[t], t);
    SameWorkKeeps(s1.jobs, r, r.(ready := l.ready + set h | h in l.tasks[t].outputs));
  }

  lemma MarkFollows(s: S.Slotted, l: Level, j: nat)
    requires Couples(s, l) && JobHolds(s, l, j) && S.CanMove(s, S.Mark(j))
    ensures Follows(s, l, S.Mark(j))
  {
    MarkCouples(s, l, j, s.jobs[j].id);
  }

  lemma StoreFollows(s: S.Slotted, l: Level, j: nat)
    requires Couples(s, l) && JobHolds(s, l, j) && S.CanMove(s, S.Store(j))
    ensures Follows(s, l, S.Store(j))
  {
    ProgressCouples(s, l, j, l.tasks[s.jobs[j].id].(status := Completed, phase := Stored));
  }

  lemma StoreLockedFollows(s: S.Slotted, l: Level, j: nat)
    requires Couples(s, l) && JobHolds(s, l, j) && S.CanMove(s, S.StoreLocked(j))
    ensures Follows(s, l, S.StoreLocked(j))
  {
    var t := s.jobs[j].id;
    ProgressCouples(s, l, j, l.tasks[t].(status := Completed, phase := Walking(l.tasks[t].fanout)));
  }

  lemma LockFollows(s: S.Slotted, l: Level, j: nat)
    requires Couples(s, l) && JobHolds(s, l, j) && S.CanMove(s, S.Lock(j))
    ensures Follows(s, l, S.Lock(j))
  {
    var t := s.jobs[j].id;
    ProgressCouples(s, l, j, l.tasks[t].(phase := Walking(l.tasks[t].fanout)));
  }

  lemma UnlockCouples(s: S.Slotted, l: Level, j: nat, t: nat)
    requires Couples(s, l) && j < |s.jobs| && s.jobs[j].id == t < |l.tasks| && l.tasks[t].phase == Walking([])
    requires R.Owned(|l.tasks|, l.window, t)
    ensures Couples(S.DoUnlock(s, j), SetPhase(l, t, Unlinking(|l.tasks[t].producers|)))
  {
    var x := l.tasks[t].(phase := Unlinking(|l.tasks[t].producers|));
    assert WorkOf(x) == S.Unlinking(x.producers);
    ProgressCouples(s, l, j, x);
  }

  lemma UnlockIs(s: S.Slotted, l: Level, j: nat, t: nat)
    requires |s.slots| > 0 && |s.buf| > 0 && S.CanMove(s, S.Unlock(j)) && t == s.jobs[j].id < |l.tasks|
    requires l.tasks[t].phase == Walking([]) && Couples(S.DoUnlock(s, j),
                                                        SetPhase(l, t, Unlinking(|l.tasks[t].producers|)))
    ensures Follows(s, l, S.Unlock(j))
  {
  }

  lemma UnlockFollows(s: S.Slotted, l: Level, j: nat)
    requires Couples(s, l) && JobHolds(s, l, j) && S.CanMove(s, S.Unlock(j))
    ensures Follows(s, l, S.Unlock(j))
  {
    var t := s.jobs[j].id;
    assert l.tasks[t].phase == Walking([]) && R.Owned(|l.tasks|, l.window, t);
    UnlockCouples(s, l, j, t);
    UnlockIs(s, l, j, t);
  }

  // ---- The walk over the consumers --------------------------------------------------------

  function Credited(s: S.Slotted, c: nat): S.Slotted
    requires |s.slots| > 0
  {
    S.Put(s, c, S.At(s, c).(faninRef := S.At(s, c).faninRef + 1))
  }

  lemma CreditCouples(s: S.Slotted, l: Level, c: nat, p: nat)
    requires Couples(s, l) && R.Owned(|l.tasks|, l.window, c)
    ensures Couples(Credited(s, c), Credit(l, c, p))
  {
    var y := l.tasks[c].(faninRef := l.tasks[c].faninRef + 1, credits := [p] + l.tasks[c].credits);
    WriteCouples(s, l, c, y);
    assert S.Put(s, c, S.Shown(y, c)) == Credited(s, c);
  }

  lemma WalkCouples(s: S.Slotted, l: Level, j: nat, t: nat, rest: seq<nat>)
    requires Couples(s, l) && j < |s.jobs| && s.jobs[j].id == t < |l.tasks|
    requires rest != [] && l.tasks[t].phase == Walking(rest) && R.Owned(|l.tasks|, l.window, rest[0])
    ensures Couples(Credited(S.SetWork(s, j, S.Walking(rest[1..])), rest[0]), Walked(l, t))
  {
    var s1, r := S.SetWork(s, j, S.Walking(rest[1..])), SetPhase(l, t, Walking(rest[1..]));
    assert Couples(s1, r) by { SetWorkCouples(s, l, j, Walking(rest[1..])); }
    CreditCouples(s1, r, rest[0], t);
  }

  lemma WalkFollows(s: S.Slotted, l: Level, j: nat)
    requires Couples(s, l) && Inv(l) && S.CanMove(s, S.Walk(j))
    ensures Follows(s, l, S.Walk(j))
  {
    JobFacts(s, l, j);
    var t := s.jobs[j].id;
    var rest := s.jobs[j].work.rest;
    assert ListsOk(l, t);
    ConsumerIsYounger(l, t, rest[0]);
    StepKeepsInv(l, Walk(t));
    QueueRoom(Next(l, Walk(t)));
    WalkReadyCouples(s, l, j, t, rest);
  }

  lemma WalkReadyCouples(s: S.Slotted, l: Level, j: nat, t: nat, rest: seq<nat>)
    requires Couples(s, l) && j < |s.jobs| && s.jobs[j].id == t < |l.tasks|
    requires s.jobs[j].work == S.Walking(rest)
    requires rest != [] && l.tasks[t].phase == Walking(rest) && R.Owned(|l.tasks|, l.window, rest[0])
    requires |DoWalk(l, t).queue| <= l.window
    ensures Couples(S.DoWalk(s, j), DoWalk(l, t))
  {
    var s2, r := Credited(S.SetWork(s, j, S.Walking(rest[1..])), rest[0]), Walked(l, t);
    assert |r.tasks| == |l.tasks| && r.window == l.window;
    assert S.DoWalk(s, j) == S.TryReady(s2, rest[0]) && DoWalk(l, t) == TryReady(r, rest[0]);
    assert Couples(s2, r) by { WalkCouples(s, l, j, t, rest); }
    TryReadyCouples(s2, r, rest[0]);
  }

  // ---- The walk over the producers --------------------------------------------------------

  function Freed(s: S.Slotted, p: nat): S.Slotted
    requires |s.slots| > 0
  {
    S.Put(s, p, S.At(s, p).(fanoutRef := S.At(s, p).fanoutRef + 1))
  }

  lemma ReleaseCouples(s: S.Slotted, l: Level, p: nat, c: nat)
    requires Couples(s, l) && R.Owned(|l.tasks|, l.window, p)
    ensures Couples(Freed(s, p), Release(l, p, c))
  {
    var y := l.tasks[p].(fanoutRef := l.tasks[p].fanoutRef + 1, releases := [c] + l.tasks[p].releases);
    WriteCouples(s, l, p, y);
    assert S.Put(s, p, S.Shown(y, p)) == Freed(s, p);
  }

  lemma UnlinkedCouples(s: S.Slotted, l: Level, j: nat, t: nat, left: nat)
    requires Couples(s, l) && j < |s.jobs| && s.jobs[j].id == t < |l.tasks|
    requires l.tasks[t].phase == Unlinking(left) && 0 < left <= |l.tasks[t].producers|
    requires R.Owned(|l.tasks|, l.window, l.tasks[t].producers[left - 1])
    ensures Couples(Freed(S.SetWork(s, j, S.Unlinking(l.tasks[t].producers[..left - 1])),
                          l.tasks[t].producers[left - 1]),
                    Unlinked(l, t))
  {
    var s1, r := S.SetWork(s, j, S.Unlinking(l.tasks[t].producers[..left - 1])), SetPhase(l, t, Unlinking(left - 1));
    assert Couples(s1, r) by { SetWorkCouples(s, l, j, Unlinking(left - 1)); }
    ReleaseCouples(s1, r, l.tasks[t].producers[left - 1], t);
  }

  lemma UnlinkCouples(s: S.Slotted, l: Level, j: nat, t: nat, left: nat)
    requires Couples(s, l) && j < |s.jobs| && s.jobs[j].id == t < |l.tasks| && l.last <= |l.tasks| <= l.last + l.window
    requires l.tasks[t].phase == Unlinking(left) && 0 < left <= |l.tasks[t].producers|
    requires s.jobs[j].work == S.Unlinking(l.tasks[t].producers[..left])
    requires R.Owned(|l.tasks|, l.window, l.tasks[t].producers[left - 1])
    ensures Couples(S.DoUnlink(s, j), DoUnlink(l, t))
  {
    var ps, p := l.tasks[t].producers, l.tasks[t].producers[left - 1];
    assert ps[..left][..left - 1] == ps[..left - 1];
    var s2 := Freed(S.SetWork(s, j, S.Unlinking(ps[..left - 1])), p);
    var r := Unlinked(l, t);
    assert |r.tasks| == |l.tasks| && r.window == l.window && r.last == l.last;
    assert S.DoUnlink(s, j) == S.CheckConsumed(s2, p) && DoUnlink(l, t) == CheckConsumed(r, p);
    assert Couples(s2, r) by { UnlinkedCouples(s, l, j, t, left); }
    ConsumedCouples(s2, r, p);
  }

  lemma UnlinkIs(s: S.Slotted, l: Level, j: nat, t: nat)
    requires |s.slots| > 0 && |s.buf| > 0 && S.CanMove(s, S.Unlink(j)) && t == s.jobs[j].id
    requires Enabled(l, Unlink(t)) && Couples(S.DoUnlink(s, j), DoUnlink(l, t))
    ensures Follows(s, l, S.Unlink(j))
  {
  }

  lemma UnlinkFollows(s: S.Slotted, l: Level, j: nat)
    requires Couples(s, l) && JobHolds(s, l, j) && S.CanMove(s, S.Unlink(j))
    ensures Follows(s, l, S.Unlink(j))
  {
    var t := s.jobs[j].id;
    assert l.tasks[t].phase.Unlinking?;
    var left := l.tasks[t].phase.left;
    assert |l.tasks[t].producers[..left]| == left;
    NextReleased(l, t, left);
    UnlinkCouples(s, l, j, t, left);
    UnlinkIs(s, l, j, t);
  }

  lemma NextReleased(l: Level, t: nat, left: nat)
    requires t < |l.tasks| && InReach(l, t) && l.tasks[t].phase == Unlinking(left) && 0 < left <= |l.tasks[t].producers|
    ensures R.Owned(|l.tasks|, l.window, l.tasks[t].producers[left - 1])
  {
    assert Unreleased(l.tasks[t])[left - 1] == l.tasks[t].producers[left - 1];
  }

  lemma FinishCouples(s: S.Slotted, l: Level, j: nat, t: nat)
    requires Couples(s, l) && j < |s.jobs| && s.jobs[j].id == t < |l.tasks| && l.last <= |l.tasks| <= l.last + l.window
    requires l.tasks[t].phase == Unlinking(0) && R.Owned(|l.tasks|, l.window, t)
    ensures Couples(S.CheckConsumed(S.SetWork(s, j, S.Done), t), CheckConsumed(SetPhase(l, t, Finished), t))
  {
    assert Couples(S.SetWork(s, j, S.Done), SetPhase(l, t, Finished)) by { SetWorkCouples(s, l, j, Finished); }
    ConsumedCouples(S.SetWork(s, j, S.Done), SetPhase(l, t, Finished), t);
  }

  lemma FinishIs(s: S.Slotted, l: Level, j: nat, t: nat)
    requires |s.slots| > 0 && |s.buf| > 0 && S.CanMove(s, S.Finish(j)) && t == s.jobs[j].id && Enabled(l, Finish(t))
    requires Couples(S.CheckConsumed(S.SetWork(s, j, S.Done), t), CheckConsumed(SetPhase(l, t, Finished), t))
    ensures Follows(s, l, S.Finish(j))
  {
  }

  lemma FinishFollows(s: S.Slotted, l: Level, j: nat)
    requires Couples(s, l) && JobHolds(s, l, j) && S.CanMove(s, S.Finish(j))
    ensures Follows(s, l, S.Finish(j))
  {
    var t := s.jobs[j].id;
    assert |l.tasks[t].producers[..l.tasks[t].phase.left]| == 0;
    FinishCouples(s, l, j, t);
    FinishIs(s, l, j, t);
  }

  // ---- Submitter and scheduler ------------------------------------------------------------

  /** Task c, whose submission is under way, has told one more producer. */
  lemma ToldCouples(s: S.Slotted, l: Level, c: nat, x: Task)
    requires Couples(s, l) && l.linking == Some(c) && l.tasks[c].linked < |l.tasks[c].producers|
    requires x.phase == l.tasks[c].phase && x.producers == l.tasks[c].producers && x.linked == l.tasks[c].linked + 1
    ensures Couples(S.Put(s, c, S.Shown(x, c)).(linking := Some(S.Submission(c, x.producers[x.linked..]))),
                    l.(tasks := l.tasks[c := x]))
    ensures S.At(s, c) == S.Shown(l.tasks[c], c)
  {
    WriteShows(s.slots, l.tasks, c, x);
    SameWorkKeeps(s.jobs, l, l.(tasks := l.tasks[c := x]));
  }

  lemma LinkCouples(s: S.Slotted, l: Level, c: nat, p: nat)
    requires Couples(s, l) && l.linking == Some(c) && LinkReady(l) && p == LinkTarget(l) && p < c
    ensures s.linking.Some? && s.linking.value.todo != [] && Couples(S.DoLink(s), DoLink(l))
  {
    var x := l.tasks[c];
    var todo := x.producers[x.linked..];
    assert todo[0] == p && todo[1..] == x.producers[x.linked + 1..];
    var y := l.tasks[p].(fanout := [c] + l.tasks[p].fanout, fanoutCount := l.tasks[p].fanoutCount + 1);
    var s1, r := S.Put(s, p, S.Shown(y, p)), l.(tasks := l.tasks[p := y]);
    assert Couples(s1, r) && S.At(s, p) == S.Shown(l.tasks[p], p) by { WriteCouples(s, l, p, y); }
    LinkTold(s, l, c, p, s1, r, y, todo);
  }

  lemma LinkTold(s: S.Slotted, l: Level, c: nat, p: nat, s1: S.Slotted, r: Level, y: Task, todo: seq<nat>)
    requires |s.slots| > 0 && s.linking == Some(S.Submission(c, todo)) && todo != [] && todo[0] == p
    requires l.linking == Some(c) && p < c < |l.tasks| && LinkReady(l) && p == LinkTarget(l)
    requires todo[1..] == l.tasks[c].producers[l.tasks[c].linked + 1..]
    requires y == l.tasks[p].(fanout := [c] + l.tasks[p].fanout, fanoutCount := l.tasks[p].fanoutCount + 1)
    requires S.At(s, p) == S.Shown(l.tasks[p], p) && s1 == S.Put(s, p, S.Shown(y, p))
             && r == l.(tasks := l.tasks[p := y])
    requires Couples(s1, r)
    ensures Couples(S.DoLink(s), DoLink(l))
  {
    var x := l.tasks[c].(linked := l.tasks[c].linked + 1);
    var z := if IsDone(y) then x.(faninRef := x.faninRef + 1, credits := [p] + x.credits) else x;
    assert DoLink(l) == r.(tasks := r.tasks[c := z]);
    ToldCouples(s1, r, c, z);
    assert S.DoLink(s) == S.Put(s1, c, S.Shown(z, c)).(linking := Some(S.Submission(c, todo[1..])));
  }

  lemma LinkFollows(s: S.Slotted, l: Level)
    requires Couples(s, l) && Inv(l) && S.CanMove(s, S.Link)
    ensures Follows(s, l, S.Link)
  {
    var c := l.linking.value;
    assert ListsOk(l, c) && l.tasks[c].linked < |l.tasks[c].producers|;
    var p := l.tasks[c].producers[l.tasks[c].linked];
    assert p in l.tasks[c].producers;
    assert s.linking.value.todo[0] == p;
    assert R.Owned(|l.tasks|, l.window, p) && S.At(s, p) == S.Shown(l.tasks[p], p);
    assert LinkReady(l);
    LinkCouples(s, l, c, p);
  }

  lemma CheckCouples(s: S.Slotted, l: Level, c: nat)
    requires Couples(s, l) && l.linking == Some(c) && |TryReady(l, c).queue| <= l.window
    ensures Couples(S.TryReady(s, c).(linking := None), TryReady(l, c).(linking := None))
  {
    var s1, r := S.TryReady(s, c), TryReady(l, c);
    assert Couples(s1, r) by { TryReadyCouples(s, l, c); }
    SameWorkKeeps(s1.jobs, r, r.(linking := None));
  }

  lemma CheckFollows(s: S.Slotted, l: Level)
    requires Couples(s, l) && Inv(l) && S.CanMove(s, S.Check)
    ensures Follows(s, l, S.Check)
  {
    assert |l.tasks[l.linking.value].producers[l.tasks[l.linking.value].linked..]| == 0;
    StepKeepsInv(l, Check);
    QueueRoom(Next(l, Check));
    CheckCouples(s, l, l.linking.value);
  }

  lemma NoticeCouples(s: S.Slotted, l: Level, t: nat)
    requires Couples(s, l) && R.Owned(|l.tasks|, l.window, t) && |DoNotice(l, t).queue| <= l.window
    ensures Couples(S.DoNotice(s, t), DoNotice(l, t))
  {
    var x := l.tasks[t].(noticed := true, faninRef := l.tasks[t].faninRef + |l.tasks[t].externals|);
    var s1, r := S.Put(s, t, S.Shown(x, t)), l.(tasks := l.tasks[t := x]);
    assert Couples(s1, r) && S.At(s, t) == S.Shown(l.tasks[t], t) by { WriteCouples(s, l, t, x); }
    assert |r.tasks| == |l.tasks| && DoNotice(l, t) == TryReady(r, t);
    assert S.DoNotice(s, t) == S.TryReady(s1, t);
    TryReadyCouples(s1, r, t);
  }

  lemma NoticeEnabled(s: S.Slotted, l: Level, t: nat)
    requires Couples(s, l) && Inv(l) && S.CanMove(s, S.Notice(t))
    ensures Enabled(l, Notice(t)) && R.Owned(|l.tasks|, l.window, t)
    ensures |DoNotice(l, t).queue| <= l.window
  {
    assert R.Owned(|l.tasks|, |s.slots|, t);
    assert S.At(s, t) == S.Shown(l.tasks[t], t);
    StepKeepsInv(l, Notice(t));
    QueueRoom(Next(l, Notice(t)));
  }

  lemma NoticeFollows(s: S.Slotted, l: Level, t: nat)
    requires Couples(s, l) && S.CanMove(s, S.Notice(t)) && Enabled(l, Notice(t))
    requires R.Owned(|l.tasks|, l.window, t) && |DoNotice(l, t).queue| <= l.window
    ensures Follows(s, l, S.Notice(t))
  {
    NoticeCouples(s, l, t);
  }

  // ---- Taking a task off the queue -----------------------------------------------------------

  lemma TakenJobs(jobs: seq<S.Job>, ts: seq<Task>, t: nat, x: Task)
    requires JobsShown(jobs, ts) && t < |ts| && ts[t].phase == Waiting && x.phase == Executing
    ensures JobsShown(jobs + [S.Job(t, S.Executing)], ts[t := x])
  {
    var after, us := jobs + [S.Job(t, S.Executing)], ts[t := x];
    forall j | 0 <= j < |after| ensures JobShown(after[j], us) {
      if j < |jobs| { assert JobShown(jobs[j], ts); }
    }
    forall u: nat | u < |us| && us[u].phase != Waiting ensures HasJob(after, u) {
      if u == t {
        assert after[|jobs|].id == u;
      } else {
        assert HasJob(jobs, u);
        var j :| 0 <= j < |jobs| && jobs[j].id == u;
        assert after[j].id == u;
      }
    }
    forall j, k | 0 <= j < k < |after| ensures after[j].id != after[k].id {
      assert JobShown(jobs[j], ts);
    }
  }

  lemma TakenReach(l: Level, t: nat, x: Task)
    requires AllInReach(l) && t < |l.tasks| && l.tasks[t].phase == Waiting
    requires x.phase == Executing && x.producers == l.tasks[t].producers
    requires l.queue != []
    ensures AllInReach(l.(queue := l.queue[1..], tasks := l.tasks[t := x]))
  {
    var r := l.(queue := l.queue[1..], tasks := l.tasks[t := x]);
    forall c | 0 <= c < |r.tasks| ensures InReach(r, c) {
      assert InReach(l, c);
      assert Unreleased(r.tasks[c]) == Unreleased(l.tasks[c]);
    }
  }

  lemma PendingTail(buf: seq<nat>, head: nat, tail: nat)
    requires |buf| > 0 && head < tail
    ensures buf[head % |buf|] == Q.Pending(buf, head, tail)[0]
    ensures Q.Pending(buf, head + 1, tail) == Q.Pending(buf, head, tail)[1..]
  {
  }

  lemma DequeueFollows(s: S.Slotted, l: Level)
    requires Couples(s, l) && Inv(l) && S.CanMove(s, S.Dequeue)
    ensures Follows(s, l, S.Dequeue)
  {
    PendingTail(s.buf, s.head, s.tail);
    var t := l.queue[0];
    assert t in l.queue;
    assert PhaseOk(l.tasks[t]);
    assert InReach(l, t);
    DequeueCouples(s, l, t);
  }

  lemma DequeueCouples(s: S.Slotted, l: Level, t: nat)
    requires Couples(s, l) && s.head < s.tail && l.queue != [] && t == l.queue[0] < |l.tasks|
    requires l.tasks[t].phase == Waiting && R.Owned(|l.tasks|, l.window, t)
    ensures Couples(S.DoDequeue(s), DoDequeue(l))
  {
    var x := l.tasks[t].(status := Running, phase := Executing);
    PendingTail(s.buf, s.head, s.tail);
    WriteShows(s.slots, l.tasks, t, x);
    TakenJobs(s.jobs, l.tasks, t, x);
    TakenReach(l, t, x);
  }

  // ---- Publishing ------------------------------------------------------------------------------

  /** The scan looks only at names. */
  lemma {:induction false} ScanSame(a: Level, b: Level, inputs: seq<nat>)
    requires a.producerOf == b.producerOf && a.last == b.last && a.ready == b.ready
    ensures Within(a, inputs) == Within(b, inputs) && Outside(a, inputs) == Outside(b, inputs)
  {
    if inputs != [] { ScanSame(a, b, inputs[..|inputs| - 1]); }
  }

  lemma {:induction false} WithinUnretired(l: Level, inputs: seq<nat>, k: nat)
    requires k < |Within(l, inputs)|
    ensures l.last <= Within(l, inputs)[k]
  {
    if inputs != [] && k < |Within(l, inputs[..|inputs| - 1])| { WithinUnretired(l, inputs[..|inputs| - 1], k); }
  }

  lemma PublishShows(slots: seq<S.Desc>, ts: seq<Task>, t: Task)
    requires Shows(slots, ts)
    ensures Shows(slots[|ts| % |slots| := S.Shown(t, |ts|)], ts + [t])
  {
    var w, n := |slots|, |ts|;
    forall j: nat | R.Owned(n + 1, w, j) ensures slots[n % w := S.Shown(t, n)][j % w] == S.Shown((ts + [t])[j], j) {
      if j < n {
        R.OwnedApart(n + 1, w, n, j);
        assert R.Owned(n, w, j);
      }
    }
  }

  /** No unfinished task has, or will still release, the task a window before the next. */
  ghost predicate Vacant(l: Level) {
    forall c :: 0 <= c < |l.tasks| && l.tasks[c].phase != Finished ==>
      c + l.window != |l.tasks| && forall k :: 0 <= k < |Unreleased(l.tasks[c])| ==>
            Unreleased(l.tasks[c])[k] + l.window != |l.tasks|
  }

  /** Everything in use keeps its slot exactly when the slot taken was vacant. */
  lemma PublishReach(l: Level, inputs: seq<nat>, outputs: seq<nat>)
    requires AllInReach(l) && l.last <= |l.tasks| < l.last + l.window
    requires forall h :: h in l.producerOf ==> l.producerOf[h] < |l.tasks|
    ensures AllInReach(DoPublish(l, inputs, outputs)) <==> Vacant(l)
  {
    var r, n := DoPublish(l, inputs, outputs), |l.tasks|;
    if Vacant(l) {
      forall c | 0 <= c < |r.tasks| ensures InReach(r, c) {
        if c < n {
          assert InReach(l, c);
          VacantKeeps(l, r, c);
        } else {
          NewInReach(l, inputs, outputs);
        }
      }
    } else if AllInReach(r) {
      forall c | 0 <= c < n && l.tasks[c].phase != Finished
        ensures c + l.window != n && forall k :: 0 <= k < |Unreleased(l.tasks[c])| ==>
                  Unreleased(l.tasks[c])[k] + l.window != n
      {
        assert InReach(r, c);
        assert Unreleased(r.tasks[c]) == Unreleased(l.tasks[c]);
      }
    }
  }

  lemma VacantKeeps(l: Level, r: Level, c: nat)
    requires c < |l.tasks| && InReach(l, c) && Vacant(l) && |r.tasks| == |l.tasks| + 1 && r.window == l.window
    requires r.tasks[c] == l.tasks[c]
    ensures InReach(r, c)
  {
  }

  lemma NewInReach(l: Level, inputs: seq<nat>, outputs: seq<nat>)
    requires l.last <= |l.tasks| < l.last + l.window
    requires forall h :: h in l.producerOf ==> l.producerOf[h] < |l.tasks|
    ensures var r := DoPublish(l, inputs, outputs);
            && InReach(r, |l.tasks|) && R.Owned(|r.tasks|, r.window, |l.tasks|)
            && OwnedList(r.tasks[|l.tasks|].producers, |r.tasks|, r.window)
  {
    var r, n := DoPublish(l, inputs, outputs), |l.tasks|;
    var ps := r.tasks[n].producers;
    forall k | 0 <= k < |ps| ensures R.Owned(n + 1, l.window, ps[k]) {
      WithinUnretired(l, inputs, k);
      WithinKnown(l, inputs, k);
    }
    assert Unreleased(r.tasks[n]) == ps;
  }

  lemma {:induction false} WithinKnown(l: Level, inputs: seq<nat>, k: nat)
    requires k < |Within(l, inputs)| && forall h :: h in l.producerOf ==> l.producerOf[h] < |l.tasks|
    ensures Within(l, inputs)[k] < |l.tasks|
  {
    if inputs != [] && k < |Within(l, inputs[..|inputs| - 1])| { WithinKnown(l, inputs[..|inputs| - 1], k); }
  }

  lemma PublishNewTask(s: S.Slotted, l: Level, inputs: seq<nat>, outputs: seq<nat>)
    requires SameNames(s, l)
    ensures NewTask(S.Names(s), inputs, outputs) == NewTask(l, inputs, outputs)
  {
    ScanSame(S.Names(s), l, inputs);
  }

  lemma NewJobs(jobs: seq<S.Job>, ts: seq<Task>, t: Task)
    requires JobsShown(jobs, ts) && t.phase == Waiting
    ensures JobsShown(jobs, ts + [t])
  {
    forall j | 0 <= j < |jobs| ensures JobShown(jobs[j], ts + [t]) { assert JobShown(jobs[j], ts); }
  }

  /** Before the new id is queued or its submission goes on. */
  function Admitted(l: Level, inputs: seq<nat>, outputs: seq<nat>): Level {
    l.(tasks := l.tasks + [NewTask(l, inputs, outputs)], producerOf := Owned(l.producerOf, outputs, |l.tasks|))
  }

  lemma AdmitCouples(s: S.Slotted, l: Level, inputs: seq<nat>, outputs: seq<nat>)
    requires Couples(s, l) && l.linking.None? && AllInReach(DoPublish(l, inputs, outputs))
    ensures var t := NewTask(l, inputs, outputs);
            Couples(S.Put(s, s.count, S.Shown(t, s.count)).(count := s.count + 1,
                                                            producerOf := Owned(s.producerOf, outputs, s.count)),
                    Admitted(l, inputs, outputs))
  {
    var t, r := NewTask(l, inputs, outputs), Admitted(l, inputs, outputs);
    PublishShows(s.slots, l.tasks, t);
    NewJobs(s.jobs, l.tasks, t);
    SameWorkKeeps(s.jobs, DoPublish(l, inputs, outputs), r);
  }

  lemma OpenCouples(s: S.Slotted, r: Level, n: nat)
    requires Couples(s, r) && r.linking.None? && n == |r.tasks| - 1 && r.tasks[n].linked == 0
    requires R.Owned(|r.tasks|, r.window, n) && OwnedList(r.tasks[n].producers, |r.tasks|, r.window)
    ensures Couples(s.(linking := Some(S.Submission(n, r.tasks[n].producers))), r.(linking := Some(n)))
  {
    assert r.tasks[n].producers[0..] == r.tasks[n].producers;
    SameWorkKeeps(s.jobs, r, r.(linking := Some(n)));
  }

  lemma PublishCouples(s: S.Slotted, l: Level, inputs: seq<nat>, outputs: seq<nat>)
    requires Couples(s, l) && l.linking.None? && l.last <= |l.tasks| < l.last + l.window
    requires forall h :: h in l.producerOf ==> l.producerOf[h] < |l.tasks|
    requires |DoPublish(l, inputs, outputs).queue| <= l.window
    requires AllInReach(DoPublish(l, inputs, outputs))
    ensures Couples(S.DoPublish(s, inputs, outputs), DoPublish(l, inputs, outputs))
  {
    var t, r := NewTask(l, inputs, outputs), Admitted(l, inputs, outputs);
    var s1 := S.Put(s, s.count, S.Shown(t, s.count)).(count := s.count + 1,
                                                      producerOf := Owned(s.producerOf, outputs, s.count));
    PublishNewTask(s, l, inputs, outputs);
    assert Couples(s1, r) by { AdmitCouples(s, l, inputs, outputs); }
    if t.fanin == 0 {
      assert DoPublish(l, inputs, outputs) == r.(queue := r.queue + [s.count]);
      EnqueueCouples(s1, r, s.count);
    } else {
      NewInReach(l, inputs, outputs);
      assert DoPublish(l, inputs, outputs) == r.(linking := Some(s.count));
      OpenCouples(s1, r, s.count);
    }
  }

  lemma {:induction false} WorkAtNone(jobs: seq<S.Job>, id: nat)
    ensures S.WorkAt(jobs, id).None? <==> !HasJob(jobs, id)
  {
    if jobs != [] {
      var front := jobs[..|jobs| - 1];
      WorkAtNone(front, id);
      if HasJob(front, id) {
        var j :| 0 <= j < |front| && front[j].id == id;
        assert jobs[j].id == id;
      }
    }
  }

  lemma {:induction false} WorkAtSome(jobs: seq<S.Job>, ts: seq<Task>, id: nat)
    requires (forall j :: 0 <= j < |jobs| ==> JobShown(jobs[j], ts)) && S.WorkAt(jobs, id).Some?
    ensures id < |ts| && ts[id].phase != Waiting && S.WorkAt(jobs, id) == Some(WorkOf(ts[id]))
  {
    if jobs[|jobs| - 1].id == id {
      assert JobShown(jobs[|jobs| - 1], ts);
    } else {
      var front := jobs[..|jobs| - 1];
      forall j | 0 <= j < |front| ensures JobShown(front[j], ts) { assert JobShown(jobs[j], ts); }
      WorkAtSome(front, ts, id);
    }
  }

  /** What a task's job and slot say about its unreleased entries. */
  lemma RemainingShown(s: S.Slotted, l: Level, i: nat)
    requires Couples(s, l) && R.Owned(|l.tasks|, l.window, i) && PhaseOk(l.tasks[i])
    ensures S.WorkAt(s.jobs, i) == Some(S.Done) <==> l.tasks[i].phase == Finished
    ensures S.Remaining(s, i) == Unreleased(l.tasks[i])
  {
    assert S.At(s, i) == S.Shown(l.tasks[i], i);
    WorkAtNone(s.jobs, i);
    if S.WorkAt(s.jobs, i).Some? { WorkAtSome(s.jobs, l.tasks, i); }
    assert l.tasks[i].producers[..|l.tasks[i].producers|] == l.tasks[i].producers;
  }

  lemma RoomyIsVacant(s: S.Slotted, l: Level)
    requires Couples(s, l) && BodiesOk(l)
    ensures S.Roomy(s) <==> Vacant(l)
  {
    forall i: nat | R.Owned(|l.tasks|, l.window, i)
      ensures S.WorkAt(s.jobs, i) == Some(S.Done) <==> l.tasks[i].phase == Finished
      ensures S.Remaining(s, i) == Unreleased(l.tasks[i])
    {
      RemainingShown(s, l, i);
    }
    forall c | 0 <= c < |l.tasks| && l.tasks[c].phase != Finished ensures R.Owned(|l.tasks|, l.window, c) {
      assert InReach(l, c);
    }
  }

  /** A submission is followed over ids exactly when the slot it takes is not in use. */
  lemma PublishFollows(s: S.Slotted, l: Level, inputs: seq<nat>, outputs: seq<nat>)
    requires Couples(s, l) && Inv(l) && S.CanMove(s, S.Publish(inputs, outputs))
    ensures Follows(s, l, S.Publish(inputs, outputs)) <==> S.Roomy(s)
  {
    StepKeepsInv(l, Publish(inputs, outputs));
    QueueRoom(DoPublish(l, inputs, outputs));
    RoomyIsVacant(s, l);
    PublishReach(l, inputs, outputs);
    if Vacant(l) { PublishCouples(s, l, inputs, outputs); }
  }

  lemma SetReadyFollows(s: S.Slotted, l: Level, h: nat)
    requires Couples(s, l) && S.CanMove(s, S.SetReady(h))
    ensures Follows(s, l, S.SetReady(h))
  {
    SameWorkKeeps(s.jobs, l, l.(ready := l.ready + {h}));
  }

  lemma AdvanceFollows(s: S.Slotted, l: Level)
    requires Couples(s, l) && l.last <= |l.tasks| <= l.last + l.window && S.CanMove(s, S.Advance)
    ensures Follows(s, l, S.Advance)
  {
    AdvanceCouples(s, l);
  }

  /** Every move on the slots is followed over ids, except a submission that takes a slot
      still in use. */
  lemma MoveFollows(s: S.Slotted, l: Level, m: S.Move)
    requires Couples(s, l) && Inv(l) && S.CanMove(s, m)
    ensures Follows(s, l, m) <==> (m.Publish? ==> S.Roomy(s))
  {
    match m
    case Publish(inputs, outputs) => PublishFollows(s, l, inputs, outputs);
    case Link => LinkFollows(s, l);
    case Check => CheckFollows(s, l);
    case Dequeue => DequeueFollows(s, l);
    case Mark(j) => JobFacts(s, l, j); MarkFollows(s, l, j);
    case Store(j) => JobFacts(s, l, j); StoreFollows(s, l, j);
    case Lock(j) => JobFacts(s, l, j); LockFollows(s, l, j);
    case StoreLocked(j) => JobFacts(s, l, j); StoreLockedFollows(s, l, j);
    case Walk(j) => WalkFollows(s, l, j);
    case Unlock(j) => JobFacts(s, l, j); UnlockFollows(s, l, j);
    case Unlink(j) => JobFacts(s, l, j); UnlinkFollows(s, l, j);
    case Finish(j) => JobFacts(s, l, j); FinishFollows(s, l, j);
    case Notice(t) => NoticeEnabled(s, l, t); NoticeFollows(s, l, t);
    case SetReady(h) => SetReadyFollows(s, l, h);
    case Advance => AdvanceFollows(s, l);
  }
}

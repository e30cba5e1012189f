/** The first two tasks of the level runtime, over ids: the second can have no producer but
    the first, so the first retires only after its walk, and the second never does. */
module LevelTwoTasks {
  import opened Common
  import opened LevelProtocol
  import opened LevelInvariant
  import opened LevelSteps

  /** The worker of the task has not taken its lock. */
  predicate BeforeLock(t: Task) {
    t.phase == Waiting || t.phase == Executing || t.phase == Marked || t.phase == Stored
  }

  predicate Releasing(t: Task) {
    t.phase.Unlinking? || t.phase == Finished
  }

  /** Before task 0's walk task 1 has no more credits than it has told; once 0 is CONSUMED,
      it has taken its lock, and still holds it only while 1 has more to tell. */
  ghost predicate TwoInv(l: Level) {
    && |l.tasks| <= 2
    && (|l.tasks| == 1 ==> l.tasks[0].status != Consumed)
    && (|l.tasks| == 2 ==>
          && l.tasks[1].status != Consumed
          && (BeforeLock(l.tasks[0]) ==> |l.tasks[1].credits| <= l.tasks[1].linked)
          && (l.tasks[0].status == Consumed ==>
                && !BeforeLock(l.tasks[0]) && Releasing(l.tasks[1])
                && (l.tasks[0].phase.Walking? ==> l.tasks[1].linked < |l.tasks[1].producers|)))
  }

  // ---- Lists between two tasks --------------------------------------------------------------

  /** A list of only one value has it as often as it is long. */
  lemma {:induction false} CountAll(list: seq<nat>, x: nat)
    requires forall i :: 0 <= i < |list| ==> list[i] == x
    ensures Count(list, x) == |list|
  {
    if list != [] { CountAll(list[1..], x); }
  }

  lemma NoneBelowZero(list: seq<nat>)
    ensures (forall p :: p in list ==> p < 0) ==> list == []
  {
    if list != [] { assert list[0] in list; }
  }

  lemma ProducersAreFirst(l: Level)
    requires Inv(l) && |l.tasks| == 2
    ensures l.tasks[0].producers == []
    ensures forall i :: 0 <= i < |l.tasks[1].producers| ==> l.tasks[1].producers[i] == 0
  {
    NoneBelowZero(l.tasks[0].producers);
    assert ListsOk(l, 0) && ListsOk(l, 1);
    assert forall i :: 0 <= i < |l.tasks[1].producers| ==> l.tasks[1].producers[i] in l.tasks[1].producers;
  }

  /** Task 1 has no consumers and has never been released. */
  lemma SecondIsLeaf(l: Level)
    requires Inv(l) && |l.tasks| == 2
    ensures l.tasks[1].fanout == [] && l.tasks[1].fanoutRef == 0 && l.tasks[1].fanoutCount == 1
  {
    ProducersAreFirst(l);
    var x := l.tasks[1];
    assert CountsOk(x) && ListsOk(l, 1);
    if x.fanout != [] {
      assert x.fanout[0] in x.fanout;
      ConsumerIsYounger(l, 1, x.fanout[0]);
      assert false;
    }
    if x.releases != [] { ReleasedBy(l, 1, x.releases[0]); }
  }

  /** Whoever released p has p among its producers. */
  lemma ReleasedBy(l: Level, p: nat, c: nat)
    requires Inv(l) && p < |l.tasks| && c in l.tasks[p].releases
    ensures c < |l.tasks| && p < c && p in l.tasks[c].producers
  {
    assert c < |l.tasks| by { assert ListsOk(l, p); }
    assert Count(l.tasks[p].releases, c) == Count(Gone(l.tasks[c]), p) by { assert PairOk(l, p, c); }
    GoneAreProducers(l.tasks[c], p);
    assert p < c by { assert ListsOk(l, c); }
  }

  lemma GoneAreProducers(t: Task, p: nat)
    requires p in Gone(t)
    ensures p in t.producers
  {
  }

  lemma OnlyIsUnreleased(l: Level)
    requires Inv(l) && |l.tasks| == 1
    ensures l.tasks[0].fanoutRef < l.tasks[0].fanoutCount
  {
    assert CountsOk(l.tasks[0]);
    if l.tasks[0].releases != [] { ReleasedBy(l, 0, l.tasks[0].releases[0]); }
  }

  /** What task 0's lists and counts say about task 1. */
  lemma FirstKnowsSecond(l: Level)
    requires Inv(l) && |l.tasks| == 2
    ensures l.tasks[0].fanoutCount == 1 + l.tasks[1].linked
    ensures l.tasks[0].fanoutRef == |l.tasks[1].producers| - LeftOf(l.tasks[1])
  {
    var y, x := l.tasks[0], l.tasks[1];
    ProducersAreFirst(l);
    assert CountsOk(y) && CountsOk(x) && PhaseOk(x) && PairOk(l, 0, 1);
    forall i | 0 <= i < |y.fanout| ensures y.fanout[i] == 1 {
      assert y.fanout[i] in y.fanout;
      ConsumerIsYounger(l, 0, y.fanout[i]);
    }
    forall i | 0 <= i < |y.releases| ensures y.releases[i] == 1 { ReleasedBy(l, 0, y.releases[i]); }
    CountAll(y.fanout, 1);
    CountAll(y.releases, 1);
    CountAll(Told(x), 0);
    CountAll(Gone(x), 0);
  }

  // ---- Every step keeps it ------------------------------------------------------------------

  /** What TwoInv depends on of a task. */
  datatype Sketch = Sketch(consumed: bool, before: bool, walking: bool, releasing: bool,
                           credits: nat, linked: nat, producers: nat)

  function SketchOf(t: Task): Sketch {
    Sketch(t.status == Consumed, BeforeLock(t), t.phase.Walking?, Releasing(t), |t.credits|, t.linked, |t.producers|)
  }

  predicate SketchOk(a: Sketch, b: Sketch) {
    && !b.consumed && (a.before ==> b.credits <= b.linked)
    && (a.consumed ==> !a.before && b.releasing && (a.walking ==> b.linked < b.producers))
  }

  lemma TwoIsSketch(l: Level)
    requires |l.tasks| == 2
    ensures TwoInv(l) <==> SketchOk(SketchOf(l.tasks[0]), SketchOf(l.tasks[1]))
  {
  }

  lemma TryReadySketch(l: Level, t: nat, i: nat)
    requires i < |l.tasks|
    ensures |TryReady(l, t).tasks| == |l.tasks| && SketchOf(TryReady(l, t).tasks[i]) == SketchOf(l.tasks[i])
  {
  }

  lemma ConsumeSketch(l: Level, t: nat, i: nat)
    requires i < |l.tasks|
    ensures |CheckConsumed(l, t).tasks| == |l.tasks|
    ensures SketchOf(CheckConsumed(l, t).tasks[i]) ==
            SketchOf(l.tasks[i]).(consumed := l.tasks[i].status == Consumed
              || (i == t && l.tasks[i].status == Completed && l.tasks[i].fanoutRef >= l.tasks[i].fanoutCount))
  {
  }

  lemma LinkTwo(l: Level)
    requires Inv(l) && TwoInv(l) && |l.tasks| == 2 && LinkReady(l)
    ensures TwoInv(DoLink(l))
  {
    ProducersAreFirst(l);
    var c := l.linking.value;
    assert c == 1;
    var r := DoLink(l);
    assert SketchOf(r.tasks[0]) == SketchOf(l.tasks[0]);
    TwoIsSketch(l);
    TwoIsSketch(r);
  }

  lemma WalkedSketch(l: Level, rest: seq<nat>)
    requires |l.tasks| == 2 && l.tasks[0].phase == Walking(rest) && rest != []
    ensures var m, x := Credit(SetPhase(l, 0, Walking(rest[1..])), 1, 0), SketchOf(l.tasks[1]);
            && |m.tasks| == 2 && SketchOf(m.tasks[0]) == SketchOf(l.tasks[0])
            && SketchOf(m.tasks[1]) == x.(credits := x.credits + 1)
  {
  }

  lemma WalkTwo(l: Level, t: nat)
    requires Inv(l) && TwoInv(l) && |l.tasks| == 2 && Enabled(l, Walk(t))
    ensures TwoInv(DoWalk(l, t))
  {
    SecondIsLeaf(l);
    var rest := l.tasks[t].phase.rest;
    assert rest[0] in WalkList(l.tasks[t]) && ListsOk(l, t);
    assert t == 0;
    ConsumerIsYounger(l, 0, rest[0]);
    var m := Credit(SetPhase(l, 0, Walking(rest[1..])), 1, 0);
    WalkedSketch(l, rest);
    TwoIsSketch(l);
    TwoIsSketch(m);
    TryReadySketch(m, 1, 0);
    TryReadySketch(m, 1, 1);
    TwoIsSketch(DoWalk(l, t));
  }

  /** Task 0 can be released as often as it expects only when task 1 was woken with producers
      still to be told, that is, by a walk. */
  lemma ConsumedByWalk(l: Level)
    requires Inv(l) && TwoInv(l) && |l.tasks| == 2 && l.tasks[0].fanoutRef >= l.tasks[0].fanoutCount
    ensures !BeforeLock(l.tasks[0]) && Releasing(l.tasks[1]) && l.tasks[1].linked < |l.tasks[1].producers|
  {
    FirstKnowsSecond(l);
    var x := l.tasks[1];
    assert CountsOk(x) && PhaseOk(x);
  }

  /** Task 0 may be CONSUMED now, task 1 may not. */
  lemma ConsumeTwo(l: Level, t: nat)
    requires Inv(l) && TwoInv(l) && |l.tasks| == 2
    ensures TwoInv(CheckConsumed(l, t))
  {
    SecondIsLeaf(l);
    ConsumeSketch(l, t, 0);
    ConsumeSketch(l, t, 1);
    TwoIsSketch(l);
    TwoIsSketch(CheckConsumed(l, t));
    if l.tasks[0].fanoutRef >= l.tasks[0].fanoutCount { ConsumedByWalk(l); }
  }

  lemma UnlinkedSketch(l: Level, t: nat, i: nat)
    requires Enabled(l, Unlink(t)) && i < |l.tasks|
    ensures |Unlinked(l, t).tasks| == |l.tasks| && SketchOf(Unlinked(l, t).tasks[i]) == SketchOf(l.tasks[i])
  {
  }

  lemma UnlinkTwo(l: Level, t: nat)
    requires Inv(l) && TwoInv(l) && |l.tasks| == 2 && Enabled(l, Unlink(t))
    ensures TwoInv(DoUnlink(l, t))
  {
    ProducersAreFirst(l);
    var m := Unlinked(l, t);
    assert Inv(m) by { UnlinkedKeeps(l, t); }
    UnlinkedSketch(l, t, 0);
    UnlinkedSketch(l, t, 1);
    TwoIsSketch(l);
    TwoIsSketch(m);
    ConsumeTwo(m, UnlinkTarget(l, t));
  }

  lemma FinishTwo(l: Level, t: nat)
    requires Inv(l) && TwoInv(l) && |l.tasks| == 2 && Enabled(l, Finish(t))
    ensures TwoInv(Next(l, Finish(t)))
  {
    var m := SetPhase(l, t, Finished);
    FinishedKeeps(l, t);
    TwoIsSketch(l);
    TwoIsSketch(m);
    assert SketchOk(SketchOf(m.tasks[0]), SketchOf(m.tasks[1]));
    ConsumeTwo(m, t);
  }

  lemma CheckTwo(l: Level)
    requires TwoInv(l) && |l.tasks| == 2 && Enabled(l, Check)
    ensures TwoInv(DoCheck(l))
  {
    TryReadySketch(l, l.linking.value, 0);
    TryReadySketch(l, l.linking.value, 1);
    TwoIsSketch(l);
    TwoIsSketch(DoCheck(l));
  }

  lemma NoticeTwo(l: Level, t: nat)
    requires TwoInv(l) && |l.tasks| == 2 && Enabled(l, Notice(t))
    ensures TwoInv(DoNotice(l, t))
  {
    var x := l.tasks[t];
    var m := l.(tasks := l.tasks[t := x.(noticed := true, faninRef := x.faninRef + |x.externals|)]);
    TryReadySketch(m, t, 0);
    TryReadySketch(m, t, 1);
    TwoIsSketch(l);
    TwoIsSketch(m);
    TwoIsSketch(DoNotice(l, t));
  }

  lemma WorkerTwo(l: Level, step: Step)
    requires Inv(l) && TwoInv(l) && |l.tasks| == 2 && Enabled(l, step)
    requires step.Dequeue? || step.Mark? || step.Store? || step.Lock? || step.StoreLocked? || step.Unlock?
    ensures TwoInv(Next(l, step))
  {
    var r := Next(l, step);
    assert PhaseOk(l.tasks[0]) && PhaseOk(l.tasks[1]);
    if step.Dequeue? { assert l.queue[0] in l.queue; }
    assert |r.tasks| == 2;
    TwoIsSketch(l);
    TwoIsSketch(r);
  }

  lemma PairStepKeeps(l: Level, step: Step)
    requires Inv(l) && TwoInv(l) && |l.tasks| == 2 && Enabled(l, step) && !step.Publish?
    ensures TwoInv(Next(l, step))
  {
    match step
    case Link => LinkTwo(l);
    case Check => CheckTwo(l);
    case Walk(t) => WalkTwo(l, t);
    case Unlink(t) => UnlinkTwo(l, t);
    case Finish(t) => FinishTwo(l, t);
    case Notice(t) => NoticeTwo(l, t);
    case SetReady(_) =>
    case Advance =>
    case _ => WorkerTwo(l, step);
  }

  /** A task alone has no producers and no consumers. */
  lemma LoneHasNoEdges(l: Level)
    requires Inv(l) && |l.tasks| == 1
    ensures l.tasks[0].producers == [] && WalkList(l.tasks[0]) == []
  {
    NoneBelowZero(l.tasks[0].producers);
    assert ListsOk(l, 0);
    assert forall c :: c in WalkList(l.tasks[0]) ==> c in l.tasks[0].fanout;
    if WalkList(l.tasks[0]) != [] {
      ConsumerIsYounger(l, 0, WalkList(l.tasks[0])[0]);
      assert false;
    }
  }

  /** A task alone is released by nobody. */
  lemma LoneStepKeeps(l: Level, step: Step)
    requires Inv(l) && TwoInv(l) && |l.tasks| <= 1 && Enabled(l, step) && !step.Publish?
    ensures TwoInv(Next(l, step))
  {
    if |l.tasks| == 1 { LoneHasNoEdges(l); }
    if step.Finish? {
      FinishedKeeps(l, step.t);
      OnlyIsUnreleased(SetPhase(l, step.t, Finished));
    }
  }

  /** Every step that admits no third task keeps it. */
  lemma TwoStepKeeps(l: Level, step: Step)
    requires Inv(l) && TwoInv(l) && Enabled(l, step) && |Next(l, step).tasks| <= 2
    ensures TwoInv(Next(l, step))
  {
    if step.Publish? {
      assert |l.tasks| <= 1;
    } else if |l.tasks| == 2 {
      PairStepKeeps(l, step);
    } else {
      LoneStepKeeps(l, step);
    }
  }
}

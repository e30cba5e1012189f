/** How many admissions the level runtime as written serves, for every window its ring
    accepts: past the bound a wake-up can be lost or an id queued twice. */
module LevelBounds {
  import opened LevelSlotTheorems
  import opened LevelDoubleEnqueue
  import opened LevelThirdTask
  import opened LevelSmallWindows
  import opened LevelScripts
  import opened LevelLostWakeup
  import opened LevelStaleWalk

  /** A window of one or two never loses a wake-up and queues no task twice. */
  lemma SmallWindowsAreSafe(run: SlotRun, k: nat)
    requires IsSlotRun(run) && run.window <= 2 && k < |run.states|
    ensures run.states[k].count <= 2 * run.window - 1
    ensures NothingLost(run.states[k]) && NothingTwice(run.states[k])
  {
    var s := run.states[k];
    if run.window == 1 { WindowOneAdmitsOne(run, k); } else { WindowTwoAdmitsThree(run, k); }
    QueuedAtMostOnce(run, k);
    if s.count <= run.window {
      FewAdmissionsAreRoomy(run, k);
      SlotNoLostWakeup(run, k);
    } else {
      ThreeLosesNothing(s);
    }
  }

  /** The window is a power of two, so not three. Of at most n admissions, all are served in
      every interleaving if and only if n is at most the window, or the window at most two. */
  lemma ExactAdmissionBound(w: nat, capacity: nat, n: nat)
    requires 0 < w <= capacity && w != 3
    ensures (forall run: SlotRun, k: nat :: Admits(run, w, capacity, k, n) ==> NothingLost(run.states[k]))
            <==> n <= w || w <= 2
  {
    if w <= 2 {
      forall run: SlotRun, k: nat | Admits(run, w, capacity, k, n) ensures NothingLost(run.states[k]) {
        SmallWindowsAreSafe(run, k);
      }
    } else if n <= w {
      forall run: SlotRun, k: nat | Admits(run, w, capacity, k, n) ensures NothingLost(run.states[k]) {
        FewAdmissionsAreRoomy(run, k);
        SlotNoLostWakeup(run, k);
      }
    } else {
      var run := LostWakeup(w, capacity);
      assert Admits(run, w, capacity, |run.states| - 1, n);
    }
  }

  /** Nor is any queued twice if and only if n is at most the window and one, or the window
      at most two. */
  lemma ExactEnqueueBound(w: nat, capacity: nat, n: nat)
    requires 0 < w <= capacity && w != 3
    ensures (forall run: SlotRun, k: nat :: Admits(run, w, capacity, k, n) ==> NothingTwice(run.states[k]))
            <==> n <= w + 1 || w <= 2
  {
    if w <= 2 {
      forall run: SlotRun, k: nat | Admits(run, w, capacity, k, n) ensures NothingTwice(run.states[k]) {
        SmallWindowsAreSafe(run, k);
      }
    } else if n <= w + 1 {
      forall run: SlotRun, k: nat | Admits(run, w, capacity, k, n) ensures NothingTwice(run.states[k]) {
        QueuedAtMostOnce(run, k);
      }
    } else {
      var run := DoubleEnqueue(w, capacity);
      assert Admits(run, w, capacity, |run.states| - 1, n);
    }
  }
}

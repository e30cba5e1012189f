/** When the level runtime on its slots does what the protocol over ids says. The two agree
    as long as every task that is still in use has its slot. */
module LevelCoupling {
  import opened Common
  import opened LevelProtocol
  import opened LevelInvariant
  import R = TaskRings
  import Q = ReadyQueues
  import S = LevelSlots

  // ---- The coupling ---------------------------------------------------------------

  /** Every id that has not lost its slot is shown there. */
  ghost predicate Shows(slots: seq<S.Desc>, ts: seq<Task>) {
    |slots| > 0 && forall i: nat :: R.Owned(|ts|, |slots|, i) ==> slots[i % |slots|] == S.Shown(ts[i], i)
  }

  function WorkOf(t: Task): S.Work {
    match t.phase
    case Waiting => S.Done
    case Executing => S.Executing
    case Marked => S.Marked
    case Stored => S.Stored
    case Walking(rest) => S.Walking(rest)
    case Unlinking(left) => S.Unlinking(if left <= |t.producers| then t.producers[..left] else [])
    case Finished => S.Done
  }

  predicate JobShown(job: S.Job, ts: seq<Task>) {
    job.id < |ts| && ts[job.id].phase != Waiting && job.work == WorkOf(ts[job.id])
  }

  predicate HasJob(jobs: seq<S.Job>, id: nat) {
    exists j :: 0 <= j < |jobs| && jobs[j].id == id
  }

  /** Each task that has been taken off the queue has one job, no other task has any. */
  ghost predicate JobsShown(jobs: seq<S.Job>, ts: seq<Task>) {
    && (forall j :: 0 <= j < |jobs| ==> JobShown(jobs[j], ts))
    && (forall j, k :: 0 <= j < k < |jobs| ==> jobs[j].id != jobs[k].id)
    && (forall t: nat :: t < |ts| && ts[t].phase != Waiting ==> HasJob(jobs, t))
  }

  ghost predicate QueueShown(s: S.Slotted, l: Level) {
    && |s.buf| >= l.window && |s.buf| > 0 && s.head <= s.tail
    && Q.Pending(s.buf, s.head, s.tail) == l.queue
  }

  /** The producers of the task being submitted still have their slots. */
  ghost predicate LinkShown(linking: Option<S.Submission>, l: Level) {
    match l.linking
    case None => linking.None?
    case Some(t) =>
      && R.Owned(|l.tasks|, l.window, t) && OwnedList(l.tasks[t].producers, |l.tasks|, l.window)
      && l.tasks[t].linked <= |l.tasks[t].producers|
      && linking == Some(S.Submission(t, l.tasks[t].producers[l.tasks[t].linked..]))
  }

  predicate SameNames(s: S.Slotted, l: Level) {
    && |s.slots| == l.window && s.count == |l.tasks| && s.last == l.last
    && s.producerOf == l.producerOf && s.ready == l.ready
  }

  /** The dependency entries that the worker of t will still release. */
  function Unreleased(t: Task): seq<nat> {
    if LeftOf(t) <= |t.producers| then t.producers[..LeftOf(t)] else []
  }

  ghost predicate OwnedList(list: seq<nat>, n: nat, w: nat) {
    forall k :: 0 <= k < |list| ==> R.Owned(n, w, list[k])
  }

  /** An unfinished task still has its slot, and so have the producers it will release. */
  ghost predicate InReach(l: Level, c: nat)
    requires c < |l.tasks|
  {
    l.tasks[c].phase != Finished ==>
      R.Owned(|l.tasks|, l.window, c) && OwnedList(Unreleased(l.tasks[c]), |l.tasks|, l.window)
  }

  ghost predicate AllInReach(l: Level) {
    forall c :: 0 <= c < |l.tasks| ==> InReach(l, c)
  }

  ghost predicate Couples(s: S.Slotted, l: Level) {
    && Shows(s.slots, l.tasks) && SameNames(s, l)
    && QueueShown(s, l) && LinkShown(s.linking, l)
    && JobsShown(s.jobs, l.tasks) && AllInReach(l)
  }

  // ---- One write ---------------------------------------------------------------------

  lemma WriteShows(slots: seq<S.Desc>, ts: seq<Task>, i: nat, t: Task)
    requires Shows(slots, ts) && R.Owned(|ts|, |slots|, i)
    ensures Shows(slots[i % |slots| := S.Shown(t, i)], ts[i := t])
    ensures slots[i % |slots|] == S.Shown(ts[i], i)
  {
    var w := |slots|;
    forall j: nat | R.Owned(|ts|, w, j) ensures slots[i % w := S.Shown(t, i)][j % w] == S.Shown(ts[i := t][j], j) {
      if j != i { R.OwnedApart(|ts|, w, i, j); }
    }
  }

  /** Jobs and reach depend on phases and producers only. */
  ghost predicate SameWork(ts: seq<Task>, us: seq<Task>) {
    |ts| == |us| && forall i :: 0 <= i < |ts| ==> us[i].phase == ts[i].phase && us[i].producers == ts[i].producers
  }

  lemma SameWorkKeeps(jobs: seq<S.Job>, l: Level, r: Level)
    requires JobsShown(jobs, l.tasks) && AllInReach(l) && SameWork(l.tasks, r.tasks) && r.window == l.window
    ensures JobsShown(jobs, r.tasks) && AllInReach(r)
  {
    forall c | 0 <= c < |r.tasks| ensures InReach(r, c) {
      assert InReach(l, c);
      assert Unreleased(r.tasks[c]) == Unreleased(l.tasks[c]);
    }
  }

  /** r differs from l, as far as work goes, in that the worker of t has moved on; it never
      gets more entries to release. */
  ghost predicate MovesOn(l: Level, r: Level, t: nat) {
    && t < |l.tasks| == |r.tasks| && r.window == l.window
    && r.tasks[t].producers == l.tasks[t].producers
    && (forall i :: 0 <= i < |l.tasks| && i != t ==>
          r.tasks[i].phase == l.tasks[i].phase && r.tasks[i].producers == l.tasks[i].producers)
    && r.tasks[t].phase != Waiting && l.tasks[t].phase != Finished
    && LeftOf(r.tasks[t]) <= LeftOf(l.tasks[t]) <= |l.tasks[t].producers|
  }

  lemma MovesOnReach(l: Level, r: Level, t: nat)
    requires AllInReach(l) && MovesOn(l, r, t)
    ensures AllInReach(r)
  {
    forall c | 0 <= c < |r.tasks| ensures InReach(r, c) {
      assert InReach(l, c);
      var was, now := Unreleased(l.tasks[c]), Unreleased(r.tasks[c]);
      assert |now| <= |was| && forall k :: 0 <= k < |now| ==> now[k] == was[k];
    }
  }

  lemma MovesOnJobs(jobs: seq<S.Job>, l: Level, r: Level, j: nat, t: nat)
    requires JobsShown(jobs, l.tasks) && MovesOn(l, r, t) && j < |jobs| && jobs[j].id == t
    ensures JobsShown(jobs[j := S.Job(t, WorkOf(r.tasks[t]))], r.tasks)
  {
    var after := jobs[j := S.Job(t, WorkOf(r.tasks[t]))];
    forall k | 0 <= k < |after| ensures JobShown(after[k], r.tasks) { assert JobShown(jobs[k], l.tasks); }
    forall u: nat | u < |r.tasks| && r.tasks[u].phase != Waiting ensures HasJob(after, u) {
      if u == t {
        assert after[j].id == u;
      } else {
        assert HasJob(jobs, u);
        var k :| 0 <= k < |jobs| && jobs[k].id == u;
        assert after[k].id == u;
      }
    }
  }

  /** Writing one descriptor in a way that no worker and no submitter keeps track of. */
  lemma WriteCouples(s: S.Slotted, l: Level, i: nat, t: Task)
    requires Couples(s, l) && R.Owned(|l.tasks|, l.window, i)
    requires t.phase == l.tasks[i].phase && t.producers == l.tasks[i].producers && t.linked == l.tasks[i].linked
    ensures Couples(S.Put(s, i, S.Shown(t, i)), l.(tasks := l.tasks[i := t]))
    ensures S.At(s, i) == S.Shown(l.tasks[i], i)
  {
    WriteShows(s.slots, l.tasks, i, t);
    SameWorkKeeps(s.jobs, l, l.(tasks := l.tasks[i := t]));
  }

  /** A buffer at least as large as the window never overwrites a waiting entry. */
  lemma EnqueueCouples(s: S.Slotted, l: Level, c: nat)
    requires Couples(s, l) && |l.queue| < l.window
    ensures Couples(S.Enqueue(s, c), l.(queue := l.queue + [c]))
  {
    var r := l.(queue := l.queue + [c]);
    Q.EnqueueKeeps(s.buf, s.head, s.tail, c);
    SameWorkKeeps(s.jobs, l, r);
    assert QueueShown(S.Enqueue(s, c), r);
  }

  lemma TryReadyCouples(s: S.Slotted, l: Level, c: nat)
    requires Couples(s, l) && R.Owned(|l.tasks|, l.window, c)
    requires |TryReady(l, c).queue| <= l.window
    ensures Couples(S.TryReady(s, c), TryReady(l, c))
  {
    var t := l.tasks[c].(status := Ready, enqueued := l.tasks[c].enqueued + 1);
    WriteCouples(s, l, c, t);
    if l.tasks[c].status == Pending && l.tasks[c].faninRef >= l.tasks[c].fanin {
      EnqueueCouples(S.Put(s, c, S.Shown(t, c)), l.(tasks := l.tasks[c := t]), c);
    }
  }

  // ---- Retirement --------------------------------------------------------------------

  lemma {:induction false} CursorCouples(s: S.Slotted, l: Level, cursor: nat)
    requires Couples(s, l) && l.last <= cursor <= |l.tasks| <= l.last + l.window
    ensures S.Cursor(s, cursor) == Cursor(l.tasks, cursor)
    decreases |l.tasks| - cursor
  {
    if cursor < |l.tasks| {
      assert R.Owned(|l.tasks|, |s.slots|, cursor);
      assert S.At(s, cursor).status == l.tasks[cursor].status;
      CursorCouples(s, l, cursor + 1);
    }
  }

  lemma AdvanceCouples(s: S.Slotted, l: Level)
    requires Couples(s, l) && l.last <= |l.tasks| <= l.last + l.window
    ensures Couples(S.AdvanceRing(s), AdvanceRing(l))
  {
    CursorCouples(s, l, l.last);
    SameWorkKeeps(s.jobs, l, AdvanceRing(l));
  }

  lemma ConsumedCouples(s: S.Slotted, l: Level, c: nat)
    requires Couples(s, l) && R.Owned(|l.tasks|, l.window, c) && l.last <= |l.tasks| <= l.last + l.window
    ensures Couples(S.CheckConsumed(s, c), CheckConsumed(l, c))
  {
    WriteCouples(s, l, c, l.tasks[c].(status := Consumed));
    if l.tasks[c].status == Completed && l.tasks[c].fanoutRef >= l.tasks[c].fanoutCount && c == l.last {
      AdvanceCouples(S.Put(s, c, S.Shown(l.tasks[c].(status := Consumed), c)),
                     l.(tasks := l.tasks[c := l.tasks[c].(status := Consumed)]));
    }
  }
}

/** A window of two with a third task in slot 0: task 1 is done with its consumers and waits
    for the third to release it, which falls one short, so no fourth task is admitted. */
module LevelThirdTask {
  import opened Common
  import opened LevelProtocol
  import opened LevelSlotTheorems
  import opened LevelSlotQueue
  import opened LevelDoubleEnqueue

  predicate All(list: seq<nat>, x: nat) {
    forall i :: 0 <= i < |list| ==> list[i] == x
  }

  /** How many producers the submission under way has still to tell. */
  function Untold(linking: Option<S.Submission>): nat {
    if linking.Some? then |linking.value.todo| else 0
  }

  predicate TellsSecond(linking: Option<S.Submission>) {
    linking.Some? ==> linking.value.tid == 2 && All(linking.value.todo, 1)
  }

  /** Task 2 in slot 0: task 1 had completed, so every entry told so far is a credit. */
  predicate Third(d: S.Desc, linking: Option<S.Submission>) {
    && d.fanout == [] && All(d.producers, 1) && Untold(linking) <= |d.producers|
    && d.fanin == |d.producers| + |d.externals|
    && d.faninRef == |d.producers| - Untold(linking) + (if d.noticed then |d.externals| else 0)
    && (d.status != Pending ==> d.faninRef >= d.fanin)
    && (d.status == Pending && linking.None? ==> d.faninRef < d.fanin)
  }

  /** Task 1 in slot 1, told so often by task 2. */
  predicate Second(d: S.Desc, told: int) {
    d.status == Completed && d.fanoutCount == 1 + told
  }

  /** The entries that the worker of task 2, which has n of them, has still to release. */
  function Owes(work: S.Work, n: nat): nat {
    match work
    case Unlinking(todo) => |todo|
    case Done => 0
    case _ => n
  }

  predicate ThirdWork(work: S.Work) {
    && (work.Walking? ==> work.rest == []) && (work.Unlinking? ==> All(work.todo, 1))
  }

  /** Tasks 0 and 1 have visited their consumers; task 2 releases task 1 once an entry. */
  predicate JobOk(job: S.Job, n: nat, released: nat) {
    match job.id
    case 0 => job.work == S.Unlinking([]) || job.work == S.Done
    case 1 => job.work == S.Done || (job.work.Unlinking? && All(job.work.todo, 0))
    case 2 => ThirdWork(job.work) && released + Owes(job.work, n) <= n
    case _ => false
  }

  ghost predicate JobsOk(jobs: seq<S.Job>, n: nat, released: nat) {
    && (forall j :: 0 <= j < |jobs| ==> JobOk(jobs[j], n, released))
    && 0 in Ids(jobs) && 1 in Ids(jobs)
    && (2 !in Ids(jobs) ==> released == 0)
  }

  predicate SlotsOk(slots: seq<S.Desc>, linking: Option<S.Submission>) {
    && |slots| == 2 && TellsSecond(linking) && Third(slots[0], linking)
    && Second(slots[1], |slots[0].producers| - Untold(linking))
  }

  ghost predicate ThreeInv(s: S.Slotted) {
    && s.count == 3 && s.last == 1 && SlotsOk(s.slots, s.linking)
    && JobsOk(s.jobs, |s.slots[0].producers|, s.slots[1].fanoutRef)
    && |s.buf| > 0 && s.head <= s.tail && (s.slots[0].status != Pending ==> 2 in Entered(s))
  }

  // ---- What the invariants say together -------------------------------------------------------

  /** Each task has one job at most, and task 2 only once it is no longer PENDING. */
  ghost predicate Apart(s: S.Slotted) {
    && (forall i, j :: 0 <= i < j < |s.jobs| ==> s.jobs[i].id != s.jobs[j].id)
    && (forall j :: 0 <= j < |s.jobs| && s.jobs[j].id == 2 ==> |s.slots| > 0 && s.slots[0].status != Pending)
  }

  lemma OnceIsApart(s: S.Slotted)
    requires OnceInv(s) && |s.slots| == 2 && s.count == 3
    ensures Apart(s)
  {
    var e := Entered(s);
    forall i, j | 0 <= i < j < |s.jobs| ensures s.jobs[i].id != s.jobs[j].id {
      assert e[i] == s.jobs[i].id && e[j] == s.jobs[j].id;
    }
    forall j | 0 <= j < |s.jobs| && s.jobs[j].id == 2 ensures s.slots[0].status != Pending {
      assert e[j] == 2;
      assert R.Owned(s.count, |s.slots|, 2) && S.At(s, 2) == s.slots[0];
    }
  }

  lemma TakenIsTold(s: S.Slotted, j: nat)
    requires Apart(s) && ThreeInv(s) && j < |s.jobs| && s.jobs[j].id == 2
    ensures Untold(s.linking) == 0 && JobOk(s.jobs[j], |s.slots[0].producers|, s.slots[1].fanoutRef)
    ensures s.slots[0].status != Pending
  {
  }

  /** Task 1 is never released as often as it expects. */
  lemma SecondStays(s: S.Slotted)
    requires Apart(s) && ThreeInv(s)
    ensures s.slots[1].fanoutRef < s.slots[1].fanoutCount
  {
    if 2 in Ids(s.jobs) {
      var j :| 0 <= j < |s.jobs| && s.jobs[j].id == 2;
      TakenIsTold(s, j);
    }
  }

  // ---- Every move keeps it ----------------------------------------------------------------------

  /** Nothing is queued and no job changes. */
  lemma SameJobs(s: S.Slotted, r: S.Slotted)
    requires ThreeInv(s) && r.count == 3 && r.last == 1 && SlotsOk(r.slots, r.linking)
    requires r.slots[0].producers == s.slots[0].producers && r.slots[1].fanoutRef == s.slots[1].fanoutRef
    requires r.jobs == s.jobs && r.buf == s.buf && r.head == s.head && r.tail == s.tail
    requires s.slots[0].status == Pending ==> r.slots[0].status == Pending
    ensures ThreeInv(r)
  {
  }

  lemma LinkThree(s: S.Slotted)
    requires ThreeInv(s) && CanStep(s, S.Link)
    ensures ThreeInv(S.DoLink(s))
  {
    var todo := s.linking.value.todo;
    var d, e := s.slots[0], s.slots[1];
    assert todo[0] == 1;
    var r := S.DoLink(s);
    assert r.slots == [d.(faninRef := d.faninRef + 1), e.(fanout := [2] + e.fanout, fanoutCount := e.fanoutCount + 1)];
    assert r.linking == Some(S.Submission(2, todo[1..]));
    SameJobs(s, r);
  }

  /** Task 2 is queued if it has all its credits. */
  lemma ReadyThree(s: S.Slotted, r: S.Slotted)
    requires OnceInv(s) && s.count == 3 && s.last == 1 && |s.slots| == 2
    requires JobsOk(s.jobs, |s.slots[0].producers|, s.slots[1].fanoutRef)
    requires s.slots[0].status != Pending ==> 2 in Entered(s)
    requires var x := S.TryReady(s, 2); r == x.(linking := r.linking) && SlotsOk(x.slots, r.linking)
    ensures ThreeInv(r)
  {
    TryReadyKeeps(s, 2);
    var d, x := s.slots[0], S.TryReady(s, 2);
    assert S.At(s, 2) == d;
    assert Entered(r) == Entered(x);
    if d.status == Pending && d.faninRef >= d.fanin {
      assert Below(d.fanout, s.count);
      EnqueueKeeps(s, 2, d.(status := Ready));
      assert Entered(x) == Entered(s) + [2];
    }
  }

  lemma CheckThree(s: S.Slotted)
    requires OnceInv(s) && ThreeInv(s) && CanStep(s, S.Check)
    ensures ThreeInv(S.DoMove(s, S.Check))
  {
    assert S.At(s, 2) == s.slots[0];
    ReadyThree(s, S.DoMove(s, S.Check));
  }

  function Noted(d: S.Desc): S.Desc {
    d.(noticed := true, faninRef := d.faninRef + |d.externals|)
  }

  lemma NoticeIs(s: S.Slotted, t: nat)
    requires |s.slots| == 2 && s.count == 3 && s.last == 1 && s.slots[1].status == Completed && CanStep(s, S.Notice(t))
    ensures t == 2 && s.slots[0].status == Pending && !s.slots[0].noticed
    ensures var e := Noted(s.slots[0]);
            && S.DoNotice(s, t) == S.TryReady(S.Put(s, 2, e), 2) && S.Put(s, 2, e).slots == [e, s.slots[1]]
            && S.DoNotice(s, t).slots == [if e.faninRef >= e.fanin then e.(status := Ready) else e, s.slots[1]]
  {
    assert S.At(s, 1) == s.slots[1] && S.At(s, 2) == s.slots[0];
  }

  lemma NoticeThree(s: S.Slotted, t: nat)
    requires OnceInv(s) && ThreeInv(s) && CanStep(s, S.Notice(t))
    ensures ThreeInv(S.DoNotice(s, t))
  {
    NoticeIs(s, t);
    var e := Noted(s.slots[0]);
    var x := S.Put(s, 2, e);
    assert OnceInv(x) by { PutOnce(s, 2, e); }
    NoticedSlots(e, s.slots[1], s.linking);
    ReadyThree(x, S.DoNotice(s, t));
  }

  lemma NoticedSlots(e: S.Desc, second: S.Desc, linking: Option<S.Submission>)
    requires TellsSecond(linking) && All(e.producers, 1) && Untold(linking) <= |e.producers| && e.fanout == []
    requires e.noticed && e.status == Pending && e.fanin == |e.producers| + |e.externals|
    requires e.faninRef == |e.producers| - Untold(linking) + |e.externals|
    requires Second(second, |e.producers| - Untold(linking))
    ensures SlotsOk([if e.faninRef >= e.fanin then e.(status := Ready) else e, second], linking)
  {
  }

  lemma DequeueThree(s: S.Slotted)
    requires OnceInv(s) && ThreeInv(s) && CanStep(s, S.Dequeue)
    ensures ThreeInv(S.DoDequeue(s))
  {
    var q, r := Queue(s), S.DoDequeue(s);
    assert q[0] == s.buf[s.head % |s.buf|];
    FirstIsThird(s);
    assert S.At(s, 2) == s.slots[0];
    DequeueEntered(s);
    assert Ids(r.jobs) == Ids(s.jobs) + [2];
    assert r.slots == [s.slots[0].(status := Running), s.slots[1]];
  }

  /** Only task 2 can wait in the queue, and then it has not been taken. */
  lemma FirstIsThird(s: S.Slotted)
    requires OnceInv(s) && ThreeInv(s) && s.head < s.tail
    ensures Queue(s)[0] == 2 && 2 !in Ids(s.jobs) && s.slots[0].status == Ready
  {
    var q, ids := Queue(s), Ids(s.jobs);
    assert Entered(s) == ids + q;
    assert forall i :: 0 <= i < |ids| ==> ids[i] != q[0] by {
      forall i | 0 <= i < |ids| ensures ids[i] != q[0] {
        assert Entered(s)[i] == ids[i] && Entered(s)[|ids|] == q[0];
      }
    }
    assert q[0] < 3;
  }

  /** The worker of task 2 goes on; slot 0 may change its status. */
  lemma ThirdGoesOn(s: S.Slotted, r: S.Slotted, j: nat, d: S.Desc, e: S.Desc, work: S.Work)
    requires Apart(s) && ThreeInv(s) && j < |s.jobs| && s.jobs[j].id == 2
    requires r == s.(slots := [d, e], jobs := s.jobs[j := S.Job(2, work)], ready := r.ready)
    requires SlotsOk(r.slots, s.linking) && d.producers == s.slots[0].producers
    requires JobOk(S.Job(2, work), |d.producers|, e.fanoutRef)
    ensures ThreeInv(r)
  {
    forall i | 0 <= i < |r.jobs| ensures JobOk(r.jobs[i], |d.producers|, e.fanoutRef) {
      if i != j {
        assert JobOk(s.jobs[i], |d.producers|, s.slots[1].fanoutRef);
      }
    }
    assert Ids(r.jobs) == Ids(s.jobs);
    assert Entered(r)[j] == 2;
  }

  /** Moves that only the worker of task 2 can make. */
  predicate IsOwn(m: S.Move) {
    m.Mark? || m.Store? || m.Lock? || m.StoreLocked? || m.Unlock?
  }

  /** The descriptor and the work after such a move. */
  function OwnDesc(d: S.Desc, m: S.Move): S.Desc {
    match m
    case Store(_) => d.(status := Completed)
    case Lock(_) => d.(locked := true)
    case StoreLocked(_) => d.(status := Completed, locked := true)
    case Unlock(_) => d.(locked := false)
    case _ => d
  }

  function OwnWork(d: S.Desc, m: S.Move): S.Work {
    match m
    case Mark(_) => S.Marked
    case Store(_) => S.Stored
    case Unlock(_) => S.Unlinking(d.producers)
    case _ => S.Walking(d.fanout)
  }

  lemma OwnIs(s: S.Slotted, m: S.Move)
    requires |s.slots| == 2 && CanStep(s, m) && IsOwn(m) && s.jobs[m.job].id == 2
    ensures var d, r := s.slots[0], S.DoMove(s, m);
            r == s.(slots := [OwnDesc(d, m), s.slots[1]], jobs := s.jobs[m.job := S.Job(2, OwnWork(d, m))],
                    ready := r.ready)
  {
    assert S.Own(s, m.job) == s.slots[0];
  }

  lemma OwnThree(s: S.Slotted, m: S.Move)
    requires Apart(s) && ThreeInv(s) && CanStep(s, m) && IsOwn(m)
    ensures ThreeInv(S.DoMove(s, m))
  {
    var j, d, e := m.job, s.slots[0], s.slots[1];
    WorkOk(s, j);
    assert s.jobs[j].id == 2;
    TakenIsTold(s, j);
    OwnIs(s, m);
    ThirdGoesOn(s, S.DoMove(s, m), j, OwnDesc(d, m), e, OwnWork(d, m));
  }

  /** Whatever is checked, slot 1 is not consumed and the ring does not move. */
  lemma ConsumeThree(s: S.Slotted, id: nat)
    requires ThreeInv(s) && s.slots[1].fanoutRef < s.slots[1].fanoutCount && id <= 2
    ensures ThreeInv(S.CheckConsumed(s, id))
  {
    var d, r := S.At(s, id), S.CheckConsumed(s, id);
    assert S.At(s, 1) == s.slots[1];
    if d.status == Completed && d.fanoutRef >= d.fanoutCount {
      assert id != 1 && d == s.slots[0];
      assert r.slots == [d.(status := Consumed), s.slots[1]] && r.last == 1;
      assert Entered(r) == Entered(s);
    }
  }

  lemma FinishThree(s: S.Slotted, j: nat)
    requires Apart(s) && ThreeInv(s) && CanStep(s, S.Finish(j))
    ensures ThreeInv(S.DoMove(s, S.Finish(j)))
  {
    var r := S.SetWork(s, j, S.Done);
    SecondStays(s);
    WorkOk(s, j);
    assert Ids(r.jobs) == Ids(s.jobs);
    assert Entered(r) == Entered(s);
    assert ThreeInv(r);
    ConsumeThree(r, s.jobs[j].id);
  }

  /** A worker of the first two tasks goes on, or slot 0 is released. */
  lemma OtherGoesOn(s: S.Slotted, r: S.Slotted, j: nat, work: S.Work, d: S.Desc)
    requires Apart(s) && ThreeInv(s) && j < |s.jobs| && s.jobs[j].id != 2
    requires JobOk(s.jobs[j].(work := work), |s.slots[0].producers|, s.slots[1].fanoutRef)
    requires d == s.slots[0].(fanoutRef := d.fanoutRef)
    requires r == s.(slots := [d, s.slots[1]], jobs := s.jobs[j := s.jobs[j].(work := work)])
    ensures ThreeInv(r) && r.slots[1].fanoutRef < r.slots[1].fanoutCount
  {
    SecondStays(s);
    assert Ids(r.jobs) == Ids(s.jobs);
    assert Entered(r) == Entered(s);
  }

  /** A leftover release of task 0 reaches slot 0. */
  lemma StaleUnlinkThree(s: S.Slotted, j: nat)
    requires Apart(s) && ThreeInv(s) && CanStep(s, S.Unlink(j)) && s.jobs[j].id == 1
    ensures ThreeInv(S.DoUnlink(s, j))
  {
    var todo, d := s.jobs[j].work.todo, s.slots[0];
    assert JobOk(s.jobs[j], |d.producers|, s.slots[1].fanoutRef);
    var work, e := S.Unlinking(todo[..|todo| - 1]), d.(fanoutRef := d.fanoutRef + 1);
    var r := s.(slots := [e, s.slots[1]], jobs := s.jobs[j := S.Job(1, work)]);
    StaleUnlinkIs(s, j, r);
    OtherGoesOn(s, r, j, work, e);
    ConsumeThree(r, 0);
  }

  lemma StaleUnlinkIs(s: S.Slotted, j: nat, r: S.Slotted)
    requires |s.slots| == 2 && CanStep(s, S.Unlink(j)) && s.jobs[j].id == 1 && All(s.jobs[j].work.todo, 0)
    requires var todo, d := s.jobs[j].work.todo, s.slots[0];
             r == s.(slots := [d.(fanoutRef := d.fanoutRef + 1), s.slots[1]],
                     jobs := s.jobs[j := S.Job(1, S.Unlinking(todo[..|todo| - 1]))])
    ensures S.DoUnlink(s, j) == S.CheckConsumed(r, 0)
  {
    var todo, d := s.jobs[j].work.todo, s.slots[0];
    assert todo[|todo| - 1] == 0 && S.At(s, 0) == d;
    assert S.Put(S.SetWork(s, j, S.Unlinking(todo[..|todo| - 1])), 0, d.(fanoutRef := d.fanoutRef + 1)) == r;
  }

  lemma UnlinkThree(s: S.Slotted, j: nat)
    requires Apart(s) && ThreeInv(s) && CanStep(s, S.Unlink(j)) && s.jobs[j].id == 2
    ensures ThreeInv(S.DoUnlink(s, j))
  {
    var todo, d, e := s.jobs[j].work.todo, s.slots[0], s.slots[1];
    TakenIsTold(s, j);
    assert todo[|todo| - 1] == 1;
    var work := S.Unlinking(todo[..|todo| - 1]);
    var r := S.Put(S.SetWork(s, j, work), 1, e.(fanoutRef := e.fanoutRef + 1));
    assert r.slots == [d, e.(fanoutRef := e.fanoutRef + 1)] && S.At(s, 1) == e;
    assert ThreeInv(r) by { ThirdGoesOn(s, r, j, d, e.(fanoutRef := e.fanoutRef + 1), work); }
    ConsumeThree(r, 1);
  }

  /** What the job of any worker looks like. */
  lemma WorkOk(s: S.Slotted, j: nat)
    requires ThreeInv(s) && j < |s.jobs|
    ensures JobOk(s.jobs[j], |s.slots[0].producers|, s.slots[1].fanoutRef)
    ensures s.jobs[j].work.Walking? ==> s.jobs[j].work.rest == []
    ensures s.jobs[j].work.Unlinking? && s.jobs[j].work.todo != [] ==> s.jobs[j].id == 1 || s.jobs[j].id == 2
  {
  }

  lemma MoveThree(s: S.Slotted, m: S.Move)
    requires OnceInv(s) && ThreeInv(s) && CanStep(s, m)
    ensures ThreeInv(S.DoMove(s, m))
  {
    OnceIsApart(s);
    match m
    case Publish(_, _) => assert false;
    case Link => LinkThree(s);
    case Check => CheckThree(s);
    case Dequeue => DequeueThree(s);
    case Walk(j) => WorkOk(s, j); assert false;
    case Unlink(j) =>
      WorkOk(s, j);
      if s.jobs[j].id == 1 { StaleUnlinkThree(s, j); } else { UnlinkThree(s, j); }
    case Finish(j) => FinishThree(s, j);
    case Notice(t) => NoticeThree(s, t);
    case SetReady(h) => SameJobs(s, S.DoMove(s, m));
    case Advance => assert S.At(s, 1) == s.slots[1]; SameJobs(s, S.AdvanceRing(s));
    case _ => OwnThree(s, m);
  }

  /** Task 1 has been queued, and task 2 is once it has been fed. */
  lemma ThreeLosesNothing(s: S.Slotted)
    requires ThreeInv(s)
    ensures NothingLost(s)
  {
    forall t: nat | Fed(s, t) ensures t in Entered(s) {
      if t == 1 {
        assert Entered(s) == Ids(s.jobs) + Queue(s);
      } else {
        assert t == 2 && S.At(s, 2) == s.slots[0];
      }
    }
  }
}

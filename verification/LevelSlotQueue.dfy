/** The ready queue of the level runtime on its slots, in every interleaving of the code as
    written: stale ids and reused slots included, waiting entries keep to slots of their own,
    so a queue as large as the window never overwrites one. */
module LevelSlotQueue {
  import opened Common
  import opened LevelProtocol
  import opened LevelSlotTheorems
  import Q = ReadyQueues
  import S = LevelSlots

  // ---- What every move keeps ------------------------------------------------------------

  /** Waiting entries are admitted ids in different slots, each marked READY. */
  ghost predicate WaitingOk(slots: seq<S.Desc>, q: seq<nat>, count: nat) {
    && |slots| > 0
    && (forall i :: 0 <= i < |q| ==> q[i] < count && slots[q[i] % |slots|].status == Ready)
    && (forall i, j :: 0 <= i < j < |q| ==> q[i] % |slots| != q[j] % |slots|)
  }

  predicate Active(job: S.Job) {
    job.work == S.Executing || job.work == S.Marked
  }

  /** Tasks that are being executed are in different slots, each marked RUNNING. */
  ghost predicate WorkersOk(slots: seq<S.Desc>, jobs: seq<S.Job>, count: nat) {
    && |slots| > 0
    && (forall j :: 0 <= j < |jobs| ==> jobs[j].id < count)
    && (forall j :: 0 <= j < |jobs| && Active(jobs[j]) ==> slots[jobs[j].id % |slots|].status == Running)
    && (forall j, k :: 0 <= j < k < |jobs| && Active(jobs[j]) && Active(jobs[k]) ==>
          jobs[j].id % |slots| != jobs[k].id % |slots|)
  }

  /** Retired tasks that still have their slot are CONSUMED; slots never used are PENDING. */
  ghost predicate RingOk(slots: seq<S.Desc>, count: nat, last: nat) {
    && |slots| > 0 && last <= count <= last + |slots|
    && (forall i: nat :: count - |slots| <= i < last ==> slots[i % |slots|].status == Consumed)
    && (forall x :: count <= x < |slots| ==> slots[x].status == Pending)
  }

  ghost predicate Below(list: seq<nat>, count: nat) {
    forall i :: 0 <= i < |list| ==> list[i] < count
  }

  predicate WalkBelow(work: S.Work, count: nat) {
    work.Walking? ==> forall i :: 0 <= i < |work.rest| ==> work.rest[i] < count
  }

  /** Every id on a list of consumers has been admitted. */
  ghost predicate NamesOk(s: S.Slotted) {
    && (forall x :: 0 <= x < |s.slots| ==> Below(s.slots[x].fanout, s.count))
    && (forall j :: 0 <= j < |s.jobs| ==> WalkBelow(s.jobs[j].work, s.count))
    && (s.linking.Some? ==> s.linking.value.tid < s.count)
  }

  function Queue(s: S.Slotted): seq<nat>
    requires |s.buf| > 0 && s.head <= s.tail
  {
    Q.Pending(s.buf, s.head, s.tail)
  }

  ghost predicate QueueInv(s: S.Slotted) {
    && 0 < |s.slots| <= |s.buf| && s.head <= s.tail
    && WaitingOk(s.slots, Queue(s), s.count) && WorkersOk(s.slots, s.jobs, s.count)
    && RingOk(s.slots, s.count, s.last) && NamesOk(s)
  }

  // ---- Writes that change no status --------------------------------------------------------

  ghost predicate SameStatus(slots: seq<S.Desc>, after: seq<S.Desc>) {
    |after| == |slots| && forall x :: 0 <= x < |slots| ==> after[x].status == slots[x].status
  }

  lemma SameStatusKeeps(slots: seq<S.Desc>, after: seq<S.Desc>, q: seq<nat>, jobs: seq<S.Job>, count: nat, last: nat)
    requires WaitingOk(slots, q, count) && WorkersOk(slots, jobs, count) && RingOk(slots, count, last)
    requires SameStatus(slots, after)
    ensures WaitingOk(after, q, count) && WorkersOk(after, jobs, count) && RingOk(after, count, last)
  {
  }

  /** Writing a descriptor without changing its status. */
  lemma PutKeeps(s: S.Slotted, id: nat, d: S.Desc)
    requires QueueInv(s) && d.status == S.At(s, id).status && Below(d.fanout, s.count)
    ensures QueueInv(S.Put(s, id, d))
  {
    SameStatusKeeps(s.slots, S.Put(s, id, d).slots, Queue(s), s.jobs, s.count, s.last);
  }

  // ---- Status changes -----------------------------------------------------------------------

  /** One slot changes its status to st; nothing waits or runs there. */
  lemma ChangeKeeps(slots: seq<S.Desc>, x: nat, d: S.Desc, q: seq<nat>, jobs: seq<S.Job>, count: nat, last: nat)
    requires WaitingOk(slots, q, count) && WorkersOk(slots, jobs, count) && RingOk(slots, count, last)
    requires x < |slots| && slots[x].status != Ready && slots[x].status != Running
    requires slots[x].status == Consumed ==> d.status == Consumed
    requires count <= x ==> d.status == Pending
    ensures var r := slots[x := d]; WaitingOk(r, q, count) && WorkersOk(r, jobs, count) && RingOk(r, count, last)
  {
  }

  /** Waiting entries and one more in a slot where none waits fill at most a window. */
  lemma WaitingBound(slots: seq<S.Desc>, q: seq<nat>, count: nat)
    requires WaitingOk(slots, q, count)
    ensures |q| <= |slots|
  {
    var places := seq(|q|, i requires 0 <= i < |q| => q[i] % |slots|);
    DistinctBounded(places, 0, |slots|);
  }

  /** An id joins the waiting entries; its slot has just become READY. */
  lemma JoinWaiting(slots: seq<S.Desc>, q: seq<nat>, count: nat, id: nat, d: S.Desc)
    requires WaitingOk(slots, q, count) && id < count && slots[id % |slots|].status != Ready && d.status == Ready
    ensures WaitingOk(slots[id % |slots| := d], q + [id], count)
  {
    var r, more := slots[id % |slots| := d], q + [id];
    forall i | 0 <= i < |more| ensures more[i] < count && r[more[i] % |r|].status == Ready { }
    forall i, j | 0 <= i < j < |more| ensures more[i] % |r| != more[j] % |r| {
      if j == |q| { assert slots[q[i] % |slots|].status == Ready; }
    }
  }

  /** The id of a slot that was not READY is put on the queue: it is appended. */
  lemma EnqueueKeeps(s: S.Slotted, id: nat, d: S.Desc)
    requires QueueInv(s) && id < s.count && d.status == Ready && Below(d.fanout, s.count)
    requires S.At(s, id).status == Pending
    ensures var r := S.Enqueue(S.Put(s, id, d), id);
            QueueInv(r) && Queue(r) == Queue(s) + [id]
  {
    var x, q := id % |s.slots|, Queue(s);
    var slots, r := s.slots[x := d], S.Enqueue(S.Put(s, id, d), id);
    assert x < s.count by { PlaceAtMost(id, |s.slots|); }
    assert WaitingOk(slots, q + [id], s.count) by { JoinWaiting(s.slots, q, s.count, id, d); }
    assert Queue(r) == q + [id] by {
      WaitingBound(slots, q + [id], s.count);
      Q.EnqueueKeeps(s.buf, s.head, s.tail, id);
    }
    BecomeReady(s.slots, x, d, s.jobs, s.count, s.last);
    assert NamesOk(r);
  }

  lemma PlaceAtMost(id: nat, w: nat)
    requires w > 0
    ensures id % w <= id
  {
  }

  lemma BecomeReady(slots: seq<S.Desc>, x: nat, d: S.Desc, jobs: seq<S.Job>, count: nat, last: nat)
    requires WorkersOk(slots, jobs, count) && RingOk(slots, count, last)
    requires x < |slots| && x < count && slots[x].status == Pending
    ensures var r := slots[x := d]; WorkersOk(r, jobs, count) && RingOk(r, count, last)
  {
  }

  lemma TryReadyKeeps(s: S.Slotted, id: nat)
    requires QueueInv(s) && id < s.count
    ensures QueueInv(S.TryReady(s, id))
    ensures var r := S.TryReady(s, id); Queue(r) == Queue(s) || Queue(r) == Queue(s) + [id]
  {
    var d := S.At(s, id);
    assert Below(d.fanout, s.count);
    if d.status == Pending && d.faninRef >= d.fanin { EnqueueKeeps(s, id, d.(status := Ready)); }
  }

  // ---- Retirement ---------------------------------------------------------------------------

  lemma {:induction false} CursorPasses(s: S.Slotted, cursor: nat, i: nat)
    requires |s.slots| > 0 && cursor <= i < S.Cursor(s, cursor) && cursor <= s.count
    ensures S.At(s, i).status == Consumed
    decreases s.count - cursor
  {
    if cursor < i { CursorPasses(s, cursor + 1, i); }
  }

  lemma AdvanceKeeps(s: S.Slotted)
    requires QueueInv(s)
    ensures QueueInv(S.AdvanceRing(s)) && Queue(S.AdvanceRing(s)) == Queue(s)
  {
    var r := S.AdvanceRing(s);
    forall i: nat | s.count - |s.slots| <= i < r.last ensures s.slots[i % |s.slots|].status == Consumed {
      if s.last <= i { CursorPasses(s, s.last, i); }
    }
  }

  lemma CheckConsumedKeeps(s: S.Slotted, id: nat)
    requires QueueInv(s)
    ensures QueueInv(S.CheckConsumed(s, id)) && Queue(S.CheckConsumed(s, id)) == Queue(s)
  {
    var d := S.At(s, id);
    if d.status == Completed && d.fanoutRef >= d.fanoutCount {
      var s1 := S.Put(s, id, d.(status := Consumed));
      ChangeKeeps(s.slots, id % |s.slots|, d.(status := Consumed), Queue(s), s.jobs, s.count, s.last);
      assert QueueInv(s1);
      AdvanceKeeps(s1);
    }
  }

  // ---- Workers ------------------------------------------------------------------------------

  /** A job that stays as active as it was, or was not active and is not. */
  lemma WorkKeeps(s: S.Slotted, j: nat, work: S.Work)
    requires QueueInv(s) && j < |s.jobs| && WalkBelow(work, s.count)
    requires Active(S.Job(0, work)) ==> Active(s.jobs[j])
    ensures QueueInv(S.SetWork(s, j, work))
  {
    assert WorkersOk(s.slots, S.SetWork(s, j, work).jobs, s.count);
  }

  /** The worker that ran a task marks its slot COMPLETED and goes on. */
  lemma StoreKeeps(s: S.Slotted, j: nat, d: S.Desc, work: S.Work)
    requires QueueInv(s) && j < |s.jobs| && Active(s.jobs[j]) && !Active(S.Job(0, work)) && WalkBelow(work, s.count)
    requires d.status == Completed && Below(d.fanout, s.count)
    ensures QueueInv(S.Progress(s, j, d, work))
  {
    var x, r := s.jobs[j].id % |s.slots|, S.Progress(s, j, d, work);
    assert r.slots == s.slots[x := d] && s.slots[x].status == Running;
    assert WaitingOk(r.slots, Queue(s), s.count);
    assert WorkersOk(r.slots, r.jobs, s.count);
    assert RingOk(r.slots, s.count, s.last);
  }

  lemma DequeueKeeps(s: S.Slotted)
    requires QueueInv(s) && s.head < s.tail
    ensures QueueInv(S.DoDequeue(s)) && Queue(S.DoDequeue(s)) == Queue(s)[1..] && s.buf[s.head % |s.buf|] == Queue(s)[0]
  {
    var t, r := s.buf[s.head % |s.buf|], S.DoDequeue(s);
    var x := t % |s.slots|;
    assert t == Queue(s)[0];
    assert Queue(r) == Queue(s)[1..];
    assert s.slots[x].status == Ready;
    assert WaitingOk(r.slots, Queue(s)[1..], s.count);
    TakeKeeps(s.slots, x, S.At(s, t).(status := Running), s.jobs, t, s.count, s.last);
  }

  lemma TakeKeeps(slots: seq<S.Desc>, x: nat, d: S.Desc, jobs: seq<S.Job>, t: nat, count: nat, last: nat)
    requires WorkersOk(slots, jobs, count) && RingOk(slots, count, last) && t < count && x == t % |slots|
    requires slots[x].status == Ready && d.status == Running
    ensures WorkersOk(slots[x := d], jobs + [S.Job(t, S.Executing)], count) && RingOk(slots[x := d], count, last)
  {
  }

  // ---- Submission ---------------------------------------------------------------------------

  /** The slot of the next id holds no waiting and no running task. */
  lemma NextSlotIdle(slots: seq<S.Desc>, count: nat, last: nat)
    requires RingOk(slots, count, last) && count < last + |slots|
    ensures slots[count % |slots|].status == Consumed || slots[count % |slots|].status == Pending
  {
    var w := |slots|;
    if count < w {
      assert count % w == count;
    } else {
      SameSlot(count, w);
      assert slots[(count - w) % w].status == Consumed;
    }
  }

  lemma SameSlot(n: nat, w: nat)
    requires w > 0 && n >= w
    ensures (n - w) % w == n % w
  {
    Distribute(w, (n - w) / w, 1);
    DivModUnique(n, (n - w) / w + 1, (n - w) % w, w);
  }

  lemma OtherSlot(slots: seq<S.Desc>, d: S.Desc, count: nat, i: nat)
    requires |slots| > 0 && i < count < i + |slots|
    ensures slots[count % |slots| := d][i % |slots|] == slots[i % |slots|]
  {
    ModInjective(i, count, |slots|);
  }

  lemma SmallMod(n: nat, w: nat)
    requires n < w
    ensures n % w == n
  {
  }

  lemma AdmitRing(slots: seq<S.Desc>, d: S.Desc, count: nat, last: nat)
    requires RingOk(slots, count, last) && count < last + |slots|
    ensures RingOk(slots[count % |slots| := d], count + 1, last)
  {
    var r := slots[count % |slots| := d];
    forall i: nat | count + 1 - |r| <= i < last ensures r[i % |r|].status == Consumed { OtherSlot(slots, d, count, i); }
    forall x | count + 1 <= x < |r| ensures r[x].status == Pending { SmallMod(count, |slots|); }
  }

  /** Nothing waits or runs in slot x. */
  lemma IdleKeeps(slots: seq<S.Desc>, x: nat, d: S.Desc, q: seq<nat>, jobs: seq<S.Job>, count: nat)
    requires WaitingOk(slots, q, count) && WorkersOk(slots, jobs, count)
    requires x < |slots| && slots[x].status != Ready && slots[x].status != Running
    ensures WaitingOk(slots[x := d], q, count + 1) && WorkersOk(slots[x := d], jobs, count + 1)
  {
  }

  function Opened(s: S.Slotted, t: Task, outputs: seq<nat>): S.Slotted
    requires |s.slots| > 0
  {
    S.Put(s, s.count, S.Shown(t, s.count)).(count := s.count + 1, producerOf := Owned(s.producerOf, outputs, s.count))
  }

  lemma OpenKeeps(s: S.Slotted, t: Task, outputs: seq<nat>)
    requires QueueInv(s) && s.linking.None? && s.count < s.last + |s.slots| && t.fanout == []
    ensures QueueInv(Opened(s, t, outputs)) && Queue(Opened(s, t, outputs)) == Queue(s)
  {
    var d := S.Shown(t, s.count);
    NextSlotIdle(s.slots, s.count, s.last);
    AdmitRing(s.slots, d, s.count, s.last);
    IdleKeeps(s.slots, s.count % |s.slots|, d, Queue(s), s.jobs, s.count);
  }

  /** A task without inputs is marked READY and queued in its own slot. */
  lemma PublishKeeps(s: S.Slotted, inputs: seq<nat>, outputs: seq<nat>)
    requires QueueInv(s) && s.linking.None? && s.count < s.last + |s.slots|
    ensures QueueInv(S.DoPublish(s, inputs, outputs))
    ensures Queue(S.DoPublish(s, inputs, outputs)) == Queue(s)
            || Queue(S.DoPublish(s, inputs, outputs)) == Queue(s) + [s.count]
  {
    var t := NewTask(S.Names(s), inputs, outputs);
    if t.fanin == 0 {
      // Opened as PENDING first, then marked READY and queued.
      var p := Opened(s, t.(status := Pending), outputs);
      OpenKeeps(s, t.(status := Pending), outputs);
      assert S.At(p, s.count) == S.Shown(t.(status := Pending), s.count);
      EnqueueKeeps(p, s.count, S.Shown(t, s.count));
      assert S.Put(p, s.count, S.Shown(t, s.count)) == Opened(s, t, outputs);
    } else {
      OpenKeeps(s, t, outputs);
      assert QueueInv(Opened(s, t, outputs).(linking := Some(S.Submission(s.count, t.producers))));
    }
  }

  lemma LinkKeeps(s: S.Slotted)
    requires QueueInv(s) && s.linking.Some? && s.linking.value.todo != []
    ensures QueueInv(S.DoLink(s)) && Queue(S.DoLink(s)) == Queue(s)
  {
    var c, p := s.linking.value.tid, s.linking.value.todo[0];
    var d := S.At(s, p);
    assert Below(d.fanout, s.count);
    var s1 := S.Put(s, p, d.(fanout := [c] + d.fanout, fanoutCount := d.fanoutCount + 1));
    assert QueueInv(s1) by { PutKeeps(s, p, d.(fanout := [c] + d.fanout, fanoutCount := d.fanoutCount + 1)); }
    LinkCredits(s1, c);
    var s2 := if d.status == Completed || d.status == Consumed then Credited(s1, c) else s1;
    assert S.DoLink(s) == s2.(linking := Some(S.Submission(c, s.linking.value.todo[1..])));
  }

  function Credited(s: S.Slotted, c: nat): S.Slotted
    requires |s.slots| > 0
  {
    S.Put(s, c, S.At(s, c).(faninRef := S.At(s, c).faninRef + 1))
  }

  lemma LinkCredits(s: S.Slotted, c: nat)
    requires QueueInv(s)
    ensures QueueInv(Credited(s, c)) && Queue(Credited(s, c)) == Queue(s)
  {
    assert Below(S.At(s, c).fanout, s.count);
    PutKeeps(s, c, S.At(s, c).(faninRef := S.At(s, c).faninRef + 1));
  }

  // ---- Every move ----------------------------------------------------------------------------

  lemma WalkKeeps(s: S.Slotted, j: nat)
    requires QueueInv(s) && CanStep(s, S.Walk(j))
    ensures QueueInv(S.DoWalk(s, j))
    ensures Queue(S.DoWalk(s, j)) == Queue(s) || Queue(S.DoWalk(s, j)) == Queue(s) + [s.jobs[j].work.rest[0]]
  {
    var rest := s.jobs[j].work.rest;
    var c, d := rest[0], S.At(s, rest[0]);
    assert WalkBelow(s.jobs[j].work, s.count) && Below(d.fanout, s.count);
    var s1 := S.SetWork(s, j, S.Walking(rest[1..]));
    assert QueueInv(s1) by { WorkKeeps(s, j, S.Walking(rest[1..])); }
    assert S.DoWalk(s, j) == S.TryReady(Credited(s1, c), c);
    LinkCredits(s1, c);
    TryReadyKeeps(Credited(s1, c), c);
  }

  lemma UnlinkKeeps(s: S.Slotted, j: nat)
    requires QueueInv(s) && CanStep(s, S.Unlink(j))
    ensures QueueInv(S.DoUnlink(s, j)) && Queue(S.DoUnlink(s, j)) == Queue(s)
  {
    var todo := s.jobs[j].work.todo;
    var p, d := todo[|todo| - 1], S.At(s, todo[|todo| - 1]);
    assert Below(d.fanout, s.count);
    var s1 := S.SetWork(s, j, S.Unlinking(todo[..|todo| - 1]));
    WorkKeeps(s, j, S.Unlinking(todo[..|todo| - 1]));
    PutKeeps(s1, p, d.(fanoutRef := d.fanoutRef + 1));
    CheckConsumedKeeps(S.Put(s1, p, d.(fanoutRef := d.fanoutRef + 1)), p);
  }

  /** A worker's own steps that leave its slot's status alone. */
  lemma ProgressKeeps(s: S.Slotted, j: nat, d: S.Desc, work: S.Work)
    requires QueueInv(s) && j < |s.jobs| && WalkBelow(work, s.count) && !Active(S.Job(0, work))
    requires d.status == S.Own(s, j).status && d.fanout == S.Own(s, j).fanout
    ensures QueueInv(S.Progress(s, j, d, work))
  {
    assert Below(S.Own(s, j).fanout, s.count);
    PutKeeps(s, s.jobs[j].id, d);
    WorkKeeps(S.Put(s, s.jobs[j].id, d), j, work);
  }

  lemma NoticeKeeps(s: S.Slotted, t: nat)
    requires QueueInv(s) && t < s.count
    ensures QueueInv(S.DoNotice(s, t))
    ensures Queue(S.DoNotice(s, t)) == Queue(s) || Queue(S.DoNotice(s, t)) == Queue(s) + [t]
  {
    var d := S.At(s, t);
    assert Below(d.fanout, s.count);
    var e := d.(noticed := true, faninRef := d.faninRef + |d.externals|);
    var s1 := S.Put(s, t, e);
    assert S.DoNotice(s, t) == S.TryReady(s1, t);
    assert QueueInv(s1) && Queue(s1) == Queue(s) by { PutKeeps(s, t, e); }
    TryReadyKeeps(s1, t);
  }

  /** The waiting entries after a move: the oldest is taken by a dequeue, otherwise at most
      one id is appended. */
  predicate QueueMoves(q: seq<nat>, after: seq<nat>, m: S.Move) {
    if m.Dequeue? then q != [] && after == q[1..]
    else after == q || (after != [] && after[..|after| - 1] == q)
  }

  lemma WorkerMoveKeeps(s: S.Slotted, m: S.Move)
    requires QueueInv(s) && CanStep(s, m)
    requires m.Mark? || m.Store? || m.Lock? || m.StoreLocked? || m.Unlock? || m.Finish?
    ensures QueueInv(S.DoMove(s, m)) && Queue(S.DoMove(s, m)) == Queue(s)
  {
    var j := m.job;
    assert Below(S.Own(s, j).fanout, s.count);
    match m
    case Mark(_) => WorkKeeps(s, j, S.Marked);
    case Store(_) => StoreKeeps(s, j, S.Own(s, j).(status := Completed), S.Stored);
    case Lock(_) => ProgressKeeps(s, j, S.Own(s, j).(locked := true), S.Walking(S.Own(s, j).fanout));
    case StoreLocked(_) =>
      StoreKeeps(s, j, S.Own(s, j).(status := Completed, locked := true), S.Walking(S.Own(s, j).fanout));
    case Unlock(_) => ProgressKeeps(s, j, S.Own(s, j).(locked := false), S.Unlinking(S.Own(s, j).producers));
    case Finish(_) =>
      WorkKeeps(s, j, S.Done);
      CheckConsumedKeeps(S.SetWork(s, j, S.Done), s.jobs[j].id);
  }

  lemma MoveKeepsQueue(s: S.Slotted, m: S.Move)
    requires QueueInv(s) && CanStep(s, m)
    ensures QueueInv(S.DoMove(s, m)) && QueueMoves(Queue(s), Queue(S.DoMove(s, m)), m)
  {
    match m
    case Publish(inputs, outputs) => PublishKeeps(s, inputs, outputs);
    case Link => LinkKeeps(s);
    case Check => TryReadyKeeps(s, s.linking.value.tid);
    case Dequeue => DequeueKeeps(s);
    case Walk(j) => WalkKeeps(s, j);
    case Unlink(j) => UnlinkKeeps(s, j);
    case Notice(t) => NoticeKeeps(s, t);
    case SetReady(_) =>
    case Advance => AdvanceKeeps(s);
    case _ => WorkerMoveKeeps(s, m);
  }

  lemma StartKeeps(window: nat, capacity: nat)
    requires 0 < window <= capacity
    ensures QueueInv(S.Start(window, capacity)) && Queue(S.Start(window, capacity)) == []
  {
  }

  lemma {:induction false} RunKeepsQueue(run: SlotRun, k: nat)
    requires IsSlotRun(run) && k < |run.states|
    ensures QueueInv(run.states[k])
  {
    if k == 0 {
      StartKeeps(run.window, run.capacity);
    } else {
      RunKeepsQueue(run, k - 1);
      MoveKeepsQueue(run.states[k - 1], run.moves[k - 1]);
    }
  }

  /** In every interleaving of the code as written at most a window of entries waits in the
      ready queue, in different slots, each marked READY. */
  lemma QueueWithinWindow(run: SlotRun, k: nat)
    requires IsSlotRun(run) && k < |run.states|
    ensures var s := run.states[k];
            && |s.buf| == run.capacity && |s.slots| == run.window && s.head <= s.tail <= s.head + run.window
            && WaitingOk(s.slots, Queue(s), s.count)
  {
    RunKeepsQueue(run, k);
    BufferKept(run, k);
    WaitingBound(run.states[k].slots, Queue(run.states[k]), run.states[k].count);
  }

  /** So a queue as large as the window never overwrites a waiting entry: every move takes
      the oldest entry, appends one, or leaves the waiting entries as they are. */
  lemma NeverOverwrites(run: SlotRun, k: nat)
    requires IsSlotRun(run) && k < |run.moves|
    ensures var s, r := run.states[k], run.states[k + 1];
            && |s.buf| > 0 && s.head <= s.tail && |r.buf| > 0 && r.head <= r.tail
            && QueueMoves(Queue(s), Queue(r), run.moves[k])
  {
    RunKeepsQueue(run, k);
    MoveKeepsQueue(run.states[k], run.moves[k]);
  }
}

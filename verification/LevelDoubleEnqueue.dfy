/** When the level runtime as written puts an id on the ready queue twice. With at most one
    admission more than the window it never does; with two more, the leftover entry of a
    walk can reach a slot that has been reused and queue the old id again. */
module LevelDoubleEnqueue {
  import opened Common
  import opened LevelProtocol
  import opened LevelSlotTheorems
  import opened LevelSlotQueue
  import R = TaskRings

  // ---- Up to one admission more than the window ---------------------------------------------

  predicate NotOn(list: seq<nat>, id: nat) {
    id !in list
  }

  predicate NotWalked(work: S.Work, id: nat) {
    work.Walking? ==> NotOn(work.rest, id)
  }

  /** The first task has no producers, so it is on no list of consumers. */
  ghost predicate FirstIsRoot(s: S.Slotted) {
    && (forall x :: 0 <= x < |s.slots| ==> NotOn(s.slots[x].fanout, 0))
    && (forall j :: 0 <= j < |s.jobs| ==> NotWalked(s.jobs[j].work, 0))
    && (s.linking.Some? ==> s.linking.value.tid + 1 == s.count && (s.count == 1 ==> s.linking.value.todo == []))
    && (s.count == 0 ==> s.producerOf == map[])
  }

  /** A slot that is PENDING belongs to a task that has not been queued. */
  ghost predicate PendingIsNew(s: S.Slotted)
    requires |s.slots| > 0 && |s.buf| > 0 && s.head <= s.tail
  {
    forall i: nat :: R.Owned(s.count, |s.slots|, i) && S.At(s, i).status == Pending ==> i !in Entered(s)
  }

  ghost predicate OnceInv(s: S.Slotted) {
    && QueueInv(s) && s.count <= |s.slots| + 1
    && Distinct(Entered(s)) && PendingIsNew(s) && FirstIsRoot(s)
  }

  /** No slot becomes PENDING and nothing is queued. */
  lemma QuietKeepsNew(s: S.Slotted, r: S.Slotted)
    requires QueueInv(s) && QueueInv(r) && PendingIsNew(s) && Distinct(Entered(s))
    requires r.count == s.count && |r.slots| == |s.slots| && Entered(r) == Entered(s)
    requires forall x :: 0 <= x < |s.slots| && r.slots[x].status == Pending ==> s.slots[x].status == Pending
    ensures PendingIsNew(r) && Distinct(Entered(r))
  {
  }

  /** A task that has its slot is queued as its slot goes from PENDING to READY. */
  lemma JoinKeepsNew(s: S.Slotted, r: S.Slotted, id: nat)
    requires QueueInv(s) && QueueInv(r) && PendingIsNew(s) && Distinct(Entered(s))
    requires r.count == s.count && |r.slots| == |s.slots| && Entered(r) == Entered(s) + [id]
    requires R.Owned(s.count, |s.slots|, id) && S.At(s, id).status == Pending && S.At(r, id).status != Pending
    requires forall x :: 0 <= x < |s.slots| && r.slots[x].status == Pending ==> s.slots[x].status == Pending
    ensures PendingIsNew(r) && Distinct(Entered(r))
  {
    DistinctAppend(Entered(s), id);
  }

  /** With at most window + 1 admissions every id but the first still has its slot. */
  lemma OwnedButFirst(count: nat, w: nat, id: nat)
    requires count <= w + 1 && 0 < id < count
    ensures R.Owned(count, w, id)
  {
  }

  lemma TryReadyOnce(s: S.Slotted, id: nat)
    requires QueueInv(s) && PendingIsNew(s) && Distinct(Entered(s)) && FirstIsRoot(s)
    requires R.Owned(s.count, |s.slots|, id)
    ensures var r := S.TryReady(s, id); QueueInv(r) && PendingIsNew(r) && Distinct(Entered(r)) && FirstIsRoot(r)
    ensures S.TryReady(s, id).count == s.count && |S.TryReady(s, id).slots| == |s.slots|
  {
    var d, r := S.At(s, id), S.TryReady(s, id);
    TryReadyKeeps(s, id);
    if d.status == Pending && d.faninRef >= d.fanin {
      assert Below(d.fanout, s.count);
      EnqueueKeeps(s, id, d.(status := Ready));
      assert Entered(r) == Entered(s) + [id];
      JoinKeepsNew(s, r, id);
      assert NotOn(d.fanout, 0);
    }
  }

  // ---- Moves that queue nothing ----------------------------------------------------------------

  predicate QueuesNothing(m: S.Move) {
    !m.Publish? && !m.Check? && !m.Walk? && !m.Notice?
  }

  /** r may differ from s in work, counts, lists and forward steps of status. */
  ghost predicate Onward(s: S.Slotted, r: S.Slotted) {
    && r.count == s.count && |r.slots| == |s.slots| && |r.jobs| == |s.jobs|
    && (forall j :: 0 <= j < |s.jobs| ==> r.jobs[j].id == s.jobs[j].id)
    && (forall x :: 0 <= x < |s.slots| && r.slots[x].status == Pending ==> s.slots[x].status == Pending)
  }

  lemma PutOnward(s: S.Slotted, id: nat, d: S.Desc)
    requires |s.slots| > 0 && (d.status == Pending ==> S.At(s, id).status == Pending)
    ensures Onward(s, S.Put(s, id, d))
  {
  }

  lemma CheckConsumedOnward(s: S.Slotted, id: nat)
    requires |s.slots| > 0
    ensures Onward(s, S.CheckConsumed(s, id))
  {
  }

  lemma OnwardChain(a: S.Slotted, b: S.Slotted, c: S.Slotted)
    requires Onward(a, b) && Onward(b, c)
    ensures Onward(a, c)
  {
  }

  lemma UnlinkOnward(s: S.Slotted, j: nat)
    requires CanStep(s, S.Unlink(j))
    ensures Onward(s, S.DoUnlink(s, j))
  {
    var todo := s.jobs[j].work.todo;
    var p, s1 := todo[|todo| - 1], S.SetWork(s, j, S.Unlinking(todo[..|todo| - 1]));
    var d := S.At(s, p);
    var s2 := S.Put(s1, p, d.(fanoutRef := d.fanoutRef + 1));
    assert Onward(s, s2);
    CheckConsumedOnward(s2, p);
    OnwardChain(s, s2, S.DoUnlink(s, j));
  }

  lemma LinkOnward(s: S.Slotted)
    requires CanStep(s, S.Link)
    ensures Onward(s, S.DoLink(s))
  {
    var c, p := s.linking.value.tid, s.linking.value.todo[0];
    var d := S.At(s, p);
    var s1 := S.Put(s, p, d.(fanout := [c] + d.fanout, fanoutCount := d.fanoutCount + 1));
    PutOnward(s, p, d.(fanout := [c] + d.fanout, fanoutCount := d.fanoutCount + 1));
    PutOnward(s1, c, S.At(s1, c).(faninRef := S.At(s1, c).faninRef + 1));
    OnwardChain(s, s1, Credited(s1, c));
  }

  lemma QuietOnward(s: S.Slotted, m: S.Move)
    requires CanStep(s, m) && QueuesNothing(m) && !m.Dequeue?
    ensures Onward(s, S.DoMove(s, m))
  {
    match m
    case Link => LinkOnward(s);
    case Unlink(j) => UnlinkOnward(s, j);
    case Finish(j) => CheckConsumedOnward(S.SetWork(s, j, S.Done), s.jobs[j].id);
    case _ =>
  }

  lemma SameIds(s: S.Slotted, r: S.Slotted)
    requires Onward(s, r)
    ensures Ids(r.jobs) == Ids(s.jobs)
  {
  }

  lemma DequeueEntered(s: S.Slotted)
    requires QueueInv(s) && s.head < s.tail
    ensures QueueInv(S.DoDequeue(s)) && Entered(S.DoDequeue(s)) == Entered(s)
  {
    DequeueKeeps(s);
    var r, q := S.DoDequeue(s), Queue(s);
    assert Ids(r.jobs) == Ids(s.jobs) + [q[0]];
    assert q == [q[0]] + q[1..];
  }

  // ---- The first task stays on no list -----------------------------------------------------------

  lemma LinkRoot(s: S.Slotted)
    requires CanStep(s, S.Link) && FirstIsRoot(s)
    ensures FirstIsRoot(S.DoLink(s))
  {
    var c, p := s.linking.value.tid, s.linking.value.todo[0];
    var d, r := S.At(s, p), S.DoLink(s);
    assert NotOn(d.fanout, 0);
    forall x | 0 <= x < |r.slots| ensures NotOn(r.slots[x].fanout, 0) { assert NotOn(s.slots[x].fanout, 0); }
  }

  lemma CheckConsumedRoot(s: S.Slotted, id: nat)
    requires |s.slots| > 0 && FirstIsRoot(s)
    ensures FirstIsRoot(S.CheckConsumed(s, id))
  {
    assert NotOn(S.At(s, id).fanout, 0);
  }

  lemma UnlinkRoot(s: S.Slotted, j: nat)
    requires CanStep(s, S.Unlink(j)) && FirstIsRoot(s)
    ensures FirstIsRoot(S.DoUnlink(s, j))
  {
    var todo := s.jobs[j].work.todo;
    var p, s1 := todo[|todo| - 1], S.SetWork(s, j, S.Unlinking(todo[..|todo| - 1]));
    assert NotOn(S.At(s, p).fanout, 0);
    CheckConsumedRoot(S.Put(s1, p, S.At(s, p).(fanoutRef := S.At(s, p).fanoutRef + 1)), p);
  }

  lemma QuietRoot(s: S.Slotted, m: S.Move)
    requires CanStep(s, m) && QueuesNothing(m) && FirstIsRoot(s)
    ensures FirstIsRoot(S.DoMove(s, m))
  {
    match m
    case Link => LinkRoot(s);
    case Unlink(j) => UnlinkRoot(s, j);
    case Finish(j) => CheckConsumedRoot(S.SetWork(s, j, S.Done), s.jobs[j].id);
    case Dequeue => assert NotOn(S.At(s, s.buf[s.head % |s.buf|]).fanout, 0);
    case Mark(_) =>
    case SetReady(_) =>
    case Advance =>
    case Store(j) => assert NotOn(S.Own(s, j).fanout, 0);
    case Lock(j) => assert NotOn(S.Own(s, j).fanout, 0);
    case StoreLocked(j) => assert NotOn(S.Own(s, j).fanout, 0);
    case Unlock(j) => assert NotOn(S.Own(s, j).fanout, 0);
  }

  lemma QuietOnce(s: S.Slotted, m: S.Move)
    requires OnceInv(s) && CanStep(s, m) && QueuesNothing(m)
    ensures OnceInv(S.DoMove(s, m))
  {
    var r := S.DoMove(s, m);
    MoveKeepsQueue(s, m);
    QuietRoot(s, m);
    MoveKeepsSizes(s, m, r);
    if m.Dequeue? {
      DequeueEntered(s);
    } else {
      QuietOnward(s, m);
      SameIds(s, r);
      QuietWaiting(s, m);
    }
    QuietKeepsNew(s, r);
  }

  lemma QuietWaiting(s: S.Slotted, m: S.Move)
    requires QueueInv(s) && CanStep(s, m) && QueuesNothing(m) && !m.Dequeue?
    ensures S.DoMove(s, m).buf == s.buf && S.DoMove(s, m).head == s.head && S.DoMove(s, m).tail == s.tail
  {
  }

  // ---- Moves that may queue -----------------------------------------------------------------------

  /** Work and counts change, no status does. */
  lemma SameStatusOnce(s: S.Slotted, r: S.Slotted)
    requires OnceInv(s) && QueueInv(r) && FirstIsRoot(r) && Onward(s, r)
    requires r.buf == s.buf && r.head == s.head && r.tail == s.tail
    ensures OnceInv(r)
  {
    SameIds(s, r);
    QuietKeepsNew(s, r);
  }

  lemma WalkOnce(s: S.Slotted, j: nat)
    requires OnceInv(s) && CanStep(s, S.Walk(j))
    ensures OnceInv(S.DoWalk(s, j))
  {
    var rest := s.jobs[j].work.rest;
    var c, s1 := rest[0], S.SetWork(s, j, S.Walking(rest[1..]));
    assert WalkBelow(s.jobs[j].work, s.count) && NotWalked(s.jobs[j].work, 0) && c in rest;
    assert S.DoWalk(s, j) == S.TryReady(Credited(s1, c), c);
    assert QueueInv(s1) by { WorkKeeps(s, j, S.Walking(rest[1..])); }
    assert FirstIsRoot(s1);
    assert OnceInv(Credited(s1, c)) by { CreditOnce(s, s1, c); }
    OwnedButFirst(s.count, |s.slots|, c);
    TryReadyOnce(Credited(s1, c), c);
  }

  lemma CreditOnce(s: S.Slotted, s1: S.Slotted, c: nat)
    requires OnceInv(s) && QueueInv(s1) && FirstIsRoot(s1) && Onward(s, s1)
    requires s1.buf == s.buf && s1.head == s.head && s1.tail == s.tail
    ensures OnceInv(Credited(s1, c))
  {
    LinkCredits(s1, c);
    var d := S.At(s1, c);
    assert NotOn(d.fanout, 0);
    PutOnward(s1, c, d.(faninRef := d.faninRef + 1));
    OnwardChain(s, s1, Credited(s1, c));
    SameStatusOnce(s, Credited(s1, c));
  }

  /** A write that leaves status and consumers alone. */
  lemma PutOnce(s: S.Slotted, id: nat, d: S.Desc)
    requires OnceInv(s) && d.status == S.At(s, id).status && d.fanout == S.At(s, id).fanout
    ensures OnceInv(S.Put(s, id, d))
  {
    assert Below(d.fanout, s.count) && NotOn(d.fanout, 0);
    PutKeeps(s, id, d);
    PutOnward(s, id, d);
    SameStatusOnce(s, S.Put(s, id, d));
  }

  lemma NoticeOnce(s: S.Slotted, t: nat)
    requires OnceInv(s) && CanStep(s, S.Notice(t))
    ensures OnceInv(S.DoNotice(s, t))
  {
    var d := S.At(s, t);
    var s1 := S.Put(s, t, d.(noticed := true, faninRef := d.faninRef + |d.externals|));
    assert OnceInv(s1) by { PutOnce(s, t, d.(noticed := true, faninRef := d.faninRef + |d.externals|)); }
    assert S.DoNotice(s, t) == S.TryReady(s1, t);
    TryReadyOnce(s1, t);
  }

  lemma CheckOnce(s: S.Slotted)
    requires OnceInv(s) && CanStep(s, S.Check)
    ensures OnceInv(S.DoMove(s, S.Check))
  {
    TryReadyOnce(s, s.linking.value.tid);
  }

  // ---- Submission ----------------------------------------------------------------------------------

  /** With nothing published there is no producer to find. */
  lemma {:induction false} NoneWithin(l: Level, inputs: seq<nat>)
    requires l.producerOf == map[]
    ensures Within(l, inputs) == []
  {
    if inputs != [] { NoneWithin(l, inputs[..|inputs| - 1]); }
  }

  lemma PublishRoot(s: S.Slotted, inputs: seq<nat>, outputs: seq<nat>)
    requires QueueInv(s) && FirstIsRoot(s) && CanStep(s, S.Publish(inputs, outputs))
    ensures FirstIsRoot(S.DoPublish(s, inputs, outputs))
  {
    if s.count == 0 { NoneWithin(S.Names(s), inputs); }
  }

  /** The new task's slot now belongs to it, and it has not been queued. */
  lemma OpenOnce(s: S.Slotted, t: Task, outputs: seq<nat>)
    requires OnceInv(s) && s.linking.None? && s.count < s.last + |s.slots| && s.count <= |s.slots| && t.fanout == []
    ensures var r := Opened(s, t, outputs);
            QueueInv(r) && PendingIsNew(r) && Entered(r) == Entered(s) && s.count !in Entered(s)
  {
    var r := Opened(s, t, outputs);
    OpenKeeps(s, t, outputs);
    forall x | x in Entered(s) ensures x < s.count { EnteredBelow(s, x); }
    forall i: nat | R.Owned(r.count, |r.slots|, i) && S.At(r, i).status == Pending ensures i !in Entered(r) {
      if i < s.count { R.OwnedApart(r.count, |r.slots|, i, s.count); }
    }
  }

  lemma EnteredBelow(s: S.Slotted, x: nat)
    requires QueueInv(s) && x in Entered(s)
    ensures x < s.count
  {
    var i :| 0 <= i < |Entered(s)| && Entered(s)[i] == x;
    if i >= |s.jobs| { assert Queue(s)[i - |s.jobs|] == x; }
  }

  lemma PublishOnce(s: S.Slotted, inputs: seq<nat>, outputs: seq<nat>)
    requires OnceInv(s) && CanStep(s, S.Publish(inputs, outputs)) && s.count <= |s.slots|
    ensures OnceInv(S.DoPublish(s, inputs, outputs))
  {
    var t, r := NewTask(S.Names(s), inputs, outputs), S.DoPublish(s, inputs, outputs);
    PublishKeeps(s, inputs, outputs);
    PublishRoot(s, inputs, outputs);
    OpenOnce(s, t, outputs);
    if t.fanin == 0 {
      OpenOnce(s, t.(status := Pending), outputs);
      QueuedOnPublish(s, inputs, outputs);
      DistinctAppend(Entered(s), s.count);
      forall i: nat | R.Owned(r.count, |r.slots|, i) && S.At(r, i).status == Pending ensures i !in Entered(r) {
        assert S.At(r, i) == S.At(Opened(s, t, outputs), i);
      }
    } else {
      assert r == Opened(s, t, outputs).(linking := Some(S.Submission(s.count, t.producers)));
      assert Entered(r) == Entered(s);
    }
  }

  lemma QueuedOnPublish(s: S.Slotted, inputs: seq<nat>, outputs: seq<nat>)
    requires QueueInv(s) && CanStep(s, S.Publish(inputs, outputs)) && NewTask(S.Names(s), inputs, outputs).fanin == 0
    ensures var r := S.DoPublish(s, inputs, outputs); QueueInv(r) && Entered(r) == Entered(s) + [s.count]
  {
    var r := S.DoPublish(s, inputs, outputs);
    PublishKeeps(s, inputs, outputs);
    assert |Queue(r)| == |Queue(s)| + 1;
    assert Entered(r) == Ids(s.jobs) + (Queue(s) + [s.count]);
  }

  lemma MoveOnce(s: S.Slotted, m: S.Move)
    requires OnceInv(s) && CanStep(s, m) && (m.Publish? ==> s.count <= |s.slots|)
    ensures OnceInv(S.DoMove(s, m))
  {
    match m
    case Publish(inputs, outputs) => PublishOnce(s, inputs, outputs);
    case Check => CheckOnce(s);
    case Walk(j) => WalkOnce(s, j);
    case Notice(t) => NoticeOnce(s, t);
    case _ => QuietOnce(s, m);
  }

  /** Up to one admission more than the window, in every interleaving of the code as written
      and whatever slots are reused, no id is ever put on the ready queue twice. */
  lemma {:induction false} QueuedAtMostOnce(run: SlotRun, k: nat)
    requires IsSlotRun(run) && k < |run.states| && run.states[k].count <= run.window + 1
    ensures OnceInv(run.states[k])
  {
    if k == 0 {
      StartKeeps(run.window, run.capacity);
      assert Entered(run.states[0]) == [];
    } else {
      var s, m := run.states[k - 1], run.moves[k - 1];
      MoveKeepsSizes(s, m, run.states[k]);
      BufferKept(run, k - 1);
      QueuedAtMostOnce(run, k - 1);
      MoveOnce(s, m);
    }
  }
}

/** A task of the level runtime on its slots that no continuation will ever queue: it is on
    nobody's list of consumers, and it keeps the ring from moving past it. */
module LevelDoomed {
  import opened Common
  import opened LevelProtocol
  import opened LevelSlotTheorems
  import opened LevelSlotQueue
  import opened LevelDoubleEnqueue

  /** The task whose wake-up was lost. */
  const VICTIM: nat := 2

  /** Its descriptor: it waits for one input and no external one. */
  predicate Stuck(d: S.Desc) {
    d.status == Pending && d.faninRef == 0 && d.fanin == 1 && d.externals == []
  }

  ghost predicate OnNoList(s: S.Slotted, id: nat) {
    && (forall x :: 0 <= x < |s.slots| ==> NotOn(s.slots[x].fanout, id))
    && (forall j :: 0 <= j < |s.jobs| ==> NotWalked(s.jobs[j].work, id))
  }

  /** Only ids from 0 up to two beyond the window have been admitted, so slot 2 is the
      victim's alone. */
  ghost predicate Doomed(s: S.Slotted) {
    && QueueInv(s) && |s.slots| >= 4 && |s.slots| < s.count <= |s.slots| + 2 && s.last <= VICTIM
    && Stuck(s.slots[VICTIM]) && OnNoList(s, VICTIM)
    && (s.linking.Some? ==> s.linking.value.tid > VICTIM)
    && VICTIM !in Entered(s)
  }

  lemma OtherSlot(id: nat, w: nat)
    requires w >= 4 && id < w + 2 && id != VICTIM
    ensures id % w != VICTIM
  {
    if id >= w { DivModUnique(id, 1, id - w, w); }
  }

  /** The victim's slot is as it was, but for its own consumers and their releases. */
  predicate SameVictim(d: S.Desc, e: S.Desc) {
    e.status == d.status && e.faninRef == d.faninRef && e.fanin == d.fanin && e.externals == d.externals
  }

  lemma StaysDoomed(s: S.Slotted, r: S.Slotted)
    requires Doomed(s) && QueueInv(r) && |r.slots| == |s.slots| && s.count <= r.count <= |r.slots| + 2
             && r.last <= VICTIM
    requires SameVictim(s.slots[VICTIM], r.slots[VICTIM]) && OnNoList(r, VICTIM)
    requires r.linking.Some? ==> r.linking.value.tid > VICTIM
    requires VICTIM !in Entered(r)
    ensures Doomed(r)
  {
  }

  // ---- What the moves do to the victim ------------------------------------------------------

  lemma {:induction false} CursorStops(s: S.Slotted, cursor: nat)
    requires |s.slots| > VICTIM && cursor <= VICTIM && s.slots[VICTIM].status == Pending
    ensures S.Cursor(s, cursor) <= VICTIM
    decreases VICTIM - cursor
  {
    if cursor < VICTIM { CursorStops(s, cursor + 1); }
  }

  /** Consumption and retirement stop at the victim. */
  lemma ConsumeStops(s: S.Slotted, id: nat)
    requires |s.slots| > VICTIM && s.last <= VICTIM && s.slots[VICTIM].status == Pending
    ensures var r := S.CheckConsumed(s, id);
            && r.last <= VICTIM && |r.slots| == |s.slots| && r.slots[VICTIM] == s.slots[VICTIM]
            && r == s.(slots := r.slots, last := r.last)
            && forall x :: 0 <= x < |s.slots| ==> r.slots[x].fanout == s.slots[x].fanout
  {
    var d := S.At(s, id);
    if d.status == Completed && d.fanoutRef >= d.fanoutCount {
      CursorStops(S.Put(s, id, d.(status := Consumed)), s.last);
    }
  }

  lemma NotQueued(s: S.Slotted, i: nat)
    requires QueueInv(s) && VICTIM !in Entered(s)
    ensures i < |s.jobs| ==> s.jobs[i].id != VICTIM
    ensures i < |Queue(s)| ==> Queue(s)[i] != VICTIM
  {
    var e := Entered(s);
    if i < |s.jobs| { assert e[i] == s.jobs[i].id; }
    if i < |Queue(s)| { assert e[|s.jobs| + i] == Queue(s)[i]; }
  }

  /** A write to another slot, or to the victim's own consumers. */
  lemma PutDoomed(s: S.Slotted, id: nat, d: S.Desc)
    requires Doomed(s) && d.status == S.At(s, id).status && Below(d.fanout, s.count) && NotOn(d.fanout, VICTIM)
    requires id % |s.slots| == VICTIM ==> SameVictim(S.At(s, id), d)
    ensures Doomed(S.Put(s, id, d))
  {
    PutKeeps(s, id, d);
    var r := S.Put(s, id, d);
    assert Entered(r) == Entered(s);
    assert OnNoList(r, VICTIM);
    StaysDoomed(s, r);
  }

  lemma WorkDoomed(s: S.Slotted, j: nat, work: S.Work)
    requires Doomed(s) && j < |s.jobs| && WalkBelow(work, s.count) && NotWalked(work, VICTIM)
    requires Active(S.Job(0, work)) ==> Active(s.jobs[j])
    ensures Doomed(S.SetWork(s, j, work))
  {
    WorkKeeps(s, j, work);
    var r := S.SetWork(s, j, work);
    assert Ids(r.jobs) == Ids(s.jobs);
    StaysDoomed(s, r);
  }

  lemma TryReadyDoomed(s: S.Slotted, id: nat)
    requires Doomed(s) && id < s.count && id != VICTIM
    ensures Doomed(S.TryReady(s, id))
  {
    var d, r := S.At(s, id), S.TryReady(s, id);
    TryReadyKeeps(s, id);
    OtherSlot(id, |s.slots|);
    assert NotOn(d.fanout, VICTIM);
    assert r.jobs == s.jobs && (Queue(r) == Queue(s) || Queue(r) == Queue(s) + [id]);
    assert VICTIM !in Entered(r) by {
      if Queue(r) == Queue(s) { assert Entered(r) == Entered(s); } else { assert Entered(r) == Entered(s) + [id]; }
    }
    StaysDoomed(s, r);
  }

  lemma ConsumeDoomed(s: S.Slotted, id: nat)
    requires Doomed(s)
    ensures Doomed(S.CheckConsumed(s, id))
  {
    var r := S.CheckConsumed(s, id);
    CheckConsumedKeeps(s, id);
    ConsumeStops(s, id);
    assert Entered(r) == Entered(s);
    assert OnNoList(r, VICTIM);
    StaysDoomed(s, r);
  }

  // ---- Every move -----------------------------------------------------------------------------

  lemma CreditDoomed(s: S.Slotted, c: nat)
    requires Doomed(s) && c < s.count && c != VICTIM
    ensures Doomed(Credited(s, c))
  {
    OtherSlot(c, |s.slots|);
    var d := S.At(s, c);
    assert Below(d.fanout, s.count) && NotOn(d.fanout, VICTIM);
    PutDoomed(s, c, d.(faninRef := d.faninRef + 1));
  }

  lemma LinkDoomed(s: S.Slotted)
    requires Doomed(s) && CanStep(s, S.Link)
    ensures Doomed(S.DoLink(s))
  {
    var c, p := s.linking.value.tid, s.linking.value.todo[0];
    var d := S.At(s, p);
    var e := d.(fanout := [c] + d.fanout, fanoutCount := d.fanoutCount + 1);
    assert Below(d.fanout, s.count) && NotOn(d.fanout, VICTIM);
    var s1 := S.Put(s, p, e);
    assert Doomed(s1) by { PutDoomed(s, p, e); }
    CreditDoomed(s1, c);
    var s2 := if d.status == Completed || d.status == Consumed then Credited(s1, c) else s1;
    RelinkDoomed(s2, c, s.linking.value.todo[1..]);
    assert S.DoLink(s) == s2.(linking := Some(S.Submission(c, s.linking.value.todo[1..])));
  }

  lemma RelinkDoomed(s: S.Slotted, c: nat, todo: seq<nat>)
    requires Doomed(s) && s.linking.Some? && s.linking.value.tid == c
    ensures Doomed(s.(linking := Some(S.Submission(c, todo))))
  {
    var r := s.(linking := Some(S.Submission(c, todo)));
    assert QueueInv(r) && Entered(r) == Entered(s) && OnNoList(r, VICTIM);
  }

  lemma CheckDoomed(s: S.Slotted)
    requires Doomed(s) && CanStep(s, S.Check)
    ensures Doomed(S.DoMove(s, S.Check))
  {
    var m := S.TryReady(s, s.linking.value.tid);
    TryReadyDoomed(s, s.linking.value.tid);
    var r := m.(linking := None);
    assert QueueInv(r) && Entered(r) == Entered(m) && OnNoList(r, VICTIM);
  }

  lemma DequeueDoomed(s: S.Slotted)
    requires Doomed(s) && CanStep(s, S.Dequeue)
    ensures Doomed(S.DoDequeue(s))
  {
    var t, r := s.buf[s.head % |s.buf|], S.DoDequeue(s);
    DequeueEntered(s);
    DequeueKeeps(s);
    NotQueued(s, 0);
    OtherSlot(t, |s.slots|);
    assert NotOn(S.At(s, t).fanout, VICTIM);
    assert OnNoList(r, VICTIM);
    StaysDoomed(s, r);
  }

  lemma WalkDoomed(s: S.Slotted, j: nat)
    requires Doomed(s) && CanStep(s, S.Walk(j))
    ensures Doomed(S.DoWalk(s, j))
  {
    var rest := s.jobs[j].work.rest;
    var c, s1 := rest[0], S.SetWork(s, j, S.Walking(rest[1..]));
    assert WalkBelow(s.jobs[j].work, s.count) && NotWalked(s.jobs[j].work, VICTIM) && c in rest;
    assert S.DoWalk(s, j) == S.TryReady(Credited(s1, c), c);
    assert Doomed(s1) by { WorkDoomed(s, j, S.Walking(rest[1..])); }
    CreditDoomed(s1, c);
    TryReadyDoomed(Credited(s1, c), c);
  }

  lemma UnlinkDoomed(s: S.Slotted, j: nat)
    requires Doomed(s) && CanStep(s, S.Unlink(j))
    ensures Doomed(S.DoUnlink(s, j))
  {
    var todo := s.jobs[j].work.todo;
    var p, s1 := todo[|todo| - 1], S.SetWork(s, j, S.Unlinking(todo[..|todo| - 1]));
    assert Doomed(s1) by { WorkDoomed(s, j, S.Unlinking(todo[..|todo| - 1])); }
    assert Doomed(Freed(s1, p)) by { FreeDoomed(s1, p); }
    assert S.DoUnlink(s, j) == S.CheckConsumed(Freed(s1, p), p);
    ConsumeDoomed(Freed(s1, p), p);
  }

  function Freed(s: S.Slotted, p: nat): S.Slotted
    requires |s.slots| > 0
  {
    S.Put(s, p, S.At(s, p).(fanoutRef := S.At(s, p).fanoutRef + 1))
  }

  lemma FreeDoomed(s: S.Slotted, p: nat)
    requires Doomed(s)
    ensures Doomed(Freed(s, p))
  {
    var d := S.At(s, p);
    assert Below(d.fanout, s.count) && NotOn(d.fanout, VICTIM);
    PutDoomed(s, p, d.(fanoutRef := d.fanoutRef + 1));
  }

  /** A worker's own step on a slot that is not the victim's. */
  lemma ProgressDoomed(s: S.Slotted, j: nat, d: S.Desc, work: S.Work)
    requires Doomed(s) && j < |s.jobs| && QueueInv(S.Progress(s, j, d, work))
    requires d.fanout == S.Own(s, j).fanout && NotWalked(work, VICTIM)
    ensures Doomed(S.Progress(s, j, d, work))
  {
    var r := S.Progress(s, j, d, work);
    NotQueued(s, j);
    OtherSlot(s.jobs[j].id, |s.slots|);
    assert NotOn(S.Own(s, j).fanout, VICTIM);
    assert Ids(r.jobs) == Ids(s.jobs);
    assert OnNoList(r, VICTIM);
    StaysDoomed(s, r);
  }

  lemma WorkerDoomed(s: S.Slotted, m: S.Move)
    requires Doomed(s) && CanStep(s, m) && (m.Mark? || m.Store? || m.Lock? || m.StoreLocked? || m.Unlock? || m.Finish?)
    ensures Doomed(S.DoMove(s, m))
  {
    var j := m.job;
    WorkerMoveKeeps(s, m);
    var d := S.Own(s, j);
    assert NotOn(d.fanout, VICTIM);
    match m
    case Mark(_) =>
      WorkDoomed(s, j, S.Marked);
      FlagDoomed(S.SetWork(s, j, S.Marked), S.DoMove(s, m).ready);
    case Store(_) => ProgressDoomed(s, j, d.(status := Completed), S.Stored);
    case Lock(_) => ProgressDoomed(s, j, d.(locked := true), S.Walking(d.fanout));
    case StoreLocked(_) => ProgressDoomed(s, j, d.(status := Completed, locked := true), S.Walking(d.fanout));
    case Unlock(_) => ProgressDoomed(s, j, d.(locked := false), S.Unlinking(d.producers));
    case Finish(_) =>
      WorkDoomed(s, j, S.Done);
      ConsumeDoomed(S.SetWork(s, j, S.Done), s.jobs[j].id);
  }

  lemma FlagDoomed(s: S.Slotted, ready: set<nat>)
    requires Doomed(s)
    ensures Doomed(s.(ready := ready))
  {
    var r := s.(ready := ready);
    assert QueueInv(r) && Entered(r) == Entered(s) && OnNoList(r, VICTIM);
  }

  lemma NoticeDoomed(s: S.Slotted, t: nat)
    requires Doomed(s) && CanStep(s, S.Notice(t))
    ensures Doomed(S.DoNotice(s, t))
  {
    var d := S.At(s, t);
    var e := d.(noticed := true, faninRef := d.faninRef + |d.externals|);
    assert t != VICTIM by { assert VICTIM % |s.slots| == VICTIM; }
    assert Doomed(S.Put(s, t, e)) by {
      OtherSlot(t, |s.slots|);
      assert Below(d.fanout, s.count) && NotOn(d.fanout, VICTIM);
      PutDoomed(s, t, e);
    }
    assert S.DoNotice(s, t) == S.TryReady(S.Put(s, t, e), t);
    TryReadyDoomed(S.Put(s, t, e), t);
  }

  lemma AdvanceDoomed(s: S.Slotted)
    requires Doomed(s)
    ensures Doomed(S.AdvanceRing(s))
  {
    AdvanceKeeps(s);
    CursorStops(s, s.last);
    var r := S.AdvanceRing(s);
    assert Entered(r) == Entered(s) && OnNoList(r, VICTIM);
    StaysDoomed(s, r);
  }

  lemma PublishDoomed(s: S.Slotted, inputs: seq<nat>, outputs: seq<nat>)
    requires Doomed(s) && CanStep(s, S.Publish(inputs, outputs))
    ensures Doomed(S.DoPublish(s, inputs, outputs))
  {
    var r := S.DoPublish(s, inputs, outputs);
    PublishKeeps(s, inputs, outputs);
    OtherSlot(s.count, |s.slots|);
    assert r.jobs == s.jobs;
    assert VICTIM !in Entered(r) by {
      if Queue(r) == Queue(s) { assert Entered(r) == Entered(s); } else { assert Entered(r) == Entered(s) + [s.count]; }
    }
    assert OnNoList(r, VICTIM);
    StaysDoomed(s, r);
  }

  lemma MoveDoomed(s: S.Slotted, m: S.Move)
    requires Doomed(s) && CanStep(s, m)
    ensures Doomed(S.DoMove(s, m))
  {
    match m
    case Publish(inputs, outputs) => PublishDoomed(s, inputs, outputs);
    case Link => LinkDoomed(s);
    case Check => CheckDoomed(s);
    case Dequeue => DequeueDoomed(s);
    case Walk(j) => WalkDoomed(s, j);
    case Unlink(j) => UnlinkDoomed(s, j);
    case Notice(t) => NoticeDoomed(s, t);
    case SetReady(h) => FlagDoomed(s, s.ready + {h});
    case Advance => AdvanceDoomed(s);
    case _ => WorkerDoomed(s, m);
  }

  /** Once doomed, doomed in every continuation. */
  lemma {:induction false} DoomedForever(run: SlotRun, m: nat, k: nat)
    requires IsSlotRun(run) && m <= k < |run.states| && Doomed(run.states[m])
    ensures Doomed(run.states[k])
    decreases k
  {
    if m < k {
      DoomedForever(run, m, k - 1);
      MoveDoomed(run.states[k - 1], run.moves[k - 1]);
    }
  }
}

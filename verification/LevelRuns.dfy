/** Whole runs of the level runtime. */
module LevelRuns {
  import opened Common
  import opened LevelProtocol
  import opened LevelInvariant
  import opened LevelSteps

  // ---- Publication -----------------------------------------------------------------

  /** What a valid input handle is classified as. */
  lemma {:induction false} InputClassified(s: Level, inputs: seq<nat>, h: nat)
    requires h in inputs && h != INVALID_HANDLE
    ensures Lookup(s, h).Some? ==> Lookup(s, h).value in Within(s, inputs)
    ensures Lookup(s, h).None? && h !in s.ready ==> h in Outside(s, inputs)
  {
    if inputs[|inputs| - 1] != h { InputClassified(s, inputs[..|inputs| - 1], h); }
  }

  lemma {:induction false} WithinLive(s: Level, inputs: seq<nat>, p: nat)
    requires RingOk(s) && p in Within(s, inputs)
    ensures s.last <= p < |s.tasks|
  {
    if p in Within(s, inputs[..|inputs| - 1]) { WithinLive(s, inputs[..|inputs| - 1], p); }
  }

  lemma {:induction false} OwnedBy(producerOf: map<nat, nat>, outputs: seq<nat>, tid: nat, h: nat)
    requires h in Owned(producerOf, outputs, tid)
    ensures (Owned(producerOf, outputs, tid)[h] == tid && h in outputs)
            || (h in producerOf && Owned(producerOf, outputs, tid)[h] == producerOf[h])
  {
    if outputs != [] && outputs[|outputs| - 1] != h { OwnedBy(producerOf, outputs[..|outputs| - 1], tid, h); }
  }

  lemma PublishPairs(s: Level, inputs: seq<nat>, outputs: seq<nat>)
    requires PairsOk(s) && NamesOk(s)
    ensures PairsOk(DoPublish(s, inputs, outputs))
    ensures CreditsExact(s) ==> CreditsExact(DoPublish(s, inputs, outputs))
  {
    var r, tid := DoPublish(s, inputs, outputs), |s.tasks|;
    assert ViewOf(r.tasks[tid]) == View([], [], [], [], [], [], false);
    forall p, x | 0 <= p < |r.tasks| && 0 <= x < |r.tasks|
      ensures PairOk(r, p, x)
      ensures CreditsExact(s) ==> CreditExact(r, p, x)
    {
      if p < tid && x < tid {
        assert PairOk(s, p, x);
        assert r.tasks[p] == s.tasks[p] && r.tasks[x] == s.tasks[x];
        if CreditsExact(s) { assert CreditExact(s, p, x); }
      } else {
        PublishNewPair(s, r, p, x);
      }
    }
  }

  /** Nothing names the new task yet, and it names nothing it has told. */
  lemma PublishNewPair(s: Level, r: Level, p: nat, x: nat)
    requires NamesOk(s) && |r.tasks| == |s.tasks| + 1 && r.tasks[..|s.tasks|] == s.tasks
    requires ViewOf(r.tasks[|s.tasks|]) == View([], [], [], [], [], [], false)
    requires p <= |s.tasks| && x <= |s.tasks| && (p == |s.tasks| || x == |s.tasks|)
    ensures PairOk(r, p, x) && CreditExact(r, p, x)
  {
    var tid := |s.tasks|;
    if p < tid {
      assert r.tasks[p] == s.tasks[p] && ListsOk(s, p);
      assert tid !in s.tasks[p].fanout && tid !in WalkList(s.tasks[p]) && tid !in s.tasks[p].releases;
    }
    if x < tid {
      assert r.tasks[x] == s.tasks[x] && ListsOk(s, x);
      assert tid !in s.tasks[x].producers && !DoneAt(s, tid) && tid !in s.tasks[x].credits;
      assert tid !in Told(s.tasks[x]) && tid !in Gone(s.tasks[x]);
    }
  }

  lemma PublishNames(s: Level, inputs: seq<nat>, outputs: seq<nat>, i: nat)
    requires NamesOk(s) && RingOk(s) && i <= |s.tasks|
    ensures ListsOk(DoPublish(s, inputs, outputs), i) && InputsOk(DoPublish(s, inputs, outputs), i)
  {
    var r, tid := DoPublish(s, inputs, outputs), |s.tasks|;
    if i < tid {
      assert ListsOk(s, i) && InputsOk(s, i) && r.tasks[i] == s.tasks[i];
      PublishOldInputs(s, r, i);
    } else {
      forall p | p in r.tasks[i].producers ensures p < i { WithinLive(s, inputs, p); }
      forall h | h in r.tasks[i].inputs && h != INVALID_HANDLE
        ensures h in r.ready || h in r.tasks[i].externals
                || exists p :: p in r.tasks[i].producers && p < |r.tasks| && h in r.tasks[p].outputs
      {
        InputClassified(s, inputs, h);
        if Lookup(s, h).Some? {
          var p := Lookup(s, h).value;
          assert p in r.tasks[i].producers && h in r.tasks[p].outputs;
        }
      }
    }
  }

  lemma PublishOldInputs(s: Level, r: Level, i: nat)
    requires i < |s.tasks| && InputsOk(s, i) && |r.tasks| == |s.tasks| + 1 && r.tasks[..|s.tasks|] == s.tasks
             && r.ready == s.ready
    ensures InputsOk(r, i)
  {
  }

  lemma PublishControl(s: Level, inputs: seq<nat>, outputs: seq<nat>)
    requires BodiesOk(s) && WakesBut(s, |s.tasks|) && QueueOk(s) && RingOk(s) && s.linking.None? && HasSpace(s)
    ensures var r := DoPublish(s, inputs, outputs);
            BodiesOk(r) && WakesBut(r, |r.tasks|) && QueueOk(r) && RingOk(r)
  {
    var r, tid := DoPublish(s, inputs, outputs), |s.tasks|;
    forall i | 0 <= i < tid ensures WakeOk(r, i) { assert WakeOk(s, i); }
    if r.tasks[tid].fanin == 0 {
      DistinctAppend(s.queue, tid);
      assert forall i: nat :: i in r.queue <==> i in s.queue || i == tid;
    }
    forall h | h in r.producerOf ensures r.producerOf[h] < |r.tasks| && h in r.tasks[r.producerOf[h]].outputs {
      OwnedBy(s.producerOf, outputs, tid, h);
    }
  }

  lemma PublishKeeps(s: Level, inputs: seq<nat>, outputs: seq<nat>)
    requires Inv(s) && s.linking.None? && HasSpace(s)
    ensures Inv(DoPublish(s, inputs, outputs))
    ensures Exact(s) ==> Exact(DoPublish(s, inputs, outputs))
  {
    var r := DoPublish(s, inputs, outputs);
    PublishPairs(s, inputs, outputs);
    PublishControl(s, inputs, outputs);
    forall i | 0 <= i < |r.tasks| ensures ListsOk(r, i) && InputsOk(r, i) { PublishNames(s, inputs, outputs, i); }
  }

  // ---- What exact credits give ---------------------------------------------------------

  /** With exact credits, a task that has been woken has told all its producers, all of
      them have completed, and its externals have been noticed. */
  lemma WokenHasAll(s: Level, t: nat)
    requires Inv(s) && CreditsExact(s) && t < |s.tasks| && s.tasks[t].status != Pending
    ensures Told(s.tasks[t]) == s.tasks[t].producers
    ensures forall p :: p in s.tasks[t].producers ==> DoneAt(s, p)
    ensures s.tasks[t].noticed || s.tasks[t].externals == []
  {
    var x := s.tasks[t];
    assert CountsOk(x) && ListsOk(s, t);
    forall p: nat ensures Count(x.credits, p) <= Count(Told(x), p) {
      if p in x.credits {
        assert DoneAt(s, p);
        assert CreditExact(s, p, t);
      }
    }
    CountsBound(x.credits, Told(x));
    assert |x.credits| == |Told(x)| == |x.producers|;
    forall p | p in x.producers ensures DoneAt(s, p) {
      assert Count(x.credits, p) == Count(Told(x), p) > 0;
    }
  }

  /** With exact credits no task is released as often as it expects: nobody gives the
      token for the scope that was never opened. */
  lemma NeverFullyReleased(s: Level, p: nat)
    requires Inv(s) && CreditsExact(s) && p < |s.tasks|
    ensures s.tasks[p].fanoutRef < s.tasks[p].fanoutCount
  {
    var x := s.tasks[p];
    assert CountsOk(x) && ListsOk(s, p);
    forall t: nat ensures Count(x.releases, t) <= Count(x.fanout, t) {
      if t in x.releases {
        assert PairOk(s, p, t);
        assert p in Gone(s.tasks[t]);
        ReleaserIsWoken(s, t);
        GoneIsSuffix(s.tasks[t], p);
      }
    }
    CountsBound(x.releases, x.fanout);
  }

  lemma ReleaserIsWoken(s: Level, t: nat)
    requires Inv(s) && CreditsExact(s) && t < |s.tasks| && Gone(s.tasks[t]) != []
    ensures Told(s.tasks[t]) == s.tasks[t].producers
  {
    assert PhaseOk(s.tasks[t]);
    WokenHasAll(s, t);
  }

  lemma GoneIsSuffix(t: Task, p: nat)
    ensures Count(Gone(t), p) <= Count(t.producers, p)
  {
    if LeftOf(t) <= |t.producers| {
      assert t.producers == t.producers[..LeftOf(t)] + t.producers[LeftOf(t)..];
      CountConcat(t.producers[..LeftOf(t)], t.producers[LeftOf(t)..], p);
    }
  }

  lemma UnlinkKeepsExact(s: Level, t: nat)
    requires Inv(s) && Exact(s) && Enabled(s, Unlink(t))
    ensures Exact(Next(s, Unlink(t)))
  {
    UnlinkedKeeps(s, t);
    UnlinkedAt(s, t, t);
    var r, p := Unlinked(s, t), UnlinkTarget(s, t);
    NeverFullyReleased(r, p);
    assert Next(s, Unlink(t)) == CheckConsumed(r, p);
  }

  lemma FinishKeepsExact(s: Level, t: nat)
    requires Inv(s) && Exact(s) && Enabled(s, Finish(t))
    ensures Exact(Next(s, Finish(t)))
  {
    FinishedKeeps(s, t);
    NeverFullyReleased(SetPhase(s, t, Finished), t);
  }

  // ---- Every step -------------------------------------------------------------------------

  /** The step does not tell a producer that sits between its store and its lock. */
  predicate Clean(s: Level, step: Step) {
    step.Link? && LinkReady(s) ==> s.tasks[LinkTarget(s)].phase != Stored
  }

  lemma StepKeepsInv(s: Level, step: Step)
    requires Inv(s) && Enabled(s, step)
    ensures Inv(Next(s, step))
  {
    match step
    case Publish(inputs, outputs) => PublishKeeps(s, inputs, outputs);
    case Link => LinkKeeps(s);
    case Check => CheckKeeps(s);
    case Dequeue => DequeueKeeps(s);
    case Mark(t) => MarkKeeps(s, t);
    case Store(t) => assert PhaseOk(s.tasks[t]); StoreKeeps(s, Next(s, step), t);
    case Lock(t) => LockKeeps(s, t);
    case StoreLocked(t) => assert PhaseOk(s.tasks[t]); StoreKeeps(s, Next(s, step), t);
    case Walk(t) => WalkKeeps(s, t);
    case Unlock(t) => UnlockKeeps(s, t);
    case Unlink(t) => UnlinkKeeps(s, t);
    case Finish(t) => FinishKeeps(s, t);
    case Notice(t) => NoticeKeeps(s, t);
    case SetReady(h) => SetReadyKeeps(s, h);
    case Advance => AdvanceKeeps(s);
  }

  lemma StepKeepsExact(s: Level, step: Step)
    requires Inv(s) && Exact(s) && Enabled(s, step)
    ensures Exact(Next(s, step)) <==> Clean(s, step)
  {
    match step
    case Publish(inputs, outputs) => PublishKeeps(s, inputs, outputs);
    case Link => LinkKeeps(s);
    case Check => CheckKeeps(s);
    case Dequeue => DequeueKeeps(s);
    case Mark(t) => MarkKeeps(s, t);
    case Store(t) => assert PhaseOk(s.tasks[t]); StoreKeeps(s, Next(s, step), t);
    case Lock(t) => LockKeeps(s, t);
    case StoreLocked(t) => assert PhaseOk(s.tasks[t]); StoreKeeps(s, Next(s, step), t);
    case Walk(t) => WalkKeeps(s, t);
    case Unlock(t) => UnlockKeeps(s, t);
    case Unlink(t) => UnlinkKeepsExact(s, t);
    case Finish(t) => FinishKeepsExact(s, t);
    case Notice(t) => NoticeKeeps(s, t);
    case SetReady(h) => SetReadyKeeps(s, h);
    case Advance => AdvanceKeeps(s);
  }
}

/** Which tasks of the level runtime depend on which, told from the submitted inputs and
    outputs alone: a task waits for the newest unretired writer of each of its inputs, and for
    the inputs without one that are not ready yet. */
module LevelDataflow {
  import opened Common
  import opened LevelProtocol
  import opened LevelSlotTheorems
  import opened LevelSlotQueue

  // ---- What the submitter says -----------------------------------------------------------

  datatype Decl = Decl(inputs: seq<nat>, outputs: seq<nat>)

  /** The tasks that these moves submit, by id. */
  function Decls(moves: seq<S.Move>): seq<Decl> {
    if moves == [] then []
    else
      Decls(moves[..|moves| - 1]) +
        match moves[|moves| - 1]
        case Publish(inputs, outputs) => [Decl(inputs, outputs)]
        case _ => []
  }

  predicate WrittenBy(decls: seq<Decl>, u: nat, h: nat) {
    u < |decls| && h in decls[u].outputs
  }

  /** Of these tasks u is the newest that has h among its outputs. */
  ghost predicate NewestWriter(decls: seq<Decl>, u: nat, h: nat) {
    WrittenBy(decls, u, h) && forall v :: u < v < |decls| ==> !WrittenBy(decls, v, h)
  }

  /** Input i of the next task is what the unretired task u writes. Handle 0 names nothing. */
  ghost predicate Feeds(decls: seq<Decl>, last: nat, inputs: seq<nat>, i: nat, u: nat) {
    i < |inputs| && inputs[i] != 0 && last <= u && NewestWriter(decls, u, inputs[i])
  }

  /** Input i of the next task is h, which no unretired task writes and which is not ready. */
  ghost predicate Awaits(decls: seq<Decl>, last: nat, ready: set<nat>, inputs: seq<nat>, i: nat, h: nat) {
    && i < |inputs| && inputs[i] == h && h != 0 && h !in ready
    && forall u: nat :: last <= u ==> !NewestWriter(decls, u, h)
  }

  // ---- The producers of handles ------------------------------------------------------------

  ghost predicate LatestOf(producerOf: map<nat, nat>, decls: seq<Decl>) {
    forall h: nat :: if h in producerOf then NewestWriter(decls, producerOf[h], h)
                     else forall u: nat :: !WrittenBy(decls, u, h)
  }

  lemma {:induction false} OwnedAt(producerOf: map<nat, nat>, outputs: seq<nat>, tid: nat, h: nat)
    ensures var r := Owned(producerOf, outputs, tid);
            && (h in r <==> h in outputs || h in producerOf)
            && (h in outputs ==> r[h] == tid) && (h !in outputs && h in producerOf ==> r[h] == producerOf[h])
  {
    if outputs != [] {
      var front, last := outputs[..|outputs| - 1], outputs[|outputs| - 1];
      OwnedAt(producerOf, front, tid, h);
      assert outputs == front + [last];
    }
  }

  /** Every output of the new task, and nothing else, gets it as producer. */
  lemma OwnedLatest(producerOf: map<nat, nat>, decls: seq<Decl>, d: Decl)
    requires LatestOf(producerOf, decls)
    ensures LatestOf(Owned(producerOf, d.outputs, |decls|), decls + [d])
  {
    var after, more := Owned(producerOf, d.outputs, |decls|), decls + [d];
    forall h: nat ensures if h in after then NewestWriter(more, after[h], h)
        else forall u: nat :: !WrittenBy(more, u, h) {
      OwnedAt(producerOf, d.outputs, |decls|, h);
      forall u: nat | u < |decls| ensures WrittenBy(more, u, h)
          <==> WrittenBy(decls, u, h) { assert more[u] == decls[u]; }
      assert WrittenBy(more, |decls|, h) <==> h in d.outputs;
    }
  }

  lemma OthersKeepNames(s: S.Slotted, m: S.Move)
    requires CanStep(s, m) && !m.Publish?
    ensures S.DoMove(s, m).producerOf == s.producerOf && S.DoMove(s, m).count == s.count
  {
  }

  /** In every interleaving of the code as written. */
  lemma {:induction false} RunLatest(run: SlotRun, k: nat)
    requires IsSlotRun(run) && k < |run.states|
    ensures |Decls(run.moves[..k])| == run.states[k].count && LatestOf(run.states[k].producerOf, Decls(run.moves[..k]))
  {
    if k > 0 {
      var s, m := run.states[k - 1], run.moves[k - 1];
      RunLatest(run, k - 1);
      assert run.moves[..k][..k - 1] == run.moves[..k - 1];
      var decls := Decls(run.moves[..k - 1]);
      if m.Publish? {
        OwnedLatest(s.producerOf, decls, Decl(m.inputs, m.outputs));
      } else {
        OthersKeepNames(s, m);
        assert Decls(run.moves[..k]) == decls;
      }
    }
  }

  // ---- The inputs of a submission -----------------------------------------------------------

  ghost function FedBy(decls: seq<Decl>, last: nat, inputs: seq<nat>, n: nat, u: nat): set<nat> {
    set i | 0 <= i < n && Feeds(decls, last, inputs, i, u)
  }

  ghost function AwaitedAt(decls: seq<Decl>, last: nat, ready: set<nat>, inputs: seq<nat>, n: nat, h: nat): set<nat> {
    set i | 0 <= i < n && Awaits(decls, last, ready, inputs, i, h)
  }

  lemma LookupFinds(l: Level, decls: seq<Decl>, h: nat, u: nat)
    requires LatestOf(l.producerOf, decls)
    ensures Lookup(l, h) == Some(u) <==> l.last <= u && NewestWriter(decls, u, h)
  {
    if h in l.producerOf && l.last <= u && NewestWriter(decls, u, h) {
      assert NewestWriter(decls, l.producerOf[h], h);
    }
  }

  lemma LookupFindsNone(l: Level, decls: seq<Decl>, h: nat)
    requires LatestOf(l.producerOf, decls)
    ensures Lookup(l, h).None? <==> forall u: nat :: l.last <= u ==> !NewestWriter(decls, u, h)
  {
    forall u: nat ensures Lookup(l, h) == Some(u) <==> l.last <= u && NewestWriter(decls, u, h) {
      LookupFinds(l, decls, h, u);
    }
  }

  lemma FedByNext(decls: seq<Decl>, last: nat, inputs: seq<nat>, n: nat, u: nat)
    ensures |FedBy(decls, last, inputs, n + 1, u)|
            == |FedBy(decls, last, inputs, n, u)| + if Feeds(decls, last, inputs, n, u) then 1 else 0
  {
    var now, earlier := FedBy(decls, last, inputs, n + 1, u), FedBy(decls, last, inputs, n, u);
    if Feeds(decls, last, inputs, n, u) { assert now == earlier + {n}; } else { assert now == earlier; }
  }

  lemma AwaitedNext(decls: seq<Decl>, last: nat, ready: set<nat>, inputs: seq<nat>, n: nat, h: nat)
    ensures |AwaitedAt(decls, last, ready, inputs, n + 1, h)|
            == |AwaitedAt(decls, last, ready, inputs, n, h)| + if Awaits(decls, last, ready, inputs, n, h) then 1 else 0
  {
    var now, earlier := AwaitedAt(decls, last, ready, inputs, n + 1, h), AwaitedAt(decls, last, ready, inputs, n, h);
    if Awaits(decls, last, ready, inputs, n, h) { assert now == earlier + {n}; } else { assert now == earlier; }
  }

  lemma {:induction false} WithinAreFed(l: Level, decls: seq<Decl>, inputs: seq<nat>, n: nat, u: nat)
    requires LatestOf(l.producerOf, decls) && n <= |inputs|
    ensures Count(Within(l, inputs[..n]), u) == |FedBy(decls, l.last, inputs, n, u)|
  {
    if n == 0 {
      assert FedBy(decls, l.last, inputs, 0, u) == {};
    } else {
      WithinAreFed(l, decls, inputs, n - 1, u);
      LookupFinds(l, decls, inputs[n - 1], u);
      NextFed(l, decls, inputs, n - 1, u);
    }
  }

  lemma NextFed(l: Level, decls: seq<Decl>, inputs: seq<nat>, n: nat, u: nat)
    requires n < |inputs| && Count(Within(l, inputs[..n]), u) == |FedBy(decls, l.last, inputs, n, u)|
    requires Lookup(l, inputs[n]) == Some(u) <==> l.last <= u && NewestWriter(decls, u, inputs[n])
    ensures Count(Within(l, inputs[..n + 1]), u) == |FedBy(decls, l.last, inputs, n + 1, u)|
  {
    FedByNext(decls, l.last, inputs, n, u);
    WithinNext(l, inputs, n, u);
  }

  lemma WithinNext(l: Level, inputs: seq<nat>, n: nat, u: nat)
    requires n < |inputs|
    ensures Count(Within(l, inputs[..n + 1]), u)
            == Count(Within(l, inputs[..n]), u) + if inputs[n] != 0 && Lookup(l, inputs[n]) == Some(u) then 1 else 0
  {
    assert inputs[..n + 1][..n] == inputs[..n];
    var front, h := Within(l, inputs[..n]), inputs[n];
    if h != 0 && Lookup(l, h).Some? { CountAppend(front, u, Lookup(l, h).value); } else { assert front + [] == front; }
  }

  lemma OutsideNext(l: Level, inputs: seq<nat>, n: nat, h: nat)
    requires n < |inputs|
    ensures Count(Outside(l, inputs[..n + 1]), h) == Count(Outside(l, inputs[..n]), h)
              + if inputs[n] == h && h != 0 && Lookup(l, h).None? && h !in l.ready then 1 else 0
  {
    assert inputs[..n + 1][..n] == inputs[..n];
    var front, x := Outside(l, inputs[..n]), inputs[n];
    if x != 0 && Lookup(l, x).None? && x !in l.ready { CountAppend(front, h, x); } else { assert front + [] == front; }
  }

  lemma {:induction false} OutsideAreAwaited(l: Level, decls: seq<Decl>, inputs: seq<nat>, n: nat, h: nat)
    requires LatestOf(l.producerOf, decls) && n <= |inputs|
    ensures Count(Outside(l, inputs[..n]), h) == |AwaitedAt(decls, l.last, l.ready, inputs, n, h)|
  {
    if n == 0 {
      assert AwaitedAt(decls, l.last, l.ready, inputs, 0, h) == {};
    } else {
      OutsideAreAwaited(l, decls, inputs, n - 1, h);
      LookupFindsNone(l, decls, h);
      AwaitedNext(decls, l.last, l.ready, inputs, n - 1, h);
      OutsideNext(l, inputs, n - 1, h);
    }
  }

  /** In every interleaving of the code as written, at the submission of task t: u is among
      its producers once for each input that u feeds, h is among its externals once for each
      input that awaits h, it expects that many completions, and it is queued at once exactly
      when it expects none. */
  lemma EdgesFromOutputs(run: SlotRun, k: nat, u: nat, h: nat)
    requires IsSlotRun(run) && k < |run.moves| && run.moves[k].Publish?
    ensures var s, r, inputs, decls := run.states[k], run.states[k + 1], run.moves[k].inputs, Decls(run.moves[..k]);
            && |decls| == s.count && |r.slots| > 0
            && var d := S.At(r, s.count);
               && d.taskId == s.count && d.inputs == inputs && d.outputs == run.moves[k].outputs
               && Count(d.producers, u) == |set i | 0 <= i < |inputs| && Feeds(decls, s.last, inputs, i, u)|
               && Count(d.externals, h) == |set i | 0 <= i < |inputs| && Awaits(decls, s.last, s.ready, inputs, i, h)|
               && d.fanin == |d.producers| + |d.externals| && d.faninRef == 0
               && (d.fanin == 0 <==> d.status == Ready) && (d.fanin > 0 <==> d.status == Pending)
               && r.tail == s.tail + (if d.fanin == 0 then 1 else 0)
  {
    var s, inputs, decls := run.states[k], run.moves[k].inputs, Decls(run.moves[..k]);
    RunLatest(run, k);
    assert inputs[..|inputs|] == inputs;
    WithinAreFed(S.Names(s), decls, inputs, |inputs|, u);
    OutsideAreAwaited(S.Names(s), decls, inputs, |inputs|, h);
    assert (set i | 0 <= i < |inputs| && Feeds(decls, s.last, inputs, i, u))
           == FedBy(decls, s.last, inputs, |inputs|, u);
    assert (set i | 0 <= i < |inputs| && Awaits(decls, s.last, s.ready, inputs, i, h))
        == AwaitedAt(decls, s.last, s.ready, inputs, |inputs|, h);
  }

  // ---- The ready flags --------------------------------------------------------------------

  /** The move flags h: from outside, or because a worker has run a task whose slot lists h
      among its outputs. */
  predicate Flags(s: S.Slotted, m: S.Move, h: nat) {
    match m
    case SetReady(g) => g == h
    case Mark(j) => |s.slots| > 0 && j < |s.jobs| && h in S.At(s, s.jobs[j].id).outputs
    case _ => false
  }

  lemma MoveFlags(s: S.Slotted, m: S.Move, h: nat)
    requires CanStep(s, m)
    ensures h in S.DoMove(s, m).ready <==> h in s.ready || Flags(s, m, h)
  {
  }

  /** In every interleaving of the code as written a tensor is flagged ready if and only if it
      was flagged from outside or a task that lists it among its outputs has run. */
  lemma {:induction false} ReadyExactly(run: SlotRun, k: nat, h: nat)
    requires IsSlotRun(run) && k < |run.states|
    ensures h in run.states[k].ready <==> exists i :: 0 <= i < k && Flags(run.states[i], run.moves[i], h)
  {
    if k > 0 {
      ReadyExactly(run, k - 1, h);
      MoveFlags(run.states[k - 1], run.moves[k - 1], h);
    }
  }

  // ---- A task starts after the writers of its inputs ---------------------------------------

  /** Task u feeds one of the inputs of the next task. */
  ghost predicate Feeder(decls: seq<Decl>, last: nat, inputs: seq<nat>, u: nat) {
    exists i: nat :: Feeds(decls, last, inputs, i, u)
  }

  /** What a descriptor says about its task that no later move changes. */
  predicate SameDecl(d: S.Desc, e: S.Desc) {
    e.taskId == d.taskId && e.inputs == d.inputs && e.outputs == d.outputs && e.producers == d.producers
  }

  lemma CheckConsumedKeepsDecl(s: S.Slotted, id: nat, x: nat)
    requires 0 <= x < |s.slots|
    ensures |S.CheckConsumed(s, id).slots| == |s.slots| && SameDecl(s.slots[x], S.CheckConsumed(s, id).slots[x])
  {
  }

  lemma TryReadyKeepsDecl(s: S.Slotted, id: nat, x: nat)
    requires 0 <= x < |s.slots| && |s.buf| > 0
    ensures |S.TryReady(s, id).slots| == |s.slots| && SameDecl(s.slots[x], S.TryReady(s, id).slots[x])
  {
  }

  lemma OthersKeepDecls(s: S.Slotted, m: S.Move, x: nat)
    requires CanStep(s, m) && !m.Publish? && x < |s.slots|
    ensures |S.DoMove(s, m).slots| == |s.slots| && SameDecl(s.slots[x], S.DoMove(s, m).slots[x])
  {
    match m
    case Link => LinkKeepsDecl(s, x);
    case Check => TryReadyKeepsDecl(s, s.linking.value.tid, x);
    case Walk(j) =>
      var c, rest := s.jobs[j].work.rest[0], s.jobs[j].work.rest;
      TryReadyKeepsDecl(S.Put(S.SetWork(s, j, S.Walking(rest[1..])), c,
                              S.At(s, c).(faninRef := S.At(s, c).faninRef + 1)), c, x);
    case Unlink(j) =>
      var todo := s.jobs[j].work.todo;
      var p := todo[|todo| - 1];
      CheckConsumedKeepsDecl(S.Put(S.SetWork(s, j, S.Unlinking(todo[..|todo| - 1])), p,
                                   S.At(s, p).(fanoutRef := S.At(s, p).fanoutRef + 1)), p, x);
    case Finish(j) => CheckConsumedKeepsDecl(S.SetWork(s, j, S.Done), s.jobs[j].id, x);
    case Notice(t) => NoticeKeepsDecl(s, t, x);
    case SetReady(_) =>
    case Advance =>
    case _ => WorkerKeepsDecl(s, m, x);
  }

  lemma NoticeKeepsDecl(s: S.Slotted, t: nat, x: nat)
    requires CanStep(s, S.Notice(t)) && x < |s.slots|
    ensures |S.DoNotice(s, t).slots| == |s.slots| && SameDecl(s.slots[x], S.DoNotice(s, t).slots[x])
  {
    var d := S.At(s, t);
    TryReadyKeepsDecl(S.Put(s, t, d.(noticed := true, faninRef := d.faninRef + |d.externals|)), t, x);
  }

  lemma LinkKeepsDecl(s: S.Slotted, x: nat)
    requires CanStep(s, S.Link) && x < |s.slots|
    ensures |S.DoLink(s).slots| == |s.slots| && SameDecl(s.slots[x], S.DoLink(s).slots[x])
  {
  }

  lemma WorkerKeepsDecl(s: S.Slotted, m: S.Move, x: nat)
    requires CanStep(s, m) && x < |s.slots|
    requires m.Dequeue? || m.Mark? || m.Store? || m.Lock? || m.StoreLocked? || m.Unlock?
    ensures |S.DoMove(s, m).slots| == |s.slots| && SameDecl(s.slots[x], S.DoMove(s, m).slots[x])
  {
  }

  /** The descriptor of task t is as it was submitted, and its producers are the feeders of
      its inputs, none of which has retired. */
  ghost predicate DeclShown(d: S.Desc, decls: seq<Decl>, t: nat)
    requires t < |decls|
  {
    && d.taskId == t && d.inputs == decls[t].inputs && d.outputs == decls[t].outputs
    && forall u: nat :: u in d.producers <==> Feeder(decls[..t], 0, decls[t].inputs, u)
  }

  lemma FeederCounts(decls: seq<Decl>, inputs: seq<nat>, u: nat)
    ensures |set i | 0 <= i < |inputs| && Feeds(decls, 0, inputs, i, u)| > 0 <==> Feeder(decls, 0, inputs, u)
  {
    var fed := set i | 0 <= i < |inputs| && Feeds(decls, 0, inputs, i, u);
    if i: nat :| Feeds(decls, 0, inputs, i, u) {
      assert i in fed;
    } else {
      assert fed == {};
    }
  }

  lemma NewDeclShown(run: SlotRun, k: nat)
    requires IsSlotRun(run) && k < |run.moves| && run.moves[k].Publish? && run.states[k].last == 0
    ensures var decls := Decls(run.moves[..k + 1]);
            && |decls| == run.states[k].count + 1 && |run.states[k + 1].slots| > 0
            && DeclShown(S.At(run.states[k + 1], run.states[k].count), decls, run.states[k].count)
  {
    var s, m, before, decls := run.states[k], run.moves[k], Decls(run.moves[..k]), Decls(run.moves[..k + 1]);
    RunLatest(run, k);
    assert run.moves[..k + 1][..k] == run.moves[..k];
    assert decls == before + [Decl(m.inputs, m.outputs)] && decls[..s.count] == before;
    var d := S.At(run.states[k + 1], s.count);
    EdgesFromOutputs(run, k, 0, 0);
    forall u: nat ensures u in d.producers <==> Feeder(before, 0, m.inputs, u) {
      EdgesFromOutputs(run, k, u, 0);
      FeederCounts(before, m.inputs, u);
    }
  }

  /** Without the overlap every descriptor stays as submitted. */
  lemma {:induction false} CleanDecls(run: SlotRun, k: nat, t: nat)
    requires CleanSlotRun(run) && k < |run.states| && t < run.states[k].count
    ensures var decls := Decls(run.moves[..k]);
            |decls| == run.states[k].count && |run.states[k].slots| > 0 && DeclShown(S.At(run.states[k], t), decls, t)
    decreases k
  {
    RunLatest(run, k);
    SlotNothingRetires(run, k);
    if k > 0 {
      var s, m, r := run.states[k - 1], run.moves[k - 1], run.states[k];
      var before, decls := Decls(run.moves[..k - 1]), Decls(run.moves[..k]);
      SlotNothingRetires(run, k - 1);
      RunLatest(run, k - 1);
      assert run.moves[..k][..k - 1] == run.moves[..k - 1];
      MoveKeepsSizes(s, m, r);
      if m.Publish? && t == s.count {
        NewDeclShown(run, k - 1);
      } else {
        CleanDecls(run, k - 1, t);
        SlotKept(s, m, r, t);
        assert t < |before| && decls[..t] == before[..t] && decls[t] == before[t];
      }
    }
  }

  lemma SlotKept(s: S.Slotted, m: S.Move, r: S.Slotted, t: nat)
    requires CanStep(s, m) && r == S.DoMove(s, m) && t < s.count <= |s.slots| && (m.Publish? ==> s.count < |s.slots|)
    ensures |r.slots| == |s.slots| && SameDecl(S.At(s, t), S.At(r, t))
  {
    if m.Publish? {
      SmallMod(t, |s.slots|);
      SmallMod(s.count, |s.slots|);
    } else {
      OthersKeepDecls(s, m, t % |s.slots|);
    }
  }

  /** What the worker that takes the next task finds: every task that was, when this one was
      submitted, the newest to have one of its inputs among its outputs has stored its
      completion, in a slot that is still its own, and every input is flagged ready. */
  ghost predicate WritersDone(s: S.Slotted, decls: seq<Decl>)
    requires |s.slots| > 0 && |s.buf| > 0
  {
    var t := s.buf[s.head % |s.buf|];
    && t < |decls|
    && (forall i: nat, u: nat :: Feeds(decls[..t], 0, decls[t].inputs, i, u) ==>
          S.At(s, u).taskId == u && (S.At(s, u).status == Completed || S.At(s, u).status == Consumed))
    && (forall h :: h in decls[t].inputs && h != 0 ==> h in s.ready)
  }

  lemma ProducersAreWriters(s: S.Slotted, decls: seq<Decl>, t: nat)
    requires |s.slots| > 0 && |s.buf| > 0 && t == s.buf[s.head % |s.buf|] < |decls|
    requires StartsReady(s) && DeclShown(S.At(s, t), decls, t)
    ensures WritersDone(s, decls)
  {
    forall i: nat, u: nat | Feeds(decls[..t], 0, decls[t].inputs, i, u)
      ensures S.At(s, u).taskId == u && (S.At(s, u).status == Completed || S.At(s, u).status == Consumed)
    {
      assert Feeder(decls[..t], 0, decls[t].inputs, u);
      assert u in S.At(s, t).producers;
    }
  }

  lemma TakenIsAdmitted(run: SlotRun, k: nat)
    requires IsSlotRun(run) && k < |run.moves| && run.moves[k] == S.Dequeue
    ensures var s := run.states[k]; |s.buf| > 0 && s.buf[s.head % |s.buf|] < s.count
  {
    RunKeepsQueue(run, k);
    var s := run.states[k];
    assert Queue(s)[0] == s.buf[s.head % |s.buf|];
  }

  /** In every interleaving without the overlap a task starts after the writers of its
      inputs. */
  lemma StartsAfterWriters(run: SlotRun, k: nat)
    requires CleanSlotRun(run) && k < |run.moves| && run.moves[k] == S.Dequeue
    ensures var s := run.states[k]; |s.slots| > 0 && |s.buf| > 0 && WritersDone(s, Decls(run.moves[..k]))
  {
    var s := run.states[k];
    TakenIsAdmitted(run, k);
    var t := s.buf[s.head % |s.buf|];
    CleanDecls(run, k, t);
    assert StartsReady(s) by { SlotStartsWithInputsReady(run, k); }
    ProducersAreWriters(s, Decls(run.moves[..k]), t);
  }

  /** In particular in every fused interleaving. */
  lemma FusedStartsAfterWriters(run: SlotRun, k: nat)
    requires FusedSlotRun(run) && k < |run.moves| && run.moves[k] == S.Dequeue
    ensures var s := run.states[k]; |s.slots| > 0 && |s.buf| > 0 && WritersDone(s, Decls(run.moves[..k]))
  {
    FusedSlotRunIsClean(run);
    StartsAfterWriters(run, k);
  }
}

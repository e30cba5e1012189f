/** What every step of the level runtime keeps, in either reading of the completion. */
module LevelInvariant {
  import opened Common
  import opened LevelProtocol

  /** The consumers a completed task has still to credit. */
  function WalkList(t: Task): seq<nat> {
    match t.phase
    case Stored => t.fanout
    case Walking(rest) => rest
    case _ => []
  }

  /** The dependency entries a completed task has still to release. */
  function LeftOf(t: Task): nat {
    match t.phase
    case Unlinking(left) => left
    case Finished => 0
    case _ => |t.producers|
  }

  /** The producers that know of task t. */
  function Told(t: Task): seq<nat> {
    if t.linked <= |t.producers| then t.producers[..t.linked] else t.producers
  }

  /** The producers task t has released. */
  function Gone(t: Task): seq<nat> {
    if LeftOf(t) <= |t.producers| then t.producers[LeftOf(t)..] else []
  }

  /** What the relations between two tasks depend on. */
  datatype View = View(
    fanout: seq<nat>, told: seq<nat>,
    releases: seq<nat>, gone: seq<nat>,
    credits: seq<nat>, walk: seq<nat>, done: bool)

  function ViewOf(t: Task): View {
    View(t.fanout, Told(t), t.releases, Gone(t), t.credits, WalkList(t), IsDone(t))
  }

  /** A producer p and a task t, by their ids and views: p lists t as a consumer once for
      every time t has told p, and t has released p once for every entry it is past. */
  predicate EdgeOk(p: nat, vp: View, t: nat, vt: View) {
    Count(vp.fanout, t) == Count(vt.told, p) && Count(vp.releases, t) == Count(vt.gone, p)
  }

  /** Completions of p that t has been, or is about to be, credited with. */
  function Due(p: nat, vp: View, t: nat, vt: View): nat {
    Count(vt.credits, p) + Count(vp.walk, t)
  }

  /** Completions of p that t is entitled to. */
  function Earned(p: nat, vp: View, vt: View): nat {
    if vp.done then Count(vt.told, p) else 0
  }

  predicate PairOk(s: Level, p: nat, t: nat)
    requires p < |s.tasks| && t < |s.tasks|
  {
    var vp, vt := ViewOf(s.tasks[p]), ViewOf(s.tasks[t]);
    EdgeOk(p, vp, t, vt) && Due(p, vp, t, vt) >= Earned(p, vp, vt)
  }

  /** No completion of p is lost on t and none is counted twice. */
  predicate CreditExact(s: Level, p: nat, t: nat)
    requires p < |s.tasks| && t < |s.tasks|
  {
    var vp, vt := ViewOf(s.tasks[p]), ViewOf(s.tasks[t]);
    Due(p, vp, t, vt) == Earned(p, vp, vt)
  }

  predicate PhaseOk(t: Task) {
    && (t.phase == Waiting <==> t.status == Pending || t.status == Ready)
    && (t.phase == Executing || t.phase == Marked ==> t.status == Running)
    && (t.phase != Waiting && t.phase != Executing && t.phase != Marked ==> IsDone(t))
    && (t.status == Pending <==> t.enqueued == 0) && t.enqueued <= 1
    && LeftOf(t) <= |t.producers|
  }

  predicate CountsOk(t: Task) {
    && t.fanin == |t.producers| + |t.externals|
    && t.faninRef == |t.credits| + (if t.noticed then |t.externals| else 0)
    && t.fanoutCount == 1 + |t.fanout|
    && t.fanoutRef == |t.releases|
    && t.linked <= |t.producers|
    && (t.status != Pending ==> t.faninRef >= t.fanin)
  }

  /** Everything a task's lists name exists already; producers are older. */
  ghost predicate ListsOk(s: Level, i: nat)
    requires i < |s.tasks|
  {
    && (forall p :: p in s.tasks[i].producers ==> p < i)
    && (forall c :: c in s.tasks[i].fanout ==> c < |s.tasks|)
    && (forall c :: c in WalkList(s.tasks[i]) ==> c in s.tasks[i].fanout)
    && (forall p :: p in s.tasks[i].credits ==> DoneAt(s, p))
    && (forall c :: c in s.tasks[i].releases ==> c < |s.tasks|)
  }

  /** Each input is ready, is awaited from another level, or is the output of a producer. */
  ghost predicate InputsOk(s: Level, i: nat)
    requires i < |s.tasks|
  {
    && (forall h :: h in s.tasks[i].inputs && h != INVALID_HANDLE ==>
          h in s.ready || h in s.tasks[i].externals
          || exists p :: p in s.tasks[i].producers && p < |s.tasks| && h in s.tasks[p].outputs)
    && (s.tasks[i].noticed ==> forall h :: h in s.tasks[i].externals ==> h in s.ready)
    && (IsDone(s.tasks[i]) || s.tasks[i].phase == Marked ==> forall h :: h in s.tasks[i].outputs ==> h in s.ready)
  }

  /** A task is woken as soon as its count is complete, unless its submitter is about to look. */
  predicate WakeOk(s: Level, i: nat)
    requires i < |s.tasks|
  {
    && (s.tasks[i].status == Pending && s.linking != Some(i) ==> s.tasks[i].faninRef < s.tasks[i].fanin)
    && (s.tasks[i].linked < |s.tasks[i].producers| ==> s.linking == Some(i))
  }

  ghost predicate QueueOk(s: Level) {
    && Distinct(s.queue)
    && forall t: nat :: t in s.queue <==> t < |s.tasks| && s.tasks[t].status == Ready
  }

  ghost predicate RingOk(s: Level) {
    && s.last <= |s.tasks| <= s.last + s.window
    && (forall i :: 0 <= i < s.last ==> s.tasks[i].status == Consumed)
    && (forall h :: h in s.producerOf ==> s.producerOf[h] < |s.tasks| && h in s.tasks[s.producerOf[h]].outputs)
    && (s.linking.Some? ==> s.linking.value < |s.tasks|)
  }

  ghost predicate PairsOk(s: Level) {
    forall p, t :: 0 <= p < |s.tasks| && 0 <= t < |s.tasks| ==> PairOk(s, p, t)
  }

  ghost predicate CreditsExact(s: Level) {
    forall p, t :: 0 <= p < |s.tasks| && 0 <= t < |s.tasks| ==> CreditExact(s, p, t)
  }

  ghost predicate BodiesOk(s: Level) {
    forall i :: 0 <= i < |s.tasks| ==> PhaseOk(s.tasks[i]) && CountsOk(s.tasks[i])
  }

  ghost predicate NamesOk(s: Level) {
    forall i :: 0 <= i < |s.tasks| ==> ListsOk(s, i) && InputsOk(s, i)
  }

  ghost predicate WakesBut(s: Level, t: nat) {
    && (forall i :: 0 <= i < |s.tasks| && i != t ==> WakeOk(s, i))
    && (t < |s.tasks| && s.tasks[t].linked < |s.tasks[t].producers| ==> s.linking == Some(t))
  }

  /** The invariant, except that task t may be ready to be woken. */
  ghost predicate InvBut(s: Level, t: nat) {
    BodiesOk(s) && NamesOk(s) && WakesBut(s, t) && QueueOk(s) && RingOk(s) && PairsOk(s)
  }

  ghost predicate Inv(s: Level) {
    InvBut(s, |s.tasks|)
  }

  /** Nothing has been counted twice, and nothing retires. */
  ghost predicate Exact(s: Level) {
    && CreditsExact(s)
    && (forall i :: 0 <= i < |s.tasks| ==> s.tasks[i].status != Consumed)
    && s.last == 0
  }

  // ---- Steps that leave edges, credits and releases alone ----------------------

  predicate QuietAt(x: Task, y: Task) {
    && y == x.(status := y.status, phase := y.phase, enqueued := y.enqueued, noticed := y.noticed,
               faninRef := y.faninRef)
    && ViewOf(y) == ViewOf(x)
  }

  ghost predicate Quiet(s: Level, r: Level) {
    |s.tasks| == |r.tasks| && forall i :: 0 <= i < |s.tasks| ==> QuietAt(s.tasks[i], r.tasks[i])
  }

  lemma QuietKeepsPairs(s: Level, r: Level)
    requires Quiet(s, r) && PairsOk(s)
    ensures PairsOk(r)
    ensures CreditsExact(s) ==> CreditsExact(r)
  {
    forall p, t | 0 <= p < |r.tasks| && 0 <= t < |r.tasks|
      ensures PairOk(r, p, t)
      ensures CreditExact(s, p, t) ==> CreditExact(r, p, t)
    {
      assert QuietAt(s.tasks[p], r.tasks[p]) && QuietAt(s.tasks[t], r.tasks[t]);
      assert PairOk(s, p, t);
    }
  }

  /** Flags newly claimed by the step are set. */
  ghost predicate FlagsSet(s: Level, r: Level, i: nat)
    requires i < |s.tasks| && i < |r.tasks|
  {
    && (r.tasks[i].noticed && !s.tasks[i].noticed ==> forall h :: h in r.tasks[i].externals ==> h in r.ready)
    && (r.tasks[i].phase == Marked && s.tasks[i].phase != Marked ==> forall h :: h in r.tasks[i].outputs ==>
         h in r.ready)
  }

  lemma QuietKeepsInputs(s: Level, r: Level, i: nat)
    requires Quiet(s, r) && s.ready <= r.ready && i < |s.tasks| && InputsOk(s, i) && FlagsSet(s, r, i)
    ensures InputsOk(r, i)
  {
  }

  lemma QuietKeepsLists(s: Level, r: Level, i: nat)
    requires Quiet(s, r) && i < |s.tasks| && ListsOk(s, i)
    ensures ListsOk(r, i)
  {
  }

  lemma QuietKeepsNames(s: Level, r: Level)
    requires Quiet(s, r) && s.ready <= r.ready && NamesOk(s)
    requires forall i :: 0 <= i < |s.tasks| ==> FlagsSet(s, r, i)
    ensures NamesOk(r)
  {
    forall i | 0 <= i < |r.tasks| ensures ListsOk(r, i) && InputsOk(r, i) {
      assert FlagsSet(s, r, i) && ListsOk(s, i) && InputsOk(s, i);
      QuietKeepsLists(s, r, i);
      QuietKeepsInputs(s, r, i);
    }
  }

  /** A quiet step that changes at most one task, and not the submitter. */
  ghost predicate QuietStep(s: Level, r: Level, t: nat) {
    && t < |s.tasks| == |r.tasks|
    && (forall i :: 0 <= i < |s.tasks| && i != t ==> r.tasks[i] == s.tasks[i])
    && QuietAt(s.tasks[t], r.tasks[t])
    && r.window == s.window && r.producerOf == s.producerOf && r.last == s.last && r.linking == s.linking
    && s.ready <= r.ready
    && FlagsSet(s, r, t)
    && (s.tasks[t].status == Consumed ==> r.tasks[t].status == Consumed)
  }

  lemma QuietKeepsRing(s: Level, r: Level, t: nat)
    requires RingOk(s) && QuietStep(s, r, t)
    ensures RingOk(r)
  {
  }

  lemma QuietKeepsExact(s: Level, r: Level, t: nat)
    requires PairsOk(s) && QuietStep(s, r, t) && Exact(s) && r.tasks[t].status != Consumed
    ensures Exact(r)
  {
    QuietKeepsPairs(s, r);
  }

  lemma QuietKeepsWakes(s: Level, r: Level, t: nat)
    requires WakesBut(s, t) && QuietStep(s, r, t)
    ensures WakesBut(r, t)
  {
    forall i | 0 <= i < |r.tasks| && i != t ensures WakeOk(r, i) { assert WakeOk(s, i); }
  }

  lemma QuietStepKeeps(s: Level, r: Level, t: nat)
    requires InvBut(s, t) && QuietStep(s, r, t) && QueueOk(r)
    requires PhaseOk(r.tasks[t]) && CountsOk(r.tasks[t])
    ensures InvBut(r, t)
    ensures Exact(s) && r.tasks[t].status != Consumed ==> Exact(r)
  {
    QuietKeepsPairs(s, r);
    QuietKeepsNames(s, r);
    QuietKeepsWakes(s, r, t);
    QuietKeepsRing(s, r, t);
    if Exact(s) && r.tasks[t].status != Consumed { QuietKeepsExact(s, r, t); }
  }

  lemma InvToBut(s: Level, t: nat)
    requires Inv(s)
    ensures InvBut(s, t)
    ensures t < |s.tasks| ==> PhaseOk(s.tasks[t]) && CountsOk(s.tasks[t]) && ListsOk(s, t) && InputsOk(s, t)
                              && WakeOk(s, t)
  {
    if t < |s.tasks| { assert WakeOk(s, t); }
  }

  lemma ButToInv(s: Level, t: nat)
    requires InvBut(s, t) && (t < |s.tasks| ==> WakeOk(s, t))
    ensures Inv(s)
  {
  }

  /** A quiet step of a task that needs no waking. */
  lemma QuietInv(s: Level, r: Level, t: nat)
    requires Inv(s) && QuietStep(s, r, t) && QueueOk(r)
    requires PhaseOk(r.tasks[t]) && CountsOk(r.tasks[t]) && r.tasks[t].status != Pending
    ensures Inv(r)
    ensures Exact(s) && r.tasks[t].status != Consumed ==> Exact(r)
  {
    InvToBut(s, t);
    QuietStepKeeps(s, r, t);
    ButToInv(r, t);
  }

  // ---- Waking ------------------------------------------------------------------

  lemma EnqueueKeepsQueue(s: Level, t: nat)
    requires QueueOk(s) && t < |s.tasks| && s.tasks[t].status == Pending
    ensures QueueOk(TryReady(s, t))
  {
    if s.tasks[t].faninRef >= s.tasks[t].fanin {
      var r := TryReady(s, t);
      DistinctAppend(s.queue, t);
      assert forall i: nat :: i in r.queue <==> i in s.queue || i == t;
    }
  }

  lemma TryReadyKeeps(s: Level, t: nat)
    requires InvBut(s, t) && t < |s.tasks|
    ensures Inv(TryReady(s, t))
    ensures var r := TryReady(s, t);
            |r.tasks| == |s.tasks| && (r.tasks[t].status == Pending ==> r.tasks[t].faninRef < r.tasks[t].fanin)
    ensures Exact(s) ==> Exact(TryReady(s, t))
  {
    var r := TryReady(s, t);
    if r != s {
      EnqueueKeepsQueue(s, t);
      QuietStepKeeps(s, r, t);
    }
    ButToInv(r, t);
  }

  /** Ending a submission whose producers are all told and whose task needs no wake-up. */
  lemma RelinkKeeps(s: Level, r: Level)
    requires Inv(s) && s.linking.Some? && r == s.(linking := None)
    requires var t := s.tasks[s.linking.value];
             t.linked == |t.producers| && (t.status == Pending ==> t.faninRef < t.fanin)
    ensures Inv(r)
    ensures Exact(s) ==> Exact(r)
  {
    QuietKeepsPairs(s, r);
    QuietKeepsNames(s, r);
    forall i | 0 <= i < |r.tasks| ensures WakeOk(r, i) { assert WakeOk(s, i); }
  }

  lemma CheckKeeps(s: Level)
    requires Inv(s) && Enabled(s, Check)
    ensures Inv(Next(s, Check))
    ensures Exact(s) ==> Exact(Next(s, Check))
  {
    var t := s.linking.value;
    InvToBut(s, t);
    TryReadyKeeps(s, t);
    var m := TryReady(s, t);
    RelinkKeeps(m, m.(linking := None));
  }

  /** The externals of t have been added to its count, and t has not been looked at yet. */
  function Noticed(s: Level, t: nat): Level
    requires t < |s.tasks|
  {
    var x := s.tasks[t];
    s.(tasks := s.tasks[t := x.(noticed := true, faninRef := x.faninRef + |x.externals|)])
  }

  lemma NoticedKeeps(s: Level, t: nat)
    requires Inv(s) && Enabled(s, Notice(t))
    ensures InvBut(Noticed(s, t), t)
    ensures Exact(s) ==> Exact(Noticed(s, t))
  {
    InvToBut(s, t);
    QuietStepKeeps(s, Noticed(s, t), t);
  }

  lemma NoticeKeeps(s: Level, t: nat)
    requires Inv(s) && Enabled(s, Notice(t))
    ensures Inv(Next(s, Notice(t)))
    ensures Exact(s) ==> Exact(Next(s, Notice(t)))
  {
    NoticedKeeps(s, t);
    TryReadyKeeps(Noticed(s, t), t);
    assert Next(s, Notice(t)) == TryReady(Noticed(s, t), t);
  }

  // ---- Worker steps --------------------------------------------------------------

  lemma DequeueKeepsQueue(s: Level)
    requires QueueOk(s) && Enabled(s, Dequeue)
    ensures QueueOk(Next(s, Dequeue))
    ensures s.tasks[s.queue[0]].status == Ready
  {
    var t, rest := s.queue[0], s.queue[1..];
    assert s.queue == [t] + rest;
    DistinctSplit([t], rest);
    assert t in s.queue;
    assert forall i: nat :: i in rest <==> i in s.queue && i != t;
  }

  lemma DequeueKeeps(s: Level)
    requires Inv(s) && Enabled(s, Dequeue)
    ensures Inv(Next(s, Dequeue))
    ensures Exact(s) ==> Exact(Next(s, Dequeue))
  {
    DequeueKeepsQueue(s);
    InvToBut(s, s.queue[0]);
    QuietInv(s, Next(s, Dequeue), s.queue[0]);
  }

  lemma MarkKeeps(s: Level, t: nat)
    requires Inv(s) && Enabled(s, Mark(t))
    ensures Inv(Next(s, Mark(t)))
    ensures Exact(s) ==> Exact(Next(s, Mark(t)))
  {
    InvToBut(s, t);
    QuietInv(s, Next(s, Mark(t)), t);
  }

  lemma UnlockKeeps(s: Level, t: nat)
    requires Inv(s) && Enabled(s, Unlock(t))
    ensures Inv(Next(s, Unlock(t)))
    ensures Exact(s) ==> Exact(Next(s, Unlock(t)))
  {
    InvToBut(s, t);
    QuietInv(s, Next(s, Unlock(t)), t);
  }

  lemma LockKeeps(s: Level, t: nat)
    requires Inv(s) && Enabled(s, Lock(t))
    ensures Inv(Next(s, Lock(t)))
    ensures Exact(s) ==> Exact(Next(s, Lock(t)))
  {
    InvToBut(s, t);
    QuietInv(s, Next(s, Lock(t)), t);
  }

  lemma SetReadyKeeps(s: Level, h: nat)
    requires Inv(s)
    ensures Inv(s.(ready := s.ready + {h}))
    ensures Exact(s) ==> Exact(s.(ready := s.ready + {h}))
  {
    var r := s.(ready := s.ready + {h});
    QuietKeepsPairs(s, r);
    QuietKeepsNames(s, r);
    forall i | 0 <= i < |r.tasks| ensures WakeOk(r, i) { assert WakeOk(s, i); }
  }

  lemma AdvanceKeeps(s: Level)
    requires Inv(s)
    ensures Inv(AdvanceRing(s))
    ensures Exact(s) ==> AdvanceRing(s) == s
  {
    var r := AdvanceRing(s);
    QuietKeepsPairs(s, r);
    QuietKeepsNames(s, r);
    forall i | 0 <= i < |r.tasks| ensures WakeOk(r, i) { assert WakeOk(s, i); }
  }

  lemma CheckConsumedKeeps(s: Level, t: nat)
    requires Inv(s)
    ensures Inv(CheckConsumed(s, t))
    ensures t < |s.tasks| && s.tasks[t].fanoutRef < s.tasks[t].fanoutCount ==> CheckConsumed(s, t) == s
  {
    if t < |s.tasks| && s.tasks[t].status == Completed && s.tasks[t].fanoutRef >= s.tasks[t].fanoutCount {
      var m := s.(tasks := s.tasks[t := s.tasks[t].(status := Consumed)]);
      InvToBut(s, t);
      QuietInv(s, m, t);
      AdvanceKeeps(m);
    }
  }
}

/** The steps that move edges, credits and releases keep the invariant; whether they also
    keep credits exact depends on one window. */
module LevelSteps {
  import opened Common
  import opened LevelProtocol
  import opened LevelInvariant

  /** What a task is from its publication on. */
  predicate SameShape(x: Task, y: Task) {
    && y.inputs == x.inputs && y.outputs == x.outputs && y.producers == x.producers
    && y.externals == x.externals && y.noticed == x.noticed && y.fanin == x.fanin
  }

  ghost predicate SameShapes(s: Level, r: Level) {
    && |s.tasks| == |r.tasks| && s.ready == r.ready
    && forall i :: 0 <= i < |s.tasks| ==> SameShape(s.tasks[i], r.tasks[i])
  }

  /** Inputs stay accounted for when only counts, lists and phases move. */
  lemma SameShapesSameInputs(s: Level, r: Level, i: nat)
    requires SameShapes(s, r) && i < |s.tasks| && InputsOk(s, i)
    requires IsDone(r.tasks[i]) || r.tasks[i].phase == Marked ==> IsDone(s.tasks[i]) || s.tasks[i].phase == Marked
    ensures InputsOk(r, i)
  {
  }

  /** The ring, the submitter and the statuses of waiting tasks are as they were. */
  ghost predicate SameControl(s: Level, r: Level) {
    && SameShapes(s, r)
    && r.window == s.window && r.last == s.last && r.producerOf == s.producerOf
    && r.queue == s.queue && r.linking == s.linking
    && forall i :: 0 <= i < |s.tasks| ==>
         && (s.tasks[i].status == Consumed <==> r.tasks[i].status == Consumed)
         && (s.tasks[i].status == Ready <==> r.tasks[i].status == Ready)
  }

  lemma SameControlKeeps(s: Level, r: Level)
    requires SameControl(s, r) && QueueOk(s) && RingOk(s)
    ensures QueueOk(r) && RingOk(r)
  {
  }

  /** A consumer is younger than its producer. */
  lemma ConsumerIsYounger(s: Level, p: nat, c: nat)
    requires PairsOk(s) && NamesOk(s) && p < |s.tasks| && c in s.tasks[p].fanout
    ensures p < c < |s.tasks|
  {
    assert ListsOk(s, p);
    assert PairOk(s, p, c);
    assert p in Told(s.tasks[c]);
    assert p in s.tasks[c].producers;
    assert ListsOk(s, c);
  }

  // ---- Storing COMPLETED --------------------------------------------------------

  /** r is s after t's worker stores COMPLETED, with all its consumers still to credit. */
  ghost predicate Stores(s: Level, r: Level, t: nat) {
    && t < |s.tasks| && s.tasks[t].phase == Marked && s.tasks[t].status == Running
    && (r == SetDone(s, t, Stored) || r == SetDone(s, t, Walking(s.tasks[t].fanout)))
  }

  lemma StorePair(s: Level, r: Level, t: nat, p: nat, x: nat)
    requires Stores(s, r, t) && p < |s.tasks| && x < |s.tasks| && PairOk(s, p, x)
    ensures PairOk(r, p, x)
    ensures CreditExact(s, p, x) ==> CreditExact(r, p, x)
  {
    var v := ViewOf(s.tasks[t]);
    assert ViewOf(r.tasks[t]) == v.(walk := v.fanout, done := true);
  }

  lemma StorePairs(s: Level, r: Level, t: nat)
    requires PairsOk(s) && Stores(s, r, t)
    ensures PairsOk(r)
    ensures CreditsExact(s) ==> CreditsExact(r)
  {
    forall p, x | 0 <= p < |r.tasks| && 0 <= x < |r.tasks|
      ensures PairOk(r, p, x)
      ensures CreditExact(s, p, x) ==> CreditExact(r, p, x)
    {
      assert PairOk(s, p, x);
      StorePair(s, r, t, p, x);
    }
  }

  lemma StoreNames(s: Level, r: Level, t: nat)
    requires NamesOk(s) && Stores(s, r, t)
    ensures NamesOk(r)
  {
    forall i | 0 <= i < |r.tasks| ensures ListsOk(r, i) && InputsOk(r, i) {
      assert ListsOk(s, i) && InputsOk(s, i);
      forall p | p in r.tasks[i].credits ensures DoneAt(r, p) { assert DoneAt(s, p); }
      SameShapesSameInputs(s, r, i);
    }
  }

  lemma StoreKeeps(s: Level, r: Level, t: nat)
    requires Inv(s) && Stores(s, r, t)
    ensures Inv(r)
    ensures Exact(s) ==> Exact(r)
  {
    StorePairs(s, r, t);
    StoreNames(s, r, t);
    SameControlKeeps(s, r);
    StoreBodies(s, r, t);
  }

  lemma StoreBodies(s: Level, r: Level, t: nat)
    requires BodiesOk(s) && WakesBut(s, |s.tasks|) && Stores(s, r, t)
    ensures BodiesOk(r) && WakesBut(r, |r.tasks|)
  {
    assert PhaseOk(s.tasks[t]) && CountsOk(s.tasks[t]);
    forall i | 0 <= i < |r.tasks| ensures WakeOk(r, i) { assert WakeOk(s, i); }
  }

  // ---- Crediting a consumer ---------------------------------------------------------

  /** The walk of t credits its next consumer c. */
  function WalkView(v: View, i: nat, t: nat, c: nat): View {
    v.(walk := if i == t && v.walk != [] then v.walk[1..] else v.walk,
       credits := if i == c then [t] + v.credits else v.credits)
  }

  /** A credit moves from the walk to the count: no pair's balance changes. */
  lemma CreditMoves(p: nat, vp: View, x: nat, vx: View, t: nat, c: nat)
    requires p == t ==> vp.walk != [] && vp.walk[0] == c
    ensures var wp, wx := WalkView(vp, p, t, c), WalkView(vx, x, t, c);
            && Due(p, wp, x, wx) == Due(p, vp, x, vx) && Earned(p, wp, wx) == Earned(p, vp, vx)
            && (EdgeOk(p, wp, x, wx) <==> EdgeOk(p, vp, x, vx))
  {
  }

  /** The walk has credited its next consumer and not looked at it yet. */
  function Walked(s: Level, t: nat): Level
    requires t < |s.tasks| && s.tasks[t].phase.Walking? && s.tasks[t].phase.rest != []
  {
    Credit(SetPhase(s, t, Walking(s.tasks[t].phase.rest[1..])), s.tasks[t].phase.rest[0], t)
  }

  lemma WalkedAt(s: Level, t: nat, i: nat)
    requires Enabled(s, Walk(t)) && t < s.tasks[t].phase.rest[0] < |s.tasks| && i < |s.tasks|
    ensures var r, x, rest := Walked(s, t), s.tasks[i], s.tasks[t].phase.rest;
            && |r.tasks| == |s.tasks|
            && r.tasks[i] == (if i == t then x.(phase := Walking(rest[1..]))
                              else if i == rest[0] then x.(faninRef := x.faninRef + 1, credits := [t] + x.credits)
                              else x)
            && ViewOf(r.tasks[i]) == WalkView(ViewOf(x), i, t, rest[0])
  {
  }

  lemma WalkedPairs(s: Level, t: nat)
    requires PairsOk(s) && Enabled(s, Walk(t)) && t < s.tasks[t].phase.rest[0] < |s.tasks|
    ensures PairsOk(Walked(s, t))
    ensures CreditsExact(s) ==> CreditsExact(Walked(s, t))
  {
    var r, c := Walked(s, t), s.tasks[t].phase.rest[0];
    forall p, x | 0 <= p < |r.tasks| && 0 <= x < |r.tasks|
      ensures PairOk(r, p, x)
      ensures CreditExact(s, p, x) ==> CreditExact(r, p, x)
    {
      assert PairOk(s, p, x);
      WalkedPair(s, t, p, x);
    }
  }

  lemma WalkedPair(s: Level, t: nat, p: nat, x: nat)
    requires Enabled(s, Walk(t)) && t < s.tasks[t].phase.rest[0] < |s.tasks| && p < |s.tasks| && x < |s.tasks|
    ensures |Walked(s, t).tasks| == |s.tasks|
    ensures PairOk(s, p, x) ==> PairOk(Walked(s, t), p, x)
    ensures CreditExact(s, p, x) ==> CreditExact(Walked(s, t), p, x)
  {
    WalkedAt(s, t, p);
    WalkedAt(s, t, x);
    CreditMoves(p, ViewOf(s.tasks[p]), x, ViewOf(s.tasks[x]), t, s.tasks[t].phase.rest[0]);
  }

  lemma WalkedControl(s: Level, t: nat)
    requires Enabled(s, Walk(t)) && t < s.tasks[t].phase.rest[0] < |s.tasks|
    ensures SameControl(s, Walked(s, t))
    ensures forall i :: 0 <= i < |s.tasks| ==> Walked(s, t).tasks[i].status == s.tasks[i].status
  {
  }

  lemma WalkedNames(s: Level, t: nat)
    requires NamesOk(s) && BodiesOk(s) && Enabled(s, Walk(t)) && t < s.tasks[t].phase.rest[0] < |s.tasks|
    ensures NamesOk(Walked(s, t))
  {
    var r := Walked(s, t);
    WalkedControl(s, t);
    assert PhaseOk(s.tasks[t]);
    forall i | 0 <= i < |r.tasks| ensures ListsOk(r, i) && InputsOk(r, i) {
      assert ListsOk(s, i) && InputsOk(s, i);
      WalkedAt(s, t, i);
      forall p | p in r.tasks[i].credits ensures DoneAt(r, p) {
        assert p == t || p in s.tasks[i].credits;
      }
      SameShapesSameInputs(s, r, i);
    }
  }

  lemma WalkedKeeps(s: Level, t: nat)
    requires Inv(s) && Enabled(s, Walk(t))
    ensures t < s.tasks[t].phase.rest[0] < |s.tasks| == |Walked(s, t).tasks|
    ensures InvBut(Walked(s, t), s.tasks[t].phase.rest[0])
    ensures Exact(s) ==> Exact(Walked(s, t))
  {
    var r, c := Walked(s, t), s.tasks[t].phase.rest[0];
    assert ListsOk(s, t);
    assert c in WalkList(s.tasks[t]);
    ConsumerIsYounger(s, t, c);
    WalkedPairs(s, t);
    WalkedNames(s, t);
    WalkedControl(s, t);
    SameControlKeeps(s, r);
    WalkedBodies(s, t);
  }

  lemma WalkedBodies(s: Level, t: nat)
    requires BodiesOk(s) && WakesBut(s, |s.tasks|) && Enabled(s, Walk(t)) && t < s.tasks[t].phase.rest[0] < |s.tasks|
    ensures BodiesOk(Walked(s, t)) && WakesBut(Walked(s, t), s.tasks[t].phase.rest[0])
  {
    var r, c := Walked(s, t), s.tasks[t].phase.rest[0];
    forall i | 0 <= i < |r.tasks| ensures PhaseOk(r.tasks[i]) && CountsOk(r.tasks[i]) {
      assert PhaseOk(s.tasks[i]) && CountsOk(s.tasks[i]);
      WalkedAt(s, t, i);
    }
    forall i | 0 <= i < |r.tasks| && i != c ensures WakeOk(r, i) {
      assert WakeOk(s, i);
      WalkedAt(s, t, i);
    }
    assert WakeOk(s, c);
    WalkedAt(s, t, c);
  }

  lemma WalkKeeps(s: Level, t: nat)
    requires Inv(s) && Enabled(s, Walk(t))
    ensures Inv(Next(s, Walk(t)))
    ensures Exact(s) ==> Exact(Next(s, Walk(t)))
  {
    WalkedKeeps(s, t);
    var c := s.tasks[t].phase.rest[0];
    TryReadyKeeps(Walked(s, t), c);
    assert Next(s, Walk(t)) == TryReady(Walked(s, t), c);
  }

  // ---- Telling a producer ---------------------------------------------------------------

  /** The producer that the next Link step tells. */
  function LinkTarget(s: Level): nat
    requires LinkReady(s)
  {
    s.tasks[s.linking.value].producers[s.tasks[s.linking.value].linked]
  }

  /** Task c tells producer q, whose views were vc and vq; stored says that q sits between
      its store of COMPLETED and its lock. */
  function LinkView(v: View, i: nat, q: nat, c: nat, done: bool, stored: bool): View {
    v.(fanout := if i == q then [c] + v.fanout else v.fanout,
       walk := if i == q && stored then [c] + v.walk else v.walk,
       told := if i == c then v.told + [q] else v.told,
       credits := if i == c && done then [q] + v.credits else v.credits)
  }

  /** Telling q moves the pair (q, c) alone; its edge is counted twice exactly in the
      window between store and lock. */
  lemma LinkMoves(p: nat, vp: View, x: nat, vx: View, q: nat, c: nat, done: bool, stored: bool)
    requires EdgeOk(p, vp, x, vx) && (p == q ==> vp.done == done) && (stored ==> done)
    ensures var wp, wx := LinkView(vp, p, q, c, done, stored), LinkView(vx, x, q, c, done, stored);
            && EdgeOk(p, wp, x, wx)
            && Due(p, wp, x, wx) - Earned(p, wp, wx) ==
               Due(p, vp, x, vx) - Earned(p, vp, vx) + if p == q && x == c && stored then 1 else 0
  {
    CountPrepend(vp.fanout, x, c);
    CountPrepend(vp.walk, x, c);
    CountAppend(vx.told, p, q);
    CountPrepend(vx.credits, p, q);
  }

  lemma LinkAt(s: Level, i: nat)
    requires LinkReady(s) && LinkTarget(s) < s.linking.value && i < |s.tasks|
    ensures var r, x, c, q := DoLink(s), s.tasks[i], s.linking.value, LinkTarget(s);
            && |r.tasks| == |s.tasks|
            && r.tasks[i] ==
               (if i == q then x.(fanout := [c] + x.fanout, fanoutCount := x.fanoutCount + 1)
                else if i == c then
                  if IsDone(s.tasks[q]) then x.(linked := x.linked + 1, faninRef := x.faninRef + 1,
                                                credits := [q] + x.credits)
                  else x.(linked := x.linked + 1)
                else x)
  {
  }

  lemma LinkViews(s: Level, i: nat)
    requires LinkReady(s) && LinkTarget(s) < s.linking.value && i < |s.tasks|
    ensures var c, q := s.linking.value, LinkTarget(s);
            && |DoLink(s).tasks| == |s.tasks|
            && ViewOf(DoLink(s).tasks[i]) ==
               LinkView(ViewOf(s.tasks[i]), i, q, c, IsDone(s.tasks[q]), s.tasks[q].phase == Stored)
  {
  }

  lemma LinkPairs(s: Level)
    requires PairsOk(s) && LinkReady(s) && LinkTarget(s) < s.linking.value && PhaseOk(s.tasks[LinkTarget(s)])
    ensures |DoLink(s).tasks| == |s.tasks| && PairsOk(DoLink(s))
    ensures CreditsExact(s) ==> (CreditsExact(DoLink(s)) <==> s.tasks[LinkTarget(s)].phase != Stored)
  {
    var r, c, q := DoLink(s), s.linking.value, LinkTarget(s);
    var done, stored := IsDone(s.tasks[q]), s.tasks[q].phase == Stored;
    forall p, x | 0 <= p < |r.tasks| && 0 <= x < |r.tasks|
      ensures PairOk(r, p, x)
      ensures CreditExact(s, p, x) ==> (CreditExact(r, p, x) <==> !(p == q && x == c && stored))
    {
      assert PairOk(s, p, x);
      LinkViews(s, p);
      LinkViews(s, x);
      LinkMoves(p, ViewOf(s.tasks[p]), x, ViewOf(s.tasks[x]), q, c, done, stored);
    }
    if CreditsExact(s) {
      assert CreditExact(s, q, c);
      assert CreditExact(r, q, c) <==> !stored;
    }
  }

  lemma LinkControl(s: Level)
    requires LinkReady(s) && LinkTarget(s) < s.linking.value
    ensures SameControl(s, DoLink(s))
    ensures forall i :: 0 <= i < |s.tasks| ==> DoLink(s).tasks[i].status == s.tasks[i].status
                                               && DoLink(s).tasks[i].phase == s.tasks[i].phase
  {
  }

  lemma LinkNames(s: Level)
    requires NamesOk(s) && LinkReady(s) && LinkTarget(s) < s.linking.value && PhaseOk(s.tasks[LinkTarget(s)])
    ensures NamesOk(DoLink(s))
  {
    var r, q, c := DoLink(s), LinkTarget(s), s.linking.value;
    LinkControl(s);
    forall i | 0 <= i < |r.tasks| ensures ListsOk(r, i) && InputsOk(r, i) {
      assert ListsOk(s, i) && InputsOk(s, i);
      LinkAt(s, i);
      forall p | p in r.tasks[i].credits ensures DoneAt(r, p) {
        assert p in s.tasks[i].credits || (p == q && IsDone(s.tasks[q]));
      }
      SameShapesSameInputs(s, r, i);
    }
  }

  /** Telling a producer keeps the invariant; it keeps credits exact if and only if the
      producer is not between its store of COMPLETED and its lock. */
  lemma LinkKeeps(s: Level)
    requires Inv(s) && LinkReady(s)
    ensures Inv(DoLink(s))
    ensures Exact(s) ==> (Exact(DoLink(s)) <==> s.tasks[LinkTarget(s)].phase != Stored)
  {
    var r, c, q := DoLink(s), s.linking.value, LinkTarget(s);
    assert ListsOk(s, c) && q in s.tasks[c].producers;
    assert PhaseOk(s.tasks[q]);
    LinkPairs(s);
    LinkNames(s);
    LinkControl(s);
    SameControlKeeps(s, r);
    LinkBodies(s);
  }

  lemma LinkBodies(s: Level)
    requires BodiesOk(s) && WakesBut(s, |s.tasks|) && LinkReady(s) && LinkTarget(s) < s.linking.value
    ensures BodiesOk(DoLink(s)) && WakesBut(DoLink(s), |s.tasks|)
  {
    var r := DoLink(s);
    forall i | 0 <= i < |r.tasks| ensures PhaseOk(r.tasks[i]) && CountsOk(r.tasks[i]) {
      assert PhaseOk(s.tasks[i]) && CountsOk(s.tasks[i]);
      LinkAt(s, i);
    }
    forall i | 0 <= i < |r.tasks| ensures WakeOk(r, i) {
      assert WakeOk(s, i);
      LinkAt(s, i);
    }
  }

  // ---- Releasing a producer ----------------------------------------------------------------

  /** Task t releases its producer q. */
  function UnlinkView(v: View, i: nat, q: nat, t: nat): View {
    v.(releases := if i == q then [t] + v.releases else v.releases,
       gone := if i == t then [q] + v.gone else v.gone)
  }

  lemma ReleaseMoves(p: nat, vp: View, x: nat, vx: View, q: nat, t: nat)
    requires EdgeOk(p, vp, x, vx)
    ensures EdgeOk(p, UnlinkView(vp, p, q, t), x, UnlinkView(vx, x, q, t))
  {
  }

  /** The producer that t's next Unlink step releases. */
  function UnlinkTarget(s: Level, t: nat): nat
    requires Enabled(s, Unlink(t))
  {
    s.tasks[t].producers[s.tasks[t].phase.left - 1]
  }

  function Unlinked(s: Level, t: nat): Level
    requires Enabled(s, Unlink(t))
  {
    Release(SetPhase(s, t, Unlinking(s.tasks[t].phase.left - 1)), UnlinkTarget(s, t), t)
  }

  lemma UnlinkedAt(s: Level, t: nat, i: nat)
    requires Enabled(s, Unlink(t)) && UnlinkTarget(s, t) < t && i < |s.tasks|
    ensures var r, x, q := Unlinked(s, t), s.tasks[i], UnlinkTarget(s, t);
            && |r.tasks| == |s.tasks|
            && r.tasks[i] == (if i == t then x.(phase := Unlinking(x.phase.left - 1))
                              else if i == q then x.(fanoutRef := x.fanoutRef + 1, releases := [t] + x.releases)
                              else x)
  {
  }

  lemma UnlinkedViews(s: Level, t: nat, i: nat)
    requires Enabled(s, Unlink(t)) && UnlinkTarget(s, t) < t && i < |s.tasks|
    ensures |Unlinked(s, t).tasks| == |s.tasks|
    ensures ViewOf(Unlinked(s, t).tasks[i]) == UnlinkView(ViewOf(s.tasks[i]), i, UnlinkTarget(s, t), t)
  {
    UnlinkedAt(s, t, i);
    if i == t {
      var x, left := s.tasks[t], s.tasks[t].phase.left;
      assert x.producers[left - 1..] == [x.producers[left - 1]] + x.producers[left..];
    }
  }

  lemma UnlinkedPairs(s: Level, t: nat)
    requires PairsOk(s) && Enabled(s, Unlink(t)) && UnlinkTarget(s, t) < t
    ensures |Unlinked(s, t).tasks| == |s.tasks| && PairsOk(Unlinked(s, t))
    ensures CreditsExact(s) ==> CreditsExact(Unlinked(s, t))
  {
    var r, q := Unlinked(s, t), UnlinkTarget(s, t);
    forall p, x | 0 <= p < |r.tasks| && 0 <= x < |r.tasks|
      ensures PairOk(r, p, x)
      ensures CreditExact(s, p, x) ==> CreditExact(r, p, x)
    {
      assert PairOk(s, p, x);
      UnlinkedViews(s, t, p);
      UnlinkedViews(s, t, x);
      ReleaseMoves(p, ViewOf(s.tasks[p]), x, ViewOf(s.tasks[x]), q, t);
    }
  }

  lemma UnlinkedControl(s: Level, t: nat)
    requires Enabled(s, Unlink(t)) && UnlinkTarget(s, t) < t
    ensures SameControl(s, Unlinked(s, t))
    ensures forall i :: 0 <= i < |s.tasks| ==> Unlinked(s, t).tasks[i].status == s.tasks[i].status
  {
  }

  lemma UnlinkedNames(s: Level, t: nat)
    requires NamesOk(s) && Enabled(s, Unlink(t)) && UnlinkTarget(s, t) < t
    ensures NamesOk(Unlinked(s, t))
  {
    var r := Unlinked(s, t);
    UnlinkedControl(s, t);
    forall i | 0 <= i < |r.tasks| ensures ListsOk(r, i) && InputsOk(r, i) {
      assert ListsOk(s, i) && InputsOk(s, i);
      UnlinkedAt(s, t, i);
      forall p | p in r.tasks[i].credits ensures DoneAt(r, p) { assert DoneAt(s, p); }
      SameShapesSameInputs(s, r, i);
    }
  }

  lemma UnlinkedKeeps(s: Level, t: nat)
    requires Inv(s) && Enabled(s, Unlink(t))
    ensures UnlinkTarget(s, t) < t && Inv(Unlinked(s, t))
    ensures Exact(s) ==> Exact(Unlinked(s, t))
  {
    var r := Unlinked(s, t);
    assert ListsOk(s, t);
    assert UnlinkTarget(s, t) in s.tasks[t].producers;
    UnlinkedPairs(s, t);
    UnlinkedNames(s, t);
    UnlinkedControl(s, t);
    SameControlKeeps(s, r);
    UnlinkedBodies(s, t);
  }

  lemma UnlinkedBodies(s: Level, t: nat)
    requires BodiesOk(s) && WakesBut(s, |s.tasks|) && Enabled(s, Unlink(t)) && UnlinkTarget(s, t) < t
    ensures BodiesOk(Unlinked(s, t)) && WakesBut(Unlinked(s, t), |s.tasks|)
  {
    var r := Unlinked(s, t);
    forall i | 0 <= i < |r.tasks| ensures PhaseOk(r.tasks[i]) && CountsOk(r.tasks[i]) {
      assert PhaseOk(s.tasks[i]) && CountsOk(s.tasks[i]);
      UnlinkedAt(s, t, i);
    }
    forall i | 0 <= i < |r.tasks| ensures WakeOk(r, i) {
      assert WakeOk(s, i);
      UnlinkedAt(s, t, i);
    }
  }

  lemma UnlinkKeeps(s: Level, t: nat)
    requires Inv(s) && Enabled(s, Unlink(t))
    ensures Inv(Next(s, Unlink(t)))
  {
    UnlinkedKeeps(s, t);
    CheckConsumedKeeps(Unlinked(s, t), UnlinkTarget(s, t));
    assert Next(s, Unlink(t)) == CheckConsumed(Unlinked(s, t), UnlinkTarget(s, t));
  }

  lemma FinishedTask(x: Task)
    requires PhaseOk(x) && CountsOk(x) && x.phase == Unlinking(0)
    ensures var y := x.(phase := Finished);
            PhaseOk(y) && CountsOk(y) && QuietAt(x, y) && y.status != Pending && y.status != Ready
  {
  }

  lemma FinishedKeeps(s: Level, t: nat)
    requires Inv(s) && Enabled(s, Finish(t))
    ensures Inv(SetPhase(s, t, Finished))
    ensures Exact(s) ==> Exact(SetPhase(s, t, Finished))
  {
    InvToBut(s, t);
    FinishedTask(s.tasks[t]);
    QuietInv(s, SetPhase(s, t, Finished), t);
  }

  lemma FinishKeeps(s: Level, t: nat)
    requires Inv(s) && Enabled(s, Finish(t))
    ensures Inv(Next(s, Finish(t)))
  {
    FinishedKeeps(s, t);
    CheckConsumedKeeps(SetPhase(s, t, Finished), t);
  }
}

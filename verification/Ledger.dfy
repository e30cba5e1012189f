/** The bookkeeping every task keeps in every reachable state: mirrored dependency
    lists, reference counts that equal what they stand for, and statuses that agree
    with the counts. */
module Ledger {
  import opened Common
  import opened Lifecycle
  import opened Tally

  predicate Mirrored(ts: seq<Task>, p: nat, c: nat)
    requires p < |ts| && c < |ts|
  {
    Count(ts[p].consumers, c) == Count(ts[c].producers, p)
  }

  /** Producers precede their consumers, and each edge is in both lists equally often. */
  ghost predicate Edges(ts: seq<Task>) {
    && (forall i, p :: 0 <= i < |ts| && p in ts[i].producers ==> p <= i)
    && (forall i, c :: 0 <= i < |ts| && c in ts[i].consumers ==> i <= c < |ts|)
    && (forall p, c :: 0 <= p < |ts| && 0 <= c < |ts| ==> Mirrored(ts, p, c))
  }

  /** The counters mean what they are for: one reference per consumer plus the scope's,
      and one satisfied input per producer that finished after submission. */
  predicate TallyAt(ts: seq<Task>, i: nat)
    requires i < |ts|
  {
    && ts[i].fanoutCount == 1 + |ts[i].consumers|
    && ts[i].fanoutRef == (if ts[i].released then 1 else 0) + DoneCount(ts, ts[i].consumers)
    && ts[i].faninRef + ts[i].preDone == DoneCount(ts, ts[i].producers)
  }

  predicate RetainAt(ts: seq<Task>, i: nat)
    requires i < |ts|
  {
    ts[i].status == Consumed <==> IsDone(ts[i]) && ts[i].fanoutRef == ts[i].fanoutCount
  }

  /** Every producer is finished and none was finished before the task was submitted. */
  predicate InputsArrived(ts: seq<Task>, i: nat)
    requires i < |ts|
  {
    ts[i].preDone == 0 && DoneCount(ts, ts[i].producers) == |ts[i].producers|
  }

  predicate StartAt(ts: seq<Task>, i: nat)
    requires i < |ts|
  {
    var t := ts[i];
    && t.faninCount == |t.producers|
    && (!t.isGroup ==> t.status == Running || IsDone(t))
    && (t.isGroup && t.groupSize == 0 ==> IsDone(t))
    && (t.isGroup && t.groupSize > 0 ==> t.status != Ready && (t.status != Pending <==> InputsArrived(ts, i)))
  }

  /** The ledger of all tasks, except that task x may not have reached its first status. */
  ghost predicate BalancedBut(ts: seq<Task>, x: nat) {
    && Edges(ts)
    && (forall i :: 0 <= i < |ts| ==> TallyAt(ts, i))
    && (forall i :: 0 <= i < |ts| ==> RetainAt(ts, i))
    && (forall i :: 0 <= i < |ts| && i != x ==> StartAt(ts, i))
  }

  ghost predicate Balanced(ts: seq<Task>) {
    BalancedBut(ts, |ts|)
  }

  lemma TokenAtMostOne(ts: seq<Task>, i: nat)
    requires i < |ts| && TallyAt(ts, i)
    ensures ts[i].fanoutRef <= ts[i].fanoutCount
    ensures ts[i].fanoutRef == ts[i].fanoutCount ==> ts[i].released && forall c :: c in ts[i].consumers ==>
              DoneAt(ts, c)
  {
    DoneCountFull(ts, ts[i].consumers);
  }

  // ---- A completion keeps the ledger ------------------------------------

  /** us is ts after task t completes. */
  ghost predicate Evolved(ts: seq<Task>, us: seq<Task>, t: nat) {
    && t < |ts| == |us|
    && !IsDone(ts[t])
    && forall i :: 0 <= i < |ts| ==> us[i] == Settled(ts, t, i)
  }

  lemma SettleFacts(x: Task, n: nat, m: nat, self: bool)
    ensures var y := Settle(x, n, m, self);
            && y == x.(fanoutRef := x.fanoutRef + n, faninRef := x.faninRef + (if n > 0 || self || m > 0 then m
               else 0), status := y.status)
            && (IsDone(y) <==> self || IsDone(x))
            && (x.status == Consumed && !self ==> y.status == Consumed)
  {
  }

  lemma EvolvedAt(ts: seq<Task>, us: seq<Task>, t: nat, i: nat)
    requires Evolved(ts, us, t) && i < |ts|
    ensures us[i] == ts[i].(fanoutRef := ts[i].fanoutRef + Count(ts[t].producers, i),
                            faninRef := ts[i].faninRef + Count(ts[t].consumers, i),
                            status := us[i].status)
    ensures DoneAt(us, i) <==> i == t || DoneAt(ts, i)
    ensures ts[i].status == Consumed ==> us[i].status == Consumed
  {
    SettleFacts(ts[i], Count(ts[t].producers, i), Count(ts[t].consumers, i), i == t);
  }

  lemma EvolvedCount(ts: seq<Task>, us: seq<Task>, t: nat, list: seq<nat>)
    requires Evolved(ts, us, t)
    ensures DoneCount(us, list) == DoneCount(ts, list) + Count(list, t)
  {
  }

  lemma EvolvedTally(ts: seq<Task>, us: seq<Task>, t: nat, i: nat)
    requires Evolved(ts, us, t) && i < |ts| && TallyAt(ts, i)
    requires Mirrored(ts, i, t) && Mirrored(ts, t, i)
    ensures TallyAt(us, i)
  {
    EvolvedAt(ts, us, t, i);
    EvolvedCount(ts, us, t, ts[i].consumers);
    EvolvedCount(ts, us, t, ts[i].producers);
  }

  lemma EvolvedRetain(ts: seq<Task>, us: seq<Task>, t: nat, i: nat)
    requires Evolved(ts, us, t) && i < |ts|
    requires TallyAt(ts, i) && RetainAt(ts, i) && TallyAt(us, i) && Mirrored(ts, i, t)
    ensures RetainAt(us, i)
  {
    TokenAtMostOne(ts, i);
    TokenAtMostOne(us, i);
    var n := Count(ts[t].producers, i);
    if n > 0 {
      // i has an unfinished consumer, so it was not CONSUMED.
      assert t in ts[i].consumers;
      assert ts[i].status != Consumed;
    }
  }

  lemma EvolvedStart(ts: seq<Task>, us: seq<Task>, t: nat, i: nat)
    requires Evolved(ts, us, t) && i < |ts| && i != t
    requires StartAt(ts, i) && TallyAt(us, i) && TallyAt(ts, i) && Mirrored(ts, t, i)
    requires Count(ts[t].producers, i) == 0 || Count(ts[t].consumers, i) == 0
    ensures StartAt(us, i)
  {
  }

  lemma EvolvedSelfStart(ts: seq<Task>, us: seq<Task>, t: nat)
    requires Evolved(ts, us, t) && ts[t].faninCount == |ts[t].producers|
    requires ts[t].isGroup && ts[t].groupSize > 0 ==> InputsArrived(ts, t)
    ensures StartAt(us, t)
  {
    EvolvedAt(ts, us, t, t);
    EvolvedCount(ts, us, t, ts[t].producers);
  }

  lemma EvolvedEdges(ts: seq<Task>, us: seq<Task>, t: nat)
    requires Evolved(ts, us, t) && Edges(ts)
    ensures Edges(us)
  {
    forall i | 0 <= i < |ts| ensures us[i].producers == ts[i].producers && us[i].consumers == ts[i].consumers {
      EvolvedAt(ts, us, t, i);
    }
    forall p, c | 0 <= p < |us| && 0 <= c < |us| ensures Mirrored(us, p, c) {
      assert Mirrored(ts, p, c);
    }
  }

  lemma OneSided(ts: seq<Task>, t: nat, i: nat)
    requires Edges(ts) && t < |ts| && i < |ts| && i != t
    ensures Count(ts[t].producers, i) == 0 || Count(ts[t].consumers, i) == 0
  {
  }

  lemma CompleteEvolves(s: Orch, t: nat)
    requires t < |s.tasks| && !IsDone(s.tasks[t]) && Edges(s.tasks)
    ensures Evolved(s.tasks, Complete(s, t).tasks, t)
  {
    CompleteKeeps(s, t);
    forall i | 0 <= i < |s.tasks| ensures Complete(s, t).tasks[i] == Settled(s.tasks, t, i) {
      if i != t { OneSided(s.tasks, t, i); }
      CompleteAt(s, t, i);
    }
  }

  /** Completing a task whose inputs, if it is a group, have all arrived. */
  lemma CompleteKeepsBalance(s: Orch, t: nat)
    requires t < |s.tasks| && !IsDone(s.tasks[t]) && BalancedBut(s.tasks, t)
    requires s.tasks[t].faninCount == |s.tasks[t].producers|
    requires s.tasks[t].isGroup && s.tasks[t].groupSize > 0 ==> InputsArrived(s.tasks, t)
    ensures Evolved(s.tasks, Complete(s, t).tasks, t)
    ensures Balanced(Complete(s, t).tasks)
  {
    var ts, us := s.tasks, Complete(s, t).tasks;
    CompleteEvolves(s, t);
    EvolvedEdges(ts, us, t);
    forall i | 0 <= i < |us| ensures TallyAt(us, i) && RetainAt(us, i) && StartAt(us, i) {
      assert Mirrored(ts, i, t) && Mirrored(ts, t, i);
      EvolvedTally(ts, us, t, i);
      EvolvedRetain(ts, us, t, i);
      if i == t {
        EvolvedSelfStart(ts, us, t);
      } else {
        OneSided(ts, t, i);
        EvolvedStart(ts, us, t, i);
      }
    }
  }

  // ---- Submission keeps the ledger --------------------------------------

  /** Which tasks are finished is all that the counts depend on. */
  lemma SameDoneSameCounts(ts: seq<Task>, us: seq<Task>, i: nat)
    requires |ts| == |us| && i < |ts|
    requires forall x :: 0 <= x < |ts| ==> IsDone(ts[x]) == IsDone(us[x])
    ensures DoneCount(us, ts[i].consumers) == DoneCount(ts, ts[i].consumers)
    ensures DoneCount(us, ts[i].producers) == DoneCount(ts, ts[i].producers)
  {
    DoneCountSame(ts, us, ts[i].consumers);
    DoneCountSame(ts, us, ts[i].producers);
  }

  lemma AddEdgeMirrors(ts: seq<Task>, p: nat, c: nat, a: nat, b: nat)
    requires p <= c < |ts| && a < |ts| && b < |ts| && Mirrored(ts, a, b)
    ensures Mirrored(AddEdge(ts, p, c), a, b)
  {
    CountPrepend(ts[p].consumers, b, c);
    CountPrepend(ts[c].producers, a, p);
  }

  lemma AddEdgeKeepsEdges(ts: seq<Task>, p: nat, c: nat)
    requires p <= c < |ts| && Edges(ts)
    ensures Edges(AddEdge(ts, p, c))
  {
    var us := AddEdge(ts, p, c);
    forall a, b | 0 <= a < |us| && 0 <= b < |us| ensures Mirrored(us, a, b) {
      assert Mirrored(ts, a, b);
      AddEdgeMirrors(ts, p, c, a, b);
    }
    forall i, x | 0 <= i < |us| && x in us[i].producers ensures x <= i {
      assert x in ts[i].producers || (i == c && x == p);
    }
    forall i, x | 0 <= i < |us| && x in us[i].consumers ensures i <= x < |us| {
      assert x in ts[i].consumers || (i == p && x == c);
    }
  }

  lemma AddEdgeKeepsTally(ts: seq<Task>, p: nat, c: nat, i: nat)
    requires p <= c < |ts| && i < |ts| && !IsDone(ts[c]) && TallyAt(ts, i)
    ensures TallyAt(AddEdge(ts, p, c), i)
  {
    var us := AddEdge(ts, p, c);
    SameDoneSameCounts(ts, us, i);
    DoneCountPrepend(us, c, ts[p].consumers);
    DoneCountPrepend(us, p, ts[c].producers);
  }

  /** A new edge keeps the ledger exactly when the producer was not CONSUMED. */
  lemma AddEdgeKeepsBalance(ts: seq<Task>, p: nat, c: nat)
    requires p <= c < |ts| && !IsDone(ts[c]) && BalancedBut(ts, c) && c == |ts| - 1
    ensures BalancedBut(AddEdge(ts, p, c), c) <==> ts[p].status != Consumed
  {
    var us := AddEdge(ts, p, c);
    AddEdgeKeepsEdges(ts, p, c);
    forall i | 0 <= i < |us| ensures TallyAt(us, i) && (i != c ==> StartAt(us, i)) && (i != p ==> RetainAt(us, i)) {
      assert TallyAt(ts, i) && RetainAt(ts, i);
      AddEdgeKeepsTally(ts, p, c, i);
      SameDoneSameCounts(ts, us, i);
      if i != c { assert StartAt(ts, i); }
    }
    assert RetainAt(ts, p) && TallyAt(ts, p);
    TokenAtMostOne(ts, p);
    assert RetainAt(us, p) <==> ts[p].status != Consumed;
  }

  lemma OpenKeepsBalance(ts: seq<Task>, isGroup: bool, groupSize: nat)
    requires Balanced(ts)
    ensures BalancedBut(ts + [NewTask(isGroup, groupSize)], |ts|)
  {
    var us := ts + [NewTask(isGroup, groupSize)];
    forall p, c | 0 <= p < |us| && 0 <= c < |us| ensures Mirrored(us, p, c) {
      if p < |ts| && c < |ts| {
        assert Mirrored(ts, p, c);
      }
    }
    forall i | 0 <= i < |us| ensures TallyAt(us, i) && RetainAt(us, i) && (i != |ts| ==> StartAt(us, i)) {
      if i < |ts| {
        assert TallyAt(ts, i) && RetainAt(ts, i) && StartAt(ts, i);
        DoneCountSame(ts, us, ts[i].consumers);
        DoneCountSame(ts, us, ts[i].producers);
      }
    }
  }

  /** us differs from ts only in fields of the unfinished task x that no count depends on. */
  ghost predicate Touched(ts: seq<Task>, us: seq<Task>, x: nat) {
    && x < |ts| == |us|
    && (forall i :: 0 <= i < |ts| && i != x ==> us[i] == ts[i])
    && us[x] == ts[x].(faninCount := us[x].faninCount, scoped := us[x].scoped, heapEnd := us[x].heapEnd,
                       status := us[x].status, subDone := us[x].subDone)
    && !IsDone(ts[x]) && !IsDone(us[x])
  }

  lemma TouchKeepsBalance(ts: seq<Task>, us: seq<Task>, x: nat)
    requires BalancedBut(ts, x) && Touched(ts, us, x)
    ensures BalancedBut(us, x)
    ensures InputsArrived(us, x) <==> InputsArrived(ts, x)
  {
    forall p, c | 0 <= p < |us| && 0 <= c < |us| ensures Mirrored(us, p, c) {
      assert Mirrored(ts, p, c);
    }
    SameDoneSameCounts(ts, us, x);
    forall i | 0 <= i < |us| ensures TallyAt(us, i) && RetainAt(us, i) && (i != x ==> StartAt(us, i)) {
      assert TallyAt(ts, i) && RetainAt(ts, i);
      SameDoneSameCounts(ts, us, i);
      if i != x { assert StartAt(ts, i); }
    }
  }

  lemma SettleBalance(ts: seq<Task>, x: nat)
    requires x < |ts| && BalancedBut(ts, x) && StartAt(ts, x)
    ensures Balanced(ts)
  {
  }

  // ---- A task that completes as it is submitted ------------------------------

  /** What RetainAt will say of task i once x, which has not released it, completes. */
  predicate RetainAfter(ts: seq<Task>, x: nat, i: nat)
    requires x < |ts| && i < |ts|
  {
    ts[i].status == Consumed <==> IsDone(ts[i]) && ts[i].fanoutRef + Count(ts[x].producers, i) == ts[i].fanoutCount
  }

  /** The ledger while x is being submitted, whatever it reads. */
  ghost predicate LooseBut(ts: seq<Task>, x: nat) {
    && x < |ts| && Edges(ts)
    && (forall i :: 0 <= i < |ts| ==> TallyAt(ts, i))
    && (forall i :: 0 <= i < |ts| ==> RetainAfter(ts, x, i))
    && (forall i :: 0 <= i < |ts| && i != x ==> StartAt(ts, i))
  }

  lemma LooseRetain(ts: seq<Task>, us: seq<Task>, t: nat, i: nat)
    requires Evolved(ts, us, t) && i < |ts| && RetainAfter(ts, t, i) && TallyAt(us, i)
    requires Count(ts[t].producers, i) == 0 || Count(ts[t].consumers, i) == 0 || i == t
    requires i == t ==> !ts[t].released
    ensures RetainAt(us, i)
  {
    EvolvedAt(ts, us, t, i);
    TokenAtMostOne(us, i);
  }

  /** Completing at once balances the ledger, whatever the task read. */
  lemma CompleteBalancesLoose(s: Orch, t: nat)
    requires LooseBut(s.tasks, t) && !IsDone(s.tasks[t]) && !s.tasks[t].released
    requires s.tasks[t].faninCount == |s.tasks[t].producers| && s.tasks[t].isGroup && s.tasks[t].groupSize == 0
    ensures Evolved(s.tasks, Complete(s, t).tasks, t)
    ensures Balanced(Complete(s, t).tasks)
  {
    var ts, us := s.tasks, Complete(s, t).tasks;
    CompleteEvolves(s, t);
    EvolvedEdges(ts, us, t);
    forall i | 0 <= i < |us| ensures TallyAt(us, i) && RetainAt(us, i) && StartAt(us, i) {
      assert Mirrored(ts, i, t) && Mirrored(ts, t, i);
      EvolvedTally(ts, us, t, i);
      if i == t {
        EvolvedSelfStart(ts, us, t);
      } else {
        OneSided(ts, t, i);
        EvolvedStart(ts, us, t, i);
      }
      LooseRetain(ts, us, t, i);
    }
  }
}

/** Counting finished tasks along a dependency list, and what each walk over a list
    does to one task. */
module Tally {
  import opened Common
  import opened Lifecycle

  /** How many entries of the list denote finished tasks. */
  function DoneCount(ts: seq<Task>, list: seq<nat>): (n: nat)
    ensures n <= |list|
  {
    if list == [] then 0 else (if DoneAt(ts, list[0]) then 1 else 0) + DoneCount(ts, list[1..])
  }

  lemma DoneCountPrepend(ts: seq<Task>, x: nat, list: seq<nat>)
    ensures DoneCount(ts, [x] + list) == (if DoneAt(ts, x) then 1 else 0) + DoneCount(ts, list)
  {
  }

  lemma {:induction false} DoneCountSame(ts: seq<Task>, us: seq<Task>, list: seq<nat>)
    requires forall x :: x in list ==> DoneAt(ts, x) == DoneAt(us, x)
    ensures DoneCount(ts, list) == DoneCount(us, list)
  {
    if list != [] {
      assert list[0] in list;
      DoneCountSame(ts, us, list[1..]);
    }
  }

  /** Finishing task t moves every count up by the number of times t is listed. */
  lemma {:induction false} DoneCountFlip(ts: seq<Task>, us: seq<Task>, list: seq<nat>, t: nat)
    requires !DoneAt(ts, t) && DoneAt(us, t)
    requires forall x :: x in list && x != t ==> DoneAt(ts, x) == DoneAt(us, x)
    ensures DoneCount(us, list) == DoneCount(ts, list) + Count(list, t)
  {
    if list != [] {
      assert list[0] in list;
      DoneCountFlip(ts, us, list[1..], t);
    }
  }

  lemma {:induction false} DoneCountFull(ts: seq<Task>, list: seq<nat>)
    ensures DoneCount(ts, list) == |list| <==> forall x :: x in list ==> DoneAt(ts, x)
  {
    if list != [] {
      DoneCountFull(ts, list[1..]);
      assert list == [list[0]] + list[1..];
      assert forall x :: x in list <==> x == list[0] || x in list[1..];
    }
  }

  // ---- What one walk does to one task -----------------------------------

  function Released(t: Task, n: nat): Task {
    if n == 0 then t else CheckConsumed(t.(fanoutRef := t.fanoutRef + n))
  }

  lemma {:induction false} ReleaseAllAt(ts: seq<Task>, list: seq<nat>, i: nat)
    requires i < |ts|
    ensures ReleaseAll(ts, list)[i] == Released(ts[i], Count(list, i))
    decreases |list|
  {
    if list != [] {
      var us := ReleaseOne(ts, list[0]);
      ReleaseAllAt(us, list[1..], i);
      if list[0] == i {
        assert us[i] == Released(ts[i], 1);
        ReleasedAgain(ts[i], Count(list[1..], i));
      } else {
        assert us[i] == ts[i];
      }
    }
  }

  lemma ReleasedAgain(x: Task, n: nat)
    ensures Released(Released(x, 1), n) == Released(x, 1 + n)
  {
  }

  lemma {:induction false} SatisfyAllAt(ts: seq<Task>, list: seq<nat>, i: nat)
    requires i < |ts|
    ensures SatisfyAll(ts, list)[i] == ts[i].(faninRef := ts[i].faninRef + Count(list, i))
    decreases |list|
  {
    if list != [] {
      SatisfyAllAt(SatisfyOne(ts, list[0]), list[1..], i);
    }
  }

  function Woken(t: Task): Task {
    if Wakeable(t) then t.(status := if t.isGroup then Running else Ready) else t
  }

  lemma {:induction false} LaunchKeeps(s: Orch, g: nat, n: nat)
    ensures Launch(s, g, n) ==
            s.(subOf := Launch(s, g, n).subOf, nextSub := s.nextSub - n, inflight := Launch(s, g, n).inflight)
    decreases n
  {
    if n > 0 {
      LaunchKeeps(LaunchSub(s, g), g, n - 1);
    }
  }

  lemma WakeOneKeeps(s: Orch, c: nat)
    ensures var r := WakeOne(s, c);
            && r == s.(tasks := r.tasks, subOf := r.subOf, nextSub := r.nextSub, specs := r.specs,
                       inflight := r.inflight)
            && r.tasks == (if c < |s.tasks| then s.tasks[c := Woken(s.tasks[c])] else s.tasks)
            && r.specs == (if c < |s.tasks| && Wakeable(s.tasks[c])
               && s.tasks[c].isGroup then s.specs - {c} else s.specs)
  {
    if c < |s.tasks| && Wakeable(s.tasks[c]) && s.tasks[c].isGroup && c in s.specs {
      LaunchKeeps(s.(tasks := SetStatus(s.tasks, c, Running)), c, s.specs[c]);
    }
  }

  /** Waking a list changes only the listed, ready tasks, and the dispatch tables. */
  lemma {:induction false} WakeAllKeeps(s: Orch, list: seq<nat>)
    ensures var r := WakeAll(s, list);
            && r == s.(tasks := r.tasks, subOf := r.subOf, nextSub := r.nextSub, specs := r.specs,
                       inflight := r.inflight)
            && |r.tasks| == |s.tasks|
            && forall i :: 0 <= i < |s.tasks| ==>
                 r.tasks[i] == if i in list then Woken(s.tasks[i]) else s.tasks[i]
    decreases |list|
  {
    if list != [] {
      WakeOneKeeps(s, list[0]);
      WakeAllKeeps(WakeOne(s, list[0]), list[1..]);
      assert forall x :: x in list <==> x == list[0] || x in list[1..];
    }
  }

  lemma {:induction false} GiveTokensAt(ts: seq<Task>, list: seq<nat>, i: nat)
    requires i < |ts| && Distinct(list)
    ensures GiveTokens(ts, list)[i] ==
            if i in list then ts[i].(fanoutRef := ts[i].fanoutRef + 1, released := true) else ts[i]
  {
    if list != [] {
      var front := list[..|list| - 1];
      GiveTokensAt(ts, front, i);
      assert list == front + [list[|list| - 1]];
    }
  }

  lemma {:induction false} CheckRangeAt(ts: seq<Task>, lo: nat, hi: nat, i: nat)
    requires i < |ts| && hi <= |ts|
    ensures CheckRange(ts, lo, hi)[i] == if lo <= i < hi then CheckConsumed(ts[i]) else ts[i]
    decreases hi
  {
    if hi > lo {
      CheckRangeAt(ts, lo, hi - 1, i);
    }
  }

  // ---- What completing a task does to one task ---------------------------

  /** A task after a completion, as a function of what it was before: it occurs n times
      among the producers and m times among the consumers of the completed task. */
  function Settle(x: Task, n: nat, m: nat, self: bool): Task {
    var bumped := x.(status := if self then Completed else x.status,
                     fanoutRef := x.fanoutRef + n,
                     faninRef := x.faninRef + m);
    if n > 0 || self then CheckConsumed(bumped)
    else if m > 0 then Woken(bumped)
    else x
  }

  function Settled(ts: seq<Task>, t: nat, i: nat): Task
    requires t < |ts| && i < |ts|
  {
    Settle(ts[i], Count(ts[t].producers, i), Count(ts[t].consumers, i), i == t)
  }

  /** The four walks of a completion applied in turn to a task that occurs n times among
      the producers and m times among the consumers of the completed one. */
  function Staged(x: Task, n: nat, m: nat, self: bool): Task {
    var x1 := Released(x, n);
    var x2 := x1.(faninRef := x1.faninRef + m);
    var x3 := if m > 0 then Woken(x2) else x2;
    if self then CheckConsumed(x3) else x3
  }

  lemma PropagateAt(s: Orch, t: nat, i: nat)
    requires t < |s.tasks| && i < |s.tasks|
    ensures |Propagate(s, t).tasks| == |s.tasks|
    ensures Propagate(s, t).tasks[i] ==
            Staged(s.tasks[i], Count(s.tasks[t].producers, i), Count(s.tasks[t].consumers, i), i == t)
  {
    var t0 := s.tasks[t];
    var ts1 := ReleaseAll(s.tasks, t0.producers);
    var x1 := ts1[i];
    assert x1 == Released(s.tasks[i], Count(t0.producers, i)) by { ReleaseAllAt(s.tasks, t0.producers, i); }
    var ts2 := SatisfyAll(ts1, t0.consumers);
    var x2 := ts2[i];
    assert x2 == x1.(faninRef := x1.faninRef + Count(t0.consumers, i)) by { SatisfyAllAt(ts1, t0.consumers, i); }
    var s3 := WakeAll(s.(tasks := ts2), t0.consumers);
    assert |s3.tasks| == |s.tasks| && s3.tasks[i] == if i in t0.consumers then Woken(x2) else x2 by {
      WakeAllKeeps(s.(tasks := ts2), t0.consumers);
    }
    var x3 := s3.tasks[i];
    var r := Propagate(s, t).tasks;
    assert r == s3.tasks[t := CheckConsumed(s3.tasks[t])];
    assert r[i] == if i == t then CheckConsumed(x3) else x3;
    StagedIs(s.tasks[i], Count(t0.producers, i), Count(t0.consumers, i), i == t, x1, x2, x3);
  }

  lemma StagedIs(x: Task, n: nat, m: nat, self: bool, x1: Task, x2: Task, x3: Task)
    requires x1 == Released(x, n)
    requires x2 == x1.(faninRef := x1.faninRef + m)
    requires x3 == if m > 0 then Woken(x2) else x2
    ensures Staged(x, n, m, self) == if self then CheckConsumed(x3) else x3
  {
  }

  /** The effect of a completion, task by task. Only the task itself can be both one of
      its producers and one of its consumers. */
  lemma CompleteAt(s: Orch, t: nat, i: nat)
    requires t < |s.tasks| && i < |s.tasks|
    requires i == t || Count(s.tasks[t].producers, i) == 0 || Count(s.tasks[t].consumers, i) == 0
    ensures |Complete(s, t).tasks| == |s.tasks|
    ensures Complete(s, t).tasks[i] == Settled(s.tasks, t, i)
  {
    var n, m := Count(s.tasks[t].producers, i), Count(s.tasks[t].consumers, i);
    PropagateAt(s.(tasks := SetStatus(s.tasks, t, Completed)), t, i);
    StagedIsSettle(s.tasks[i], n, m, i == t);
  }

  lemma StagedIsSettle(x: Task, n: nat, m: nat, self: bool)
    requires self || n == 0 || m == 0
    ensures Staged(if self then x.(status := Completed) else x, n, m, self) == Settle(x, n, m, self)
  {
  }

  lemma CompleteKeeps(s: Orch, t: nat)
    requires t < |s.tasks|
    ensures var r := Complete(s, t);
            && r == s.(tasks := r.tasks, subOf := r.subOf, nextSub := r.nextSub, specs := r.specs,
                       inflight := r.inflight)
            && |r.tasks| == |s.tasks|
  {
    var s0 := s.(tasks := SetStatus(s.tasks, t, Completed));
    var ts2 := SatisfyAll(ReleaseAll(s0.tasks, s.tasks[t].producers), s.tasks[t].consumers);
    WakeAllKeeps(s0.(tasks := ts2), s.tasks[t].consumers);
  }
}

/** Sub-task accounting: every sub-task of a running group is reported, outstanding, or
    still to be handed over; a waiting group is exactly one with a stored spec. */
module Groups {
  import opened Lifecycle
  import opened Tally

  /** The unreported synthetic ids of group g. */
  function Subs(subOf: map<int, nat>, g: nat): set<int> {
    set k | k in subOf && subOf[k] == g
  }

  /** Sub-tasks of g that the submitting call has not handed over yet. */
  function Left(s: Orch, g: nat): nat {
    if s.dispatching.Some? && s.dispatching.value.0 == g then s.dispatching.value.1 else 0
  }

  predicate GroupAt(s: Orch, g: nat)
    requires g < |s.tasks|
  {
    var t := s.tasks[g];
    && (g in s.specs <==> t.isGroup && t.status == Pending)
    && (g in s.specs ==> s.specs[g] == t.groupSize > 0 && t.subDone == 0)
    && (t.isGroup ==> t.status != Ready)
    && (t.isGroup && t.status == Running ==>
          t.subDone + |Subs(s.subOf, g)| + Left(s, g) == t.groupSize && t.subDone < t.groupSize)
    && (!(t.isGroup && t.status == Running) ==> Subs(s.subOf, g) == {} && Left(s, g) == 0)
    && (t.isGroup && IsDone(t) ==> t.subDone == t.groupSize)
  }

  predicate Awaited(s: Orch, id: int) {
    id in s.subOf || (0 <= id < |s.tasks| && !s.tasks[id].isGroup && s.tasks[id].status == Running)
  }

  /** The dispatcher owes a report for exactly the awaited ids. */
  ghost predicate InflightAwaited(s: Orch) {
    forall id: int :: id in s.inflight <==> Awaited(s, id)
  }

  ghost predicate Accounted(s: Orch) {
    && s.nextSub < 0
    && (forall k :: k in s.subOf ==> s.nextSub < k < 0 && s.subOf[k] < |s.tasks|)
    && InflightAwaited(s)
    && (forall g :: g in s.specs ==> g < |s.tasks|)
    && (s.dispatching.Some? ==> s.dispatching.value.0 < |s.tasks| && s.dispatching.value.1 > 0)
    && (forall g :: 0 <= g < |s.tasks| ==> GroupAt(s, g))
  }

  // ---- Launching --------------------------------------------------------

  lemma SubsAfterLaunch(s: Orch, g: nat, h: nat)
    requires s.nextSub !in s.subOf
    ensures Subs(LaunchSub(s, g).subOf, h) == Subs(s.subOf, h) + (if h == g then {s.nextSub} else {})
    ensures |Subs(LaunchSub(s, g).subOf, h)| == |Subs(s.subOf, h)| + if h == g then 1 else 0
  {
  }

  /** The synthetic ids in use lie strictly between the counter and zero. */
  ghost predicate FreshSubs(s: Orch, tasks: nat) {
    s.nextSub < 0 && forall k :: k in s.subOf ==> s.nextSub < k < 0 && s.subOf[k] < tasks
  }

  lemma {:induction false} LaunchCounts(s: Orch, g: nat, n: nat, h: nat)
    requires FreshSubs(s, |s.tasks|) && g < |s.tasks|
    ensures var r := Launch(s, g, n);
            && FreshSubs(r, |s.tasks|)
            && |Subs(r.subOf, h)| == |Subs(s.subOf, h)| + (if h == g then n else 0)
            && (forall k :: k in s.subOf ==> k in r.subOf && r.subOf[k] == s.subOf[k])
    decreases n
  {
    if n > 0 {
      var mid := LaunchSub(s, g);
      SubsAfterLaunch(s, g, h);
      assert FreshSubs(mid, |mid.tasks|);
      LaunchCounts(mid, g, n - 1, h);
    }
  }

  /** Handing sub-tasks over makes exactly their ids outstanding. */
  lemma {:induction false} LaunchAwaits(s: Orch, g: nat, n: nat)
    requires InflightAwaited(s)
    ensures InflightAwaited(Launch(s, g, n))
    decreases n
  {
    if n > 0 {
      var mid := LaunchSub(s, g);
      assert forall id: int :: id in mid.inflight <==> id in s.inflight || id == s.nextSub;
      assert forall id: int :: Awaited(mid, id) <==> Awaited(s, id) || id == s.nextSub;
      LaunchAwaits(mid, g, n - 1);
      assert Launch(s, g, n) == Launch(mid, g, n - 1);
    }
  }

  lemma LaunchOthers(s: Orch, g: nat, n: nat, h: nat)
    requires FreshSubs(s, |s.tasks|) && g < |s.tasks| && h != g
    ensures Subs(s.subOf, h) == {} ==> Subs(Launch(s, g, n).subOf, h) == {}
  {
    LaunchCounts(s, g, n, h);
  }

  lemma WakeGroupAt(s: Orch, c: nat, h: nat)
    requires Accounted(s) && c < |s.tasks| && h < |s.tasks| && Wakeable(s.tasks[c]) && s.tasks[c].isGroup
    ensures |WakeOne(s, c).tasks| == |s.tasks| && GroupAt(WakeOne(s, c), h)
  {
    assert GroupAt(s, c) && GroupAt(s, h);
    var s1 := s.(tasks := SetStatus(s.tasks, c, Running));
    var n := s.specs[c];
    LaunchKeeps(s1, c, n);
    LaunchCounts(s1, c, n, h);
    if h != c { LaunchOthers(s1, c, n, h); }
  }

  lemma WakeOneAccounted(s: Orch, c: nat)
    requires Accounted(s)
    ensures Accounted(WakeOne(s, c))
  {
    if c < |s.tasks| && Wakeable(s.tasks[c]) {
      assert GroupAt(s, c);
      var r := WakeOne(s, c);
      if s.tasks[c].isGroup {
        var s1 := s.(tasks := SetStatus(s.tasks, c, Running));
        LaunchKeeps(s1, c, s.specs[c]);
        LaunchCounts(s1, c, s.specs[c], c);
        assert forall id: int :: Awaited(s1, id) == Awaited(s, id);
        LaunchAwaits(s1, c, s.specs[c]);
        assert forall id: int :: Awaited(r, id) == Awaited(Launch(s1, c, s.specs[c]), id);
        forall h | 0 <= h < |r.tasks| ensures GroupAt(r, h) { WakeGroupAt(s, c, h); }
      } else {
        forall h | 0 <= h < |r.tasks| ensures GroupAt(r, h) { assert GroupAt(s, h); }
        assert forall id: int :: Awaited(r, id) == Awaited(s, id);
      }
    }
  }

  lemma {:induction false} WakeAllAccounted(s: Orch, list: seq<nat>)
    requires Accounted(s)
    ensures Accounted(WakeAll(s, list))
    decreases |list|
  {
    if list != [] {
      WakeOneAccounted(s, list[0]);
      WakeAllAccounted(WakeOne(s, list[0]), list[1..]);
    }
  }

  // ---- Completion -------------------------------------------------------

  /** As far as the accounting is concerned the two task tables agree. */
  ghost predicate SameView(ts: seq<Task>, us: seq<Task>) {
    && |ts| == |us|
    && forall i :: 0 <= i < |ts| ==>
         && us[i].isGroup == ts[i].isGroup && us[i].groupSize == ts[i].groupSize && us[i].subDone == ts[i].subDone
         && (us[i].status == ts[i].status || (IsDone(us[i]) && IsDone(ts[i])))
  }

  lemma SameViewAccounted(s: Orch, us: seq<Task>)
    requires Accounted(s) && SameView(s.tasks, us)
    ensures Accounted(s.(tasks := us))
  {
    var r := s.(tasks := us);
    forall g | 0 <= g < |us| ensures GroupAt(r, g) { assert GroupAt(s, g); }
    assert forall id: int :: Awaited(r, id) == Awaited(s, id);
  }

  lemma {:induction false} ReleaseAllView(ts: seq<Task>, list: seq<nat>)
    ensures SameView(ts, ReleaseAll(ts, list))
    decreases |list|
  {
    if list != [] { ReleaseAllView(ReleaseOne(ts, list[0]), list[1..]); }
  }

  lemma {:induction false} SatisfyAllView(ts: seq<Task>, list: seq<nat>)
    ensures SameView(ts, SatisfyAll(ts, list))
    decreases |list|
  {
    if list != [] { SatisfyAllView(SatisfyOne(ts, list[0]), list[1..]); }
  }

  lemma PropagateAccounted(s: Orch, t: nat)
    requires Accounted(s) && t < |s.tasks|
    ensures Accounted(Propagate(s, t))
  {
    var ts1 := ReleaseAll(s.tasks, s.tasks[t].producers);
    ReleaseAllView(s.tasks, s.tasks[t].producers);
    var ts2 := SatisfyAll(ts1, s.tasks[t].consumers);
    SatisfyAllView(ts1, s.tasks[t].consumers);
    SameViewAccounted(s, ts2);
    var s3 := WakeAll(s.(tasks := ts2), s.tasks[t].consumers);
    WakeAllAccounted(s.(tasks := ts2), s.tasks[t].consumers);
    WakeAllKeeps(s.(tasks := ts2), s.tasks[t].consumers);
    SameViewAccounted(s3, s3.tasks[t := CheckConsumed(s3.tasks[t])]);
  }

  /** All that the accounting needs for task t to be marked COMPLETED. */
  predicate MayFinish(s: Orch, t: nat)
    requires t < |s.tasks|
  {
    && t !in s.inflight && t !in s.specs && Subs(s.subOf, t) == {} && Left(s, t) == 0
    && (s.tasks[t].isGroup ==> s.tasks[t].subDone == s.tasks[t].groupSize)
  }

  /** Completion keeps the accounts when they balanced for every other task. */
  lemma CompleteAccounted(s: Orch, t: nat)
    requires t < |s.tasks| && MayFinish(s, t)
    requires s.nextSub < 0
    requires forall k :: k in s.subOf ==> s.nextSub < k < 0 && s.subOf[k] < |s.tasks|
    requires forall id: int :: id != t ==> (id in s.inflight <==> Awaited(s, id))
    requires forall g :: g in s.specs ==> g < |s.tasks|
    requires s.dispatching.Some? ==> s.dispatching.value.0 < |s.tasks| && s.dispatching.value.1 > 0
    requires forall g :: 0 <= g < |s.tasks| && g != t ==> GroupAt(s, g)
    ensures Accounted(Complete(s, t))
  {
    var r := s.(tasks := SetStatus(s.tasks, t, Completed));
    forall g | 0 <= g < |r.tasks| ensures GroupAt(r, g) {
      if g != t { assert GroupAt(s, g); }
    }
    assert forall id: int :: id != t ==> Awaited(r, id) == Awaited(s, id);
    assert !Awaited(r, t);
    PropagateAccounted(r, t);
  }
}

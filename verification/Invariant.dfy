/** What every step of the orchestrator keeps. */
module Invariant {
  import opened Common
  import opened HeapRings
  import opened Lifecycle
  import opened Tally
  import opened Ledger
  import opened Submission
  import opened Groups

  /** The ring holds at most a window of unretired tasks, and only CONSUMED tasks retire. */
  ghost predicate RingOk(s: Orch) {
    && s.last <= |s.tasks| <= s.last + s.window
    && forall i :: 0 <= i < s.last ==> s.tasks[i].status == Consumed
  }

  /** All tasks of the open scopes, outermost scope first: the flat buffer. */
  function Flat(scopes: seq<seq<nat>>): seq<nat> {
    if scopes == [] then [] else Flat(scopes[..|scopes| - 1]) + scopes[|scopes| - 1]
  }

  /** The open scopes hold, once each, exactly the scoped tasks that have no token yet. */
  ghost predicate ScopesOk(s: Orch) {
    && |s.scopes| <= MAX_SCOPE_DEPTH
    && Distinct(Flat(s.scopes))
    && (forall i :: i in Flat(s.scopes) ==> i < |s.tasks| && s.tasks[i].scoped && !s.tasks[i].released)
    && (forall i :: 0 <= i < |s.tasks| && s.tasks[i].scoped && !s.tasks[i].released ==> i in Flat(s.scopes))
    && (forall i :: 0 <= i < |s.tasks| && s.tasks[i].released ==> s.tasks[i].scoped)
  }

  /** The heap position up to which retirement has reclaimed. */
  function RetiredEnd(s: Orch): nat
    requires s.last <= |s.tasks|
  {
    if s.last == 0 then 0 else s.tasks[s.last - 1].heapEnd
  }

  predicate BufferAt(s: Orch, b: Buffer) {
    && 0 < b.size <= s.heap.capacity && Contiguous(s.heap.capacity, b.start, b.size)
    && b.start + b.size <= s.heap.top
    && b.owner <= |s.tasks|
    && (b.owner > 0 ==> s.tasks[b.owner - 1].heapEnd <= b.start)
    && (b.owner < |s.tasks| ==> b.start + b.size <= s.tasks[b.owner].heapEnd)
  }

  /** Each task's heap mark covers its buffers, marks grow with ids, and the tail is the
      mark of the last retired task. */
  ghost predicate HeapOk(s: Orch) {
    && s.last <= |s.tasks|
    && Sane(s.heap)
    && (forall i, j :: 0 <= i < j < |s.tasks| ==> s.tasks[i].heapEnd <= s.tasks[j].heapEnd)
    && (forall i :: 0 <= i < |s.tasks| ==> s.tasks[i].heapEnd <= s.heap.top)
    && s.heap.tail == RetiredEnd(s)
    && (forall k :: 0 <= k < |s.buffers| ==> BufferAt(s, s.buffers[k]))
    && (forall k, l :: 0 <= k < l < |s.buffers| ==>
          s.buffers[k].start + s.buffers[k].size <= s.buffers[l].start)
  }

  ghost predicate Inv(s: Orch) {
    && Balanced(s.tasks)
    && RingOk(s)
    && Accounted(s)
    && ScopesOk(s)
    && HeapOk(s)
    && HandlesKnown(s)
  }

  lemma InitInv(window: nat, capacity: nat)
    ensures Inv(Init(window, capacity))
  {
  }

  // ---- Steps that give no token and retire nothing ------------------------

  /** us extends or updates ts without touching tokens, heap marks or CONSUMED tasks. */
  ghost predicate Keeps(ts: seq<Task>, us: seq<Task>) {
    && |ts| <= |us|
    && forall i :: 0 <= i < |ts| ==>
         && us[i].scoped == ts[i].scoped && us[i].released == ts[i].released && us[i].heapEnd == ts[i].heapEnd
         && (ts[i].status == Consumed ==> us[i].status == Consumed)
  }

  lemma KeepsRest(s: Orch, r: Orch)
    requires RingOk(s) && ScopesOk(s) && HeapOk(s) && HandlesKnown(s)
    requires |s.tasks| == |r.tasks| && Keeps(s.tasks, r.tasks)
    requires r.window == s.window && r.last == s.last && r.latest == s.latest
    requires r.scopes == s.scopes && r.heap == s.heap && r.buffers == s.buffers
    ensures RingOk(r) && ScopesOk(r) && HeapOk(r) && HandlesKnown(r)
  {
    forall k | 0 <= k < |r.buffers| ensures BufferAt(r, r.buffers[k]) {
      assert BufferAt(s, s.buffers[k]);
    }
  }

  lemma CompleteKeepsRest(s: Orch, t: nat)
    requires RingOk(s) && ScopesOk(s) && HeapOk(s) && HandlesKnown(s) && t < |s.tasks|
    requires Evolved(s.tasks, Complete(s, t).tasks, t)
    ensures var r := Complete(s, t); RingOk(r) && ScopesOk(r) && HeapOk(r) && HandlesKnown(r)
  {
    var r := Complete(s, t);
    CompleteKeeps(s, t);
    forall i | 0 <= i < |s.tasks|
      ensures r.tasks[i].scoped == s.tasks[i].scoped && r.tasks[i].released == s.tasks[i].released
              && r.tasks[i].heapEnd == s.tasks[i].heapEnd
              && (s.tasks[i].status == Consumed ==> r.tasks[i].status == Consumed)
    {
      EvolvedAt(s.tasks, r.tasks, t, i);
    }
    KeepsRest(s, r);
  }

  // ---- Submission --------------------------------------------------------

  lemma FlatAdd(scopes: seq<seq<nat>>, x: nat)
    requires scopes != []
    ensures Flat(scopes[|scopes| - 1 := scopes[|scopes| - 1] + [x]]) == Flat(scopes) + [x]
  {
  }

  lemma RegisterScopes(s: Orch, r: Orch, params: seq<Param>, isGroup: bool, size: nat)
    requires ScopesOk(s) && RegisterView(s, r, params, isGroup, size)
    ensures ScopesOk(r)
  {
    if s.scopes != [] {
      FlatAdd(s.scopes, |s.tasks|);
      DistinctAppend(Flat(s.scopes), |s.tasks|);
    }
  }

  lemma RegisterHeap(s: Orch, r: Orch, params: seq<Param>, isGroup: bool, size: nat)
    requires HeapOk(s) && RegisterView(s, r, params, isGroup, size)
    ensures HeapOk(r)
  {
  }

  lemma RegisterRest(s: Orch, params: seq<Param>, isGroup: bool, size: nat)
    requires Inv(s) && HasSpace(s)
    ensures var r := Register(s, params, isGroup, size);
            && RegisterView(s, r, params, isGroup, size)
            && RingOk(r) && ScopesOk(r) && HeapOk(r) && HandlesKnown(r)
  {
    RegisterShows(s, params, isGroup, size);
    var r := Register(s, params, isGroup, size);
    RegisterScopes(s, r, params, isGroup, size);
    RegisterHeap(s, r, params, isGroup, size);
  }

  lemma NoSubs(subOf: map<int, nat>, g: nat)
    requires forall k :: k in subOf ==> subOf[k] < g
    ensures Subs(subOf, g) == {}
  {
    assert forall k :: k in subOf ==> subOf[k] != g;
  }

  /** The accounts of every earlier task survive registration; the new task has none. */
  lemma RegisterAccounts(s: Orch, r: Orch, params: seq<Param>, isGroup: bool, size: nat)
    requires Accounted(s) && RegisterView(s, r, params, isGroup, size)
    ensures forall g :: 0 <= g < |s.tasks| ==> GroupAt(r, g)
    ensures forall id: int :: Awaited(r, id) <==> id in s.inflight
    ensures Subs(r.subOf, |s.tasks|) == {} && Left(r, |s.tasks|) == 0 && |s.tasks| !in r.specs
            && |s.tasks| !in r.inflight
  {
    forall g | 0 <= g < |s.tasks| ensures GroupAt(r, g) { assert GroupAt(s, g); }
    assert forall id: int :: Awaited(r, id) <==> Awaited(s, id);
    assert !Awaited(s, |s.tasks|);
    NoSubs(s.subOf, |s.tasks|);
  }

  lemma SubmitTaskAccounted(s: Orch, params: seq<Param>)
    requires Accounted(s) && RegisterView(s, Register(s, params, false, 0), params, false, 0)
    ensures Accounted(DoSubmitTask(s, params))
  {
    var r, q := Register(s, params, false, 0), DoSubmitTask(s, params);
    RegisterAccounts(s, r, params, false, 0);
    forall g | 0 <= g < |q.tasks| ensures GroupAt(q, g) {
      if g < |s.tasks| { assert GroupAt(r, g); }
    }
    assert forall id: int :: Awaited(q, id) <==> Awaited(r, id) || id == |s.tasks|;
  }

  lemma SubmitTaskKeeps(s: Orch, params: seq<Param>)
    requires Inv(s) && HasSpace(s) && FreshReads(s, params)
    ensures Inv(DoSubmitTask(s, params))
  {
    RegisterRest(s, params, false, 0);
    SubmitTaskBalance(s, params);
    SubmitTaskAccounted(s, params);
    KeepsRest(Register(s, params, false, 0), DoSubmitTask(s, params));
  }

  lemma SubmitTaskBalance(s: Orch, params: seq<Param>)
    requires HandlesKnown(s) && s.last <= |s.tasks| && Balanced(s.tasks) && FreshReads(s, params)
    ensures Balanced(DoSubmitTask(s, params).tasks)
  {
    var r, q := Register(s, params, false, 0), DoSubmitTask(s, params);
    RegisterShows(s, params, false, 0);
    RegisterKeepsBalance(s, params, false, 0);
    TouchKeepsBalance(r.tasks, q.tasks, |s.tasks|);
    SettleBalance(q.tasks, |s.tasks|);
  }

  lemma StartGroupAccounted(s: Orch, r: Orch, params: seq<Param>, size: nat)
    requires Accounted(s) && s.dispatching.None? && size > 0 && RegisterView(s, r, params, true, size)
    ensures Accounted(r.(tasks := SetStatus(r.tasks, |s.tasks|, Running), dispatching := Some((|s.tasks|, size))))
  {
    var tid := |s.tasks|;
    var q := r.(tasks := SetStatus(r.tasks, tid, Running), dispatching := Some((tid, size)));
    RegisterAccounts(s, r, params, true, size);
    forall g | 0 <= g < tid ensures GroupAt(q, g) { assert GroupAt(r, g); }
    assert GroupAt(q, tid);
    assert forall id: int :: Awaited(q, id) <==> Awaited(r, id);
  }

  lemma DeferGroupAccounted(s: Orch, r: Orch, params: seq<Param>, size: nat)
    requires Accounted(s) && size > 0 && RegisterView(s, r, params, true, size)
    ensures Accounted(r.(specs := r.specs[|s.tasks| := size]))
  {
    var tid := |s.tasks|;
    var q := r.(specs := r.specs[tid := size]);
    RegisterAccounts(s, r, params, true, size);
    forall g | 0 <= g < tid ensures GroupAt(q, g) { assert GroupAt(r, g); }
    assert GroupAt(q, tid);
    assert forall id: int :: Awaited(q, id) <==> Awaited(r, id);
  }

  /** A non-empty group either starts being handed over or has its spec stored. */
  lemma SubmitGroupAccounted(s: Orch, params: seq<Param>, size: nat)
    requires Accounted(s) && s.dispatching.None? && size > 0
    requires RegisterView(s, Register(s, params, true, size), params, true, size)
    ensures Accounted(DoSubmitGroup(s, params, size))
  {
    var r := Register(s, params, true, size);
    if r.tasks[|s.tasks|].producers == [] {
      StartGroupAccounted(s, r, params, size);
    } else {
      DeferGroupAccounted(s, r, params, size);
    }
  }

  /** An empty group completes as it is submitted, so it may read from any task. */
  lemma SubmitEmptyGroupKeeps(s: Orch, params: seq<Param>)
    requires Inv(s) && HasSpace(s)
    ensures Inv(DoSubmitGroup(s, params, 0))
  {
    var r, tid := Register(s, params, true, 0), |s.tasks|;
    RegisterRest(s, params, true, 0);
    RegisterLoose(s, params);
    RegisterAccounts(s, r, params, true, 0);
    CompleteAccounted(r, tid);
    CompleteBalancesLoose(r, tid);
    CompleteKeepsRest(r, tid);
  }

  lemma SubmitGroupBalance(s: Orch, params: seq<Param>, size: nat)
    requires HandlesKnown(s) && s.last <= |s.tasks| && Balanced(s.tasks) && FreshReads(s, params) && size > 0
    ensures Balanced(DoSubmitGroup(s, params, size).tasks)
  {
    var r, q, tid := Register(s, params, true, size), DoSubmitGroup(s, params, size), |s.tasks|;
    RegisterShows(s, params, true, size);
    RegisterKeepsBalance(s, params, true, size);
    assert TallyAt(r.tasks, tid);
    assert BalancedBut(q.tasks, tid) && (InputsArrived(q.tasks, tid) <==> InputsArrived(r.tasks, tid)) by {
      TouchKeepsBalance(r.tasks, q.tasks, tid);
    }
    assert StartAt(q.tasks, tid);
    SettleBalance(q.tasks, tid);
  }

  lemma SubmitGroupKeeps(s: Orch, params: seq<Param>, size: nat)
    requires Inv(s) && HasSpace(s) && s.dispatching.None? && (size > 0 ==> FreshReads(s, params))
    ensures Inv(DoSubmitGroup(s, params, size))
  {
    if size == 0 {
      SubmitEmptyGroupKeeps(s, params);
    } else {
      assert Accounted(DoSubmitGroup(s, params, size)) by {
        RegisterShows(s, params, true, size);
        SubmitGroupAccounted(s, params, size);
      }
      SubmitGroupBalance(s, params, size);
      SubmitGroupRest(s, params, size);
    }
  }

  lemma SubmitGroupRest(s: Orch, params: seq<Param>, size: nat)
    requires Inv(s) && HasSpace(s) && size > 0
    ensures var q := DoSubmitGroup(s, params, size); RingOk(q) && ScopesOk(q) && HeapOk(q) && HandlesKnown(q)
  {
    RegisterRest(s, params, true, size);
    KeepsRest(Register(s, params, true, size), DoSubmitGroup(s, params, size));
  }

  // ---- Dispatch and completion -------------------------------------------

  lemma DispatchNextAccounted(s: Orch)
    requires Accounted(s) && s.dispatching.Some?
    ensures Accounted(DoDispatchNext(s))
  {
    var g := s.dispatching.value.0;
    var r := DoDispatchNext(s);
    assert GroupAt(s, g);
    forall h | 0 <= h < |r.tasks| ensures GroupAt(r, h) {
      assert GroupAt(s, h);
      SubsAfterLaunch(s, g, h);
    }
    assert forall id: int :: Awaited(r, id) <==> Awaited(s, id) || id == s.nextSub;
  }

  lemma DispatchNextKeeps(s: Orch)
    requires Inv(s) && s.dispatching.Some?
    ensures Inv(DoDispatchNext(s))
  {
    DispatchNextAccounted(s);
    KeepsRest(s, DoDispatchNext(s));
  }

  lemma SubsAfterReport(subOf: map<int, nat>, id: int, h: nat)
    requires id in subOf
    ensures Subs(subOf - {id}, h) == Subs(subOf, h) - {id}
    ensures |Subs(subOf - {id}, h)| == |Subs(subOf, h)| - if h == subOf[id] then 1 else 0
  {
  }

  /** The state after a sub-task report has been counted, before the group may complete. */
  function Counted(s: Orch, id: int): Orch
    requires id in s.subOf && s.subOf[id] < |s.tasks|
  {
    var g := s.subOf[id];
    s.(inflight := s.inflight - {id}, subOf := s.subOf - {id},
       tasks := s.tasks[g := s.tasks[g].(subDone := s.tasks[g].subDone + 1)])
  }

  lemma CountedAccounts(s: Orch, id: int)
    requires Accounted(s) && id in s.subOf
    ensures var r, g := Counted(s, id), s.subOf[id];
            && s.tasks[g].isGroup && s.tasks[g].status == Running
            && InflightAwaited(r)
            && (forall h :: 0 <= h < |s.tasks| && h != g ==> GroupAt(r, h))
            && r.tasks[g].subDone + |Subs(r.subOf, g)| + Left(r, g) == r.tasks[g].groupSize
            && g !in s.specs
  {
    var r, g := Counted(s, id), s.subOf[id];
    assert GroupAt(s, g);
    assert id in Subs(s.subOf, g);
    SubsAfterReport(s.subOf, id, g);
    forall h | 0 <= h < |s.tasks| && h != g ensures GroupAt(r, h) {
      assert GroupAt(s, h);
      SubsAfterReport(s.subOf, id, h);
      assert id !in Subs(s.subOf, h);
    }
    assert forall k: int :: Awaited(r, k) <==> Awaited(s, k) && k != id;
  }

  lemma CountedKeeps(s: Orch, id: int)
    requires Inv(s) && id in s.subOf
    ensures var r, g := Counted(s, id), s.subOf[id];
            && BalancedBut(r.tasks, g) && InputsArrived(r.tasks, g)
            && r.tasks[g].faninCount == |r.tasks[g].producers|
            && RingOk(r) && ScopesOk(r) && HeapOk(r) && HandlesKnown(r)
            && (r.tasks[g].subDone < r.tasks[g].groupSize ==> Balanced(r.tasks))
  {
    var r, g := Counted(s, id), s.subOf[id];
    CountedAccounts(s, id);
    assert StartAt(s.tasks, g) && GroupAt(s, g);
    TouchKeepsBalance(s.tasks, r.tasks, g);
    KeepsRest(s, r);
    if r.tasks[g].subDone < r.tasks[g].groupSize {
      assert StartAt(r.tasks, g);
      SettleBalance(r.tasks, g);
    }
  }

  lemma ReportSubKeeps(s: Orch, id: int)
    requires Inv(s) && id in s.subOf
    ensures Inv(DoReport(s, id))
  {
    var r, g := Counted(s, id), s.subOf[id];
    CountedAccounts(s, id);
    CountedKeeps(s, id);
    if r.tasks[g].subDone >= r.tasks[g].groupSize {
      CompleteKeepsBalance(r, g);
      CompleteKeepsRest(r, g);
      CompleteAccounted(r, g);
      assert DoReport(s, id) == Complete(r, g);
    } else {
      assert GroupAt(r, g);
      assert DoReport(s, id) == r;
    }
  }

  lemma ReportTaskKeeps(s: Orch, id: int)
    requires Inv(s) && id in s.inflight && id !in s.subOf
    ensures 0 <= id < |s.tasks| && s.tasks[id].status == Running && !s.tasks[id].isGroup
    ensures Inv(DoReport(s, id))
  {
    assert Awaited(s, id);
    var r := s.(inflight := s.inflight - {id});
    ReportTaskAccounted(s, id);
    assert StartAt(s.tasks, id);
    KeepsRest(s, r);
    CompleteKeepsBalance(r, id);
    CompleteKeepsRest(r, id);
  }

  lemma ReportTaskAccounted(s: Orch, id: nat)
    requires Accounted(s) && id in s.inflight && id !in s.subOf && id < |s.tasks|
    ensures Accounted(Complete(s.(inflight := s.inflight - {id}), id))
  {
    var r := s.(inflight := s.inflight - {id});
    assert Awaited(s, id) && GroupAt(s, id);
    forall g | 0 <= g < |r.tasks| && g != id ensures GroupAt(r, g) { assert GroupAt(s, g); }
    assert forall k: int :: Awaited(r, k) <==> Awaited(s, k);
    CompleteAccounted(r, id);
  }

  // ---- Scopes and retirement ---------------------------------------------

  /** The accounts depend only on the tasks and the dispatch tables. */
  lemma AccountedIgnores(s: Orch, r: Orch)
    requires Accounted(s)
    requires r.tasks == s.tasks && r.subOf == s.subOf && r.nextSub == s.nextSub && r.specs == s.specs
    requires r.inflight == s.inflight && r.dispatching == s.dispatching
    ensures Accounted(r)
  {
    forall g | 0 <= g < |r.tasks| ensures GroupAt(r, g) { assert GroupAt(s, g); }
    assert forall id: int :: Awaited(r, id) <==> Awaited(s, id);
  }

  lemma CursorStopsOrMoves(s: Orch)
    requires HeapOk(s)
    ensures HeapOk(AdvanceRing(s))
  {
    var r := AdvanceRing(s);
    var c := Cursor(s.tasks, s.last);
    if c > s.last {
      assert s.tasks[c - 1].heapEnd >= RetiredEnd(s);
      forall k | 0 <= k < |r.buffers| ensures BufferAt(r, r.buffers[k]) {
        assert BufferAt(s, s.buffers[k]);
      }
    }
  }

  lemma AdvanceKeeps(s: Orch)
    requires Inv(s)
    ensures Inv(AdvanceRing(s))
  {
    CursorStopsOrMoves(s);
    var r := AdvanceRing(s);
    AccountedIgnores(s, r);
  }

  lemma ScopeBeginKeeps(s: Orch)
    requires Inv(s) && |s.scopes| < MAX_SCOPE_DEPTH
    ensures Inv(s.(scopes := s.scopes + [[]]))
  {
    var r := s.(scopes := s.scopes + [[]]);
    assert r.scopes[..|r.scopes| - 1] == s.scopes;
    assert Flat(r.scopes) == Flat(s.scopes);
    AccountedIgnores(s, r);
    forall k | 0 <= k < |r.buffers| ensures BufferAt(r, r.buffers[k]) { assert BufferAt(s, s.buffers[k]); }
  }

  /** The state of an ending scope once its tokens are given and consumption re-checked. */
  function Unscoped(s: Orch): Orch
    requires s.scopes != [] && s.last <= |s.tasks|
  {
    var ts := GiveTokens(s.tasks, s.scopes[|s.scopes| - 1]);
    s.(tasks := CheckRange(ts, s.last, |ts|), scopes := s.scopes[..|s.scopes| - 1])
  }

  lemma FlatSplit(scopes: seq<seq<nat>>)
    requires scopes != [] && Distinct(Flat(scopes))
    ensures Flat(scopes) == Flat(scopes[..|scopes| - 1]) + scopes[|scopes| - 1]
    ensures Distinct(scopes[|scopes| - 1]) && Distinct(Flat(scopes[..|scopes| - 1]))
    ensures var top := scopes[|scopes| - 1];
            forall i :: i in top ==> i !in Flat(scopes[..|scopes| - 1])
  {
    DistinctSplit(Flat(scopes[..|scopes| - 1]), scopes[|scopes| - 1]);
  }

  /** Ending a scope gives one token to each of its tasks and re-checks the unretired ones. */
  lemma UnscopedAt(s: Orch, i: nat)
    requires s.scopes != [] && s.last <= |s.tasks| && i < |s.tasks| && Distinct(Flat(s.scopes))
    ensures |Unscoped(s).tasks| == |s.tasks|
    ensures var x := if i in s.scopes[|s.scopes| - 1]
                     then s.tasks[i].(fanoutRef := s.tasks[i].fanoutRef + 1, released := true) else s.tasks[i];
            Unscoped(s).tasks[i] == if s.last <= i then CheckConsumed(x) else x
  {
    FlatSplit(s.scopes);
    var ts := GiveTokens(s.tasks, s.scopes[|s.scopes| - 1]);
    GiveTokensAt(s.tasks, s.scopes[|s.scopes| - 1], i);
    CheckRangeAt(ts, s.last, |ts|, i);
  }

  /** The ending scope holds only live tasks that are not yet CONSUMED. */
  lemma ScopeHoldsLive(s: Orch, i: nat)
    requires Balanced(s.tasks) && RingOk(s) && i < |s.tasks| && !s.tasks[i].released
    ensures s.last <= i && s.tasks[i].status != Consumed
  {
    assert TallyAt(s.tasks, i) && RetainAt(s.tasks, i);
    TokenAtMostOne(s.tasks, i);
  }

  lemma UnscopedDone(s: Orch)
    requires s.scopes != [] && s.last <= |s.tasks| && Distinct(Flat(s.scopes))
    ensures |Unscoped(s).tasks| == |s.tasks|
    ensures forall i :: 0 <= i < |s.tasks| ==>
              && IsDone(Unscoped(s).tasks[i]) == IsDone(s.tasks[i])
              && Unscoped(s).tasks[i].consumers == s.tasks[i].consumers
              && Unscoped(s).tasks[i].producers == s.tasks[i].producers
  {
    forall i | 0 <= i < |s.tasks|
      ensures IsDone(Unscoped(s).tasks[i]) == IsDone(s.tasks[i])
              && Unscoped(s).tasks[i].consumers == s.tasks[i].consumers
              && Unscoped(s).tasks[i].producers == s.tasks[i].producers
    {
      UnscopedAt(s, i);
    }
  }

  lemma UnscopedTaskOk(s: Orch, i: nat)
    requires s.scopes != [] && Balanced(s.tasks) && RingOk(s) && ScopesOk(s) && i < |s.tasks|
    ensures |Unscoped(s).tasks| == |s.tasks|
    ensures TallyAt(Unscoped(s).tasks, i) && RetainAt(Unscoped(s).tasks, i) && StartAt(Unscoped(s).tasks, i)
  {
    var us := Unscoped(s).tasks;
    UnscopedAt(s, i);
    UnscopedDone(s);
    SameDoneSameCounts(s.tasks, us, i);
    FlatSplit(s.scopes);
    assert TallyAt(s.tasks, i) && RetainAt(s.tasks, i) && StartAt(s.tasks, i);
    if !s.tasks[i].released { ScopeHoldsLive(s, i); }
    assert TallyAt(us, i);
    TokenAtMostOne(s.tasks, i);
    TokenAtMostOne(us, i);
  }

  lemma UnscopedBalance(s: Orch)
    requires s.scopes != [] && Balanced(s.tasks) && RingOk(s) && ScopesOk(s)
    ensures Balanced(Unscoped(s).tasks)
  {
    var us := Unscoped(s).tasks;
    UnscopedDone(s);
    forall p, c | 0 <= p < |us| && 0 <= c < |us| ensures Mirrored(us, p, c) {
      assert Mirrored(s.tasks, p, c);
    }
    forall i | 0 <= i < |us| ensures TallyAt(us, i) && RetainAt(us, i) && StartAt(us, i) {
      UnscopedTaskOk(s, i);
    }
  }

  /** What ending a scope changes of a task, besides its reference count. */
  ghost predicate UnscopedView(s: Orch, r: Orch, i: nat)
    requires s.scopes != [] && i < |s.tasks| == |r.tasks|
  {
    var x, y := s.tasks[i], r.tasks[i];
    && y.heapEnd == x.heapEnd && y.scoped == x.scoped
    && y.released == (x.released || i in s.scopes[|s.scopes| - 1])
    && (x.status == Consumed ==> y.status == Consumed)
    && y.isGroup == x.isGroup && y.groupSize == x.groupSize && y.subDone == x.subDone
    && (y.status == x.status || (IsDone(y) && IsDone(x)))
  }

  lemma UnscopedShows(s: Orch)
    requires s.scopes != [] && s.last <= |s.tasks| && Distinct(Flat(s.scopes))
    ensures |Unscoped(s).tasks| == |s.tasks|
    ensures forall i :: 0 <= i < |s.tasks| ==> UnscopedView(s, Unscoped(s), i)
  {
    UnscopedDone(s);
    forall i | 0 <= i < |s.tasks| ensures UnscopedView(s, Unscoped(s), i) { UnscopedAt(s, i); }
  }

  lemma UnscopedScopes(s: Orch)
    requires s.scopes != [] && s.last <= |s.tasks| && ScopesOk(s)
    ensures ScopesOk(Unscoped(s))
  {
    var r := Unscoped(s);
    UnscopedShows(s);
    FlatSplit(s.scopes);
    forall i | i in Flat(r.scopes) ensures i < |r.tasks| && r.tasks[i].scoped && !r.tasks[i].released {
      assert i in Flat(s.scopes);
      assert UnscopedView(s, r, i);
    }
    forall i | 0 <= i < |r.tasks| && r.tasks[i].scoped && !r.tasks[i].released ensures i in Flat(r.scopes) {
      assert UnscopedView(s, r, i);
      assert i in Flat(s.scopes);
    }
    forall i | 0 <= i < |r.tasks| && r.tasks[i].released ensures r.tasks[i].scoped {
      assert UnscopedView(s, r, i);
      assert i in s.scopes[|s.scopes| - 1] ==> i in Flat(s.scopes);
    }
  }

  lemma UnscopedAccounts(s: Orch)
    requires s.scopes != [] && s.last <= |s.tasks| && ScopesOk(s) && Accounted(s)
    ensures Accounted(Unscoped(s))
  {
    var r := Unscoped(s);
    UnscopedShows(s);
    forall i | 0 <= i < |s.tasks|
      ensures && r.tasks[i].isGroup == s.tasks[i].isGroup && r.tasks[i].groupSize == s.tasks[i].groupSize
              && r.tasks[i].subDone == s.tasks[i].subDone
              && (r.tasks[i].status == s.tasks[i].status || (IsDone(r.tasks[i]) && IsDone(s.tasks[i])))
    {
      assert UnscopedView(s, r, i);
    }
    SameViewAccounted(s, r.tasks);
    AccountedIgnores(s.(tasks := r.tasks), r);
  }

  lemma UnscopedRest(s: Orch)
    requires s.scopes != [] && RingOk(s) && ScopesOk(s) && HeapOk(s)
    ensures RingOk(Unscoped(s)) && HeapOk(Unscoped(s))
  {
    var r := Unscoped(s);
    UnscopedShows(s);
    forall i | 0 <= i < |s.tasks|
      ensures r.tasks[i].heapEnd == s.tasks[i].heapEnd && (s.tasks[i].status == Consumed ==>
                r.tasks[i].status == Consumed)
    {
      assert UnscopedView(s, r, i);
    }
    forall k | 0 <= k < |r.buffers| ensures BufferAt(r, r.buffers[k]) { assert BufferAt(s, s.buffers[k]); }
  }

  lemma ScopeEndKeeps(s: Orch)
    requires Inv(s) && s.scopes != []
    ensures Inv(EndScope(s))
  {
    UnscopedBalance(s);
    UnscopedScopes(s);
    UnscopedAccounts(s);
    UnscopedRest(s);
    assert EndScope(s) == AdvanceRing(Unscoped(s));
    AdvanceKeeps(Unscoped(s));
  }

  lemma AllocHeap(s: Orch, bytes: nat)
    requires HeapOk(s) && bytes > 0 && Fits(s.heap, bytes)
    ensures HeapOk(DoAlloc(s, bytes))
  {
    var r := DoAlloc(s, bytes);
    StartIsFirstFit(s.heap, bytes);
    forall k | 0 <= k < |r.buffers| ensures BufferAt(r, r.buffers[k]) {
      if k < |s.buffers| { assert BufferAt(s, s.buffers[k]); }
    }
    forall k, l | 0 <= k < l < |r.buffers| ensures r.buffers[k].start + r.buffers[k].size <= r.buffers[l].start {
      if l == |s.buffers| { assert BufferAt(s, s.buffers[k]); }
    }
  }

  lemma AllocKeeps(s: Orch, bytes: nat)
    requires Inv(s) && (bytes > 0 ==> Fits(s.heap, bytes))
    ensures Inv(DoAlloc(s, bytes))
  {
    if bytes > 0 {
      AllocHeap(s, bytes);
      AccountedIgnores(s, DoAlloc(s, bytes));
    }
  }

  // ---- Every step ---------------------------------------------------------

  /** Tasks and groups with sub-tasks read only from producers that are not CONSUMED. */
  ghost predicate StepReadsFresh(s: Orch, step: Step) {
    match step
    case SubmitTask(params) => FreshReads(s, params)
    case SubmitGroup(params, size) => size > 0 ==> FreshReads(s, params)
    case _ => true
  }

  lemma StepKeepsInv(s: Orch, step: Step)
    requires Inv(s) && Enabled(s, step) && StepReadsFresh(s, step)
    ensures Inv(Next(s, step))
  {
    match step
    case SubmitTask(params) => SubmitTaskKeeps(s, params);
    case SubmitGroup(params, size) => SubmitGroupKeeps(s, params, size);
    case DispatchNext => DispatchNextKeeps(s);
    case Report(id) => if id in s.subOf { ReportSubKeeps(s, id); } else { ReportTaskKeeps(s, id); }
    case ScopeBegin => ScopeBeginKeeps(s);
    case ScopeEnd => ScopeEndKeeps(s);
    case Advance => AdvanceKeeps(s);
    case AllocTensor(bytes) => AllocKeeps(s, bytes);
  }
}

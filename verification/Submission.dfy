/** What submitting a task or group does to the ledger, and which reads are safe. */
module Submission {
  import opened Common
  import opened Lifecycle
  import opened Tally
  import opened Ledger

  predicate WrittenIn(params: seq<Param>, handle: nat) {
    exists k :: 0 <= k < |params| && Writes(params[k]) && params[k].handle == handle
  }

  /** The producer that a read of this handle finds, after earlier parameters of task tid. */
  function Found(s: Orch, earlier: seq<Param>, handle: nat, tid: nat): Option<nat> {
    if WrittenIn(earlier, handle) then Some(tid) else Lookup(s, handle)
  }

  /** The producers that task tid's parameters name, newest read first. */
  function Sources(s: Orch, params: seq<Param>, tid: nat): seq<nat> {
    if params == [] then []
    else
      var earlier, p := params[..|params| - 1], params[|params| - 1];
      var found := Found(s, earlier, p.handle, tid);
      (if Reads(p) && found.Some? then [found.value] else []) + Sources(s, earlier, tid)
  }

  lemma SourcesSnoc(s: Orch, params: seq<Param>, tid: nat)
    requires params != []
    ensures var earlier, p := params[..|params| - 1], params[|params| - 1];
            var found := Found(s, earlier, p.handle, tid);
            Sources(s, params, tid) ==
              if Reads(p) && found.Some? then [found.value] + Sources(s, earlier, tid) else Sources(s, earlier, tid)
  {
    assert [] + Sources(s, params[..|params| - 1], tid) == Sources(s, params[..|params| - 1], tid);
  }

  /** No parameter reads from a task that is already CONSUMED. */
  ghost predicate FreshReads(s: Orch, params: seq<Param>) {
    forall p :: p in Sources(s, params, |s.tasks|) && p < |s.tasks| ==> s.tasks[p].status != Consumed
  }

  /** Every read finds a producer whose scope has not ended. */
  ghost predicate ScopedReads(s: Orch, params: seq<Param>) {
    forall p :: p in Sources(s, params, |s.tasks|) && p < |s.tasks| ==> !s.tasks[p].released
  }

  ghost predicate HandlesKnown(s: Orch) {
    forall h :: h in s.latest ==> s.latest[h] < |s.tasks|
  }

  /** Reading only from producers whose scope is open never reads from a CONSUMED one. */
  lemma ScopedReadsAreFresh(s: Orch, params: seq<Param>)
    requires Balanced(s.tasks) && ScopedReads(s, params)
    ensures FreshReads(s, params)
  {
    forall p | p in Sources(s, params, |s.tasks|) && p < |s.tasks| ensures s.tasks[p].status != Consumed {
      assert TallyAt(s.tasks, p) && RetainAt(s.tasks, p);
      TokenAtMostOne(s.tasks, p);
    }
  }

  // ---- Scanning the parameters of the newest task -----------------------

  /** The scan touches only edges of existing tasks, the newest task, and the handle map. */
  ghost predicate ScanFrame(s: Orch, r: Orch) {
    && |s.tasks| == |r.tasks| > 0
    && r == s.(tasks := r.tasks, latest := r.latest)
    && (forall i :: 0 <= i < |s.tasks| ==>
          r.tasks[i] == s.tasks[i].(producers := r.tasks[i].producers, preDone := r.tasks[i].preDone,
                                    fanoutCount := r.tasks[i].fanoutCount, consumers := r.tasks[i].consumers))
    && (forall i :: 0 <= i < |s.tasks| - 1 ==>
          r.tasks[i].producers == s.tasks[i].producers && r.tasks[i].preDone == s.tasks[i].preDone)
  }

  lemma ReadOneFrame(s: Orch, p: Param, i: nat)
    requires |s.tasks| > 0 && i < |s.tasks|
    ensures var x, y := s.tasks[i], ReadOne(s, p)[i];
            && y == x.(producers := y.producers, preDone := y.preDone, fanoutCount := y.fanoutCount,
                       consumers := y.consumers)
            && (i < |s.tasks| - 1 ==> y.producers == x.producers && y.preDone == x.preDone)
  {
  }

  lemma ScanOneFrame(s: Orch, p: Param)
    requires |s.tasks| > 0
    ensures ScanFrame(s, ScanOne(s, p))
  {
    forall i | 0 <= i < |s.tasks|
      ensures var x, y := s.tasks[i], ReadOne(s, p)[i];
              && y == x.(producers := y.producers, preDone := y.preDone, fanoutCount := y.fanoutCount,
                         consumers := y.consumers)
              && (i < |s.tasks| - 1 ==> y.producers == x.producers && y.preDone == x.preDone)
    {
      ReadOneFrame(s, p, i);
    }
  }

  lemma {:induction false} ScanKeepsFrame(s: Orch, params: seq<Param>)
    requires |s.tasks| > 0
    ensures ScanFrame(s, Scan(s, params))
  {
    if params != [] {
      ScanKeepsFrame(s, params[..|params| - 1]);
      ScanOneFrame(Scan(s, params[..|params| - 1]), params[|params| - 1]);
    }
  }

  /** After the scan a handle belongs to the newest task if that task wrote it. */
  lemma {:induction false} ScanHandles(s: Orch, params: seq<Param>, handle: nat)
    requires |s.tasks| > 0
    ensures var r := Scan(s, params);
            if WrittenIn(params, handle) then handle in r.latest && r.latest[handle] == |s.tasks| - 1
            else
              && (handle in r.latest <==> handle in s.latest)
              && (handle in s.latest ==> r.latest[handle] == s.latest[handle])
  {
    if params != [] {
      var earlier, p := params[..|params| - 1], params[|params| - 1];
      ScanHandles(s, earlier, handle);
      assert params == earlier + [p];
    }
  }

  /** One more parameter adds at most one edge, from the producer it finds. */
  lemma ScanStep(s: Orch, params: seq<Param>)
    requires |s.tasks| > 0 && HandlesKnown(s) && s.last < |s.tasks| && params != []
    ensures var earlier, p, tid := params[..|params| - 1], params[|params| - 1], |s.tasks| - 1;
            var mid, found := Scan(s, earlier), Found(s, earlier, p.handle, tid);
            && (found.Some? ==> found.value <= tid)
            && Scan(s, params).tasks ==
                 (if Reads(p) && found.Some? then AddEdge(mid.tasks, found.value, tid) else mid.tasks)
            && Sources(s, params, tid) ==
                 (if Reads(p) && found.Some? then [found.value] + Sources(s, earlier, tid)
                     else Sources(s, earlier, tid))
  {
    var earlier, p, tid := params[..|params| - 1], params[|params| - 1], |s.tasks| - 1;
    FoundIsLookup(s, earlier, p.handle);
    SourcesSnoc(s, params, tid);
    assert Scan(s, params) == ScanOne(Scan(s, earlier), p);
  }

  lemma ScanKnowsHandles(s: Orch, params: seq<Param>)
    requires |s.tasks| > 0 && HandlesKnown(s)
    ensures HandlesKnown(Scan(s, params))
  {
  }

  lemma ReadOneProducers(s: Orch, p: Param)
    requires |s.tasks| > 0 && HandlesKnown(s)
    ensures var tid, found := |s.tasks| - 1, Lookup(s, p.handle);
            ReadOne(s, p)[tid].producers ==
              if Reads(p) && found.Some? then [found.value] + s.tasks[tid].producers else s.tasks[tid].producers
  {
  }

  /** The newest task's dependency list is exactly the producers its parameters name. */
  lemma {:induction false} ScanFindsSources(s: Orch, params: seq<Param>)
    requires |s.tasks| > 0 && HandlesKnown(s) && s.last < |s.tasks| && s.tasks[|s.tasks| - 1].producers == []
    ensures Scan(s, params).tasks[|s.tasks| - 1].producers == Sources(s, params, |s.tasks| - 1)
  {
    if params != [] {
      var earlier, p, tid := params[..|params| - 1], params[|params| - 1], |s.tasks| - 1;
      ScanFindsSources(s, earlier);
      ScanKnowsHandles(s, earlier);
      FoundIsLookup(s, earlier, p.handle);
      SourcesSnoc(s, params, tid);
      ReadOneProducers(Scan(s, earlier), p);
    }
  }

  lemma {:induction false} ScanKeepsBalance(s: Orch, params: seq<Param>)
    requires |s.tasks| > 0 && HandlesKnown(s) && s.last < |s.tasks|
    requires BalancedBut(s.tasks, |s.tasks| - 1) && s.tasks[|s.tasks| - 1].status == Pending
    requires forall p :: p in Sources(s, params, |s.tasks| - 1) && p < |s.tasks| ==> s.tasks[p].status != Consumed
    ensures BalancedBut(Scan(s, params).tasks, |s.tasks| - 1)
  {
    if params != [] {
      var earlier, p, tid := params[..|params| - 1], params[|params| - 1], |s.tasks| - 1;
      ScanStep(s, params);
      ScanKeepsBalance(s, earlier);
      ScanKeepsFrame(s, earlier);
      var found := Found(s, earlier, p.handle, tid);
      if Reads(p) && found.Some? {
        assert found.value in Sources(s, params, tid);
        AddEdgeKeepsBalance(Scan(s, earlier).tasks, found.value, tid);
      }
    }
  }

  lemma ReadOneCounts(s: Orch, p: Param, i: nat)
    requires |s.tasks| > 0 && i < |s.tasks|
    ensures ReadOne(s, p)[i].fanoutCount == s.tasks[i].fanoutCount + if Reads(p)
            && Lookup(s, p.handle) == Some(i) then 1 else 0
  {
  }

  /** What a read after earlier parameters finds is what the scan so far says. */
  lemma FoundIsLookup(s: Orch, earlier: seq<Param>, handle: nat)
    requires |s.tasks| > 0 && s.last < |s.tasks|
    ensures Lookup(Scan(s, earlier), handle) == Found(s, earlier, handle, |s.tasks| - 1)
  {
    ScanHandles(s, earlier, handle);
    ScanKeepsFrame(s, earlier);
  }

  /** Each read of producer i raises its expected reference count by one. */
  lemma {:induction false} ScanCounts(s: Orch, params: seq<Param>, i: nat)
    requires |s.tasks| > 0 && HandlesKnown(s) && s.last < |s.tasks| && i < |s.tasks|
    ensures Scan(s, params).tasks[i].fanoutCount ==
            s.tasks[i].fanoutCount + Count(Sources(s, params, |s.tasks| - 1), i)
  {
    if params != [] {
      var earlier, p, tid := params[..|params| - 1], params[|params| - 1], |s.tasks| - 1;
      ScanCounts(s, earlier, i);
      FoundIsLookup(s, earlier, p.handle);
      SourcesSnoc(s, params, tid);
      ReadOneCounts(Scan(s, earlier), p, i);
      var found := Found(s, earlier, p.handle, tid);
      if Reads(p) && found.Some? { CountPrepend(Sources(s, earlier, tid), i, found.value); }
    }
  }

  // ---- The registered task ----------------------------------------------

  /** What the shared part of submission leaves behind. */
  ghost predicate RegisterView(s: Orch, r: Orch, params: seq<Param>, isGroup: bool, groupSize: nat) {
    var tid := |s.tasks|;
    && |r.tasks| == tid + 1
    && r == s.(tasks := r.tasks, latest := r.latest, scopes := r.scopes)
    && r.scopes == (if s.scopes == [] then [] else s.scopes[|s.scopes| - 1 := s.scopes[|s.scopes| - 1] + [tid]])
    && (forall i :: 0 <= i < tid ==>
          r.tasks[i] == s.tasks[i].(fanoutCount := r.tasks[i].fanoutCount, consumers := r.tasks[i].consumers))
    && (var t := r.tasks[tid];
        && t.producers == Sources(s, params, tid)
        && t.faninCount == |t.producers| && t.faninRef == 0
        && t.status == Pending && t.isGroup == isGroup && t.groupSize == groupSize && t.subDone == 0
        && t.heapEnd == s.heap.top && !t.released && t.scoped == (s.scopes != []))
  }

  lemma {:induction false} SourcesIgnoreTasks(s: Orch, o: Orch, params: seq<Param>, tid: nat)
    requires s.latest == o.latest && s.last == o.last
    ensures Sources(s, params, tid) == Sources(o, params, tid)
  {
    if params != [] { SourcesIgnoreTasks(s, o, params[..|params| - 1], tid); }
  }

  lemma RegisterShows(s: Orch, params: seq<Param>, isGroup: bool, groupSize: nat)
    requires HandlesKnown(s) && s.last <= |s.tasks|
    ensures RegisterView(s, Register(s, params, isGroup, groupSize), params, isGroup, groupSize)
    ensures HandlesKnown(Register(s, params, isGroup, groupSize))
  {
    var o := s.(tasks := s.tasks + [NewTask(isGroup, groupSize)]);
    ScanKeepsFrame(o, params);
    ScanKnowsHandles(o, params);
    ScanFindsSources(o, params);
    SourcesIgnoreTasks(s, o, params, |s.tasks|);
  }

  /** Submission keeps the ledger when it reads from no CONSUMED task. */
  lemma RegisterKeepsBalance(s: Orch, params: seq<Param>, isGroup: bool, groupSize: nat)
    requires HandlesKnown(s) && s.last <= |s.tasks| && Balanced(s.tasks) && FreshReads(s, params)
    ensures BalancedBut(Register(s, params, isGroup, groupSize).tasks, |s.tasks|)
  {
    var tid := |s.tasks|;
    var o := s.(tasks := s.tasks + [NewTask(isGroup, groupSize)]);
    OpenKeepsBalance(s.tasks, isGroup, groupSize);
    SourcesIgnoreTasks(s, o, params, tid);
    ScanKeepsBalance(o, params);
    ScanKeepsFrame(o, params);
    TouchKeepsBalance(Scan(o, params).tasks, Register(s, params, isGroup, groupSize).tasks, tid);
  }

  /** Reading from a CONSUMED task unbalances it at once: it is owed a release again. */
  lemma StaleReadUnbalances(s: Orch, params: seq<Param>, isGroup: bool, groupSize: nat, p: nat)
    requires HandlesKnown(s) && s.last <= |s.tasks| && Balanced(s.tasks)
    requires p < |s.tasks| && p in Sources(s, params, |s.tasks|) && s.tasks[p].status == Consumed
    ensures !RetainAt(Register(s, params, isGroup, groupSize).tasks, p)
  {
    var tid := |s.tasks|;
    var o := s.(tasks := s.tasks + [NewTask(isGroup, groupSize)]);
    var us := Scan(o, params).tasks;
    assert us[p].fanoutCount > s.tasks[p].fanoutCount by {
      SourcesIgnoreTasks(s, o, params, tid);
      ScanCounts(o, params, p);
    }
    assert us[p].status == Consumed && us[p].fanoutRef == s.tasks[p].fanoutRef by { ScanKeepsFrame(o, params); }
    assert Register(s, params, isGroup, groupSize).tasks[p] == us[p];
    assert RetainAt(s.tasks, p);
  }

  // ---- Submission whatever is read --------------------------------------

  ghost predicate EdgesAndTally(ts: seq<Task>) {
    Edges(ts) && forall i :: 0 <= i < |ts| ==> TallyAt(ts, i)
  }

  /** Edges and counts are kept by every scan, fresh reads or not. */
  lemma {:induction false} ScanKeepsTally(s: Orch, params: seq<Param>)
    requires |s.tasks| > 0 && HandlesKnown(s) && s.last < |s.tasks|
    requires EdgesAndTally(s.tasks) && s.tasks[|s.tasks| - 1].status == Pending
    ensures EdgesAndTally(Scan(s, params).tasks)
  {
    if params != [] {
      var earlier, p, tid := params[..|params| - 1], params[|params| - 1], |s.tasks| - 1;
      ScanStep(s, params);
      ScanKeepsTally(s, earlier);
      ScanKeepsFrame(s, earlier);
      var ts, found := Scan(s, earlier).tasks, Found(s, earlier, p.handle, tid);
      if Reads(p) && found.Some? {
        AddEdgeKeepsEdges(ts, found.value, tid);
        forall i | 0 <= i < |ts| ensures TallyAt(AddEdge(ts, found.value, tid), i) {
          AddEdgeKeepsTally(ts, found.value, tid, i);
        }
      }
    }
  }

  /** Registration changes nothing that edges and counts depend on, after the scan. */
  lemma RegisterKeepsTally(s: Orch, params: seq<Param>, isGroup: bool, groupSize: nat)
    requires HandlesKnown(s) && s.last <= |s.tasks| && Balanced(s.tasks)
    ensures EdgesAndTally(Register(s, params, isGroup, groupSize).tasks)
  {
    var tid := |s.tasks|;
    var o := s.(tasks := s.tasks + [NewTask(isGroup, groupSize)]);
    OpenKeepsBalance(s.tasks, isGroup, groupSize);
    ScanKeepsTally(o, params);
    SealKeepsTally(Scan(o, params).tasks, Register(s, params, isGroup, groupSize).tasks, tid);
  }

  lemma SealKeepsTally(ts: seq<Task>, us: seq<Task>, x: nat)
    requires EdgesAndTally(ts) && x < |ts| == |us|
    requires us == ts[x := ts[x].(faninCount := us[x].faninCount, scoped := us[x].scoped, heapEnd := us[x].heapEnd)]
    ensures EdgesAndTally(us)
  {
    forall p, c | 0 <= p < |us| && 0 <= c < |us| ensures Mirrored(us, p, c) { assert Mirrored(ts, p, c); }
    forall i | 0 <= i < |us| ensures TallyAt(us, i) {
      assert TallyAt(ts, i);
      SameDoneSameCounts(ts, us, i);
    }
  }

  /** The ledger of an empty group being submitted, whatever it reads. */
  lemma RegisterLoose(s: Orch, params: seq<Param>)
    requires HandlesKnown(s) && s.last <= |s.tasks| && Balanced(s.tasks)
    ensures LooseBut(Register(s, params, true, 0).tasks, |s.tasks|)
  {
    var r, tid := Register(s, params, true, 0).tasks, |s.tasks|;
    RegisterShows(s, params, true, 0);
    RegisterKeepsTally(s, params, true, 0);
    forall i | 0 <= i < |r| ensures RetainAfter(r, tid, i) && (i != tid ==> StartAt(r, i)) {
      RegisteredCount(s, params, i);
      if i < tid {
        assert RetainAt(s.tasks, i) && StartAt(s.tasks, i) && TallyAt(s.tasks, i);
        TokenAtMostOne(s.tasks, i);
        DoneCountSame(s.tasks, r, s.tasks[i].producers);
      }
    }
  }

  lemma RegisteredCount(s: Orch, params: seq<Param>, i: nat)
    requires HandlesKnown(s) && s.last <= |s.tasks| && i <= |s.tasks|
    ensures var r, tid := Register(s, params, true, 0).tasks, |s.tasks|;
            r[i].fanoutCount == (if i < tid then s.tasks[i].fanoutCount else 1) + Count(r[tid].producers, i)
  {
    var o := s.(tasks := s.tasks + [NewTask(true, 0)]);
    ScanCounts(o, params, i);
    SourcesIgnoreTasks(s, o, params, |s.tasks|);
    RegisterShows(s, params, true, 0);
  }
}

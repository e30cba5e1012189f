/** The orchestrator object: a ring of descriptors, dependency lists in a pool, a heap ring,
    a scope stack, the tensor map and the dispatch tables, all updated in place. Every method
    is proved to be the corresponding step of the lifecycle. */
module Orchestrators {
  import opened Common
  import opened HeapRings
  import opened DepPools
  import opened TaskRings
  import opened ScopeStacks
  import opened Lifecycle
  import opened Tally
  import opened Submission
  import opened Invariant
  import opened Runs
  import opened Refinement
  import opened HandleLog
  import opened MapService
  import T = TensorMapObjects

  class Orchestrator {
    const ring: TaskRing
    const deps: DepListPool
    const heap: HeapRing
    const stack: ScopeStack
    const tensors: T.TensorMap
    var subOf: map<int, nat>
    var nextSub: int
    var specs: map<nat, nat>
    var inflight: set<int>                // handed to the dispatcher and not reported
    var handing: Option<(nat, nat)>       // group that submission is handing over
    var nextHandle: nat
    ghost var model: Orch
    ghost var latest: map<nat, nat>       // what the lifecycle says of the handles
    ghost var log: seq<L.MapOp>           // what the tensor map has been told

    // ---- The coupling with the lifecycle ----------------------------------------

    ghost predicate SlotsMatch(ts: seq<Task>)
      reads ring.slots, deps, deps.pool
    {
      deps.Valid() && Represents(ring.slots[..], deps.pool[..deps.top], ts)
    }

    ghost predicate TablesMatch(s: Orch)
      reads this
    {
      subOf == s.subOf && nextSub == s.nextSub && specs == s.specs && inflight == s.inflight
    }

    ghost predicate RestMatches(s: Orch)
      reads this, ring, heap, stack, stack.tasks, stack.begins
    {
      && ring.Valid() && ring.current == |s.tasks| && ring.last == s.last && ring.slots.Length == s.window
      && heap.State() == s.heap
      && stack.Valid() && stack.open == s.scopes
      && stack.begins.Length == MAX_SCOPE_DEPTH && stack.tasks.Length == s.window * MAX_SCOPE_DEPTH
      && latest == s.latest && handing == s.dispatching
    }

    ghost predicate Coupled()
      reads this, ring, ring.slots, deps, deps.pool, heap, stack, stack.tasks, stack.begins
    {
      SlotsMatch(model.tasks) && TablesMatch(model) && RestMatches(model)
    }

    /** The tensor map as it was made. */
    ghost function MapStart(): M.Chained {
      M.Empty(tensors.buckets.Length, tensors.pool.Length, tensors.mix)
    }

    /** The tensor map has been told the log. */
    ghost predicate Mapped()
      reads this`log, tensors, tensors.buckets, tensors.pool
    {
      tensors.View() == MapOf(MapStart(), log)
    }

    /** All objects that make up the orchestrator. */
    ghost function Repr(): set<object> {
      {this, ring, ring.slots, deps, deps.pool, heap, stack, stack.tasks, stack.begins,
       tensors, tensors.buckets, tensors.pool}
    }

    constructor (window: nat, heapCapacity: nat, depCapacity: nat, numBuckets: nat, poolSize: nat, mix: nat -> nat)
      requires window > 0 && depCapacity > 0 && numBuckets > 0 && poolSize > 0
      ensures Coupled() && Mapped() && Inv(model) && model == Init(window, heapCapacity) && log == []
      ensures deps.capacity == depCapacity && deps.top == 1 && fresh(Repr())
      ensures MapStart() == M.Empty(numBuckets, poolSize, mix)
    {
      tensors := new T.TensorMap(numBuckets, poolSize, mix);
      log := [];
      ring := new TaskRing(window);
      deps := new DepListPool(depCapacity);
      heap := new HeapRing(heapCapacity);
      stack := new ScopeStack(MAX_SCOPE_DEPTH, window * MAX_SCOPE_DEPTH);
      latest := map[];
      subOf := map[];
      nextSub := -1;
      specs := map[];
      inflight := {};
      handing := None;
      nextHandle := 1;
      model := Init(window, heapCapacity);
      new;
      assert Inv(model) by { InitInv(window, heapCapacity); }
      assert Mapped() by { assert tensors.View() == MapStart(); }
      assert SlotsMatch(model.tasks) by { NothingRepresents(ring.slots[..], deps.pool[..deps.top]); }
    }

    // ---- The tensor map -------------------------------------------------------------

    /** The newest task takes the handle over. */
    method RecordWrite(handle: nat, tid: nat)
      requires Mapped() && tensors.Valid()
      modifies this`latest, this`log, tensors, tensors.buckets, tensors.pool
      ensures Mapped() && latest == old(latest)[handle := tid] && log == old(log) + [L.Put(handle, tid, true)]
    {
      MapOfAppend(MapStart(), log, L.Put(handle, tid, true));
      tensors.InsertEntry(handle, tid, true);
      latest := latest[handle := tid];
      log := log + [L.Put(handle, tid, true)];
    }

    /** Tasks below the cursor have retired: their entries are dead. */
    method InvalidateBelow(cursor: nat)
      requires Mapped()
      modifies this`log, tensors`lastTaskAlive
      ensures Mapped() && log == old(log) + [L.Invalidate(cursor)]
    {
      MapOfAppend(MapStart(), log, L.Invalidate(cursor));
      tensors.InvalidateBelow(cursor);
      log := log + [L.Invalidate(cursor)];
    }

    // ---- Walks over the dependency lists ------------------------------------------

    method CheckTaskConsumed(id: nat, ghost ts: seq<Task>)
      requires SlotsMatch(ts) && Owned(|ts|, ring.slots.Length, id)
      modifies ring.slots
      ensures SlotsMatch(ts[id := CheckConsumed(ts[id])])
    {
      var d := ring.Get(id);
      assert Matches(d, deps.pool[..deps.top], ts[id], id);
      if d.status == Completed && d.fanoutRef >= d.fanoutCount {
        TouchRepresents(ring.slots[..], deps.pool[..deps.top], ts, id, d.(status := Consumed), CheckConsumed(ts[id]));
        ring.Put(id, d.(status := Consumed));
      } else {
        assert ts[id := CheckConsumed(ts[id])] == ts;
      }
    }

    /** The walk over the producers of a completed task. */
    method ReleaseProducers(head: int, ghost ts: seq<Task>, ghost list: seq<nat>)
      requires SlotsMatch(ts) && head < deps.top && deps.List(head) == list
      requires AllOwned(list, |ts|, ring.slots.Length)
      modifies ring.slots
      ensures SlotsMatch(ReleaseAll(ts, list))
    {
      var cur := head;
      ghost var us, rest := ts, list;
      while cur > 0
        invariant cur < deps.top && deps.List(cur) == rest
        invariant AllOwned(rest, |ts|, ring.slots.Length)
        invariant |us| == |ts| && SlotsMatch(us) && ReleaseAll(us, rest) == ReleaseAll(ts, list)
        decreases cur
      {
        var p := deps.pool[cur].taskId;
        assert p == rest[0] && deps.List(deps.pool[cur].next) == rest[1..];
        Release(p, us);
        us := ReleaseOne(us, p);
        rest := rest[1..];
        cur := deps.pool[cur].next;
      }
    }

    method Release(p: nat, ghost ts: seq<Task>)
      requires SlotsMatch(ts) && Owned(|ts|, ring.slots.Length, p)
      modifies ring.slots
      ensures SlotsMatch(ReleaseOne(ts, p))
    {
      var d := ring.Get(p);
      assert Matches(d, deps.pool[..deps.top], ts[p], p);
      ghost var t := ts[p].(fanoutRef := ts[p].fanoutRef + 1);
      TouchRepresents(ring.slots[..], deps.pool[..deps.top], ts, p, d.(fanoutRef := d.fanoutRef + 1), t);
      ring.Put(p, d.(fanoutRef := d.fanoutRef + 1));
      CheckTaskConsumed(p, ts[p := t]);
      assert ts[p := t][p := CheckConsumed(t)] == ReleaseOne(ts, p);
    }

    /** The walk over the consumers of a completed task. */
    method SatisfyConsumers(head: int, ghost ts: seq<Task>, ghost list: seq<nat>)
      requires SlotsMatch(ts) && head < deps.top && deps.List(head) == list
      requires AllOwned(list, |ts|, ring.slots.Length)
      modifies ring.slots
      ensures SlotsMatch(SatisfyAll(ts, list))
    {
      var cur := head;
      ghost var us, rest := ts, list;
      while cur > 0
        invariant cur < deps.top && deps.List(cur) == rest
        invariant AllOwned(rest, |ts|, ring.slots.Length)
        invariant |us| == |ts| && SlotsMatch(us) && SatisfyAll(us, rest) == SatisfyAll(ts, list)
        decreases cur
      {
        var c := deps.pool[cur].taskId;
        assert c == rest[0] && deps.List(deps.pool[cur].next) == rest[1..];
        Satisfy(c, us);
        us := SatisfyOne(us, c);
        rest := rest[1..];
        cur := deps.pool[cur].next;
      }
    }

    method Satisfy(c: nat, ghost ts: seq<Task>)
      requires SlotsMatch(ts) && Owned(|ts|, ring.slots.Length, c)
      modifies ring.slots
      ensures SlotsMatch(SatisfyOne(ts, c))
    {
      var d := ring.Get(c);
      assert Matches(d, deps.pool[..deps.top], ts[c], c);
      ghost var t := ts[c].(faninRef := ts[c].faninRef + 1);
      TouchRepresents(ring.slots[..], deps.pool[..deps.top], ts, c, d.(faninRef := d.faninRef + 1), t);
      ring.Put(c, d.(faninRef := d.faninRef + 1));
    }

    method SetStatusOf(id: nat, st: Status, ghost ts: seq<Task>)
      requires SlotsMatch(ts) && Owned(|ts|, ring.slots.Length, id)
      modifies ring.slots
      ensures SlotsMatch(SetStatus(ts, id, st))
    {
      var d := ring.Get(id);
      assert Matches(d, deps.pool[..deps.top], ts[id], id);
      TouchRepresents(ring.slots[..], deps.pool[..deps.top], ts, id, d.(status := st), ts[id].(status := st));
      ring.Put(id, d.(status := st));
    }

    /** Hands all sub-tasks of a group to the dispatcher. */
    method DispatchGroupSubTasks(g: nat, n: nat, ghost s: Orch)
      requires TablesMatch(s)
      modifies this`subOf, this`nextSub, this`inflight
      ensures TablesMatch(Launch(s, g, n))
    {
      ghost var r := s;
      for i := 0 to n
        invariant TablesMatch(r) && Launch(r, g, n - i) == Launch(s, g, n)
      {
        subOf := subOf[nextSub := g];
        inflight := inflight + {nextSub};
        nextSub := nextSub - 1;
        r := LaunchSub(r, g);
      }
    }

    method WakeConsumer(c: nat, ghost s: Orch)
      requires SlotsMatch(s.tasks) && TablesMatch(s) && Owned(|s.tasks|, ring.slots.Length, c)
      modifies this`subOf, this`nextSub, this`inflight, this`specs, ring.slots
      ensures SlotsMatch(WakeOne(s, c).tasks) && TablesMatch(WakeOne(s, c))
    {
      var d := ring.Get(c);
      assert Matches(d, deps.pool[..deps.top], s.tasks[c], c);
      if d.faninRef >= d.faninCount && d.status == Pending {
        if d.isGroup {
          SetStatusOf(c, Running, s.tasks);
          ghost var s1 := s.(tasks := SetStatus(s.tasks, c, Running));
          if c in specs {
            LaunchKeeps(s1, c, s.specs[c]);
            DispatchGroupSubTasks(c, specs[c], s1);
            specs := specs - {c};
          }
        } else {
          SetStatusOf(c, Ready, s.tasks);
        }
      }
    }

    /** The walk that starts the consumers whose inputs have all arrived. */
    method CheckConsumersReady(head: int, ghost s: Orch, ghost list: seq<nat>)
      requires SlotsMatch(s.tasks) && TablesMatch(s) && head < deps.top && deps.List(head) == list
      requires AllOwned(list, |s.tasks|, ring.slots.Length)
      modifies this`subOf, this`nextSub, this`inflight, this`specs, ring.slots
      ensures SlotsMatch(WakeAll(s, list).tasks) && TablesMatch(WakeAll(s, list))
    {
      var cur := head;
      ghost var r, rest := s, list;
      while cur > 0
        invariant cur < deps.top && deps.List(cur) == rest
        invariant AllOwned(rest, |s.tasks|, ring.slots.Length)
        invariant |r.tasks| == |s.tasks| && SlotsMatch(r.tasks) && TablesMatch(r)
        invariant WakeAll(r, rest) == WakeAll(s, list)
        decreases cur
      {
        var c := deps.pool[cur].taskId;
        assert c == rest[0] && deps.List(deps.pool[cur].next) == rest[1..];
        WakeOneKeeps(r, c);
        WakeConsumer(c, r);
        r := WakeOne(r, c);
        rest := rest[1..];
        cur := deps.pool[cur].next;
      }
    }

    // ---- Completion ------------------------------------------------------------------

    /** Task t and everything on its lists still have their slots. */
    ghost predicate ListsOwned(t: nat)
      reads this, ring
    {
      && Owned(|model.tasks|, ring.slots.Length, t)
      && AllOwned(model.tasks[t].producers, |model.tasks|, ring.slots.Length)
      && AllOwned(model.tasks[t].consumers, |model.tasks|, ring.slots.Length)
    }

    method PropagateCompletion(t: nat)
      requires Coupled() && ListsOwned(t)
      modifies this`subOf, this`nextSub, this`inflight, this`specs, this`model, ring.slots
      ensures Coupled() && model == Propagate(old(model), t)
    {
      ghost var s := model;
      ghost var t0 := s.tasks[t];
      var d := ring.Get(t);
      assert Matches(d, deps.pool[..deps.top], t0, t);
      ReleaseProducers(d.depHead, s.tasks, t0.producers);
      ghost var ts1 := ReleaseAll(s.tasks, t0.producers);
      SatisfyConsumers(d.fanoutHead, ts1, t0.consumers);
      ghost var s2 := s.(tasks := SatisfyAll(ts1, t0.consumers));
      CheckConsumersReady(d.fanoutHead, s2, t0.consumers);
      ghost var s3 := WakeAll(s2, t0.consumers);
      WakeAllKeeps(s2, t0.consumers);
      CheckTaskConsumed(t, s3.tasks);
      model := s3.(tasks := s3.tasks[t := CheckConsumed(s3.tasks[t])]);
    }

    /** Marks t COMPLETED and propagates. */
    method Finish(t: nat)
      requires Coupled() && ListsOwned(t)
      modifies this`subOf, this`nextSub, this`inflight, this`specs, this`model, ring.slots
      ensures Coupled() && model == Complete(old(model), t)
    {
      SetStatusOf(t, Completed, model.tasks);
      model := model.(tasks := SetStatus(model.tasks, t, Completed));
      PropagateCompletion(t);
    }

    /** Counts one sub-task report; returns whether it was the group's last. */
    method CountSub(g: nat, ghost ts: seq<Task>) returns (all: bool)
      requires SlotsMatch(ts) && Owned(|ts|, ring.slots.Length, g)
      modifies ring.slots
      ensures SlotsMatch(ts[g := ts[g].(subDone := ts[g].subDone + 1)])
      ensures all <==> ts[g].subDone + 1 >= ts[g].groupSize
    {
      var d := ring.Get(g);
      assert Matches(d, deps.pool[..deps.top], ts[g], g);
      var done := d.subDone + 1;
      TouchRepresents(ring.slots[..], deps.pool[..deps.top], ts, g, d.(subDone := done), ts[g].(subDone := done));
      ring.Put(g, d.(subDone := done));
      all := done >= d.groupSize;
    }

    method ReportSub(id: int)
      requires Coupled() && Inv(model) && id in subOf
      modifies this`subOf, this`nextSub, this`inflight, this`specs, this`model, ring.slots
      ensures Coupled() && model == DoReport(old(model), id)
    {
      ghost var s := model;
      CountedAccounts(s, id);
      RunningListsOwned(s, s.subOf[id]);
      var g := subOf[id];
      var all := CountReport(g, id);
      if all {
        Finish(g);
      }
    }

    /** Takes a sub-task off the table and counts it. */
    method CountReport(g: nat, id: int) returns (all: bool)
      requires Coupled() && id in subOf && subOf[id] == g && ListsOwned(g)
      modifies this`subOf, this`inflight, this`model, ring.slots
      ensures Coupled() && ListsOwned(g) && model == Counted(old(model), id)
      ensures all <==> model.tasks[g].subDone >= model.tasks[g].groupSize
    {
      subOf := subOf - {id};
      inflight := inflight - {id};
      all := CountSub(g, model.tasks);
      model := Counted(model, id);
    }

    /** A completion report. The dispatcher reports only what was dispatched, at most once. */
    method OnTaskComplete(id: int)
      requires Coupled() && Inv(model) && id in inflight
      modifies this`subOf, this`nextSub, this`inflight, this`specs, this`model, ring.slots
      ensures Coupled() && model == DoReport(old(model), id)
    {
      if id in subOf {
        ReportSub(id);
      } else {
        ReportTask(id);
      }
    }

    method ReportTask(id: int)
      requires Coupled() && Inv(model) && id in inflight && id !in subOf
      modifies this`subOf, this`nextSub, this`inflight, this`specs, this`model, ring.slots
      ensures Coupled() && model == DoReport(old(model), id)
    {
      ghost var s := model;
      ReportedLive(s, id);
      RunningListsOwned(s, id);
      var d := ring.Get(id);
      assert Matches(d, deps.pool[..deps.top], s.tasks[id], id);
      inflight := inflight - {id};
      model := s.(inflight := s.inflight - {id});
      if d.status == Running {
        Finish(id);
      }
    }

    // ---- Retirement and scopes ---------------------------------------------------------

    /** Looks for the first unretired task that is not CONSUMED. */
    method FindCursor(ghost ts: seq<Task>) returns (cursor: nat)
      requires SlotsMatch(ts) && ring.last <= ring.current == |ts| <= ring.last + ring.slots.Length
      ensures cursor == Cursor(ts, ring.last)
    {
      cursor := ring.last;
      while cursor < ring.current
        invariant ring.last <= cursor <= ring.current
        invariant Cursor(ts, cursor) == Cursor(ts, ring.last)
      {
        var d := ring.Get(cursor);
        assert Matches(d, deps.pool[..deps.top], ts[cursor], cursor);
        if d.status != Consumed {
          break;
        }
        cursor := cursor + 1;
      }
    }

    /** Reclaims the heap space of the tasks below the cursor. */
    method ReclaimBelow(cursor: nat, ghost s: Orch)
      requires SlotsMatch(s.tasks) && 0 < cursor <= |s.tasks| && Owned(|s.tasks|, ring.slots.Length, cursor - 1)
      requires heap.State() == s.heap
      modifies heap
      ensures heap.State() == Reclaimed(s, cursor)
    {
      var d := ring.Get(cursor - 1);
      assert Matches(d, deps.pool[..deps.top], s.tasks[cursor - 1], cursor - 1);
      if d.heapEnd > heap.tail {
        heap.RetireTo(d.heapEnd);
      }
    }

    method RetireBelow(cursor: nat)
      requires Coupled() && ring.last < cursor == Cursor(model.tasks, model.last)
      modifies this`model, ring`last, heap
      ensures Coupled() && model == AdvanceRing(old(model))
    {
      ReclaimBelow(cursor, model);
      ring.SetLastTaskAlive(cursor);
      model := AdvanceRing(model);
    }

    /** Retires the leading CONSUMED tasks and reclaims their heap space. */
    method TryAdvanceRingPointers()
      requires Coupled() && Mapped()
      modifies this`model, this`log, ring`last, heap, tensors`lastTaskAlive
      ensures Coupled() && Mapped() && model == AdvanceRing(old(model))
      ensures log == old(log) + Moved(old(model).last, model.last)
    {
      var cursor := FindCursor(model.tasks);
      if cursor > ring.last {
        RetireBelow(cursor);
        InvalidateBelow(cursor);
      } else {
        assert AdvanceRing(model) == model && log + [] == log;
      }
    }

    method ScopeBegin()
      requires Coupled() && |model.scopes| < MAX_SCOPE_DEPTH
      modifies this`model, stack, stack.begins
      ensures Coupled() && model == old(model).(scopes := old(model).scopes + [[]])
    {
      stack.ScopeBegin();
      model := model.(scopes := model.scopes + [[]]);
    }

    /** Re-checks the unretired tasks for consumption. */
    method RecheckLive(ghost ts: seq<Task>)
      requires SlotsMatch(ts) && ring.last <= ring.current == |ts| <= ring.last + ring.slots.Length
      modifies ring.slots
      ensures SlotsMatch(CheckRange(ts, ring.last, |ts|))
    {
      var last, current := ring.last, ring.current;
      for i := last to current
        invariant SlotsMatch(CheckRange(ts, last, i))
      {
        CheckTaskConsumed(i, CheckRange(ts, last, i));
      }
    }

    method ScopeEnd()
      requires Coupled() && Mapped() && Inv(model) && model.scopes != []
      modifies this`model, this`log, ring`last, ring.slots, heap, stack, tensors`lastTaskAlive
      ensures Coupled() && Mapped() && model == EndScope(old(model))
      ensures log == old(log) + Moved(old(model).last, model.last)
    {
      EndingOwned(model);
      DropScope();
      TryAdvanceRingPointers();
    }

    /** Gives the tokens of the innermost scope and re-checks the unretired tasks. */
    method DropScope()
      requires Coupled() && model.scopes != []
      requires AllOwned(model.scopes[|model.scopes| - 1], |model.tasks|, ring.slots.Length)
      modifies this`model, ring.slots, stack
      ensures Coupled() && model == Unscoped(old(model))
    {
      ghost var s := model;
      ghost var ending := s.scopes[|s.scopes| - 1];
      DropRepresents(ring.slots[..], deps.pool[..deps.top], s.tasks, ending);
      stack.ScopeEnd(ring);
      RecheckLive(GiveTokens(s.tasks, ending));
      model := Unscoped(s);
    }

    // ---- Submission ----------------------------------------------------------------------

    /** Adds c to the consumers of p and p to the producers of c. */
    method AddEdgeBetween(p: nat, c: nat, ghost ts: seq<Task>)
      requires SlotsMatch(ts) && Owned(|ts|, ring.slots.Length, p) && Owned(|ts|, ring.slots.Length, c)
      requires deps.top + 2 <= deps.capacity + 1
      modifies deps, deps.pool, ring.slots
      ensures SlotsMatch(AddEdge(ts, p, c)) && deps.top == old(deps.top) + 2
    {
      ghost var t := ts[c].(producers := [p] + ts[c].producers, preDone := ts[c].preDone + if IsDone(ts[p]) then 1
          else 0);
      PrependDep(ring.slots[..], deps.pool[..deps.top], ts, c, p, t);
      var d := ring.Get(c);
      assert Matches(d, deps.pool[..deps.top], ts[c], c);
      var head := deps.Prepend(d.depHead, p);
      ring.Put(c, d.(depHead := head));
      ghost var us := ts[c := t];
      assert SlotsMatch(us);
      AddConsumer(p, c, us);
      assert us[p := us[p].(fanoutCount := us[p].fanoutCount + 1, consumers := [c] + us[p].consumers)]
             == AddEdge(ts, p, c);
    }

    method AddConsumer(p: nat, c: nat, ghost ts: seq<Task>)
      requires SlotsMatch(ts) && Owned(|ts|, ring.slots.Length, p) && deps.top <= deps.capacity
      modifies deps, deps.pool, ring.slots
      ensures SlotsMatch(ts[p := ts[p].(fanoutCount := ts[p].fanoutCount + 1, consumers := [c] + ts[p].consumers)])
      ensures deps.top == old(deps.top) + 1
    {
      ghost var t := ts[p].(fanoutCount := ts[p].fanoutCount + 1, consumers := [c] + ts[p].consumers);
      PrependFanout(ring.slots[..], deps.pool[..deps.top], ts, p, c, t);
      var d := ring.Get(p);
      assert Matches(d, deps.pool[..deps.top], ts[p], p);
      var head := deps.Prepend(d.fanoutHead, c);
      ring.Put(p, d.(fanoutCount := d.fanoutCount + 1, fanoutHead := head));
    }

    /** What a submission in progress relies on: s is the model so far, tid its newest task. */
    ghost predicate Scanning(s: Orch, tid: nat)
      reads this, ring, ring.slots, deps, deps.pool
    {
      && SlotsMatch(s.tasks) && latest == s.latest && HandlesKnown(s)
      && tid == |s.tasks| - 1 == ring.current - 1 && ring.last == s.last <= tid < s.last + ring.slots.Length
    }

    /** The read of one parameter; returns whether it added a dependency. */
    method ReadParam(p: Param, tid: nat, ghost s: Orch) returns (added: bool)
      requires Scanning(s, tid) && Mapped() && Answers(tensors.View(), Lookup(s, p.handle), p)
      requires Reads(p) && Lookup(s, p.handle).Some? ==> deps.top + 2 <= deps.capacity + 1
      modifies deps, deps.pool, ring.slots
      ensures SlotsMatch(ReadOne(s, p)) && (added <==> Reads(p) && Lookup(s, p.handle).Some?)
      ensures deps.top == old(deps.top) + if added then 2 else 0
    {
      added := false;
      if p.access == Input || p.access == InOut {
        var found, producer := tensors.FindProducer(p.handle);
        if found {
          AddEdgeBetween(producer, tid, s.tasks);
          added := true;
        }
      }
    }

    /** One parameter; returns whether it added a dependency. */
    method ScanParam(p: Param, tid: nat, ghost s: Orch) returns (added: bool)
      requires Scanning(s, tid) && Mapped() && Answers(tensors.View(), Lookup(s, p.handle), p)
      requires Reads(p) && Lookup(s, p.handle).Some? ==> deps.top + 2 <= deps.capacity + 1
      modifies this`latest, this`log, deps, deps.pool, ring.slots, tensors, tensors.buckets, tensors.pool
      ensures Scanning(ScanOne(s, p), tid) && Mapped()
      ensures log == old(log) + if Writes(p) then [L.Put(p.handle, tid, true)] else []
      ensures deps.top == old(deps.top) + if added then 2 else 0
      ensures |ScanOne(s, p).tasks[tid].producers| == |s.tasks[tid].producers| + if added then 1 else 0
    {
      ScanOneShows(s, p);
      added := ReadParam(p, tid, s);
      if p.access == Output || p.access == InOut {
        RecordWrite(p.handle, tid);
      }
    }

    /** The dependency scan over the parameters of the newest task. */
    method ScanParams(params: seq<Param>, tid: nat, ghost s: Orch) returns (fanin: nat)
      requires Scanning(s, tid) && Mapped() && s.tasks[tid].producers == []
      requires deps.top + 2 * |Sources(s, params, tid)| <= deps.capacity + 1
      requires ScanAnswered(MapStart(), log, s, params, tid)
      modifies this`latest, this`log, deps, deps.pool, ring.slots, tensors, tensors.buckets, tensors.pool
      ensures Scanning(Scan(s, params), tid) && Mapped() && deps.top == old(deps.top) + 2 * fanin
      ensures fanin == |Scan(s, params).tasks[tid].producers| && log == old(log) + Inserts(params, tid)
    {
      fanin := 0;
      ghost var r, told := s, log;
      assert params[..0] == [];
      for i := 0 to |params|
        invariant Scanned(s, params, i, tid, r, told, log) && Scanning(r, tid) && Mapped()
        invariant fanin == |r.tasks[tid].producers| && deps.top == old(deps.top) + 2 * fanin
      {
        NthReady(s, params, i, tid, r, MapStart(), told, log);
        var added := ScanParam(params[i], tid, r);
        r := ScanOne(r, params[i]);
        if added { fanin := fanin + 1; }
      }
      assert params[..|params|] == params;
    }

    /** Takes the next id and its slot. */
    method OpenTask(isGroup: bool, groupSize: nat, ghost ts: seq<Task>) returns (tid: nat)
      requires SlotsMatch(ts) && ring.Valid() && ring.current == |ts| && ring.HasSpace()
      modifies ring`current, ring.slots
      ensures tid == |ts| && ring.Valid() && ring.current == |ts| + 1
      ensures SlotsMatch(ts + [NewTask(isGroup, groupSize)])
    {
      var d := BLANK.(taskId := |ts|, isGroup := isGroup, groupSize := groupSize);
      AllocRepresents(ring.slots[..], deps.pool[..deps.top], ts, d, NewTask(isGroup, groupSize));
      ghost var was := ring.slots[..];
      tid := ring.TryAlloc();
      ring.Put(tid, BLANK.(taskId := tid, isGroup := isGroup, groupSize := groupSize));
      assert ring.slots[..] == was[|ts| % |was| := d];
    }

    /** Records the fan-in and the heap mark of the newest task. */
    method Seal(tid: nat, fanin: nat, ghost scoped: bool, ghost ts: seq<Task>)
      requires SlotsMatch(ts) && Owned(|ts|, ring.slots.Length, tid)
      modifies ring.slots
      ensures SlotsMatch(ts[tid := ts[tid].(faninCount := fanin, scoped := scoped, heapEnd := heap.top)])
    {
      var d := ring.Get(tid);
      assert Matches(d, deps.pool[..deps.top], ts[tid], tid);
      TouchRepresents(ring.slots[..], deps.pool[..deps.top], ts, tid, d.(faninCount := fanin, heapEnd := heap.top),
                      ts[tid].(faninCount := fanin, scoped := scoped, heapEnd := heap.top));
      ring.Put(tid, d.(faninCount := fanin, heapEnd := heap.top));
    }

    /** Opens a task and scans its parameters. */
    method BuildTask(params: seq<Param>, isGroup: bool, groupSize: nat, ghost s: Orch) returns (tid: nat, fanin: nat)
      requires SlotsMatch(s.tasks) && ring.Valid() && ring.current == |s.tasks| && ring.last == s.last
               && ring.HasSpace()
      requires latest == s.latest && HandlesKnown(s)
      requires deps.top + 2 * |Reached(s, params)| <= deps.capacity + 1
      requires Mapped() && MapAnswers(s, params)
      modifies this`latest, this`log, ring`current, ring.slots, deps, deps.pool, tensors, tensors.buckets, tensors.pool
      ensures Mapped() && log == old(log) + Inserts(params, tid)
      ensures tid == |s.tasks| && ring.Valid() && ring.current == tid + 1 && deps.top == old(deps.top) + 2 * fanin
      ensures var r := Scan(s.(tasks := s.tasks + [NewTask(isGroup, groupSize)]), params);
              SlotsMatch(r.tasks) && latest == r.latest && fanin == |r.tasks[tid].producers|
    {
      tid := OpenTask(isGroup, groupSize, s.tasks);
      ghost var o := s.(tasks := s.tasks + [NewTask(isGroup, groupSize)]);
      SourcesIgnoreTasks(s, o, params, tid);
      AnsweredOpened(MapStart(), log, s, o, params, tid);
      fanin := ScanParams(params, tid, o);
    }

    /** The part of submission that tasks and groups share. */
    method RegisterTask(params: seq<Param>, isGroup: bool, groupSize: nat) returns (tid: nat, fanin: nat)
      requires Coupled() && ring.HasSpace() && HandlesKnown(model)
      requires deps.top + 2 * |Reached(model, params)| <= deps.capacity + 1
      requires |Flat(model.scopes)| < stack.tasks.Length
      requires Mapped() && MapAnswers(model, params)
      modifies this`latest, this`log, this`model, ring`current, ring.slots, deps, deps.pool, stack, stack.tasks
      modifies tensors, tensors.buckets, tensors.pool
      ensures Coupled() && Mapped() && model == Register(old(model), params, isGroup, groupSize)
      ensures log == old(log) + Inserts(params, tid)
      ensures tid == |old(model).tasks| && fanin == |model.tasks[tid].producers|
              && deps.top == old(deps.top) + 2 * fanin
    {
      ghost var s := model;
      tid, fanin := BuildTask(params, isGroup, groupSize, s);
      ghost var r := Scan(s.(tasks := s.tasks + [NewTask(isGroup, groupSize)]), params);
      RegisterParts(s, params, isGroup, groupSize);
      assert r == s.(tasks := r.tasks, latest := r.latest);
      assert RestMatches(r) && TablesMatch(r);
      Settle(tid, fanin, r, Register(s, params, isGroup, groupSize));
    }

    /** The rest of a registration: r is the scanned state, q the registered one. */
    method Settle(tid: nat, fanin: nat, ghost r: Orch, ghost q: Orch)
      requires SlotsMatch(r.tasks) && TablesMatch(r) && Owned(|r.tasks|, ring.slots.Length, tid)
      requires RestMatches(r) && stack.size < stack.tasks.Length
      requires q == r.(tasks := r.tasks[tid := r.tasks[tid].(faninCount := fanin, scoped := r.scopes != [],
                                                             heapEnd := r.heap.top)],
                       scopes := Joined(r.scopes, tid))
      modifies this`model, ring.slots, stack, stack.tasks
      ensures Coupled() && model == q
    {
      Enroll(tid, fanin, r.tasks);
      model := q;
    }

    /** Joins the innermost scope, then records fan-in and heap mark. */
    method Enroll(tid: nat, fanin: nat, ghost ts: seq<Task>)
      requires SlotsMatch(ts) && Owned(|ts|, ring.slots.Length, tid)
      requires stack.Valid() && stack.size < stack.tasks.Length
      modifies ring.slots, stack, stack.tasks
      ensures stack.Valid() && stack.open == Joined(old(stack.open), tid)
      ensures SlotsMatch(ts[tid := ts[tid].(faninCount := fanin, scoped := old(stack.open) != [], heapEnd := heap.top)])
    {
      ghost var scoped := stack.open != [];
      JoinScope(tid);
      Seal(tid, fanin, scoped, ts);
    }

    /** Adds the newest task to the innermost scope, if one is open. */
    method JoinScope(tid: nat)
      requires stack.Valid() && stack.size < stack.tasks.Length
      modifies stack, stack.tasks
      ensures stack.Valid() && stack.open == Joined(old(stack.open), tid)
    {
      if stack.top >= 0 {
        stack.AddTask(tid);
      }
    }

    // ---- The calls of the orchestration program ------------------------------------------

    /** One turn of the wait for a free slot: false if the ring is still full. */
    method WaitForSpace() returns (ok: bool)
      requires Coupled() && Mapped() && Inv(model)
      modifies this`model, this`log, ring`last, heap, tensors`lastTaskAlive
      ensures Coupled() && Mapped() && Inv(model) && model == Unblocked(old(model)) && ok == HasSpace(model)
      ensures log == old(log) + Moved(old(model).last, model.last)
    {
      if !ring.HasSpace() {
        AdvanceKeeps(model);
        TryAdvanceRingPointers();
      }
      ok := ring.HasSpace();
    }

    /** The pool can hold the edges that a submission in state s registers. */
    ghost predicate EdgeRoom(s: Orch, params: seq<Param>)
      reads deps
    {
      deps.top + 2 * |Reached(s, params)| <= deps.capacity + 1
    }

    /** What admitting a task or group with these parameters relies on. */
    ghost predicate Room(params: seq<Param>)
      reads this, ring, deps, stack
    {
      && ring.last <= ring.current && ring.HasSpace() && HandlesKnown(model)
      && deps.top + 2 * |Reached(model, params)| <= deps.capacity + 1
      && |Flat(model.scopes)| < stack.tasks.Length
    }

    /** The tensor map finds the producers of a submission in state s. */
    ghost predicate MapAnswers(s: Orch, params: seq<Param>)
      reads this`log
    {
      ScanAnswered(MapStart(), log, s, params, |s.tasks|)
    }

    /** The tensor map holds the log and serves a submission once the wait for a slot is over. */
    ghost predicate MapServes(params: seq<Param>)
      requires model.last <= |model.tasks|
      reads this
    {
      var s, ops := Unblocked(model), log + Moved(model.last, Unblocked(model).last);
      KeptIn(MapStart(), ops, s) && ScanServed(MapStart(), ops, s, params)
    }

    /** Submits a task and dispatches it at once, whatever its inputs. The code asserts that
        the dependency pool has room. */
    method SubmitTask(params: seq<Param>) returns (ok: bool)
      requires Coupled() && Mapped() && Inv(model) && handing.None?
      requires EdgeRoom(Unblocked(model), params) && MapServes(params)
      modifies this`model, this`latest, this`log, this`inflight, this`subOf, this`nextSub, this`specs, this`handing
      modifies ring, ring.slots, deps, deps.pool, heap, stack, stack.tasks, tensors, tensors.buckets, tensors.pool
      ensures Coupled() && Mapped() && ok == HasSpace(Unblocked(old(model)))
      ensures model == if ok then DoSubmitTask(Unblocked(old(model)), params) else Unblocked(old(model))
      ensures log == old(log) + Moved(old(model).last, Unblocked(old(model)).last)
                     + if ok then Inserts(params, |old(model).tasks|) else []
      ensures deps.top == old(deps.top) + if ok then 2 * |Reached(Unblocked(old(model)), params)| else 0
    {
      ok := WaitForSpace();
      if ok {
        EnterTask(params);
      }
    }

    /** A submission once there is a slot. */
    method EnterTask(params: seq<Param>)
      requires Coupled() && Mapped() && Inv(model) && HasSpace(model) && EdgeRoom(model, params)
      requires KeptIn(MapStart(), log, model) && ScanServed(MapStart(), log, model, params)
      modifies this`model, this`latest, this`log, this`inflight, this`subOf, this`nextSub, this`specs, this`handing
      modifies ring`current, ring.slots, deps, deps.pool, stack, stack.tasks, tensors, tensors.buckets, tensors.pool
      ensures Coupled() && Mapped() && model == DoSubmitTask(old(model), params)
      ensures log == old(log) + Inserts(params, |old(model).tasks|)
      ensures deps.top == old(deps.top) + 2 * |Reached(old(model), params)|
    {
      ScopeRoom(model);
      ServedIsAnswered(MapStart(), log, model, params);
      AdmitTask(params);
    }

    method AdmitTask(params: seq<Param>)
      requires Coupled() && Room(params)
      requires Mapped() && MapAnswers(model, params)
      modifies this`model, this`latest, this`log, this`inflight, this`subOf, this`nextSub, this`specs, this`handing
      modifies ring`current, ring.slots, deps, deps.pool, stack, stack.tasks, tensors, tensors.buckets, tensors.pool
      ensures Coupled() && Mapped() && model == DoSubmitTask(old(model), params)
      ensures log == old(log) + Inserts(params, |old(model).tasks|)
      ensures deps.top == old(deps.top) + 2 * |Reached(old(model), params)|
    {
      RegisterCounts(model, params, false, 0);
      var tid, _ := RegisterTask(params, false, 0);
      Dispatch(tid);
    }

    /** Marks a registered task RUNNING and gives it to the dispatcher. */
    method Dispatch(tid: nat)
      requires Coupled() && Owned(|model.tasks|, ring.slots.Length, tid)
      modifies this`model, this`inflight, ring.slots
      ensures Coupled()
      ensures model == old(model).(tasks := SetStatus(old(model).tasks, tid, Running),
                                   inflight := old(model).inflight + {tid})
    {
      SetStatusOf(tid, Running, model.tasks);
      inflight := inflight + {tid};
      model := model.(tasks := SetStatus(model.tasks, tid, Running), inflight := model.inflight + {tid});
    }

    /** Submits a group: it completes at once if empty, is handed over from now on if it has
        no producers, and otherwise waits for them. */
    method SubmitTaskGroup(params: seq<Param>, size: nat) returns (ok: bool)
      requires Coupled() && Mapped() && Inv(model) && handing.None?
      requires EdgeRoom(Unblocked(model), params) && MapServes(params)
      modifies this`model, this`latest, this`log, this`inflight, this`subOf, this`nextSub, this`specs, this`handing
      modifies ring, ring.slots, deps, deps.pool, heap, stack, stack.tasks, tensors, tensors.buckets, tensors.pool
      ensures Coupled() && Mapped() && ok == HasSpace(Unblocked(old(model)))
      ensures model == if ok then DoSubmitGroup(Unblocked(old(model)), params, size) else Unblocked(old(model))
      ensures log == old(log) + Moved(old(model).last, Unblocked(old(model)).last)
                     + if ok then Inserts(params, |old(model).tasks|) else []
      ensures deps.top == old(deps.top) + if ok then 2 * |Reached(Unblocked(old(model)), params)| else 0
    {
      ok := WaitForSpace();
      if ok {
        EnterGroup(params, size);
      }
    }

    /** The same for a group. */
    method EnterGroup(params: seq<Param>, size: nat)
      requires Coupled() && Mapped() && Inv(model) && HasSpace(model) && EdgeRoom(model, params)
      requires KeptIn(MapStart(), log, model) && ScanServed(MapStart(), log, model, params)
      modifies this`model, this`latest, this`log, this`inflight, this`subOf, this`nextSub, this`specs, this`handing
      modifies ring`current, ring.slots, deps, deps.pool, stack, stack.tasks, tensors, tensors.buckets, tensors.pool
      ensures Coupled() && Mapped() && model == DoSubmitGroup(old(model), params, size)
      ensures log == old(log) + Inserts(params, |old(model).tasks|)
      ensures deps.top == old(deps.top) + 2 * |Reached(old(model), params)|
    {
      ScopeRoom(model);
      ServedIsAnswered(MapStart(), log, model, params);
      NewListsOwned(model, params, size);
      StartedGroup(model, params, size);
      AdmitGroup(params, size);
    }

    method AdmitGroup(params: seq<Param>, size: nat)
      requires Coupled() && Room(params) && NewOwned(Register(model, params, true, size), ring.slots.Length)
      requires Mapped() && MapAnswers(model, params)
      modifies this`model, this`latest, this`log, this`inflight, this`subOf, this`nextSub, this`specs, this`handing
      modifies ring`current, ring.slots, deps, deps.pool, stack, stack.tasks, tensors, tensors.buckets, tensors.pool
      ensures Coupled() && Mapped()
      ensures model == Started(Register(old(model), params, true, size), |old(model).tasks|, size)
      ensures log == old(log) + Inserts(params, |old(model).tasks|)
      ensures deps.top == old(deps.top) + 2 * |Reached(old(model), params)|
    {
      RegisterCounts(model, params, true, size);
      var tid, fanin := RegisterTask(params, true, size);
      StartGroup(tid, fanin, size);
    }

    /** What becomes of a registered group. */
    method StartGroup(tid: nat, fanin: nat, size: nat)
      requires Coupled() && ListsOwned(tid) && fanin == |model.tasks[tid].producers|
      modifies this`model, this`inflight, this`subOf, this`nextSub, this`specs, this`handing, ring.slots
      ensures Coupled() && model == Started(old(model), tid, size)
    {
      if size == 0 {
        Finish(tid);
      } else if fanin == 0 {
        HandOver(tid, size);
      } else {
        Defer(tid, size);
      }
    }

    /** Marks a registered group RUNNING; its sub-tasks follow one by one. */
    method HandOver(tid: nat, size: nat)
      requires Coupled() && Owned(|model.tasks|, ring.slots.Length, tid)
      modifies this`model, this`handing, ring.slots
      ensures Coupled()
      ensures model == old(model).(tasks := SetStatus(old(model).tasks, tid, Running), dispatching := Some((tid, size)))
    {
      SetStatusOf(tid, Running, model.tasks);
      handing := Some((tid, size));
      model := model.(tasks := SetStatus(model.tasks, tid, Running), dispatching := Some((tid, size)));
    }

    /** Stores the spec of a group that waits for its producers. */
    method Defer(tid: nat, size: nat)
      requires Coupled()
      modifies this`model, this`specs
      ensures Coupled() && model == old(model).(specs := old(model).specs[tid := size])
    {
      specs := specs[tid := size];
      model := model.(specs := model.specs[tid := size]);
    }

    /** Hands over the next sub-task of the group being submitted; reports may come between
        these calls. */
    method DispatchNext()
      requires Coupled() && handing.Some? && handing.value.1 > 0
      modifies this`subOf, this`nextSub, this`inflight, this`handing, this`model
      ensures Coupled() && model == DoDispatchNext(old(model))
    {
      var (g, left) := handing.value;
      subOf := subOf[nextSub := g];
      inflight := inflight + {nextSub};
      nextSub := nextSub - 1;
      handing := if left == 1 then None else Some((g, left - 1));
      model := DoDispatchNext(model);
    }

    /** Names a tensor and takes its buffer; when the heap is full, one turn of the wait for
        space. No handle is given out twice. */
    method AllocTensor(bytes: nat) returns (ok: bool, handle: nat, offset: nat)
      requires Coupled() && Mapped() && Inv(model)
      modifies this`model, this`log, this`nextHandle, ring`last, heap, tensors`lastTaskAlive
      ensures Mapped() && log == old(log) + Moved(old(model).last, model.last)
      ensures Coupled() && handle == old(nextHandle) && nextHandle == handle + if ok then 1 else 0
      ensures ok <==> bytes > 0 ==> Fits(HeapWait(old(model), bytes).heap, bytes)
      ensures model == if ok then DoAlloc(HeapWait(old(model), bytes), bytes) else HeapWait(old(model), bytes)
      ensures ok && bytes > 0 ==> PlacedAt(HeapWait(old(model), bytes).heap, bytes, offset)
    {
      handle := nextHandle;
      ok, offset := WaitForBuffer(bytes);
      if ok {
        NextHandle();
      }
    }

    method NextHandle()
      requires Coupled()
      modifies this`nextHandle
      ensures Coupled() && nextHandle == old(nextHandle) + 1
    {
      nextHandle := nextHandle + 1;
    }

    /** One turn of the wait for heap space. */
    method WaitForBuffer(bytes: nat) returns (ok: bool, offset: nat)
      requires Coupled() && Mapped() && Inv(model)
      modifies this`model, this`log, ring`last, heap, tensors`lastTaskAlive
      ensures Mapped() && log == old(log) + Moved(old(model).last, model.last)
      ensures Coupled() && (ok <==> bytes > 0 ==> Fits(HeapWait(old(model), bytes).heap, bytes))
      ensures model == if ok then DoAlloc(HeapWait(old(model), bytes), bytes) else HeapWait(old(model), bytes)
      ensures ok && bytes > 0 ==> PlacedAt(HeapWait(old(model), bytes).heap, bytes, offset)
    {
      if bytes == 0 {
        return true, 0;
      }
      ok, offset := TakeBuffer(bytes);
      if !ok {
        ok, offset := RetryBuffer(bytes);
      }
    }

    method RetryBuffer(bytes: nat) returns (ok: bool, offset: nat)
      requires Coupled() && Mapped() && Inv(model) && bytes > 0
      modifies this`model, this`log, ring`last, heap, tensors`lastTaskAlive
      ensures Mapped() && log == old(log) + Moved(old(model).last, model.last)
      ensures Coupled() && (ok <==> Fits(AdvanceRing(old(model)).heap, bytes))
      ensures model == if ok then DoAlloc(AdvanceRing(old(model)), bytes) else AdvanceRing(old(model))
      ensures ok ==> PlacedAt(AdvanceRing(old(model)).heap, bytes, offset)
    {
      AdvanceKeeps(model);
      TryAdvanceRingPointers();
      ok, offset := TakeBuffer(bytes);
    }

    method TakeBuffer(bytes: nat) returns (ok: bool, offset: nat)
      requires Coupled() && Sane(model.heap) && bytes > 0
      modifies this`model, heap
      ensures Coupled() && (ok <==> Fits(old(model).heap, bytes))
      ensures model == if ok then DoAlloc(old(model), bytes) else old(model)
      ensures ok ==> PlacedAt(old(model).heap, bytes, offset)
    {
      ok, offset := heap.TryAlloc(bytes);
      if ok { model := DoAlloc(model, bytes); }
    }

    /** The dependency pool can hold the edges of the step. */
    ghost predicate PoolRoom(step: Step)
      reads this, deps
    {
      match step
      case SubmitTask(params) => EdgeRoom(model, params)
      case SubmitGroup(params, _) => EdgeRoom(model, params)
      case _ => true
    }

    /** The object simulates the lifecycle: every enabled step that reads from no CONSUMED
        task is carried out by the object, which stays coupled to a state in the invariant. */
    method Perform(step: Step)
      requires Coupled() && Mapped() && Inv(model)
      requires Enabled(model, step) && StepReadsFresh(model, step) && PoolRoom(step)
      requires KeptIn(MapStart(), log, model) && StepServed(MapStart(), log, model, step)
      modifies this, ring, ring.slots, deps, deps.pool, heap, stack, stack.tasks, stack.begins
      modifies tensors, tensors.buckets, tensors.pool
      ensures Coupled() && Mapped() && Inv(model) && model == Next(old(model), step)
      ensures log == old(log) + StepLog(old(model), step) && KeptIn(MapStart(), log, model)
      ensures deps.top == old(deps.top) + 2 * |StepReads(old(model), step)|
    {
      ghost var s := model;
      StepKept(s, step, MapStart(), log);
      if step.SubmitTask? || step.SubmitGroup? {
        PerformSubmission(step);
      } else {
        PerformOther(step);
      }
      StepKeepsInv(s, step);
    }

    method PerformSubmission(step: Step)
      requires Coupled() && Mapped() && Inv(model) && Enabled(model, step) && PoolRoom(step)
      requires step.SubmitTask? || step.SubmitGroup?
      requires KeptIn(MapStart(), log, model) && StepServed(MapStart(), log, model, step)
      modifies this`model, this`latest, this`log, this`inflight, this`subOf, this`nextSub, this`specs, this`handing
      modifies ring, ring.slots, deps, deps.pool, heap, stack, stack.tasks, tensors, tensors.buckets, tensors.pool
      ensures Coupled() && Mapped() && model == Next(old(model), step)
      ensures log == old(log) + StepLog(old(model), step)
      ensures deps.top == old(deps.top) + 2 * |StepReads(old(model), step)|
    {
      match step
      case SubmitTask(params) => EnterTask(params);
      case SubmitGroup(params, size) => EnterGroup(params, size);
    }

    method PerformOther(step: Step)
      requires Coupled() && Mapped() && Inv(model) && Enabled(model, step) && !step.SubmitTask? && !step.SubmitGroup?
      modifies this, ring`last, ring.slots, heap, stack, stack.begins, tensors`lastTaskAlive
      ensures Coupled() && Mapped() && model == Next(old(model), step)
      ensures log == old(log) + StepLog(old(model), step)
    {
      if step.ScopeEnd? || step.Advance? || step.AllocTensor? {
        PerformRetiring(step);
      } else {
        NonRetiring(model, step);
        assert log + [] == log;
        PerformQuiet(step);
      }
    }

    /** The steps that may retire tasks. */
    method PerformRetiring(step: Step)
      requires Coupled() && Mapped() && Inv(model) && Enabled(model, step)
      requires step.ScopeEnd? || step.Advance? || step.AllocTensor?
      modifies this`model, this`log, this`nextHandle, ring`last, ring.slots, heap, stack, tensors`lastTaskAlive
      ensures Coupled() && Mapped() && model == Next(old(model), step)
      ensures log == old(log) + Moved(old(model).last, model.last)
    {
      match step
      case ScopeEnd => ScopeEnd();
      case Advance => TryAdvanceRingPointers();
      case AllocTensor(bytes) => var _, _, _ := AllocTensor(bytes);
    }

    /** The steps that leave the ring's bounds and the tensor map alone. */
    method PerformQuiet(step: Step)
      requires Coupled() && Inv(model) && Enabled(model, step)
      requires step.DispatchNext? || step.Report? || step.ScopeBegin?
      modifies this`subOf, this`nextSub, this`inflight, this`specs, this`handing, this`model
      modifies ring.slots, stack, stack.begins
      ensures Coupled() && model == Next(old(model), step)
    {
      match step
      case DispatchNext => DispatchNext();
      case Report(id) => OnTaskComplete(id);
      case ScopeBegin => ScopeBegin();
    }
  }

  /** While task t runs, its producers and consumers are unretired. */
  lemma RunningListsOwned(s: Orch, t: nat)
    requires Inv(s) && s.last <= t < |s.tasks| && !IsDone(s.tasks[t])
    ensures Owned(|s.tasks|, s.window, t)
    ensures AllOwned(s.tasks[t].producers, |s.tasks|, s.window) && AllOwned(s.tasks[t].consumers, |s.tasks|, s.window)
  {
    var n := |s.tasks|;
    forall k | 0 <= k < |s.tasks[t].producers| ensures Owned(n, s.window, s.tasks[t].producers[k]) {
      ProducerLive(s, t, s.tasks[t].producers[k]);
    }
    forall k | 0 <= k < |s.tasks[t].consumers| ensures Owned(n, s.window, s.tasks[t].consumers[k]) {
      assert s.tasks[t].consumers[k] in s.tasks[t].consumers;
    }
  }

  /** The tasks of the ending scope are unretired. */
  lemma EndingOwned(s: Orch)
    requires Inv(s) && s.scopes != []
    ensures AllOwned(s.scopes[|s.scopes| - 1], |s.tasks|, s.window)
  {
    var ending := s.scopes[|s.scopes| - 1];
    forall k | 0 <= k < |ending| ensures Owned(|s.tasks|, s.window, ending[k]) {
      assert ending[k] in Flat(s.scopes);
      ScopeHoldsLive(s, ending[k]);
    }
  }

  function Joined(scopes: seq<seq<nat>>, tid: nat): seq<seq<nat>> {
    if scopes == [] then [] else scopes[|scopes| - 1 := scopes[|scopes| - 1] + [tid]]
  }

  lemma RegisterParts(s: Orch, params: seq<Param>, isGroup: bool, groupSize: nat)
    ensures var o, tid := s.(tasks := s.tasks + [NewTask(isGroup, groupSize)]), |s.tasks|;
            var r, q := Scan(o, params), Register(s, params, isGroup, groupSize);
            && r == s.(tasks := r.tasks, latest := r.latest)
            && q == r.(tasks := r.tasks[tid := r.tasks[tid].(faninCount := |r.tasks[tid].producers|,
                                                             scoped := r.scopes != [], heapEnd := r.heap.top)],
                       scopes := Joined(r.scopes, tid))
            && q.tasks[tid].producers == r.tasks[tid].producers
  {
    ScanKeepsFrame(s.(tasks := s.tasks + [NewTask(isGroup, groupSize)]), params);
  }

  /** The state in which a submission finds a slot, or finds the ring full. */
  function Unblocked(s: Orch): Orch
    requires s.last <= |s.tasks|
  {
    if HasSpace(s) then s else AdvanceRing(s)
  }

  /** The buffer of the scope stack always has room for one more task: its capacity check
      never fires. */
  lemma ScopeRoom(s: Orch)
    requires Inv(s) && HasSpace(s)
    ensures |Flat(s.scopes)| < s.window <= s.window * MAX_SCOPE_DEPTH
  {
    var flat := Flat(s.scopes);
    forall k | 0 <= k < |flat| ensures s.last <= flat[k] < |s.tasks| {
      assert flat[k] in flat;
      ScopeHoldsLive(s, flat[k]);
    }
    DistinctBounded(flat, s.last, |s.tasks|);
  }

  /** A task consumes nothing from itself but what it reads back, so right after its scan
      all its consumers are itself. */
  lemma {:induction false} ScanConsumers(s: Orch, params: seq<Param>, k: nat)
    requires |s.tasks| > 0 && HandlesKnown(s) && s.last < |s.tasks| && s.tasks[|s.tasks| - 1].consumers == []
    requires k < |Scan(s, params).tasks[|s.tasks| - 1].consumers|
    ensures Scan(s, params).tasks[|s.tasks| - 1].consumers[k] == |s.tasks| - 1
  {
    var earlier, p, tid := params[..|params| - 1], params[|params| - 1], |s.tasks| - 1;
    ScanStep(s, params);
    var found := Found(s, earlier, p.handle, tid);
    if Reads(p) && found == Some(tid) {
      if k > 0 { ScanConsumers(s, earlier, k - 1); }
    } else {
      ScanConsumers(s, earlier, k);
    }
  }

  /** The newest task and everything on its lists have their slots. */
  ghost predicate NewOwned(s: Orch, w: nat) {
    var n := |s.tasks|;
    n > 0 && w > 0 && AllOwned(s.tasks[n - 1].producers, n, w) && AllOwned(s.tasks[n - 1].consumers, n, w)
  }

  /** The lists of a newly registered group lead only to unretired tasks. */
  lemma NewListsOwned(s: Orch, params: seq<Param>, size: nat)
    requires Inv(s) && HasSpace(s)
    ensures NewOwned(Register(s, params, true, size), s.window)
  {
    var r, tid := Register(s, params, true, size), |s.tasks|;
    var o := s.(tasks := s.tasks + [NewTask(true, size)]);
    RegisterShows(s, params, true, size);
    forall k | 0 <= k < |r.tasks[tid].producers| ensures Owned(|r.tasks|, s.window, r.tasks[tid].producers[k]) {
      SourcesLive(s, params, tid, r.tasks[tid].producers[k]);
    }
    assert r.tasks[tid].consumers == Scan(o, params).tasks[tid].consumers;
    forall k | 0 <= k < |r.tasks[tid].consumers| ensures Owned(|r.tasks|, s.window, r.tasks[tid].consumers[k]) {
      ScanConsumers(o, params, k);
    }
  }

  /** The producers that a submission with these parameters finds. */
  function Reached(s: Orch, params: seq<Param>): seq<nat> {
    Sources(s, params, |s.tasks|)
  }

  /** The producers that a step registers a consumer with. */
  function StepReads(s: Orch, step: Step): seq<nat> {
    match step
    case SubmitTask(params) => Reached(s, params)
    case SubmitGroup(params, _) => Reached(s, params)
    case _ => []
  }

  /** The heap once the tasks below the cursor have retired. */
  function Reclaimed(s: Orch, cursor: nat): Heap
    requires 0 < cursor <= |s.tasks|
  {
    var end := s.tasks[cursor - 1].heapEnd;
    if end > s.heap.tail then s.heap.(tail := end) else s.heap
  }

  /** A state whose newest task has just been opened. */
  ghost predicate ScanStarts(s: Orch, tid: nat) {
    tid == |s.tasks| - 1 && s.last <= tid && HandlesKnown(s) && s.tasks[tid].producers == []
  }

  /** What a registered group becomes. */
  function Started(s: Orch, tid: nat, size: nat): Orch
    requires tid < |s.tasks|
  {
    if size == 0 then Complete(s, tid)
    else if s.tasks[tid].producers == [] then
      s.(tasks := SetStatus(s.tasks, tid, Running), dispatching := Some((tid, size)))
    else s.(specs := s.specs[tid := size])
  }

  lemma StartedGroup(s: Orch, params: seq<Param>, size: nat)
    ensures DoSubmitGroup(s, params, size) == Started(Register(s, params, true, size), |s.tasks|, size)
  {
  }

  lemma RegisterCounts(s: Orch, params: seq<Param>, isGroup: bool, size: nat)
    requires HandlesKnown(s) && s.last <= |s.tasks|
    ensures |Register(s, params, isGroup, size).tasks[|s.tasks|].producers| == |Reached(s, params)|
  {
    RegisterShows(s, params, isGroup, size);
  }

  /** The scan of the first i parameters has led from s to r and from one log to the other. */
  ghost predicate Scanned(s: Orch, params: seq<Param>, i: nat, tid: nat, r: Orch,
                          told: seq<L.MapOp>, log: seq<L.MapOp>) {
    |s.tasks| > 0 && i <= |params| && r == Scan(s, params[..i]) && log == told + Inserts(params[..i], tid)
  }

  /** What the scan of the parameter at position i relies on. */
  lemma NthReady(s: Orch, params: seq<Param>, i: nat, tid: nat, r: Orch,
                 start: M.Chained, told: seq<L.MapOp>, log: seq<L.MapOp>)
    requires i < |params| && ScanStarts(s, tid) && ScanAnswered(start, told, s, params, tid)
    requires Scanned(s, params, i, tid, r, told, log)
    ensures var p := params[i];
            && Answers(MapOf(start, log), Lookup(r, p.handle), p)
            && (Reads(p) && Lookup(r, p.handle).Some? ==> |r.tasks[tid].producers| < |Sources(s, params, tid)|)
            && Scanned(s, params, i + 1, tid, ScanOne(r, p), told,
                       log + if Writes(p) then [L.Put(p.handle, tid, true)] else [])
  {
    FoundIsLookup(s, params[..i], params[i].handle);
    EdgeLeft(s, params, i, tid, r);
    InsertsNext(params, tid, i);
    ScanNext(s, params, i);
  }

  lemma EdgeLeft(s: Orch, params: seq<Param>, i: nat, tid: nat, r: Orch)
    requires i < |params| && ScanStarts(s, tid) && r == Scan(s, params[..i])
    ensures var p := params[i];
            Reads(p) && Lookup(r, p.handle).Some? ==> |r.tasks[tid].producers| < |Sources(s, params, tid)|
  {
    NextEdgeCounted(s, params, i);
    ScanKnowsHandles(s, params[..i]);
    ReadOneProducers(r, params[i]);
  }

  lemma NothingRepresents(slots: seq<Descriptor>, pool: seq<Entry>)
    requires |slots| > 0 && |pool| > 0 && Descending(pool)
    ensures Represents(slots, pool, [])
  {
  }

  lemma ScanOneShows(s: Orch, p: Param)
    requires |s.tasks| > 0 && HandlesKnown(s)
    ensures var r, tid := ScanOne(s, p), |s.tasks| - 1;
            && HandlesKnown(r) && |r.tasks| == |s.tasks| && r.last == s.last
            && |r.tasks[tid].producers| ==
               |s.tasks[tid].producers| + if Reads(p) && Lookup(s, p.handle).Some? then 1 else 0
  {
    ReadOneProducers(s, p);
  }

  lemma NonRetiring(s: Orch, step: Step)
    requires Inv(s) && Enabled(s, step) && (step.DispatchNext? || step.Report? || step.ScopeBegin?)
    ensures StepLog(s, step) == []
  {
    if step.Report? { ReportKeepsHandles(s, step.id); }
  }

  lemma InsertsNext(params: seq<Param>, tid: nat, k: nat)
    requires k < |params|
    ensures Inserts(params[..k + 1], tid)
            == Inserts(params[..k], tid) + if Writes(params[k]) then [L.Put(params[k].handle, tid, true)] else []
  {
    assert params[..k + 1][..k] == params[..k];
  }

  lemma ScanNext(s: Orch, params: seq<Param>, k: nat)
    requires |s.tasks| > 0 && k < |params|
    ensures Scan(s, params[..k + 1]) == ScanOne(Scan(s, params[..k]), params[k])
  {
    assert params[..k + 1][..k] == params[..k];
  }

  /** The state in which a request finds heap space, or finds the heap full. */
  function HeapWait(s: Orch, bytes: nat): Orch
    requires s.last <= |s.tasks|
  {
    if bytes > 0 && !Fits(s.heap, bytes) then AdvanceRing(s) else s
  }

  /** The offset is that of the first fitting position, and the block lies inside the store. */
  ghost predicate PlacedAt(h: Heap, bytes: nat, offset: nat) {
    exists p: nat :: && FreeAt(h, bytes, p) && (forall q: nat :: FreeAt(h, bytes, q) ==> p <= q)
                     && offset == p % h.capacity
  }
}

/** The orchestrator's task lifecycle as a state machine.

    Tasks are indexed by id and never recycled here; the orchestrator object keeps
    only a window of them in a ring of slots and is proved to refine these steps.
    Each public call and each completion report is one step, except that a group
    submitted with no producers hands its sub-tasks over one step at a time. */
module Lifecycle {
  import opened Common
  import opened HeapRings

  const MAX_SCOPE_DEPTH: nat := 8

  datatype Status = Pending | Ready | Running | Completed | Consumed

  datatype Access = Input | Output | InOut | Scalar

  datatype Param = Param(access: Access, handle: nat)

  /** A task descriptor. Both dependency lists are newest first. The last three fields
      are history: whether the task was submitted inside a scope, whether that scope has
      ended, and how many of its producers had completed when it was submitted. */
  datatype Task = Task(
    producers: seq<nat>, consumers: seq<nat>,
    faninCount: nat, faninRef: nat,
    fanoutCount: nat, fanoutRef: nat,
    status: Status,
    isGroup: bool, groupSize: nat, subDone: nat,
    heapEnd: nat,
    scoped: bool, released: bool, preDone: nat)

  function NewTask(isGroup: bool, groupSize: nat): Task {
    Task([], [], 0, 0, 1, 0, Pending, isGroup, groupSize, 0, 0, false, false, 0)
  }

  /** A buffer taken from the heap; owner is the next task to be submitted after it. */
  datatype Buffer = Buffer(start: nat, size: nat, owner: nat)

  datatype Orch = Orch(
    window: nat,
    tasks: seq<Task>,              // by id; the next id is |tasks|
    last: nat,                     // ids below have retired
    latest: map<nat, nat>,         // handle -> latest producer
    scopes: seq<seq<nat>>,         // open scopes, innermost last
    heap: Heap,
    buffers: seq<Buffer>,
    subOf: map<int, nat>,          // unreported synthetic id -> its group
    nextSub: int,
    specs: map<nat, nat>,          // waiting group -> number of sub-tasks
    inflight: set<int>,            // ids dispatched and not reported
    dispatching: Option<(nat, nat)>) // group being handed over, sub-tasks left

  function Init(window: nat, capacity: nat): Orch {
    Orch(window, [], 0, map[], [], Heap(capacity, 0, 0), [], map[], -1, map[], {}, None)
  }

  predicate HasSpace(s: Orch) {
    |s.tasks| - s.last < s.window
  }

  // ---- Dependencies -----------------------------------------------------

  predicate IsDone(t: Task) {
    t.status == Completed || t.status == Consumed
  }

  predicate DoneAt(ts: seq<Task>, i: nat) {
    i < |ts| && IsDone(ts[i])
  }

  predicate Reads(p: Param) {
    p.access == Input || p.access == InOut
  }

  predicate Writes(p: Param) {
    p.access == Output || p.access == InOut
  }

  function Lookup(s: Orch, handle: nat): Option<nat> {
    if handle in s.latest && s.latest[handle] >= s.last then Some(s.latest[handle]) else None
  }

  /** Registers c as a consumer of p, in both lists. */
  function AddEdge(ts: seq<Task>, p: nat, c: nat): seq<Task>
    requires p < |ts| && c < |ts|
  {
    var ts1 := ts[c := ts[c].(producers := [p] + ts[c].producers,
                              preDone := ts[c].preDone + if IsDone(ts[p]) then 1 else 0)];
    ts1[p := ts1[p].(fanoutCount := ts1[p].fanoutCount + 1, consumers := [c] + ts1[p].consumers)]
  }

  /** What a parameter of the newest task does to the task table: a read that finds a
      producer adds an edge. */
  function ReadOne(s: Orch, p: Param): (r: seq<Task>)
    requires |s.tasks| > 0
    ensures |r| == |s.tasks|
  {
    var found := Lookup(s, p.handle);
    if Reads(p) && found.Some? && found.value < |s.tasks| then AddEdge(s.tasks, found.value, |s.tasks| - 1) else s.tasks
  }

  /** One parameter of the newest task: a read adds an edge, then a write takes the handle
      over. */
  function ScanOne(s: Orch, p: Param): Orch
    requires |s.tasks| > 0
  {
    s.(tasks := ReadOne(s, p), latest := if Writes(p) then s.latest[p.handle := |s.tasks| - 1] else s.latest)
  }

  function Scan(s: Orch, params: seq<Param>): (r: Orch)
    requires |s.tasks| > 0
    ensures |r.tasks| == |s.tasks|
  {
    if params == [] then s else ScanOne(Scan(s, params[..|params| - 1]), params[|params| - 1])
  }

  /** The part of submission that tasks and groups share. */
  function Register(s: Orch, params: seq<Param>, isGroup: bool, groupSize: nat): (r: Orch)
    ensures |r.tasks| == |s.tasks| + 1
  {
    var tid := |s.tasks|;
    var s1 := Scan(s.(tasks := s.tasks + [NewTask(isGroup, groupSize)]), params);
    var inScope := s.scopes != [];
    s1.(tasks := s1.tasks[tid := s1.tasks[tid].(faninCount := |s1.tasks[tid].producers|,
                                                scoped := inScope, heapEnd := s.heap.top)],
        scopes := if inScope then s.scopes[|s.scopes| - 1 := s.scopes[|s.scopes| - 1] + [tid]] else s.scopes)
  }

  function SetStatus(ts: seq<Task>, i: nat, st: Status): seq<Task>
    requires i < |ts|
  {
    ts[i := ts[i].(status := st)]
  }

  // ---- Completion -------------------------------------------------------

  function CheckConsumed(t: Task): Task {
    if t.status == Completed && t.fanoutRef >= t.fanoutCount then t.(status := Consumed) else t
  }

  function ReleaseOne(ts: seq<Task>, p: nat): (r: seq<Task>)
    ensures |r| == |ts|
  {
    if p < |ts| then ts[p := CheckConsumed(ts[p].(fanoutRef := ts[p].fanoutRef + 1))] else ts
  }

  /** The walk over a completed task's producers. */
  function ReleaseAll(ts: seq<Task>, list: seq<nat>): (r: seq<Task>)
    ensures |r| == |ts|
    decreases |list|
  {
    if list == [] then ts else ReleaseAll(ReleaseOne(ts, list[0]), list[1..])
  }

  function SatisfyOne(ts: seq<Task>, c: nat): (r: seq<Task>)
    ensures |r| == |ts|
  {
    if c < |ts| then ts[c := ts[c].(faninRef := ts[c].faninRef + 1)] else ts
  }

  /** The walk over a completed task's consumers. */
  function SatisfyAll(ts: seq<Task>, list: seq<nat>): (r: seq<Task>)
    ensures |r| == |ts|
    decreases |list|
  {
    if list == [] then ts else SatisfyAll(SatisfyOne(ts, list[0]), list[1..])
  }

  /** Hands one sub-task of group g to the dispatcher under a fresh synthetic id. */
  function LaunchSub(s: Orch, g: nat): Orch {
    s.(subOf := s.subOf[s.nextSub := g], nextSub := s.nextSub - 1, inflight := s.inflight + {s.nextSub})
  }

  function Launch(s: Orch, g: nat, n: nat): Orch
    decreases n
  {
    if n == 0 then s else Launch(LaunchSub(s, g), g, n - 1)
  }

  predicate Wakeable(t: Task) {
    t.status == Pending && t.faninRef >= t.faninCount
  }

  function WakeOne(s: Orch, c: nat): Orch {
    if c < |s.tasks| && Wakeable(s.tasks[c]) then
      if s.tasks[c].isGroup then
        var s1 := s.(tasks := SetStatus(s.tasks, c, Running));
        if c in s.specs then
          var s2 := Launch(s1, c, s.specs[c]);
          s2.(specs := s2.specs - {c})
        else s1
      else s.(tasks := SetStatus(s.tasks, c, Ready))
    else s
  }

  /** The walk that dispatches the groups whose fan-in is now satisfied. */
  function WakeAll(s: Orch, list: seq<nat>): Orch
    decreases |list|
  {
    if list == [] then s else WakeAll(WakeOne(s, list[0]), list[1..])
  }

  /** Everything that follows from task t having just been marked COMPLETED. */
  function Propagate(s: Orch, t: nat): Orch
    requires t < |s.tasks|
  {
    var ts1 := ReleaseAll(s.tasks, s.tasks[t].producers);
    var ts2 := SatisfyAll(ts1, s.tasks[t].consumers);
    var s3 := WakeAll(s.(tasks := ts2), s.tasks[t].consumers);
    if t < |s3.tasks| then s3.(tasks := s3.tasks[t := CheckConsumed(s3.tasks[t])]) else s3
  }

  function Complete(s: Orch, t: nat): Orch
    requires t < |s.tasks|
  {
    Propagate(s.(tasks := SetStatus(s.tasks, t, Completed)), t)
  }

  // ---- Scopes and retirement -------------------------------------------

  function GiveToken(ts: seq<Task>, i: nat): (r: seq<Task>)
    ensures |r| == |ts|
  {
    if i < |ts| then ts[i := ts[i].(fanoutRef := ts[i].fanoutRef + 1, released := true)] else ts
  }

  /** The scope's own reference to each task it holds is dropped, in submission order. */
  function GiveTokens(ts: seq<Task>, list: seq<nat>): (r: seq<Task>)
    ensures |r| == |ts|
  {
    if list == [] then ts else GiveToken(GiveTokens(ts, list[..|list| - 1]), list[|list| - 1])
  }

  /** Re-checks the tasks from lo up to hi for consumption. */
  function CheckRange(ts: seq<Task>, lo: nat, hi: nat): (r: seq<Task>)
    requires hi <= |ts|
    ensures |r| == |ts|
    decreases hi
  {
    if hi <= lo then ts
    else
      var r := CheckRange(ts, lo, hi - 1);
      r[hi - 1 := CheckConsumed(r[hi - 1])]
  }

  /** The first unretired id, from cursor on, that is not CONSUMED. */
  function Cursor(ts: seq<Task>, cursor: nat): (c: nat)
    requires cursor <= |ts|
    ensures cursor <= c <= |ts|
    ensures forall i :: cursor <= i < c ==> ts[i].status == Consumed
    ensures c < |ts| ==> ts[c].status != Consumed
    decreases |ts| - cursor
  {
    if cursor < |ts| && ts[cursor].status == Consumed then Cursor(ts, cursor + 1) else cursor
  }

  function AdvanceRing(s: Orch): Orch
    requires s.last <= |s.tasks|
  {
    var c := Cursor(s.tasks, s.last);
    if c > s.last then
      var end := s.tasks[c - 1].heapEnd;
      s.(last := c, heap := if end > s.heap.tail then s.heap.(tail := end) else s.heap)
    else s
  }

  function EndScope(s: Orch): Orch
    requires s.scopes != [] && s.last <= |s.tasks|
  {
    var ts := GiveTokens(s.tasks, s.scopes[|s.scopes| - 1]);
    AdvanceRing(s.(tasks := CheckRange(ts, s.last, |ts|), scopes := s.scopes[..|s.scopes| - 1]))
  }

  // ---- Steps ------------------------------------------------------------

  datatype Step =
    | SubmitTask(params: seq<Param>)
    | SubmitGroup(params: seq<Param>, size: nat)
    | DispatchNext
    | Report(id: int)
    | ScopeBegin
    | ScopeEnd
    | Advance
    | AllocTensor(bytes: nat)

  /** When the call does not block or abort. The submitting thread makes one call at a
      time; the dispatcher reports each dispatched id at most once. */
  predicate Enabled(s: Orch, step: Step) {
    match step
    case SubmitTask(_) => s.dispatching.None? && HasSpace(s)
    case SubmitGroup(_, _) => s.dispatching.None? && HasSpace(s)
    case DispatchNext => s.dispatching.Some? && s.dispatching.value.1 > 0
    case Report(id) => id in s.inflight && (id in s.subOf ==> s.subOf[id] < |s.tasks|)
    case ScopeBegin => s.dispatching.None? && |s.scopes| < MAX_SCOPE_DEPTH
    case ScopeEnd => s.dispatching.None? && s.scopes != [] && s.last <= |s.tasks|
    case Advance => s.dispatching.None? && s.last <= |s.tasks|
    case AllocTensor(bytes) => s.dispatching.None? && (bytes > 0 ==> Fits(s.heap, bytes))
  }

  function DoSubmitTask(s: Orch, params: seq<Param>): Orch {
    var s1 := Register(s, params, false, 0);
    s1.(tasks := SetStatus(s1.tasks, |s.tasks|, Running), inflight := s1.inflight + {|s.tasks|})
  }

  function DoSubmitGroup(s: Orch, params: seq<Param>, size: nat): Orch {
    var tid := |s.tasks|;
    var s1 := Register(s, params, true, size);
    if size == 0 then Complete(s1, tid)
    else if s1.tasks[tid].producers == [] then
      s1.(tasks := SetStatus(s1.tasks, tid, Running), dispatching := Some((tid, size)))
    else s1.(specs := s1.specs[tid := size])
  }

  function DoDispatchNext(s: Orch): Orch
    requires s.dispatching.Some? && s.dispatching.value.1 > 0
  {
    var (g, left) := s.dispatching.value;
    LaunchSub(s, g).(dispatching := if left == 1 then None else Some((g, left - 1)))
  }

  function DoReport(s: Orch, id: int): Orch
    requires id in s.subOf ==> s.subOf[id] < |s.tasks|
  {
    var s0 := s.(inflight := s.inflight - {id});
    if id in s.subOf then
      var g := s.subOf[id];
      var done := s.tasks[g].subDone + 1;
      var s1 := s0.(subOf := s.subOf - {id}, tasks := s.tasks[g := s.tasks[g].(subDone := done)]);
      if done >= s.tasks[g].groupSize then Complete(s1, g) else s1
    else if 0 <= id < |s.tasks| && s.tasks[id].status == Running then Complete(s0, id)
    else s0
  }

  function DoAlloc(s: Orch, bytes: nat): Orch
    requires bytes > 0 ==> Fits(s.heap, bytes)
  {
    if bytes == 0 then s
    else s.(heap := AllocAt(s.heap, bytes),
            buffers := s.buffers + [Buffer(Start(s.heap, bytes), bytes, |s.tasks|)])
  }

  function Next(s: Orch, step: Step): Orch
    requires Enabled(s, step)
  {
    match step
    case SubmitTask(params) => DoSubmitTask(s, params)
    case SubmitGroup(params, size) => DoSubmitGroup(s, params, size)
    case DispatchNext => DoDispatchNext(s)
    case Report(id) => DoReport(s, id)
    case ScopeBegin => s.(scopes := s.scopes + [[]])
    case ScopeEnd => EndScope(s)
    case Advance => AdvanceRing(s)
    case AllocTensor(bytes) => DoAlloc(s, bytes)
  }
}

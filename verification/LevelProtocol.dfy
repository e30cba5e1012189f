/** The multi-threaded task runtime of one level, as interleaved atomic steps of one
    submitter, one scheduler and any number of workers.

    A worker stores COMPLETED and only then takes the lock under which it walks the
    consumers. The split steps follow the code; the fused step stores inside the lock. */
module LevelProtocol {
  import opened Common

  datatype Status = Pending | Ready | Running | Completed | Consumed

  /** Where the worker that runs a task has got to. While Walking it holds the task's
      fan-out lock; rest are the consumers still to be visited. Unlinking counts the
      dependency entries still to be released. */
  datatype Phase =
    | Waiting
    | Executing
    | Marked
    | Stored
    | Walking(rest: seq<nat>)
    | Unlinking(left: nat)
    | Finished

  /** A task slot. Producers are in parameter order, the fan-out list is newest first.
      The last four fields are history: how many producers have been told of this
      consumer, whose completions are in its fan-in count, which consumers have released
      it, and how often it was put on the ready queue. */
  datatype Task = Task(
    inputs: seq<nat>, outputs: seq<nat>,
    producers: seq<nat>,
    externals: seq<nat>, noticed: bool,
    fanin: nat, faninRef: nat,
    fanout: seq<nat>, fanoutCount: nat, fanoutRef: nat,
    status: Status, phase: Phase,
    linked: nat, credits: seq<nat>, releases: seq<nat>, enqueued: nat)

  datatype Level = Level(
    window: nat,
    tasks: seq<Task>,
    last: nat,
    producerOf: map<nat, nat>,      // handle -> latest producer
    ready: set<nat>,                // handles whose ready flag is set
    queue: seq<nat>,                // ready queue, oldest first
    linking: Option<nat>)           // task whose submission is under way

  const INVALID_HANDLE: nat := 0

  function Init(window: nat): Level {
    Level(window, [], 0, map[], {}, [], None)
  }

  predicate IsDone(t: Task) {
    t.status == Completed || t.status == Consumed
  }

  predicate DoneAt(s: Level, i: nat) {
    i < |s.tasks| && IsDone(s.tasks[i])
  }

  predicate HasSpace(s: Level) {
    |s.tasks| - s.last < s.window
  }

  function Lookup(s: Level, handle: nat): Option<nat> {
    if handle in s.producerOf && s.producerOf[handle] >= s.last then Some(s.producerOf[handle]) else None
  }

  /** The producers found for the inputs, in order; a handle may be read several times. */
  function Within(s: Level, inputs: seq<nat>): seq<nat> {
    if inputs == [] then []
    else
      var h := inputs[|inputs| - 1];
      Within(s, inputs[..|inputs| - 1])
        + if h != INVALID_HANDLE && Lookup(s, h).Some? then [Lookup(s, h).value] else []
  }

  /** The inputs of other levels that are not ready yet. */
  function Outside(s: Level, inputs: seq<nat>): seq<nat> {
    if inputs == [] then []
    else
      var h := inputs[|inputs| - 1];
      Outside(s, inputs[..|inputs| - 1])
        + if h != INVALID_HANDLE && Lookup(s, h).None? && h !in s.ready then [h] else []
  }

  function Owned(producerOf: map<nat, nat>, outputs: seq<nat>, tid: nat): map<nat, nat> {
    if outputs == [] then producerOf
    else Owned(producerOf, outputs[..|outputs| - 1], tid)[outputs[|outputs| - 1] := tid]
  }

  /** The compare-and-swap from PENDING to READY, followed by the enqueue of the winner. */
  function TryReady(s: Level, t: nat): Level {
    if t < |s.tasks| && s.tasks[t].status == Pending && s.tasks[t].faninRef >= s.tasks[t].fanin then
      s.(tasks := s.tasks[t := s.tasks[t].(status := Ready, enqueued := s.tasks[t].enqueued + 1)],
         queue := s.queue + [t])
    else s
  }

  function Cursor(ts: seq<Task>, cursor: nat): (c: nat)
    requires cursor <= |ts|
    ensures cursor <= c <= |ts|
    ensures forall i :: cursor <= i < c ==> ts[i].status == Consumed
    ensures c < |ts| ==> ts[c].status != Consumed
    decreases |ts| - cursor
  {
    if cursor < |ts| && ts[cursor].status == Consumed then Cursor(ts, cursor + 1) else cursor
  }

  function AdvanceRing(s: Level): Level {
    if s.last <= |s.tasks| then s.(last := Cursor(s.tasks, s.last)) else s
  }

  function CheckConsumed(s: Level, t: nat): Level {
    if t < |s.tasks| && s.tasks[t].status == Completed && s.tasks[t].fanoutRef >= s.tasks[t].fanoutCount then
      var s1 := s.(tasks := s.tasks[t := s.tasks[t].(status := Consumed)]);
      if t == s.last then AdvanceRing(s1) else s1
    else s
  }

  // ---- Steps ----------------------------------------------------------------

  datatype Step =
    | Publish(inputs: seq<nat>, outputs: seq<nat>)   // allocate, scan inputs, set fan-in and status
    | Link                                           // tell the next producer, under its lock
    | Check                                          // re-check fan-in at the end of submission
    | Dequeue                                        // a worker takes the oldest ready task
    | Mark(t: nat)                                   // fn returned; flag the outputs ready
    | Store(t: nat)                                  // split: COMPLETED
    | Lock(t: nat)                                   // split: take the lock
    | StoreLocked(t: nat)                            // fused: COMPLETED inside the lock
    | Walk(t: nat)                                   // visit one consumer
    | Unlock(t: nat)
    | Unlink(t: nat)                                 // release one producer
    | Finish(t: nat)                                 // check the task itself
    | Notice(t: nat)                                 // scheduler: all externals ready
    | SetReady(handle: nat)                          // another level flags a tensor
    | Advance

  /** The steps of the code as written. */
  predicate IsSplit(step: Step) {
    !step.StoreLocked?
  }

  /** The steps of the exclusion that the comment in propagate_completion claims. */
  predicate IsFused(step: Step) {
    !step.Store? && !step.Lock?
  }

  predicate LinkReady(s: Level) {
    && s.linking.Some? && s.linking.value < |s.tasks|
    && var t := s.tasks[s.linking.value];
       && t.linked < |t.producers| && t.producers[t.linked] < |s.tasks|
       && !s.tasks[t.producers[t.linked]].phase.Walking?
  }

  predicate Enabled(s: Level, step: Step) {
    match step
    case Publish(_, _) => s.linking.None? && HasSpace(s)
    case Link => LinkReady(s)
    case Check => s.linking.Some? && s.linking.value < |s.tasks|
                  && s.tasks[s.linking.value].linked == |s.tasks[s.linking.value].producers|
    case Dequeue => s.queue != [] && s.queue[0] < |s.tasks|
    case Mark(t) => t < |s.tasks| && s.tasks[t].phase == Executing
    case Store(t) => t < |s.tasks| && s.tasks[t].phase == Marked
    case Lock(t) => t < |s.tasks| && s.tasks[t].phase == Stored
    case StoreLocked(t) => t < |s.tasks| && s.tasks[t].phase == Marked
    case Walk(t) => t < |s.tasks| && s.tasks[t].phase.Walking? && s.tasks[t].phase.rest != []
    case Unlock(t) => t < |s.tasks| && s.tasks[t].phase == Walking([])
    case Unlink(t) => t < |s.tasks| && s.tasks[t].phase.Unlinking?
        && 0 < s.tasks[t].phase.left <= |s.tasks[t].producers|
    case Finish(t) => t < |s.tasks| && s.tasks[t].phase == Unlinking(0)
    case Notice(t) => t < |s.tasks| && !s.tasks[t].noticed && s.tasks[t].externals != []
                      && forall h :: h in s.tasks[t].externals ==> h in s.ready
    case SetReady(h) => h !in s.producerOf
    case Advance => s.linking.None?
  }

  function NewTask(s: Level, inputs: seq<nat>, outputs: seq<nat>): Task {
    var within, outside := Within(s, inputs), Outside(s, inputs);
    var fanin := |within| + |outside|;
    Task(inputs, outputs, within, outside, false, fanin, 0, [], 1, 0,
         if fanin == 0 then Ready else Pending, Waiting, 0, [], [], if fanin == 0 then 1 else 0)
  }

  function DoPublish(s: Level, inputs: seq<nat>, outputs: seq<nat>): Level {
    var t, tid := NewTask(s, inputs, outputs), |s.tasks|;
    s.(tasks := s.tasks + [t],
       producerOf := Owned(s.producerOf, outputs, tid),
       queue := if t.fanin == 0 then s.queue + [tid] else s.queue,
       linking := if t.fanin == 0 then None else Some(tid))
  }

  function DoLink(s: Level): Level
    requires LinkReady(s)
  {
    var c := s.linking.value;
    var p := s.tasks[c].producers[s.tasks[c].linked];
    var ts1 := s.tasks[p := s.tasks[p].(fanout := [c] + s.tasks[p].fanout, fanoutCount := s.tasks[p].fanoutCount + 1)];
    var x := ts1[c].(linked := ts1[c].linked + 1);
    s.(tasks := ts1[c := if IsDone(ts1[p]) then x.(faninRef := x.faninRef + 1, credits := [p] + x.credits) else x])
  }

  function DoCheck(s: Level): Level
    requires s.linking.Some?
  {
    TryReady(s, s.linking.value).(linking := None)
  }

  function DoDequeue(s: Level): Level
    requires s.queue != [] && s.queue[0] < |s.tasks|
  {
    var t := s.queue[0];
    s.(queue := s.queue[1..], tasks := s.tasks[t := s.tasks[t].(status := Running, phase := Executing)])
  }

  function SetPhase(s: Level, t: nat, phase: Phase): Level
    requires t < |s.tasks|
  {
    s.(tasks := s.tasks[t := s.tasks[t].(phase := phase)])
  }

  function SetDone(s: Level, t: nat, phase: Phase): Level
    requires t < |s.tasks|
  {
    s.(tasks := s.tasks[t := s.tasks[t].(status := Completed, phase := phase)])
  }

  function Credit(s: Level, c: nat, p: nat): Level {
    if c < |s.tasks| then
      s.(tasks := s.tasks[c := s.tasks[c].(faninRef := s.tasks[c].faninRef + 1, credits := [p] + s.tasks[c].credits)])
    else s
  }

  function DoWalk(s: Level, t: nat): Level
    requires t < |s.tasks| && s.tasks[t].phase.Walking? && s.tasks[t].phase.rest != []
  {
    var rest := s.tasks[t].phase.rest;
    TryReady(Credit(SetPhase(s, t, Walking(rest[1..])), rest[0], t), rest[0])
  }

  function Release(s: Level, p: nat, c: nat): Level {
    if p < |s.tasks| then
      s.(tasks := s.tasks[p := s.tasks[p].(fanoutRef := s.tasks[p].fanoutRef + 1,
                                           releases := [c] + s.tasks[p].releases)])
    else s
  }

  function DoUnlink(s: Level, t: nat): Level
    requires t < |s.tasks| && s.tasks[t].phase.Unlinking? && 0 < s.tasks[t].phase.left <= |s.tasks[t].producers|
  {
    var left := s.tasks[t].phase.left - 1;
    var p := s.tasks[t].producers[left];
    CheckConsumed(Release(SetPhase(s, t, Unlinking(left)), p, t), p)
  }

  function DoNotice(s: Level, t: nat): Level
    requires t < |s.tasks|
  {
    var x := s.tasks[t];
    TryReady(s.(tasks := s.tasks[t := x.(noticed := true, faninRef := x.faninRef + |x.externals|)]), t)
  }

  function Next(s: Level, step: Step): Level
    requires Enabled(s, step)
  {
    match step
    case Publish(inputs, outputs) => DoPublish(s, inputs, outputs)
    case Link => DoLink(s)
    case Check => DoCheck(s)
    case Dequeue => DoDequeue(s)
    case Mark(t) => SetPhase(s, t, Marked).(ready := s.ready + set h | h in s.tasks[t].outputs)
    case Store(t) => SetDone(s, t, Stored)
    case Lock(t) => SetPhase(s, t, Walking(s.tasks[t].fanout))
    case StoreLocked(t) => SetDone(s, t, Walking(s.tasks[t].fanout))
    case Walk(t) => DoWalk(s, t)
    case Unlock(t) => SetPhase(s, t, Unlinking(|s.tasks[t].producers|))
    case Unlink(t) => DoUnlink(s, t)
    case Finish(t) => CheckConsumed(SetPhase(s, t, Finished), t)
    case Notice(t) => DoNotice(s, t)
    case SetReady(h) => s.(ready := s.ready + {h})
    case Advance => AdvanceRing(s)
  }
}

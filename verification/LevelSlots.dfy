/** The level runtime on its ring of descriptors: task id lives in slot id modulo the
    window, workers keep only the id they run and their place in a list, and the ready
    queue is a circular buffer. The steps are those of LevelProtocol, but each one reaches
    a descriptor through its slot, whoever owns it by then. */
module LevelSlots {
  import opened Common
  import P = LevelProtocol

  /** A descriptor and the side tables of its slot. Producers are in parameter order, the
      fan-out list is newest first. */
  datatype Desc = Desc(
    taskId: nat,
    inputs: seq<nat>, outputs: seq<nat>,
    producers: seq<nat>,
    externals: seq<nat>, noticed: bool,
    fanin: nat, faninRef: nat,
    fanout: seq<nat>, fanoutCount: nat, fanoutRef: nat,
    status: P.Status, locked: bool)

  const BLANK := Desc(0, [], [], [], [], false, 0, 0, [], 1, 0, P.Pending, false)

  /** What a worker is doing with the task it took. The lists are its own: consumers still
      to be visited, dependency entries still to be released, last one first. */
  datatype Work =
    | Executing
    | Marked
    | Stored
    | Walking(rest: seq<nat>)
    | Unlinking(todo: seq<nat>)
    | Done

  /** One task taken off the ready queue. */
  datatype Job = Job(id: nat, work: Work)

  /** The submission under way and the producers still to be told. */
  datatype Submission = Submission(tid: nat, todo: seq<nat>)

  datatype Slotted = Slotted(
    slots: seq<Desc>,
    count: nat,                     // next id
    last: nat,
    producerOf: map<nat, nat>,
    ready: set<nat>,
    buf: seq<nat>, head: nat, tail: nat,
    linking: Option<Submission>,
    jobs: seq<Job>)                 // in the order of dequeuing

  function Start(window: nat, capacity: nat): Slotted {
    Slotted(seq(window, _ => BLANK), 0, 0, map[], {}, seq(capacity, _ => 0), 0, 0, None, [])
  }

  // ---- Access through slots ---------------------------------------------------

  function At(s: Slotted, id: nat): Desc
    requires |s.slots| > 0
  {
    s.slots[id % |s.slots|]
  }

  function Put(s: Slotted, id: nat, d: Desc): (r: Slotted)
    requires |s.slots| > 0
    ensures |r.slots| == |s.slots| && |r.buf| == |s.buf|
  {
    s.(slots := s.slots[id % |s.slots| := d])
  }

  function Enqueue(s: Slotted, id: nat): Slotted
    requires |s.buf| > 0
  {
    s.(buf := s.buf[s.tail % |s.buf| := id], tail := s.tail + 1)
  }

  /** The compare-and-swap from PENDING to READY on the slot, then the enqueue of the id. */
  function TryReady(s: Slotted, id: nat): Slotted
    requires |s.slots| > 0 && |s.buf| > 0
  {
    var d := At(s, id);
    if d.status == P.Pending && d.faninRef >= d.fanin then Enqueue(Put(s, id, d.(status := P.Ready)), id) else s
  }

  function Cursor(s: Slotted, cursor: nat): (c: nat)
    requires |s.slots| > 0
    ensures cursor <= s.count ==> cursor <= c <= s.count
    decreases s.count - cursor
  {
    if cursor < s.count && At(s, cursor).status == P.Consumed then Cursor(s, cursor + 1) else cursor
  }

  function AdvanceRing(s: Slotted): Slotted
    requires |s.slots| > 0
  {
    s.(last := Cursor(s, s.last))
  }

  function CheckConsumed(s: Slotted, id: nat): Slotted
    requires |s.slots| > 0
  {
    var d := At(s, id);
    if d.status == P.Completed && d.fanoutRef >= d.fanoutCount then
      var s1 := Put(s, id, d.(status := P.Consumed));
      if id == s.last then AdvanceRing(s1) else s1
    else s
  }

  function SetWork(s: Slotted, j: nat, w: Work): Slotted
    requires j < |s.jobs|
  {
    s.(jobs := s.jobs[j := s.jobs[j].(work := w)])
  }

  // ---- Moves --------------------------------------------------------------------

  /** As the steps of LevelProtocol; workers are named by the position of their job. */
  datatype Move =
    | Publish(inputs: seq<nat>, outputs: seq<nat>)
    | Link
    | Check
    | Dequeue
    | Mark(job: nat)
    | Store(job: nat)
    | Lock(job: nat)
    | StoreLocked(job: nat)
    | Walk(job: nat)
    | Unlock(job: nat)
    | Unlink(job: nat)
    | Finish(job: nat)
    | Notice(id: nat)
    | SetReady(handle: nat)
    | Advance

  predicate IsSplit(m: Move) {
    !m.StoreLocked?
  }

  predicate IsFused(m: Move) {
    !m.Store? && !m.Lock?
  }

  predicate HasWork(s: Slotted, j: nat, w: Work) {
    j < |s.jobs| && s.jobs[j].work == w
  }

  predicate Unlocked(s: Slotted, id: nat)
    requires |s.slots| > 0
  {
    !At(s, id).locked
  }

  predicate CanMove(s: Slotted, m: Move)
    requires |s.slots| > 0
  {
    match m
    case Publish(_, _) => s.linking.None? && s.count < s.last + |s.slots|
    case Link => s.linking.Some? && s.linking.value.todo != [] && Unlocked(s, s.linking.value.todo[0])
    case Check => s.linking.Some? && s.linking.value.todo == []
    case Dequeue => s.head < s.tail
    case Mark(j) => HasWork(s, j, Executing)
    case Store(j) => HasWork(s, j, Marked)
    case Lock(j) => HasWork(s, j, Stored) && Unlocked(s, s.jobs[j].id)
    case StoreLocked(j) => HasWork(s, j, Marked) && Unlocked(s, s.jobs[j].id)
    case Walk(j) => j < |s.jobs| && s.jobs[j].work.Walking? && s.jobs[j].work.rest != []
    case Unlock(j) => HasWork(s, j, Walking([]))
    case Unlink(j) => j < |s.jobs| && s.jobs[j].work.Unlinking? && s.jobs[j].work.todo != []
    case Finish(j) => HasWork(s, j, Unlinking([]))
    case Notice(t) =>
      && s.last <= t < s.count && At(s, t).status == P.Pending && !At(s, t).noticed
      && At(s, t).externals != [] && forall h :: h in At(s, t).externals ==> h in s.ready
    case SetReady(h) => h !in s.producerOf
    case Advance => s.linking.None?
  }

  /** What the scan of a submission looks at. */
  function Names(s: Slotted): P.Level {
    P.Level(|s.slots|, [], s.last, s.producerOf, s.ready, [], None)
  }

  /** The descriptor of task t under its id. */
  function Shown(t: P.Task, id: nat): Desc {
    Desc(id, t.inputs, t.outputs, t.producers, t.externals, t.noticed, t.fanin, t.faninRef,
         t.fanout, t.fanoutCount, t.fanoutRef, t.status, t.phase.Walking?)
  }

  /** Resets the slot of the new id, whatever it holds. */
  function DoPublish(s: Slotted, inputs: seq<nat>, outputs: seq<nat>): Slotted
    requires |s.slots| > 0 && |s.buf| > 0
  {
    var t := P.NewTask(Names(s), inputs, outputs);
    var s1 := Put(s, s.count, Shown(t, s.count)).(count := s.count + 1,
                                                  producerOf := P.Owned(s.producerOf, outputs, s.count));
    if t.fanin == 0 then Enqueue(s1, s.count) else s1.(linking := Some(Submission(s.count, t.producers)))
  }

  function DoLink(s: Slotted): Slotted
    requires |s.slots| > 0 && s.linking.Some? && s.linking.value.todo != []
  {
    var Submission(c, todo) := s.linking.value;
    var p := todo[0];
    var d := At(s, p);
    var s1 := Put(s, p, d.(fanout := [c] + d.fanout, fanoutCount := d.fanoutCount + 1));
    var x := At(s1, c);
    var s2 := if d.status == P.Completed || d.status == P.Consumed then Put(s1, c, x.(faninRef := x.faninRef + 1))
        else s1;
    s2.(linking := Some(Submission(c, todo[1..])))
  }

  function DoDequeue(s: Slotted): Slotted
    requires |s.slots| > 0 && |s.buf| > 0
  {
    var t := s.buf[s.head % |s.buf|];
    Put(s, t, At(s, t).(status := P.Running)).(head := s.head + 1, jobs := s.jobs + [Job(t, Executing)])
  }

  function DoWalk(s: Slotted, j: nat): Slotted
    requires |s.slots| > 0 && |s.buf| > 0 && j < |s.jobs| && s.jobs[j].work.Walking? && s.jobs[j].work.rest != []
  {
    var rest := s.jobs[j].work.rest;
    var c := rest[0];
    var d := At(s, c);
    TryReady(Put(SetWork(s, j, Walking(rest[1..])), c, d.(faninRef := d.faninRef + 1)), c)
  }

  function DoUnlink(s: Slotted, j: nat): Slotted
    requires |s.slots| > 0 && j < |s.jobs| && s.jobs[j].work.Unlinking? && s.jobs[j].work.todo != []
  {
    var todo := s.jobs[j].work.todo;
    var p := todo[|todo| - 1];
    var d := At(s, p);
    CheckConsumed(Put(SetWork(s, j, Unlinking(todo[..|todo| - 1])), p, d.(fanoutRef := d.fanoutRef + 1)), p)
  }

  /** A worker writes its own slot and goes on. */
  function Progress(s: Slotted, j: nat, d: Desc, w: Work): Slotted
    requires |s.slots| > 0 && j < |s.jobs|
  {
    SetWork(Put(s, s.jobs[j].id, d), j, w)
  }

  function Own(s: Slotted, j: nat): Desc
    requires |s.slots| > 0 && j < |s.jobs|
  {
    At(s, s.jobs[j].id)
  }

  function DoUnlock(s: Slotted, j: nat): Slotted
    requires |s.slots| > 0 && j < |s.jobs|
  {
    Progress(s, j, Own(s, j).(locked := false), Unlinking(Own(s, j).producers))
  }

  function DoNotice(s: Slotted, t: nat): Slotted
    requires |s.slots| > 0 && |s.buf| > 0
  {
    var d := At(s, t);
    TryReady(Put(s, t, d.(noticed := true, faninRef := d.faninRef + |d.externals|)), t)
  }

  function DoMove(s: Slotted, m: Move): Slotted
    requires |s.slots| > 0 && |s.buf| > 0 && CanMove(s, m)
  {
    match m
    case Publish(inputs, outputs) => DoPublish(s, inputs, outputs)
    case Link => DoLink(s)
    case Check => TryReady(s, s.linking.value.tid).(linking := None)
    case Dequeue => DoDequeue(s)
    case Mark(j) => SetWork(s, j, Marked).(ready := s.ready + set h | h in Own(s, j).outputs)
    case Store(j) => Progress(s, j, Own(s, j).(status := P.Completed), Stored)
    case Lock(j) => Progress(s, j, Own(s, j).(locked := true), Walking(Own(s, j).fanout))
    case StoreLocked(j) => Progress(s, j, Own(s, j).(status := P.Completed, locked := true), Walking(Own(s, j).fanout))
    case Walk(j) => DoWalk(s, j)
    case Unlock(j) => DoUnlock(s, j)
    case Unlink(j) => DoUnlink(s, j)
    case Finish(j) => CheckConsumed(SetWork(s, j, Done), s.jobs[j].id)
    case Notice(t) => DoNotice(s, t)
    case SetReady(h) => s.(ready := s.ready + {h})
    case Advance => AdvanceRing(s)
  }

  // ---- Slots in use -----------------------------------------------------------------

  /** How far the latest job of a task has got, if it was ever taken. */
  function WorkAt(jobs: seq<Job>, id: nat): Option<Work> {
    if jobs == [] then None
    else if jobs[|jobs| - 1].id == id then Some(jobs[|jobs| - 1].work)
    else WorkAt(jobs[..|jobs| - 1], id)
  }

  /** The dependency entries that task id, in its own slot, will still release. */
  function Remaining(s: Slotted, id: nat): seq<nat>
    requires |s.slots| > 0
  {
    match WorkAt(s.jobs, id)
    case Some(Unlinking(todo)) => todo
    case Some(Done) => []
    case _ => At(s, id).producers
  }

  /** The slot that the next submission takes is not that of an unfinished task, nor of a
      producer that an unfinished task will still release. */
  predicate Roomy(s: Slotted)
    requires |s.slots| > 0
  {
    forall i :: s.count - |s.slots| <= i < s.count && 0 <= i && WorkAt(s.jobs, i) != Some(Done) ==>
      && i + |s.slots| != s.count
      && forall k :: 0 <= k < |Remaining(s, i)| ==> Remaining(s, i)[k] + |s.slots| != s.count
  }
}

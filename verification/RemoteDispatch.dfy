/** The remote dispatcher between the orchestrator and its peers. The submitting thread and
    the receiver thread both dispatch; each counts a call before sending it, and the receiver
    runs the completion callback before it takes the reply off the count. */
module RemoteDispatch {
  import opened Common
  import opened Lifecycle
  import opened Groups
  import opened Invariant
  import opened Submission
  import opened Runs
  import opened Tally
  import opened Ledger

  datatype Answer = Waiting | Succeeded | Failed

  /** What a thread still has to dispatch, and the call it is sending. */
  datatype Hands = Hands(queue: set<int>, sending: Option<int>)

  /** The reply in the receiver's hands, and whether its callback has run. */
  datatype Reply = Reply(id: int, ok: bool, called: bool)

  datatype Node = Node(
    orch: Orch,
    submitter: Hands,
    receiver: Hands,
    reply: Option<Reply>,
    sent: set<int>,             // delivered calls without a reply
    answers: map<int, Answer>,
    outstanding: int)

  datatype Thread = Submitter | Receiver

  datatype Move =
    | Call(step: Step)          // a call of the orchestration program
    | Count(who: Thread, id: int)
    | SendOk(who: Thread)
    | SendFail(who: Thread)
    | Receive(id: int, ok: bool)
    | Callback
    | Finish

  const EMPTY := Hands({}, None)

  function Start(window: nat, capacity: nat): Node {
    Node(Init(window, capacity), EMPTY, EMPTY, None, {}, map[], 0)
  }

  function HandsOf(n: Node, who: Thread): Hands {
    if who == Submitter then n.submitter else n.receiver
  }

  function WithHands(n: Node, who: Thread, h: Hands): Node {
    if who == Submitter then n.(submitter := h) else n.(receiver := h)
  }

  /** Replies come only to delivered calls, at most one each. */
  ghost predicate CanMove(n: Node, m: Move) {
    match m
    case Call(step) => n.submitter == EMPTY && !step.Report? && Enabled(n.orch, step) && StepReadsScoped(n.orch, step)
    case Count(who, id) => id in HandsOf(n, who).queue && HandsOf(n, who).sending.None?
    case SendOk(who) => HandsOf(n, who).sending.Some?
    case SendFail(who) => HandsOf(n, who).sending.Some?
    case Receive(id, _) => n.reply.None? && id in n.sent
    case Callback => n.reply.Some? && !n.reply.value.called
    case Finish => n.reply.Some? && n.reply.value.called && n.receiver == EMPTY
  }

  /** What the orchestrator does when told of a reply; errors are ignored. */
  function Reported(s: Orch, r: Reply): Orch {
    if r.ok && Enabled(s, Report(r.id)) then DoReport(s, r.id) else s
  }

  function DoMove(n: Node, m: Move): Node
    requires CanMove(n, m)
  {
    match m
    case Call(step) =>
      var s := Next(n.orch, step);
      n.(orch := s, submitter := Hands(s.inflight - n.orch.inflight, None))
    case Count(who, id) =>
      var h := HandsOf(n, who);
      WithHands(n, who, Hands(h.queue - {id}, Some(id))).(
        answers := n.answers[id := Waiting], outstanding := n.outstanding + 1)
    case SendOk(who) =>
      var h := HandsOf(n, who);
      WithHands(n, who, h.(sending := None)).(sent := n.sent + {h.sending.value})
    case SendFail(who) =>
      var h := HandsOf(n, who);
      WithHands(n, who, h.(sending := None)).(
        answers := n.answers[h.sending.value := Failed], outstanding := n.outstanding - 1)
    case Receive(id, ok) => n.(sent := n.sent - {id}, reply := Some(Reply(id, ok, false)))
    case Callback =>
      var s := Reported(n.orch, n.reply.value);
      n.(orch := s, receiver := Hands(s.inflight - n.orch.inflight, None),
         reply := Some(n.reply.value.(called := true)))
    case Finish =>
      n.(answers := n.answers[n.reply.value.id := if n.reply.value.ok then Succeeded else Failed],
         outstanding := n.outstanding - 1, reply := None)
  }

  // ---- The invariant ------------------------------------------------------

  /** The counted calls that have not been settled. */
  function Open(answers: map<int, Answer>): set<int> {
    set id | id in answers && answers[id] == Waiting
  }

  predicate Sending(n: Node, id: int) {
    n.submitter.sending == Some(id) || n.receiver.sending == Some(id)
  }

  predicate InReply(n: Node, id: int) {
    n.reply.Some? && n.reply.value.id == id
  }

  predicate Queued(n: Node, id: int) {
    id in n.submitter.queue || id in n.receiver.queue
  }

  predicate HasFailed(n: Node, id: int) {
    id in n.answers && n.answers[id] == Failed
  }

  /** The callback has reported the id to the orchestrator. */
  predicate Told(n: Node, id: int) {
    InReply(n, id) && n.reply.value.called && n.reply.value.ok
  }

  /** Where an id can be: waiting to be counted, on its way, or settled. */
  predicate PlaceAt(n: Node, id: int) {
    && (id in Open(n.answers) <==> Sending(n, id) || id in n.sent || InReply(n, id))
    && (Queued(n, id) ==> id !in n.answers)
    && !(id in n.submitter.queue && id in n.receiver.queue)
    && !(n.submitter.sending == Some(id) && n.receiver.sending == Some(id))
    && !(Sending(n, id) && id in n.sent)
    && !(InReply(n, id) && (Sending(n, id) || id in n.sent))
    && (id in n.answers ==> n.orch.nextSub < id < |n.orch.tasks|)
    && (id in n.orch.inflight <==> Queued(n, id) || (id in Open(n.answers) && !Told(n, id)) || HasFailed(n, id))
  }

  ghost predicate NodeInv(n: Node) {
    && Inv(n.orch)
    && n.outstanding == |Open(n.answers)|
    && (n.receiver != EMPTY ==> n.reply.Some? && n.reply.value.called)
    && forall id: int :: PlaceAt(n, id)
  }

  // ---- What an orchestrator step adds to the dispatched ids -----------------

  /** r has handed out the synthetic ids from s.nextSub down to r.nextSub, and nothing else. */
  ghost predicate Issued(s: Orch, r: Orch) {
    && |r.tasks| == |s.tasks| && r.nextSub <= s.nextSub
    && forall id: int :: id in r.inflight <==> id in s.inflight || r.nextSub < id <= s.nextSub
  }

  lemma IssuedChain(s: Orch, m: Orch, r: Orch)
    requires Issued(s, m) && Issued(m, r)
    ensures Issued(s, r)
  {
  }

  lemma {:induction false} LaunchIssues(s: Orch, g: nat, k: nat)
    ensures Issued(s, Launch(s, g, k))
    decreases k
  {
    if k > 0 {
      var m := LaunchSub(s, g);
      LaunchIssues(m, g, k - 1);
      assert Issued(s, m);
      IssuedChain(s, m, Launch(m, g, k - 1));
    }
  }

  lemma {:induction false} WakeIssues(s: Orch, list: seq<nat>)
    ensures Issued(s, WakeAll(s, list))
    decreases |list|
  {
    if list != [] {
      var c := list[0];
      var m := WakeOne(s, c);
      if c < |s.tasks| && Wakeable(s.tasks[c]) && s.tasks[c].isGroup && c in s.specs {
        LaunchIssues(s.(tasks := SetStatus(s.tasks, c, Running)), c, s.specs[c]);
      }
      assert Issued(s, m);
      WakeIssues(m, list[1..]);
      IssuedChain(s, m, WakeAll(m, list[1..]));
    }
  }

  lemma CompleteIssues(s: Orch, t: nat)
    requires t < |s.tasks|
    ensures Issued(s, Complete(s, t))
  {
    var s0 := s.(tasks := SetStatus(s.tasks, t, Completed));
    var ts := SatisfyAll(ReleaseAll(s0.tasks, s.tasks[t].producers), s.tasks[t].consumers);
    WakeIssues(s0.(tasks := ts), s.tasks[t].consumers);
  }

  /** Ids that a step dispatches were never in use before. */
  ghost predicate Fresh(s: Orch, r: Orch) {
    && |s.tasks| <= |r.tasks| && r.nextSub <= s.nextSub
    && forall id: int :: id in r.inflight && id !in s.inflight ==>
         r.nextSub < id < |r.tasks| && !(s.nextSub < id < |s.tasks|)
  }

  lemma SubmitGroupIssues(s: Orch, params: seq<Param>, size: nat)
    requires Inv(s) && HasSpace(s) && s.dispatching.None?
    ensures Fresh(s, DoSubmitGroup(s, params, size)) && s.inflight <= DoSubmitGroup(s, params, size).inflight
  {
    RegisterShows(s, params, true, size);
    var r, q := Register(s, params, true, size), DoSubmitGroup(s, params, size);
    if size == 0 {
      CompleteIssues(r, |s.tasks|);
      assert Issued(r, q) && r.inflight == s.inflight && r.nextSub == s.nextSub;
      assert forall id: int :: id in s.inflight ==> id in q.inflight;
    } else {
      assert q.inflight == s.inflight && q.nextSub == s.nextSub;
    }
  }

  lemma CallIssues(s: Orch, step: Step)
    requires Inv(s) && Enabled(s, step) && StepReadsScoped(s, step) && !step.Report?
    ensures Fresh(s, Next(s, step)) && s.inflight <= Next(s, step).inflight
  {
    match step
    case SubmitTask(params) =>
      RegisterShows(s, params, false, 0);
    case SubmitGroup(params, size) => SubmitGroupIssues(s, params, size);
    case ScopeEnd =>
      UnscopedShows(s);
      assert EndScope(s).inflight == s.inflight && EndScope(s).nextSub == s.nextSub;
    case _ =>
  }

  lemma ReportIssues(s: Orch, id: int)
    requires Inv(s) && Enabled(s, Report(id))
    ensures Fresh(s, DoReport(s, id))
    ensures forall x: int :: x in s.inflight && x != id ==> x in DoReport(s, id).inflight
    ensures id !in DoReport(s, id).inflight
  {
    ReportedLive(s, id);
    assert Awaited(s, id);
    if id in s.subOf {
      CompleteIssues(Counted(s, id), s.subOf[id]);
    } else {
      CompleteIssues(s.(inflight := s.inflight - {id}), id);
    }
  }

  // ---- Every move keeps the invariant ---------------------------------------

  lemma OpenUpdate(answers: map<int, Answer>, id: int, a: Answer)
    ensures Open(answers[id := a]) == if a == Waiting then Open(answers) + {id} else Open(answers) - {id}
  {
  }

  lemma CallKeeps(n: Node, step: Step)
    requires NodeInv(n) && CanMove(n, Call(step))
    ensures NodeInv(DoMove(n, Call(step)))
  {
    var r := DoMove(n, Call(step));
    ScopedStepKeeps(n.orch, step);
    CallIssues(n.orch, step);
    forall id: int ensures PlaceAt(r, id) { assert PlaceAt(n, id); }
  }

  lemma ScopedStepKeeps(s: Orch, step: Step)
    requires Inv(s) && Enabled(s, step) && StepReadsScoped(s, step)
    ensures Inv(Next(s, step))
  {
    match step
    case SubmitTask(params) => ScopedReadsAreFresh(s, params); StepKeepsInv(s, step);
    case SubmitGroup(params, _) => ScopedReadsAreFresh(s, params); StepKeepsInv(s, step);
    case _ => StepKeepsInv(s, step);
  }

  lemma CountPlace(n: Node, who: Thread, id: int, x: int)
    requires CanMove(n, Count(who, id)) && PlaceAt(n, id) && PlaceAt(n, x) && n.orch.nextSub < id < |n.orch.tasks|
    ensures PlaceAt(DoMove(n, Count(who, id)), x)
  {
    OpenUpdate(n.answers, id, Waiting);
  }

  lemma CountKeeps(n: Node, who: Thread, id: int)
    requires NodeInv(n) && CanMove(n, Count(who, id))
    ensures NodeInv(DoMove(n, Count(who, id)))
  {
    var r := DoMove(n, Count(who, id));
    assert PlaceAt(n, id);
    OpenUpdate(n.answers, id, Waiting);
    assert Awaited(n.orch, id);
    forall x: int ensures PlaceAt(r, x) {
      assert PlaceAt(n, x);
      CountPlace(n, who, id, x);
    }
  }

  lemma SendKeeps(n: Node, who: Thread, ok: bool)
    requires NodeInv(n) && HandsOf(n, who).sending.Some?
    ensures NodeInv(DoMove(n, if ok then SendOk(who) else SendFail(who)))
  {
    var r := DoMove(n, if ok then SendOk(who) else SendFail(who));
    var id := HandsOf(n, who).sending.value;
    assert PlaceAt(n, id);
    if !ok { OpenUpdate(n.answers, id, Failed); }
    forall x: int ensures PlaceAt(r, x) { assert PlaceAt(n, x); }
  }

  lemma ReceiveKeeps(n: Node, id: int, ok: bool)
    requires NodeInv(n) && CanMove(n, Receive(id, ok))
    ensures NodeInv(DoMove(n, Receive(id, ok)))
  {
    var r := DoMove(n, Receive(id, ok));
    forall x: int ensures PlaceAt(r, x) { assert PlaceAt(n, x); }
  }

  /** The callback always finds the task it is about: the report is never refused. */
  lemma CallbackEnabled(n: Node)
    requires NodeInv(n) && CanMove(n, Callback)
    ensures Enabled(n.orch, Report(n.reply.value.id))
  {
    assert PlaceAt(n, n.reply.value.id);
  }

  /** A callback moves ids between places only by what the orchestrator did. */
  lemma CallbackPlace(n: Node, x: int)
    requires CanMove(n, Callback) && PlaceAt(n, x) && PlaceAt(n, n.reply.value.id) && n.receiver == EMPTY
    requires var s, id := Reported(n.orch, n.reply.value), n.reply.value.id;
             && Fresh(n.orch, s)
             && (x in n.orch.inflight && !(n.reply.value.ok && x == id) ==> x in s.inflight)
             && (n.reply.value.ok ==> id !in s.inflight)
    ensures PlaceAt(DoMove(n, Callback), x)
  {
  }

  lemma CallbackKeeps(n: Node)
    requires NodeInv(n) && CanMove(n, Callback)
    ensures NodeInv(DoMove(n, Callback))
  {
    var r, id := DoMove(n, Callback), n.reply.value.id;
    CallbackEnabled(n);
    if n.reply.value.ok {
      ReportIssues(n.orch, id);
      StepKeepsInv(n.orch, Report(id));
    }
    forall x: int ensures PlaceAt(r, x) {
      assert PlaceAt(n, x) && PlaceAt(n, id);
      CallbackPlace(n, x);
    }
  }

  lemma FinishKeeps(n: Node)
    requires NodeInv(n) && CanMove(n, Finish)
    ensures NodeInv(DoMove(n, Finish))
  {
    var r, id := DoMove(n, Finish), n.reply.value.id;
    assert PlaceAt(n, id);
    OpenUpdate(n.answers, id, if n.reply.value.ok then Succeeded else Failed);
    forall x: int ensures PlaceAt(r, x) { assert PlaceAt(n, x); }
  }

  lemma MoveKeeps(n: Node, m: Move)
    requires NodeInv(n) && CanMove(n, m)
    ensures NodeInv(DoMove(n, m))
  {
    match m
    case Call(step) => CallKeeps(n, step);
    case Count(who, id) => CountKeeps(n, who, id);
    case SendOk(who) => SendKeeps(n, who, true);
    case SendFail(who) => SendKeeps(n, who, false);
    case Receive(id, ok) => ReceiveKeeps(n, id, ok);
    case Callback => CallbackKeeps(n);
    case Finish => FinishKeeps(n);
  }

  // ---- Runs -------------------------------------------------------------------

  datatype NodeRun = NodeRun(window: nat, capacity: nat, moves: seq<Move>, states: seq<Node>)

  ghost predicate IsNodeRun(run: NodeRun) {
    && |run.states| == |run.moves| + 1
    && run.states[0] == Start(run.window, run.capacity)
    && forall i :: 0 <= i < |run.moves| ==>
         CanMove(run.states[i], run.moves[i]) && run.states[i + 1] == DoMove(run.states[i], run.moves[i])
  }

  lemma {:induction false} NodeRunKeepsInv(run: NodeRun, k: nat)
    requires IsNodeRun(run) && k < |run.states|
    ensures NodeInv(run.states[k])
  {
    if k == 0 {
      InitInv(run.window, run.capacity);
    } else {
      NodeRunKeepsInv(run, k - 1);
      MoveKeeps(run.states[k - 1], run.moves[k - 1]);
    }
  }

  /** The submitting thread is inside wait_all and its condition holds. */
  predicate WaitReturns(n: Node) {
    n.submitter == EMPTY && n.orch.dispatching.None? && n.outstanding <= 0
  }

  lemma BusyIsCounted(n: Node)
    requires NodeInv(n)
    ensures n.reply.Some? || n.receiver != EMPTY ==> n.outstanding > 0
  {
    if n.reply.Some? {
      assert PlaceAt(n, n.reply.value.id);
      assert n.reply.value.id in Open(n.answers);
    }
  }

  /** A running group whose hand-over is finished has an unreported sub-task. */
  lemma RunningGroupOwes(s: Orch, g: nat) returns (id: int)
    requires Accounted(s) && g < |s.tasks| && s.tasks[g].isGroup && s.tasks[g].status == Running && s.dispatching.None?
    ensures id in Subs(s.subOf, g) && id in s.inflight
  {
    assert GroupAt(s, g);
    var subs := Subs(s.subOf, g);
    assert |subs| > 0;
    id := Pick(subs);
    assert Awaited(s, id);
  }

  /** The count is positive while a reply is being handled or a call it enabled is still to
      be dispatched, so wait_all cannot return in between. */
  lemma NoEarlyReturn(run: NodeRun, k: nat)
    requires IsNodeRun(run) && k < |run.states|
    ensures var n := run.states[k];
            && n.outstanding >= 0
            && (n.reply.Some? || n.receiver != EMPTY || n.sent != {} ==> n.outstanding > 0)
            && (forall id: int :: id in n.orch.inflight && id !in n.answers && id !in n.submitter.queue ==>
                 n.outstanding > 0)
  {
    var n := run.states[k];
    NodeRunKeepsInv(run, k);
    BusyIsCounted(n);
    if n.sent != {} {
      var id := Pick(n.sent);
      assert PlaceAt(n, id);
      assert id in Open(n.answers);
    }
    forall id: int | id in n.orch.inflight && id !in n.answers && id !in n.submitter.queue ensures n.outstanding > 0 {
      assert PlaceAt(n, id);
    }
  }

  /** The receiver, with a reply in hand, can go on. */
  lemma ReceiverGoesOn(n: Node) returns (m: Move)
    requires n.reply.Some?
    ensures CanMove(n, m) && !m.Call?
  {
    if !n.reply.value.called {
      m := Callback;
    } else if n.receiver.sending.Some? {
      m := SendOk(Receiver);
    } else if n.receiver.queue != {} {
      var id := Pick(n.receiver.queue);
      m := Count(Receiver, id);
    } else {
      m := Finish;
    }
  }

  /** wait_all never waits in vain: while the count is positive, a thread of the dispatcher
      or a peer that has not replied can move. */
  lemma WaitGoesOn(run: NodeRun, k: nat) returns (m: Move)
    requires IsNodeRun(run) && k < |run.states| && run.states[k].outstanding > 0
    ensures CanMove(run.states[k], m) && !m.Call?
  {
    var n := run.states[k];
    NodeRunKeepsInv(run, k);
    var id := Pick(Open(n.answers));
    assert PlaceAt(n, id);
    if n.reply.Some? {
      m := ReceiverGoesOn(n);
    } else if id in n.sent {
      m := Receive(id, true);
    } else if n.submitter.sending == Some(id) {
      m := SendOk(Submitter);
    } else {
      m := SendOk(Receiver);
    }
  }

  /** Nor does it miss its wake-up: the count reaches zero at the end of a reply, where the
      code notifies, or by a failed send of the submitting thread itself. */
  lemma WokenAtZero(run: NodeRun, k: nat)
    requires IsNodeRun(run) && k < |run.moves|
    requires run.states[k].outstanding > 0 && run.states[k + 1].outstanding <= 0
    ensures run.moves[k] == Finish || run.moves[k] == SendFail(Submitter)
  {
    var n, m := run.states[k], run.moves[k];
    NodeRunKeepsInv(run, k);
    NodeRunKeepsInv(run, k + 1);
    BusyIsCounted(run.states[k + 1]);
    assert m == SendFail(Receiver) ==> n.reply.Some?;
  }

  lemma QuietMeansFailed(n: Node, id: int)
    requires NodeInv(n) && WaitReturns(n)
    ensures id in n.orch.inflight <==> HasFailed(n, id)
  {
    assert PlaceAt(n, id);
    assert Open(n.answers) == {};
    BusyIsCounted(n);
  }

  /** When wait_all returns, a plain task is still running exactly when its call failed, and
      a group exactly when the call of one of its sub-tasks failed. */
  lemma RunningAtReturn(run: NodeRun, k: nat, t: nat)
    requires IsNodeRun(run) && k < |run.states| && WaitReturns(run.states[k])
    requires t < |run.states[k].orch.tasks|
    ensures var n := run.states[k]; var task := n.orch.tasks[t];
            && (!task.isGroup ==> (task.status == Running <==> HasFailed(n, t)))
            && (task.isGroup ==> (task.status == Running <==> exists id :: id in Subs(n.orch.subOf, t)
                                                                           && HasFailed(n, id)))
            && (task.isGroup ==> forall id :: id in Subs(n.orch.subOf, t) ==> HasFailed(n, id))
  {
    var n := run.states[k];
    NodeRunKeepsInv(run, k);
    QuietMeansFailed(n, t);
    var s := n.orch;
    assert GroupAt(s, t);
    assert Awaited(s, t) <==> t in s.inflight;
    forall id | id in Subs(s.subOf, t) ensures HasFailed(n, id) {
      assert Awaited(s, id);
      QuietMeansFailed(n, id);
    }
    if s.tasks[t].isGroup && s.tasks[t].status == Running {
      var id := RunningGroupOwes(s, t);
      assert HasFailed(n, id);
    }
  }

  /** What can hold a task up for good: a failed call, an input that was finished before the
      group was submitted, or a group that reads its own output. */
  predicate Culprit(n: Node, u: nat) {
    u < |n.orch.tasks| &&
    var t := n.orch.tasks[u];
    || HasFailed(n, u) || (exists id :: id in n.orch.subOf && n.orch.subOf[id] == u && HasFailed(n, id))
    || (t.isGroup && t.preDone > 0)
    || (t.isGroup && u in t.producers)
  }

  /** u is t or is reached from t along inputs. */
  ghost predicate DependsOn(ts: seq<Task>, t: nat, u: nat)
    decreases t
  {
    t == u || (t < |ts| && exists p: nat :: p < t && p in ts[t].producers && DependsOn(ts, p, u))
  }

  /** When wait_all returns, every unfinished task depends on a culprit; with no culprit all
      tasks are finished. */
  lemma {:induction false} UnfinishedHasCulprit(run: NodeRun, k: nat, t: nat) returns (u: nat)
    requires IsNodeRun(run) && k < |run.states| && WaitReturns(run.states[k])
    requires t < |run.states[k].orch.tasks| && !IsDone(run.states[k].orch.tasks[t])
    ensures DependsOn(run.states[k].orch.tasks, t, u) && Culprit(run.states[k], u)
    decreases t
  {
    var n := run.states[k];
    var task := n.orch.tasks[t];
    u := t;
    NodeRunKeepsInv(run, k);
    RunningAtReturn(run, k, t);
    assert StartAt(n.orch.tasks, t) && GroupAt(n.orch, t);
    if task.status == Pending && task.preDone == 0 && t !in task.producers {
      DoneCountFull(n.orch.tasks, task.producers);
      var p: nat :| p in task.producers && !DoneAt(n.orch.tasks, p);
      u := UnfinishedHasCulprit(run, k, p);
    }
  }
}

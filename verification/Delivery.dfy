/**
  Delivery of follow-up messages to background tasks (apps/agent-runner) under one
  hypothesis: create, send, resume and finalise are each atomic, storage does not fail
  and the agent exists. TaskLoss shows why the hypothesis is needed.
 */
module Delivery {
  import opened Wrappers
  import opened TaskProtocol

  datatype TaskRecord = TaskRecord(running: bool, activeRun: Option<RunId>)

  // A run's task and the follow-up messages that its input joins; a run's id is its
  // position.
  datatype RunInput = RunInput(task: TaskId, batch: seq<MessageId>)

  datatype Service = Service(
    launches: set<TaskId>,
    tasks: map<TaskId, TaskRecord>,
    messages: seq<Pending>,
    runs: seq<RunInput>,
    scheduled: multiset<TaskId>)      // resumes that were started and have not run yet

  datatype Operation =
    | CreateOp(task: TaskId)
    | SendOp(task: TaskId)
    | ResumeOp(task: TaskId, scheduled: bool)
    | FinaliseOp(task: TaskId)

  predicate Busy(s: Service, t: TaskId) {
    t in s.tasks && s.tasks[t].running && s.tasks[t].activeRun.Some?
  }

  function Launched(s: Service, t: TaskId, batch: seq<MessageId>): Service {
    s.(launches := s.launches + {t},
       tasks := s.tasks[t := TaskRecord(true, Some(|s.runs|))],
       runs := s.runs + [RunInput(t, batch)])
  }

  // Every pending message of the task marked delivered.
  function MarkAll(messages: seq<Pending>, t: TaskId): seq<Pending> {
    if messages == [] then []
    else
      var last := messages[|messages| - 1];
      MarkAll(messages[..|messages| - 1], t) + [last.(delivered := last.delivered || last.task == t)]
  }

  function ResumeTask(s: Service, t: TaskId): Service {
    if Busy(s, t) then s
    else
      var batch := PendingIds(s.messages, t);
      var started := if t in s.launches then s else Launched(s, t, batch);
      started.(messages := MarkAll(s.messages, t))
  }

  predicate Possible(s: Service, op: Operation) {
    match op
    case CreateOp(t) => t !in s.tasks
    case SendOp(t) => t in s.tasks
    case ResumeOp(t, scheduled) => t in s.tasks && (scheduled ==> t in s.scheduled)
    case FinaliseOp(t) => t in s.launches && t in s.tasks
  }

  function Apply(s: Service, op: Operation): Service
    requires Possible(s, op)
  {
    match op
    case CreateOp(t) => Launched(s, t, [])
    case SendOp(t) =>
      s.(messages := s.messages + [Pending(t, false)],
         scheduled := if Busy(s, t) then s.scheduled else s.scheduled + multiset{t})
    case ResumeOp(t, scheduled) =>
      ResumeTask(if scheduled then s.(scheduled := s.scheduled - multiset{t}) else s, t)
    case FinaliseOp(t) =>
      s.(launches := s.launches - {t}, tasks := s.tasks[t := TaskRecord(false, None)],
         scheduled := if PendingIds(s.messages, t) == [] then s.scheduled else s.scheduled + multiset{t})
  }

  // ------------------------------------------------------------------- the object form

  class AgentService {
    var activeTaskLaunches: set<TaskId>
    var tasks: map<TaskId, TaskRecord>
    var messages: seq<Pending>
    var runs: seq<RunInput>
    var scheduled: multiset<TaskId>

    function View(): Service
      reads this
    {
      Service(activeTaskLaunches, tasks, messages, runs, scheduled)
    }

    constructor ()
      ensures View() == Service({}, map[], [], [], multiset{})
    {
      activeTaskLaunches, tasks, messages, runs, scheduled := {}, map[], [], [], multiset{};
    }

    method StartAgentTaskExecution(t: TaskId, batch: seq<MessageId>)
      requires t in tasks
      modifies this
      ensures View() == if t in old(activeTaskLaunches) then old(View()) else Launched(old(View()), t, batch)
    {
      if t in activeTaskLaunches {
        return;
      }
      activeTaskLaunches := activeTaskLaunches + {t};
      var run := |runs|;
      runs := runs + [RunInput(t, batch)];
      tasks := tasks[t := tasks[t].(activeRun := Some(run))];
      tasks := tasks[t := tasks[t].(running := true)];
    }

    method CreateBackgroundTask(t: TaskId)
      requires t !in tasks && t !in activeTaskLaunches
      modifies this
      ensures View() == Apply(old(View()), CreateOp(t))
    {
      tasks := tasks[t := TaskRecord(false, None)];
      StartAgentTaskExecution(t, []);
    }

    method SendMessage(t: TaskId)
      requires t in tasks
      modifies this
      ensures View() == Apply(old(View()), SendOp(t))
    {
      messages := messages + [Pending(t, false)];
      if !tasks[t].running || tasks[t].activeRun.None? {
        scheduled := scheduled + multiset{t};
      }
    }

    method ResumeAgentTask(t: TaskId)
      requires t in tasks
      modifies this
      ensures View() == ResumeTask(old(View()), t)
    {
      if tasks[t].running && tasks[t].activeRun.Some? {
        return;
      }
      var pending := PendingIds(messages, t);
      StartAgentTaskExecution(t, pending);
      MarkDelivered(t, pending);
    }

    // The loop that marks the listed messages one by one.
    method MarkDelivered(t: TaskId, pending: seq<MessageId>)
      requires pending == PendingIds(messages, t)
      modifies this`messages
      ensures messages == MarkAll(old(messages), t)
    {
      PendingIdsExact(messages, t);
      for k := 0 to |pending|
        invariant |messages| == |old(messages)|
        invariant forall i :: 0 <= i < |messages| ==>
                    messages[i] == Pending(old(messages)[i].task, old(messages)[i].delivered || i in pending[..k])
      {
        var m := pending[k];
        assert m in pending;
        messages := messages[m := messages[m].(delivered := true)];
        assert pending[..k + 1] == pending[..k] + [m];
      }
      assert pending[..|pending|] == pending;
      MarkAllExact(old(messages), t);
    }

    // Any operation, as a client, a scheduled resume or the end of a run causes it.
    method Perform(op: Operation)
      requires Possible(View(), op) && Inv(View())
      modifies this
      ensures View() == Apply(old(View()), op) && Inv(View())
    {
      InvKept(View(), op);
      match op {
        case CreateOp(t) => CreateBackgroundTask(t);
        case SendOp(t) => SendMessage(t);
        case ResumeOp(t, isScheduled) =>
          if isScheduled {
            scheduled := scheduled - multiset{t};
          }
          ResumeAgentTask(t);
        case FinaliseOp(t) => Finalise(t);
      }
    }

    method Finalise(t: TaskId)
      requires t in activeTaskLaunches && t in tasks
      modifies this
      ensures View() == Apply(old(View()), FinaliseOp(t))
    {
      activeTaskLaunches := activeTaskLaunches - {t};
      tasks := tasks[t := tasks[t].(activeRun := None)];
      tasks := tasks[t := tasks[t].(running := false)];
      if |PendingIds(messages, t)| > 0 {
        scheduled := scheduled + multiset{t};
      }
    }
  }

  // ------------------------------------------------------------------ message lemmas

  // All messages of a task in enqueue order.
  function Ids(messages: seq<Pending>, t: TaskId): seq<MessageId> {
    if messages == [] then []
    else
      var n := |messages| - 1;
      Ids(messages[..n], t) + (if messages[n].task == t then [n] else [])
  }

  // The follow-up messages in the inputs of a task's runs, run after run.
  function Batches(runs: seq<RunInput>, t: TaskId): seq<MessageId> {
    if runs == [] then []
    else Batches(runs[..|runs| - 1], t) + (if runs[|runs| - 1].task == t then runs[|runs| - 1].batch else [])
  }

  lemma {:induction false} PendingIdsExact(messages: seq<Pending>, t: TaskId)
    ensures forall m :: m in PendingIds(messages, t) <==>
              0 <= m < |messages| && messages[m].task == t && !messages[m].delivered
  {
    if messages != [] {
      PendingIdsExact(messages[..|messages| - 1], t);
    }
  }

  lemma {:induction false} IdsExact(messages: seq<Pending>, t: TaskId)
    ensures forall m :: m in Ids(messages, t) <==> 0 <= m < |messages| && messages[m].task == t
    ensures forall i, j :: 0 <= i < j < |Ids(messages, t)| ==> Ids(messages, t)[i] < Ids(messages, t)[j]
  {
    if messages != [] {
      var front := messages[..|messages| - 1];
      IdsExact(front, t);
      forall i | 0 <= i < |Ids(front, t)| ensures Ids(front, t)[i] < |front| {
        assert Ids(front, t)[i] in Ids(front, t);
      }
    }
  }

  lemma {:induction false} MarkAllExact(messages: seq<Pending>, t: TaskId)
    ensures |MarkAll(messages, t)| == |messages|
    ensures forall i :: 0 <= i < |messages| ==>
              MarkAll(messages, t)[i] == Pending(messages[i].task, messages[i].delivered || messages[i].task == t)
  {
    if messages != [] {
      MarkAllExact(messages[..|messages| - 1], t);
    }
  }

  lemma {:induction false} MarkAllIds(messages: seq<Pending>, t: TaskId, other: TaskId)
    ensures PendingIds(MarkAll(messages, t), t) == []
    ensures other != t ==> PendingIds(MarkAll(messages, t), other) == PendingIds(messages, other)
    ensures Ids(MarkAll(messages, t), other) == Ids(messages, other)
  {
    MarkAllExact(messages, t);
    if messages != [] {
      var front := messages[..|messages| - 1];
      MarkAllIds(front, t, other);
      MarkAllExact(front, t);
      var marked := MarkAll(messages, t);
      assert marked[..|marked| - 1] == MarkAll(front, t);
    }
  }

  lemma EnqueueIds(messages: seq<Pending>, t: TaskId, other: TaskId)
    ensures PendingIds(messages + [Pending(t, false)], other)
            == PendingIds(messages, other) + (if other == t then [|messages|] else [])
    ensures Ids(messages + [Pending(t, false)], other)
            == Ids(messages, other) + (if other == t then [|messages|] else [])
  {
  }

  lemma LaunchBatches(runs: seq<RunInput>, t: TaskId, batch: seq<MessageId>, other: TaskId)
    ensures Batches(runs + [RunInput(t, batch)], other) == Batches(runs, other) + (if other == t then batch else [])
  {
  }

  // ----------------------------------------------------------------------- invariants

  // Lock, status and active run agree.
  ghost predicate InStep(s: Service) {
    && (forall t :: t in s.launches ==> t in s.tasks)
    && (forall t :: t in s.tasks ==>
          (s.tasks[t].running <==> t in s.launches) && (s.tasks[t].activeRun.Some? <==> t in s.launches))
  }

  // What entered runs, then what is pending, is everything sent, in order.
  ghost predicate Ledger(s: Service, t: TaskId) {
    Batches(s.runs, t) + PendingIds(s.messages, t) == Ids(s.messages, t)
  }

  ghost predicate NothingStuck(s: Service, t: TaskId) {
    t in s.launches || t in s.scheduled || PendingIds(s.messages, t) == []
  }

  ghost predicate Inv(s: Service) {
    && InStep(s)
    && forall t :: Ledger(s, t) && NothingStuck(s, t)
  }

  lemma SendKeeps(s: Service, t: TaskId)
    requires Inv(s) && t in s.tasks
    ensures Inv(Apply(s, SendOp(t)))
  {
    var s' := Apply(s, SendOp(t));
    forall other ensures Ledger(s', other) && NothingStuck(s', other) {
      assert Ledger(s, other) && NothingStuck(s, other);
      EnqueueIds(s.messages, t, other);
    }
  }

  lemma LaunchKeeps(s: Service, t: TaskId)
    requires InStep(s) && t !in s.launches && (forall u :: Ledger(s, u)) && forall u :: u != t ==> NothingStuck(s, u)
    ensures Inv(Launched(s, t, PendingIds(s.messages, t)).(messages := MarkAll(s.messages, t)))
  {
    var s' := Launched(s, t, PendingIds(s.messages, t)).(messages := MarkAll(s.messages, t));
    forall other ensures Ledger(s', other) && NothingStuck(s', other) {
      assert Ledger(s, other) && (other != t ==> NothingStuck(s, other));
      MarkAllIds(s.messages, t, other);
      LaunchBatches(s.runs, t, PendingIds(s.messages, t), other);
    }
  }

  lemma ResumeKeeps(s: Service, t: TaskId, scheduled: bool)
    requires Inv(s) && Possible(s, ResumeOp(t, scheduled))
    ensures Inv(Apply(s, ResumeOp(t, scheduled)))
  {
    var s1 := if scheduled then s.(scheduled := s.scheduled - multiset{t}) else s;
    forall u ensures Ledger(s1, u) && (u != t || t in s.launches ==> NothingStuck(s1, u)) {
      assert Ledger(s, u) && NothingStuck(s, u);
    }
    if Busy(s1, t) {
      assert t in s.launches;
    } else {
      LaunchKeeps(s1, t);
    }
  }

  lemma FinaliseKeeps(s: Service, t: TaskId)
    requires Inv(s) && Possible(s, FinaliseOp(t))
    ensures Inv(Apply(s, FinaliseOp(t)))
  {
    var s' := Apply(s, FinaliseOp(t));
    forall other ensures Ledger(s', other) && NothingStuck(s', other) {
      assert Ledger(s, other) && NothingStuck(s, other);
    }
  }

  lemma CreateKeeps(s: Service, t: TaskId)
    requires Inv(s) && t !in s.tasks
    ensures Inv(Apply(s, CreateOp(t)))
  {
    var s' := Apply(s, CreateOp(t));
    forall other ensures Ledger(s', other) && NothingStuck(s', other) {
      assert Ledger(s, other) && NothingStuck(s, other);
      LaunchBatches(s.runs, t, [], other);
    }
  }

  // -------------------------------------------------------------------------- theorems

  ghost predicate IsHistory(states: seq<Service>, ops: seq<Operation>) {
    && |states| == |ops| + 1
    && states[0] == Service({}, map[], [], [], multiset{})
    && forall i :: 0 <= i < |ops| ==> Possible(states[i], ops[i]) && states[i + 1] == Apply(states[i], ops[i])
  }

  lemma InvKept(s: Service, op: Operation)
    requires Inv(s) && Possible(s, op)
    ensures Inv(Apply(s, op))
  {
    match op
    case CreateOp(t) => CreateKeeps(s, t);
    case SendOp(t) => SendKeeps(s, t);
    case ResumeOp(t, scheduled) => ResumeKeeps(s, t, scheduled);
    case FinaliseOp(t) => FinaliseKeeps(s, t);
  }

  lemma {:induction false} HistoryInv(states: seq<Service>, ops: seq<Operation>, n: nat)
    requires IsHistory(states, ops) && n < |states|
    ensures Inv(states[n])
  {
    if n == 0 {
      forall t ensures Ledger(states[0], t) && NothingStuck(states[0], t) {
      }
    } else {
      HistoryInv(states, ops, n - 1);
      InvKept(states[n - 1], ops[n - 1]);
    }
  }

  // Every follow-up message is pending or in exactly one run input, at one place, in
  // enqueue order; it is marked delivered exactly when it entered one.
  lemma ExactlyOnceInOrder(states: seq<Service>, ops: seq<Operation>, n: nat, t: TaskId)
    requires IsHistory(states, ops) && n < |states|
    ensures var s := states[n];
            && Batches(s.runs, t) <= Ids(s.messages, t)
            && (forall i, j :: 0 <= i < j < |Batches(s.runs, t)| ==> Batches(s.runs, t)[i] < Batches(s.runs, t)[j])
            && (forall m :: 0 <= m < |s.messages| && s.messages[m].task == t ==>
                  (s.messages[m].delivered <==> m in Batches(s.runs, t)))
  {
    HistoryInv(states, ops, n);
    var s := states[n];
    assert Ledger(s, t);
    IdsExact(s.messages, t);
    PendingIdsExact(s.messages, t);
    LedgerSplits(Batches(s.runs, t), PendingIds(s.messages, t), Ids(s.messages, t));
  }

  lemma LedgerSplits(entered: seq<MessageId>, waiting: seq<MessageId>, all: seq<MessageId>)
    requires entered + waiting == all
    requires forall i, j :: 0 <= i < j < |all| ==> all[i] < all[j]
    ensures entered <= all
    ensures forall i, j :: 0 <= i < j < |entered| ==> entered[i] < entered[j]
    ensures forall m :: m in all <==> m in entered || m in waiting
    ensures forall m :: m in entered ==> m !in waiting
  {
    forall m | m in entered ensures m !in waiting {
      var i :| 0 <= i < |entered| && entered[i] == m;
      forall k | 0 <= k < |waiting| ensures waiting[k] != m {
        assert all[i] == m && all[|entered| + k] == waiting[k];
      }
    }
  }

  // A task with no run and no scheduled resume has no pending message.
  lemma QuiescentHasNoPending(states: seq<Service>, ops: seq<Operation>, n: nat, t: TaskId)
    requires IsHistory(states, ops) && n < |states|
    requires t !in states[n].launches && t !in states[n].scheduled
    ensures PendingIds(states[n].messages, t) == []
  {
    HistoryInv(states, ops, n);
    assert NothingStuck(states[n], t);
  }
}

/**
  What the atomic service does, read off the history of its operations: which operations
  launch a run and with which messages, when a message counts as delivered, and which
  resumes are scheduled. Nothing here refers to how an operation decides.
 */
module DeliveryExact {
  import opened TaskProtocol
  import opened Delivery

  // The operation starts a run of the task: it creates it, or resumes it while it has none.
  predicate Starts(s: Service, op: Operation, t: TaskId) {
    op.task == t && (op.CreateOp? || (op.ResumeOp? && t !in s.launches))
  }

  ghost predicate HasUndelivered(messages: seq<Pending>, t: TaskId) {
    exists m :: 0 <= m < |messages| && messages[m].task == t && !messages[m].delivered
  }

  lemma HasUndeliveredExactly(messages: seq<Pending>, t: TaskId)
    ensures HasUndelivered(messages, t) <==> PendingIds(messages, t) != []
  {
    PendingIdsExact(messages, t);
    if PendingIds(messages, t) != [] {
      assert PendingIds(messages, t)[0] in PendingIds(messages, t);
    }
  }

  // ----------------------------------------------------------------- scheduled resumes

  // A send to a task without a run owes it a resume, and so does the end of a run that
  // leaves a message undelivered; a scheduled resume pays one.
  ghost function Debt(s: Service, op: Operation, t: TaskId): int {
    if op.task != t then 0
    else match op
      case CreateOp(_) => 0
      case SendOp(_) => if t in s.launches then 0 else 1
      case ResumeOp(_, scheduled) => if scheduled then -1 else 0
      case FinaliseOp(_) => if HasUndelivered(s.messages, t) then 1 else 0
  }

  ghost function Owed(states: seq<Service>, ops: seq<Operation>, n: nat, t: TaskId): int
    requires n <= |ops| < |states|
  {
    if n == 0 then 0 else Owed(states, ops, n - 1, t) + Debt(states[n - 1], ops[n - 1], t)
  }

  lemma ScheduledStep(s: Service, op: Operation, t: TaskId)
    requires InStep(s) && Possible(s, op)
    ensures Apply(s, op).scheduled[t] == s.scheduled[t] + Debt(s, op, t)
  {
    HasUndeliveredExactly(s.messages, t);
  }

  // The resumes that are scheduled are exactly those that are owed.
  lemma {:induction false} ScheduledExactly(states: seq<Service>, ops: seq<Operation>, n: nat, t: TaskId)
    requires IsHistory(states, ops) && n < |states|
    ensures states[n].scheduled[t] == Owed(states, ops, n, t)
  {
    if n > 0 {
      ScheduledExactly(states, ops, n - 1, t);
      HistoryInv(states, ops, n - 1);
      ScheduledStep(states[n - 1], ops[n - 1], t);
    }
  }

  // ------------------------------------------------------------------------------- runs

  // The inputs of a task's runs, in launch order.
  function Inputs(runs: seq<RunInput>, t: TaskId): seq<seq<MessageId>> {
    if runs == [] then []
    else
      var last := runs[|runs| - 1];
      Inputs(runs[..|runs| - 1], t) + (if last.task == t then [last.batch] else [])
  }

  // What an operation launches: a creation nothing, a resume all that is undelivered.
  function LaunchedBy(s: Service, op: Operation, t: TaskId): seq<seq<MessageId>> {
    if !Starts(s, op, t) then [] else if op.CreateOp? then [[]] else [PendingIds(s.messages, t)]
  }

  function Launches(states: seq<Service>, ops: seq<Operation>, n: nat, t: TaskId): seq<seq<MessageId>>
    requires n <= |ops| < |states|
  {
    if n == 0 then [] else Launches(states, ops, n - 1, t) + LaunchedBy(states[n - 1], ops[n - 1], t)
  }

  lemma InputsAppend(runs: seq<RunInput>, run: RunInput, t: TaskId)
    ensures Inputs(runs + [run], t) == Inputs(runs, t) + (if run.task == t then [run.batch] else [])
  {
    assert (runs + [run])[..|runs|] == runs;
  }

  lemma RunsStep(s: Service, op: Operation, t: TaskId)
    requires InStep(s) && Possible(s, op)
    ensures Inputs(Apply(s, op).runs, t) == Inputs(s.runs, t) + LaunchedBy(s, op, t)
  {
    var s' := Apply(s, op);
    if Starts(s, op, op.task) {
      var batch := if op.CreateOp? then [] else PendingIds(s.messages, op.task);
      assert s'.runs == s.runs + [RunInput(op.task, batch)];
      InputsAppend(s.runs, RunInput(op.task, batch), t);
    } else {
      assert s'.runs == s.runs;
    }
  }

  // A task's runs are exactly those that its creation and its resumes while idle start.
  lemma {:induction false} RunsExactly(states: seq<Service>, ops: seq<Operation>, n: nat, t: TaskId)
    requires IsHistory(states, ops) && n < |states|
    ensures Inputs(states[n].runs, t) == Launches(states, ops, n, t)
  {
    if n > 0 {
      RunsExactly(states, ops, n - 1, t);
      HistoryInv(states, ops, n - 1);
      RunsStep(states[n - 1], ops[n - 1], t);
    }
  }

  // ----------------------------------------------------------- locks and delivery marks

  // A task has a run exactly when the last operation that started or ended one started it.
  function HasRun(states: seq<Service>, ops: seq<Operation>, n: nat, t: TaskId): bool
    requires n <= |ops| < |states|
  {
    n > 0 && (Starts(states[n - 1], ops[n - 1], t)
              || (ops[n - 1] != FinaliseOp(t) && HasRun(states, ops, n - 1, t)))
  }

  lemma {:induction false} RunningExactly(states: seq<Service>, ops: seq<Operation>, n: nat, t: TaskId)
    requires IsHistory(states, ops) && n < |states|
    ensures t in states[n].launches <==> HasRun(states, ops, n, t)
    ensures t in states[n].tasks ==> (states[n].tasks[t].running <==> HasRun(states, ops, n, t))
  {
    HistoryInv(states, ops, n);
    if n > 0 {
      RunningExactly(states, ops, n - 1, t);
      HistoryInv(states, ops, n - 1);
    }
  }

  // The active run of a task that has one is its latest run.
  ghost predicate ActiveIsLatest(s: Service, t: TaskId) {
    t in s.launches ==>
      && t in s.tasks && s.tasks[t].activeRun.Some?
      && var r := s.tasks[t].activeRun.value;
         && r < |s.runs| && s.runs[r].task == t
         && forall k :: r < k < |s.runs| ==> s.runs[k].task != t
  }

  lemma ActiveStep(s: Service, op: Operation, t: TaskId)
    requires InStep(s) && Possible(s, op) && ActiveIsLatest(s, t)
    ensures ActiveIsLatest(Apply(s, op), t)
  {
  }

  lemma {:induction false} ActiveExactly(states: seq<Service>, ops: seq<Operation>, n: nat, t: TaskId)
    requires IsHistory(states, ops) && n < |states|
    ensures ActiveIsLatest(states[n], t)
    ensures t in states[n].tasks && t !in states[n].launches ==> states[n].tasks[t].activeRun.None?
  {
    HistoryInv(states, ops, n);
    if n > 0 {
      ActiveExactly(states, ops, n - 1, t);
      HistoryInv(states, ops, n - 1);
      ActiveStep(states[n - 1], ops[n - 1], t);
    }
  }

  // The message was there when a resume of its task started a run.
  ghost predicate TakenAt(states: seq<Service>, ops: seq<Operation>, i: nat, m: MessageId, t: TaskId)
    requires i < |ops| < |states|
  {
    ops[i].ResumeOp? && Starts(states[i], ops[i], t) && m < |states[i].messages|
  }

  lemma {:induction false} MarkAllAt(messages: seq<Pending>, t: TaskId)
    ensures |MarkAll(messages, t)| == |messages|
    ensures forall m :: 0 <= m < |messages| ==>
              MarkAll(messages, t)[m]
              == Pending(messages[m].task, messages[m].delivered || messages[m].task == t)
  {
    if messages != [] {
      MarkAllAt(messages[..|messages| - 1], t);
    }
  }

  lemma DeliveryStep(s: Service, op: Operation, m: MessageId)
    requires Inv(s) && Possible(s, op) && m < |Apply(s, op).messages|
    ensures |s.messages| <= |Apply(s, op).messages| <= |s.messages| + 1
    ensures m == |s.messages| ==> op.SendOp? && Apply(s, op).messages[m] == Pending(op.task, false)
    ensures m < |s.messages| ==>
              Apply(s, op).messages[m]
              == s.messages[m].(delivered := || s.messages[m].delivered
                                             || (op.ResumeOp? && Starts(s, op, s.messages[m].task)))
  {
    MarkAllAt(s.messages, op.task);
  }

  ghost predicate Taken(states: seq<Service>, ops: seq<Operation>, n: nat, m: MessageId, t: TaskId)
    requires n <= |ops| < |states|
  {
    exists i :: 0 <= i < n && TakenAt(states, ops, i, m, t)
  }

  lemma TakenStep(states: seq<Service>, ops: seq<Operation>, n: nat, m: MessageId, t: TaskId)
    requires 0 < n <= |ops| < |states|
    ensures Taken(states, ops, n, m, t) <==> Taken(states, ops, n - 1, m, t) || TakenAt(states, ops, n - 1, m, t)
  {
  }

  lemma NotTakenYet(states: seq<Service>, ops: seq<Operation>, n: nat, m: MessageId, t: TaskId)
    requires IsHistory(states, ops) && n < |ops| && |states[n].messages| <= m
    ensures !Taken(states, ops, n + 1, m, t)
  {
    forall i | 0 <= i < n + 1 ensures !TakenAt(states, ops, i, m, t) {
      MessagesGrow(states, ops, i, n);
    }
  }

  // A message is delivered exactly when a resume of its task started a run after it was
  // sent.
  lemma {:induction false} DeliveredExactly(states: seq<Service>, ops: seq<Operation>, n: nat, m: MessageId)
    requires IsHistory(states, ops) && n < |states| && m < |states[n].messages|
    ensures states[n].messages[m].delivered <==> Taken(states, ops, n, m, states[n].messages[m].task)
  {
    if n > 0 {
      var s, op, t := states[n - 1], ops[n - 1], states[n].messages[m].task;
      HistoryInv(states, ops, n - 1);
      DeliveryStep(s, op, m);
      if m < |s.messages| {
        DeliveredExactly(states, ops, n - 1, m);
        TakenStep(states, ops, n, m, t);
      } else {
        NotTakenYet(states, ops, n - 1, m, t);
      }
    }
  }

  lemma {:induction false} MessagesGrow(states: seq<Service>, ops: seq<Operation>, i: nat, n: nat)
    requires IsHistory(states, ops) && i <= n < |states|
    ensures |states[i].messages| <= |states[n].messages|
  {
    if i < n {
      MessagesGrow(states, ops, i, n - 1);
      MarkAllAt(states[n - 1].messages, ops[n - 1].task);
    }
  }

  // ----------------------------------------------------------------------- quiet tasks

  // Nobody sends to the task or asks for its resumption.
  ghost predicate Quiet(ops: seq<Operation>, n: nat, t: TaskId)
    requires n <= |ops|
  {
    forall i :: 0 <= i < n ==> ops[i] != SendOp(t) && ops[i] != ResumeOp(t, false)
  }

  lemma {:induction false} QuietHasNoMessages(
    states: seq<Service>, ops: seq<Operation>, n: nat, t: TaskId, m: MessageId)
    requires IsHistory(states, ops) && n < |states| && Quiet(ops, n, t) && m < |states[n].messages|
    ensures states[n].messages[m].task != t
  {
    if n > 0 {
      HistoryInv(states, ops, n - 1);
      assert ops[n - 1] != SendOp(t);
      DeliveryStep(states[n - 1], ops[n - 1], m);
      if m < |states[n - 1].messages| {
        QuietHasNoMessages(states, ops, n - 1, t, m);
      }
    }
  }

  // Without messages and scheduled resumes, only its creation starts a run of the task.
  lemma QuietStep(s: Service, op: Operation, t: TaskId)
    requires InStep(s) && Possible(s, op) && op != SendOp(t) && op != ResumeOp(t, false)
    requires t !in s.scheduled && !HasUndelivered(s.messages, t)
    ensures t !in Apply(s, op).scheduled
    ensures Inputs(Apply(s, op).runs, t) == Inputs(s.runs, t) + if op == CreateOp(t) then [[]] else []
    ensures t in Apply(s, op).tasks <==> t in s.tasks || op == CreateOp(t)
  {
    ScheduledStep(s, op, t);
    RunsStep(s, op, t);
  }

  // Then no resume of it is ever scheduled, and its only run is that of its creation.
  lemma {:induction false} QuietTaskRunsOnce(states: seq<Service>, ops: seq<Operation>, n: nat, t: TaskId)
    requires IsHistory(states, ops) && n < |states| && Quiet(ops, n, t)
    ensures t !in states[n].scheduled
    ensures Inputs(states[n].runs, t) == if t in states[n].tasks then [[]] else []
  {
    if n > 0 {
      QuietTaskRunsOnce(states, ops, n - 1, t);
      HistoryInv(states, ops, n - 1);
      var s, op := states[n - 1], ops[n - 1];
      assert op != SendOp(t) && op != ResumeOp(t, false);
      forall m | 0 <= m < |s.messages| ensures s.messages[m].task != t {
        QuietHasNoMessages(states, ops, n - 1, t, m);
      }
      QuietStep(s, op, t);
    }
  }
}

/**
  The background task protocol of AgentService (apps/agent-runner) at await granularity.
  Launches, executions and finalisers of all tasks interleave at every repository call,
  and every call may throw. A call that is about to do something is suspended in front
  of it; a step is what runs from one await to the next. Resumes may begin at any time,
  which covers those started by sends, finalisers and clients.
 */
module TaskProtocol {
  import opened Wrappers
  import RunExecution

  type TaskId = nat
  type RunId = nat
  type CallId = nat
  type MessageId = nat
  type Message = RunExecution.Message

  // An entry of the task transcript.
  datatype Entry = Entry(seqNo: nat, source: RunId, message: Message)

  // Who holds the launch lock of a task (history variable).
  datatype Holder = Free | ByCall(call: CallId) | ByRun(run: RunId)

  datatype Task = Task(
    running: bool,
    activeRun: Option<RunId>,
    transcript: seq<Entry>,
    lastMessageSeq: nat,
    order: seq<RunId>,         // the task's runs in launch order (history variable)
    holder: Holder)

  datatype RunPhase =
    | SettingUp                // created, the task is not marked running yet
    | Ready                    // executing, between two appends
    | Mirroring                // appended to the run log, not yet to the transcript
    | Stopped                  // an append threw
    | Settled                  // execution over, lock released, finaliser running
    | Cleared                  // active run cleared
    | Statused                 // final status written
    | Over

  datatype Run = Run(
    task: TaskId,
    input: seq<MessageId>,     // the follow-up messages in the run's input
    history: seq<Message>,     // the earlier messages it was given
    live: bool,                // they were taken from the store's own list (history variable)
    log: seq<Message>,         // the run's message log
    mirrored: seq<Message>,    // what of it reached the transcript (history variable)
    phase: RunPhase)

  // The transcript as a resume read it: a copy, or the list of the in-memory store
  // itself, which goes on growing.
  datatype Transcript = Copied(messages: seq<Message>) | Live

  datatype Call =
    | Resuming(task: TaskId)                                   // reads the task
    | Reading(task: TaskId)                                    // reads agent and transcript
    | ReadingPending(task: TaskId, transcript: Transcript)
    | Launching(task: TaskId, batch: seq<MessageId>, transcript: Transcript)    // tests the lock
    | CreatingRun(task: TaskId, batch: seq<MessageId>, history: seq<Message>, live: bool)
    | SettingActive(task: TaskId, batch: seq<MessageId>, run: RunId)
    | SettingRunning(task: TaskId, batch: seq<MessageId>, run: RunId)
    | Marking(task: TaskId, batch: seq<MessageId>)             // marks the batch delivered
    | Failing(task: TaskId)                                    // setup threw, writes the failed status

  datatype Pending = Pending(task: TaskId, delivered: bool)

  datatype State = State(
    activeTaskLaunches: set<TaskId>,
    tasks: map<TaskId, Task>,
    calls: map<CallId, Call>,
    runs: map<RunId, Run>,
    pending: seq<Pending>,           // a message id is its position
    refused: set<MessageId>)         // batches of refused launches (history variable)

  datatype Action =
    | CreateTask(task: TaskId, call: CallId)
    | Enqueue(task: TaskId)
    | BeginResume(call: CallId, task: TaskId)
    | ReadTask(call: CallId)
    | ReadTranscript(call: CallId, live: bool)
    | ReadPending(call: CallId)
    | CallThrows(call: CallId)         // a read, a mark or the write of the failed status throws
    | Launch(call: CallId)
    | CreateRun(call: CallId, run: RunId)
    | SetActive(call: CallId)
    | SetRunning(call: CallId)
    | SetupThrows(call: CallId)
    | SetFailed(call: CallId)
    | Mark(call: CallId)
    | AppendToRun(run: RunId, message: Message)
    | AppendThrows(run: RunId)
    | Mirror(run: RunId)
    | MirrorThrows(run: RunId)
    | Settle(run: RunId)
    | ClearActive(run: RunId)
    | SetFinalStatus(run: RunId)
    | ListPending(run: RunId, call: CallId)
    | FinaliserThrows(run: RunId)

  // Calls between the admission of a launch and the hand-over to the execution.
  predicate Holding(c: Call) {
    c.CreatingRun? || c.SettingActive? || c.SettingRunning?
  }

  predicate Interruptible(c: Call) {
    c.Resuming? || c.Reading? || c.ReadingPending? || c.Marking? || c.Failing?
  }

  // Runs whose executeRunRequest is in flight.
  predicate InFlight(r: Run) {
    r.phase.Ready? || r.phase.Mirroring? || r.phase.Stopped?
  }

  predicate Finalising(r: Run) {
    r.phase.Settled? || r.phase.Cleared? || r.phase.Statused?
  }

  function PendingIds(pending: seq<Pending>, task: TaskId): seq<MessageId> {
    if pending == [] then []
    else
      var n := |pending| - 1;
      PendingIds(pending[..n], task) + (if pending[n].task == task && !pending[n].delivered then [n] else [])
  }

  function Messages(transcript: seq<Entry>): seq<Message> {
    if transcript == [] then []
    else Messages(transcript[..|transcript| - 1]) + [transcript[|transcript| - 1].message]
  }

  // The messages of the transcript, taken when the launch is called.
  function Mapped(s: State, t: TaskId, transcript: Transcript): seq<Message>
    requires t in s.tasks
  {
    if transcript.Live? then Messages(s.tasks[t].transcript) else transcript.messages
  }

  predicate KnownCall(s: State, c: CallId) {
    c in s.calls && s.calls[c].task in s.tasks
  }

  predicate KnownRun(s: State, r: RunId) {
    r in s.runs && s.runs[r].task in s.tasks
  }

  predicate Enabled(s: State, a: Action) {
    match a
    case CreateTask(t, c) => t !in s.tasks && c !in s.calls
    case Enqueue(t) => t in s.tasks
    case BeginResume(c, t) => c !in s.calls && t in s.tasks
    case ReadTask(c) => KnownCall(s, c) && s.calls[c].Resuming?
    case ReadTranscript(c, _) => KnownCall(s, c) && s.calls[c].Reading?
    case ReadPending(c) => KnownCall(s, c) && s.calls[c].ReadingPending?
    case CallThrows(c) => KnownCall(s, c) && Interruptible(s.calls[c])
    case Launch(c) => KnownCall(s, c) && s.calls[c].Launching?
    case CreateRun(c, r) => KnownCall(s, c) && s.calls[c].CreatingRun? && r !in s.runs
    case SetActive(c) => KnownCall(s, c) && s.calls[c].SettingActive?
    case SetRunning(c) => KnownCall(s, c) && s.calls[c].SettingRunning? && s.calls[c].run in s.runs
    case SetupThrows(c) => KnownCall(s, c) && Holding(s.calls[c])
    case SetFailed(c) => KnownCall(s, c) && s.calls[c].Failing?
    case Mark(c) => KnownCall(s, c) && s.calls[c].Marking?
    case AppendToRun(r, _) => KnownRun(s, r) && s.runs[r].phase.Ready?
    case AppendThrows(r) => KnownRun(s, r) && s.runs[r].phase.Ready?
    case Mirror(r) => KnownRun(s, r) && s.runs[r].phase.Mirroring? && s.runs[r].log != []
    case MirrorThrows(r) => KnownRun(s, r) && s.runs[r].phase.Mirroring?
    case Settle(r) => KnownRun(s, r) && (s.runs[r].phase.Ready? || s.runs[r].phase.Stopped?)
    case ClearActive(r) => KnownRun(s, r) && s.runs[r].phase.Settled?
    case SetFinalStatus(r) => KnownRun(s, r) && s.runs[r].phase.Cleared?
    case ListPending(r, c) => KnownRun(s, r) && s.runs[r].phase.Statused? && c !in s.calls
    case FinaliserThrows(r) => KnownRun(s, r) && Finalising(s.runs[r])
  }

  // ---------------------------------------------------------------------------- steps

  function MoveCall(s: State, c: CallId, call: Call): State {
    s.(calls := s.calls[c := call])
  }

  function DropCall(s: State, c: CallId): State {
    s.(calls := s.calls - {c})
  }

  function MoveRun(s: State, r: RunId, phase: RunPhase): State
    requires r in s.runs
  {
    s.(runs := s.runs[r := s.runs[r].(phase := phase)])
  }

  // startAgentTaskExecution up to its first await: test and set of the lock.
  function LaunchStep(s: State, c: CallId): State
    requires Enabled(s, Launch(c))
  {
    var Launching(t, batch, transcript) := s.calls[c];
    if t in s.activeTaskLaunches then
      MoveCall(s, c, Marking(t, batch)).(refused := s.refused + (set m | m in batch))
    else
      MoveCall(s, c, CreatingRun(t, batch, Mapped(s, t, transcript), transcript.Live?)).(
        activeTaskLaunches := s.activeTaskLaunches + {t},
        tasks := s.tasks[t := s.tasks[t].(holder := ByCall(c))])
  }

  function CreateRunStep(s: State, c: CallId, r: RunId): State
    requires Enabled(s, CreateRun(c, r))
  {
    var CreatingRun(t, batch, history, live) := s.calls[c];
    MoveCall(s, c, SettingActive(t, batch, r)).(
      runs := s.runs[r := Run(t, batch, history, live, [], [], SettingUp)],
      tasks := s.tasks[t := s.tasks[t].(order := s.tasks[t].order + [r])])
  }

  function SetRunningStep(s: State, c: CallId): State
    requires Enabled(s, SetRunning(c))
  {
    var SettingRunning(t, batch, r) := s.calls[c];
    MoveRun(MoveCall(s, c, Marking(t, batch)), r, Ready).(
      tasks := s.tasks[t := s.tasks[t].(running := true, holder := ByRun(r))])
  }

  function SetupThrowsStep(s: State, c: CallId): State
    requires Enabled(s, SetupThrows(c))
  {
    var t := s.calls[c].task;
    MoveCall(s, c, Failing(t)).(
      activeTaskLaunches := s.activeTaskLaunches - {t},
      tasks := s.tasks[t := s.tasks[t].(holder := Free)])
  }

  function MarkStep(s: State, c: CallId): State
    requires Enabled(s, Mark(c))
  {
    var Marking(t, batch) := s.calls[c];
    if batch == [] then DropCall(s, c)
    else
      var m := batch[0];
      MoveCall(s, c, Marking(t, batch[1..])).(
        pending := if m < |s.pending| then s.pending[m := s.pending[m].(delivered := true)] else s.pending)
  }

  function MirrorStep(s: State, r: RunId): State
    requires Enabled(s, Mirror(r))
  {
    var run := s.runs[r];
    var task := s.tasks[run.task];
    var message := run.log[|run.log| - 1];
    var n := |task.transcript| + 1;
    s.(runs := s.runs[r := run.(mirrored := run.mirrored + [message], phase := Ready)],
       tasks := s.tasks[run.task := task.(transcript := task.transcript + [Entry(n, r, message)], lastMessageSeq := n)])
  }

  function SettleStep(s: State, r: RunId): State
    requires Enabled(s, Settle(r))
  {
    var t := s.runs[r].task;
    MoveRun(s, r, Settled).(
      activeTaskLaunches := s.activeTaskLaunches - {t},
      tasks := s.tasks[t := s.tasks[t].(holder := Free)])
  }

  function Next(s: State, a: Action): State
    requires Enabled(s, a)
  {
    match a
    case CreateTask(t, c) =>
      MoveCall(s, c, Launching(t, [], Copied([]))).(tasks := s.tasks[t := Task(false, None, [], 0, [], Free)])
    case Enqueue(t) => s.(pending := s.pending + [Pending(t, false)])
    case BeginResume(c, t) => MoveCall(s, c, Resuming(t))
    case ReadTask(c) =>
      var t := s.calls[c].task;
      if s.tasks[t].running && s.tasks[t].activeRun.Some? then DropCall(s, c) else MoveCall(s, c, Reading(t))
    case ReadTranscript(c, live) =>
      var t := s.calls[c].task;
      MoveCall(s, c, ReadingPending(t, if live then Live else Copied(Messages(s.tasks[t].transcript))))
    case ReadPending(c) =>
      var ReadingPending(t, transcript) := s.calls[c];
      MoveCall(s, c, Launching(t, PendingIds(s.pending, t), transcript))
    case CallThrows(c) => DropCall(s, c)
    case Launch(c) => LaunchStep(s, c)
    case CreateRun(c, r) => CreateRunStep(s, c, r)
    case SetActive(c) =>
      var SettingActive(t, batch, r) := s.calls[c];
      MoveCall(s, c, SettingRunning(t, batch, r)).(tasks := s.tasks[t := s.tasks[t].(activeRun := Some(r))])
    case SetRunning(c) => SetRunningStep(s, c)
    case SetupThrows(c) => SetupThrowsStep(s, c)
    case SetFailed(c) =>
      var t := s.calls[c].task;
      DropCall(s, c).(tasks := s.tasks[t := s.tasks[t].(running := false)])
    case Mark(c) => MarkStep(s, c)
    case AppendToRun(r, m) =>
      s.(runs := s.runs[r := s.runs[r].(log := s.runs[r].log + [m], phase := Mirroring)])
    case AppendThrows(r) => MoveRun(s, r, Stopped)
    case Mirror(r) => MirrorStep(s, r)
    case MirrorThrows(r) => MoveRun(s, r, Stopped)
    case Settle(r) => SettleStep(s, r)
    case ClearActive(r) =>
      var t := s.runs[r].task;
      MoveRun(s, r, Cleared).(tasks := s.tasks[t := s.tasks[t].(activeRun := None)])
    case SetFinalStatus(r) =>
      var t := s.runs[r].task;
      MoveRun(s, r, Statused).(tasks := s.tasks[t := s.tasks[t].(running := false)])
    case ListPending(r, c) =>
      var t := s.runs[r].task;
      if PendingIds(s.pending, t) == [] then MoveRun(s, r, Over)
      else MoveRun(MoveCall(s, c, Resuming(t)), r, Over)
    case FinaliserThrows(r) => MoveRun(s, r, Over)
  }

  function Initial(): State {
    State({}, map[], map[], map[], [], {})
  }

  // The states of a run of the service.
  ghost predicate IsRun(states: seq<State>, actions: seq<Action>) {
    && |states| == |actions| + 1
    && states[0] == Initial()
    && forall i :: 0 <= i < |actions| ==> Enabled(states[i], actions[i]) && states[i + 1] == Next(states[i], actions[i])
  }

  // -------------------------------------------------------------------- the launch lock

  ghost predicate LockOk(s: State) {
    && (forall t :: t in s.activeTaskLaunches <==> t in s.tasks && !s.tasks[t].holder.Free?)
    && (forall c :: c in s.calls ==> CallOk(s, c))
    && (forall r :: r in s.runs ==> RunOk(s, r))
    && (forall t :: t in s.tasks ==> HolderOk(s, t))
  }

  ghost predicate CallOk(s: State, c: CallId)
    requires c in s.calls
  {
    var call := s.calls[c];
    call.task in s.tasks && (Holding(call) ==> s.tasks[call.task].holder == ByCall(c))
  }

  ghost predicate RunOk(s: State, r: RunId)
    requires r in s.runs
  {
    var run := s.runs[r];
    run.task in s.tasks && (InFlight(run) ==> s.tasks[run.task].holder == ByRun(r))
  }

  ghost predicate HolderOk(s: State, t: TaskId)
    requires t in s.tasks
  {
    match s.tasks[t].holder
    case Free => true
    case ByCall(c) => c in s.calls && Holding(s.calls[c]) && s.calls[c].task == t
    case ByRun(r) => r in s.runs && InFlight(s.runs[r]) && s.runs[r].task == t
  }
}

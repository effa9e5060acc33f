/**
  What every interleaving of the background task protocol keeps: the launch lock gives
  mutual exclusion, the transcript is a sequence of whole per-run blocks, and a message
  that is marked delivered was executed by a run or carried by a refused launch.
 */
module TaskSafety {
  import opened TaskProtocol

  // ------------------------------------------------------------------ mutual exclusion

  // The lock depends on the calls, runs and holders; updates of one record that leave
  // its part in the lock alone keep the invariant.

  lemma LockMoveCall(s: State, c: CallId, call: Call)
    requires LockOk(s) && call.task in s.tasks
    requires if c in s.calls && Holding(s.calls[c]) then Holding(call) && call.task == s.calls[c].task
             else !Holding(call)
    ensures LockOk(MoveCall(s, c, call))
  {
  }

  lemma LockDropCall(s: State, c: CallId)
    requires LockOk(s) && c in s.calls && !Holding(s.calls[c])
    ensures LockOk(DropCall(s, c))
  {
  }

  lemma LockPutRun(s: State, r: RunId, run: Run)
    requires LockOk(s) && run.task in s.tasks
    requires if r in s.runs then run.task == s.runs[r].task && InFlight(run) == InFlight(s.runs[r]) else !InFlight(run)
    ensures LockOk(s.(runs := s.runs[r := run]))
  {
  }

  lemma LockPutTask(s: State, t: TaskId, task: Task)
    requires LockOk(s) && (if t in s.tasks then task.holder == s.tasks[t].holder else task.holder.Free?)
    ensures LockOk(s.(tasks := s.tasks[t := task]))
  {
    var s' := s.(tasks := s.tasks[t := task]);
    assert forall c :: c in s.calls ==> CallOk(s, c) && CallOk(s', c);
    assert forall r :: r in s.runs ==> RunOk(s, r) && RunOk(s', r);
    forall k | k in s'.tasks ensures HolderOk(s', k) {
      assert k in s.tasks ==> HolderOk(s, k);
    }
  }

  lemma LockPending(s: State, pending: seq<Pending>)
    requires LockOk(s)
    ensures LockOk(s.(pending := pending))
  {
  }

  lemma LockLaunch(s: State, a: Action)
    requires LockOk(s) && Enabled(s, a) && a.Launch?
    ensures LockOk(Next(s, a))
  {
    var s' := Next(s, a);
    forall c | c in s'.calls ensures CallOk(s', c) {
      assert CallOk(s, c);
    }
    forall r | r in s'.runs ensures RunOk(s', r) {
      assert RunOk(s, r);
    }
    forall t | t in s'.tasks ensures HolderOk(s', t) {
      assert HolderOk(s, t);
    }
  }

  lemma LockSetRunning(s: State, a: Action)
    requires LockOk(s) && Enabled(s, a) && a.SetRunning?
    requires s.runs[s.calls[a.call].run].task == s.calls[a.call].task
    ensures LockOk(Next(s, a))
  {
    var s' := Next(s, a);
    assert CallOk(s, a.call);
    forall c | c in s'.calls ensures CallOk(s', c) {
      assert CallOk(s, c);
    }
    forall r | r in s'.runs ensures RunOk(s', r) {
      assert RunOk(s, r);
    }
    forall t | t in s'.tasks ensures HolderOk(s', t) {
      assert HolderOk(s, t);
    }
  }

  lemma LockSetupThrows(s: State, a: Action)
    requires LockOk(s) && Enabled(s, a) && a.SetupThrows?
    ensures LockOk(Next(s, a))
  {
    var s' := Next(s, a);
    assert CallOk(s, a.call);
    forall c | c in s'.calls ensures CallOk(s', c) {
      assert CallOk(s, c);
    }
    forall r | r in s'.runs ensures RunOk(s', r) {
      assert RunOk(s, r);
    }
    forall t | t in s'.tasks ensures HolderOk(s', t) {
      assert HolderOk(s, t);
    }
  }

  lemma LockSettle(s: State, a: Action)
    requires LockOk(s) && Enabled(s, a) && a.Settle?
    ensures LockOk(Next(s, a))
  {
    var s' := Next(s, a);
    assert RunOk(s, a.run);
    forall c | c in s'.calls ensures CallOk(s', c) {
      assert CallOk(s, c);
    }
    forall r | r in s'.runs ensures RunOk(s', r) {
      assert RunOk(s, r);
    }
    forall t | t in s'.tasks ensures HolderOk(s', t) {
      assert HolderOk(s, t);
    }
  }

  // ------------------------------------------------------------------- the transcript

  function Strip(entries: seq<Entry>): seq<(RunId, Message)> {
    if entries == [] then []
    else Strip(entries[..|entries| - 1]) + [(entries[|entries| - 1].source, entries[|entries| - 1].message)]
  }

  function Tag(r: RunId, messages: seq<Message>): seq<(RunId, Message)> {
    if messages == [] then [] else Tag(r, messages[..|messages| - 1]) + [(r, messages[|messages| - 1])]
  }

  // The mirrored parts of the runs, one whole block after the other.
  function Blocks(runs: map<RunId, Run>, order: seq<RunId>): seq<(RunId, Message)> {
    if order == [] then []
    else
      var r := order[|order| - 1];
      Blocks(runs, order[..|order| - 1]) + (if r in runs then Tag(r, runs[r].mirrored) else [])
  }

  ghost predicate Last(order: seq<RunId>, r: RunId) {
    order != [] && order[|order| - 1] == r
  }

  ghost predicate Numbered(task: Task) {
    && task.lastMessageSeq == |task.transcript|
    && forall i :: 0 <= i < |task.transcript| ==> task.transcript[i].seqNo == i + 1
  }

  // A run's block is its log, or lacks only the last message; it lacks one only while
  // that message is being mirrored or after an append threw.
  ghost predicate BlockOk(run: Run) {
    && run.mirrored <= run.log && |run.log| <= |run.mirrored| + 1
    && (run.phase.Ready? ==> run.log == run.mirrored)
    && (run.phase.SettingUp? ==> run.log == [])
    && (run.phase.Mirroring? ==> |run.log| == |run.mirrored| + 1)
  }

  ghost predicate OrderOk(runs: map<RunId, Run>, order: seq<RunId>, t: TaskId) {
    && (forall i :: 0 <= i < |order| ==> order[i] in runs && runs[order[i]].task == t)
    && (forall i, j :: 0 <= i < j < |order| ==> order[i] != order[j])
  }

  ghost predicate TranscriptOk(runs: map<RunId, Run>, task: Task, t: TaskId) {
    && Numbered(task)
    && OrderOk(runs, task.order, t)
    && Strip(task.transcript) == Blocks(runs, task.order)
    && (task.holder.ByRun? ==> Last(task.order, task.holder.run))
  }

  // A launch in progress works on the task's latest run.
  ghost predicate SetupOk(s: State, c: CallId)
    requires c in s.calls
  {
    var call := s.calls[c];
    call.SettingActive? || call.SettingRunning? ==>
      && call.task in s.tasks && Last(s.tasks[call.task].order, call.run)
      && call.run in s.runs && s.runs[call.run].phase.SettingUp?
      && s.runs[call.run].task == call.task && s.runs[call.run].input == call.batch
  }

  ghost predicate AllTranscripts(runs: map<RunId, Run>, tasks: map<TaskId, Task>) {
    forall t :: t in tasks ==> TranscriptOk(runs, tasks[t], t)
  }

  ghost predicate AllBlocks(runs: map<RunId, Run>) {
    forall r :: r in runs ==> BlockOk(runs[r])
  }

  // Every run is in its task's launch order.
  ghost predicate AllListed(runs: map<RunId, Run>, tasks: map<TaskId, Task>) {
    forall r :: r in runs ==> runs[r].task in tasks && r in tasks[runs[r].task].order
  }

  ghost predicate AllSetup(s: State) {
    forall c :: c in s.calls ==> SetupOk(s, c)
  }

  lemma {:induction false} BlocksFrame(runs: map<RunId, Run>, runs': map<RunId, Run>, order: seq<RunId>)
    requires forall i :: 0 <= i < |order| ==>
               order[i] in runs && order[i] in runs' && runs'[order[i]].mirrored == runs[order[i]].mirrored
    ensures Blocks(runs', order) == Blocks(runs, order)
  {
    if order != [] {
      BlocksFrame(runs, runs', order[..|order| - 1]);
    }
  }

  // Runs keep their task and their mirrored part.
  ghost predicate SameBlocks(runs: map<RunId, Run>, runs': map<RunId, Run>) {
    forall r :: r in runs ==> r in runs' && runs'[r].task == runs[r].task && runs'[r].mirrored == runs[r].mirrored
  }

  lemma TranscriptFrame(runs: map<RunId, Run>, runs': map<RunId, Run>, task: Task, task': Task, t: TaskId)
    requires TranscriptOk(runs, task, t) && SameBlocks(runs, runs') && TaskKept(task, task')
    ensures TranscriptOk(runs', task', t)
  {
    BlocksFrame(runs, runs', task.order);
  }

  // A task record that keeps its transcript and its runs.
  ghost predicate TaskKept(task: Task, task': Task) {
    && task'.transcript == task.transcript
    && task'.lastMessageSeq == task.lastMessageSeq
    && task'.order == task.order
    && (task'.holder.ByRun? ==> task'.holder == task.holder || Last(task.order, task'.holder.run))
  }

  ghost predicate TasksKept(tasks: map<TaskId, Task>, tasks': map<TaskId, Task>) {
    tasks'.Keys == tasks.Keys && forall t :: t in tasks ==> TaskKept(tasks[t], tasks'[t])
  }

  lemma BlocksNewRun(runs: map<RunId, Run>, order: seq<RunId>, r: RunId)
    requires r in runs && runs[r].mirrored == []
    ensures Blocks(runs, order + [r]) == Blocks(runs, order)
  {
  }

  lemma OrderNewRun(runs: map<RunId, Run>, order: seq<RunId>, t: TaskId, r: RunId, run: Run)
    requires OrderOk(runs, order, t) && r !in runs && run.task == t
    ensures OrderOk(runs[r := run], order + [r], t)
  {
  }

  // A new run starts an empty block.
  lemma TranscriptNewRun(runs: map<RunId, Run>, task: Task, t: TaskId, r: RunId, run: Run)
    requires TranscriptOk(runs, task, t) && !task.holder.ByRun?
    requires r !in runs && run.task == t && run.mirrored == []
    ensures TranscriptOk(runs[r := run], task.(order := task.order + [r]), t)
  {
    BlocksFrame(runs, runs[r := run], task.order);
    BlocksNewRun(runs[r := run], task.order, r);
    OrderNewRun(runs, task.order, t, r, run);
  }

  lemma BlocksMirror(runs: map<RunId, Run>, order: seq<RunId>, t: TaskId, r: RunId, run': Run, m: Message)
    requires OrderOk(runs, order, t) && r in runs && Last(order, r) && run'.mirrored == runs[r].mirrored + [m]
    ensures Blocks(runs[r := run'], order) == Blocks(runs, order) + [(r, m)]
  {
    var front := order[..|order| - 1];
    BlocksFrame(runs, runs[r := run'], front);
    assert run'.mirrored[..|runs[r].mirrored|] == runs[r].mirrored;
    assert Tag(r, run'.mirrored) == Tag(r, runs[r].mirrored) + [(r, m)];
  }

  lemma StripAppend(entries: seq<Entry>, e: Entry)
    ensures Strip(entries + [e]) == Strip(entries) + [(e.source, e.message)]
  {
  }

  // Mirroring extends the block of the latest run.
  lemma TranscriptMirror(runs: map<RunId, Run>, task: Task, task': Task, t: TaskId, r: RunId, run': Run, m: Message)
    requires TranscriptOk(runs, task, t) && r in runs && Last(task.order, r)
    requires run'.task == t && run'.mirrored == runs[r].mirrored + [m]
    requires task' == task.(transcript := task.transcript + [Entry(|task.transcript| + 1, r, m)],
                            lastMessageSeq := |task.transcript| + 1)
    ensures TranscriptOk(runs[r := run'], task', t)
  {
    BlocksMirror(runs, task.order, t, r, run', m);
    StripAppend(task.transcript, Entry(|task.transcript| + 1, r, m));
    assert OrderOk(runs[r := run'], task'.order, t);
  }

  // ------------------------------------------------------ transcripts, step by step

  // All steps but three leave every block, transcript and launch order alone.
  predicate Quiet(a: Action) {
    !a.CreateTask? && !a.CreateRun? && !a.Mirror?
  }

  // Steps that touch neither tasks nor runs.
  predicate OfCall(a: Action) {
    a.Enqueue? || a.BeginResume? || a.ReadTask? || a.ReadTranscript? || a.ReadPending? || a.CallThrows? || a.Mark?
  }

  // Steps of an execution or its finaliser.
  predicate OfRun(a: Action) {
    a.AppendToRun? || a.AppendThrows? || a.Mirror? || a.MirrorThrows? || a.Settle?
    || a.ClearActive? || a.SetFinalStatus? || a.ListPending? || a.FinaliserThrows?
  }

  ghost predicate Undisturbed(s: State, s': State) {
    TasksKept(s.tasks, s'.tasks) && SameBlocks(s.runs, s'.runs) && s'.runs.Keys == s.runs.Keys
  }

  lemma QuietCalls(s: State, a: Action)
    requires Enabled(s, a) && OfCall(a)
    ensures Undisturbed(s, Next(s, a))
  {
    assert Next(s, a).tasks == s.tasks && Next(s, a).runs == s.runs;
  }

  lemma QuietLaunch(s: State, a: Action)
    requires Enabled(s, a) && (a.Launch? || a.SetActive? || a.SetRunning? || a.SetupThrows? || a.SetFailed?)
    requires a.SetRunning? ==> Last(s.tasks[s.calls[a.call].task].order, s.calls[a.call].run)
    ensures Undisturbed(s, Next(s, a))
  {
  }

  lemma QuietRuns(s: State, a: Action)
    requires Enabled(s, a) && OfRun(a) && !a.Mirror?
    ensures Undisturbed(s, Next(s, a))
  {
    var s', t := Next(s, a), s.runs[a.run].task;
    assert s'.runs == s.runs[a.run := s'.runs[a.run]];
    assert s'.tasks == s.tasks[t := s'.tasks[t]];
    assert s'.runs[a.run].task == t && s'.runs[a.run].mirrored == s.runs[a.run].mirrored;
    assert TaskKept(s.tasks[t], s'.tasks[t]);
  }

  lemma QuietSteps(s: State, a: Action)
    requires Enabled(s, a) && Quiet(a)
    requires a.SetRunning? ==> Last(s.tasks[s.calls[a.call].task].order, s.calls[a.call].run)
    ensures Undisturbed(s, Next(s, a))
  {
    if OfCall(a) {
      QuietCalls(s, a);
    } else if a.Launch? || a.SetActive? || a.SetRunning? || a.SetupThrows? || a.SetFailed? {
      QuietLaunch(s, a);
    } else {
      QuietRuns(s, a);
    }
  }

  lemma QuietTranscripts(s: State, a: Action)
    requires AllTranscripts(s.runs, s.tasks) && Enabled(s, a) && Quiet(a)
    requires a.SetRunning? ==> Last(s.tasks[s.calls[a.call].task].order, s.calls[a.call].run)
    ensures AllTranscripts(Next(s, a).runs, Next(s, a).tasks)
  {
    QuietSteps(s, a);
    TranscriptsFrame(s.runs, s.tasks, Next(s, a).runs, Next(s, a).tasks);
  }

  lemma TranscriptsFrame(
    runs: map<RunId, Run>, tasks: map<TaskId, Task>, runs': map<RunId, Run>, tasks': map<TaskId, Task>)
    requires AllTranscripts(runs, tasks)
    requires TasksKept(tasks, tasks') && SameBlocks(runs, runs') && runs'.Keys == runs.Keys
    ensures AllTranscripts(runs', tasks')
  {
    forall t | t in tasks' ensures TranscriptOk(runs', tasks'[t], t) {
      TranscriptFrame(runs, runs', tasks[t], tasks'[t], t);
    }
  }

  lemma CreateTaskTranscripts(s: State, a: Action)
    requires AllTranscripts(s.runs, s.tasks) && Enabled(s, a) && a.CreateTask?
    ensures AllTranscripts(Next(s, a).runs, Next(s, a).tasks)
  {
  }

  lemma CreateRunAll(runs: map<RunId, Run>, tasks: map<TaskId, Task>, k: TaskId, r: RunId, run: Run)
    requires AllTranscripts(runs, tasks)
    requires k in tasks && !tasks[k].holder.ByRun? && r !in runs && run.task == k && run.mirrored == []
    ensures var tasks' := tasks[k := tasks[k].(order := tasks[k].order + [r])];
            AllTranscripts(runs[r := run], tasks')
  {
    var runs' := runs[r := run];
    TranscriptNewRun(runs, tasks[k], k, r, run);
    forall t | t in tasks && t != k ensures TranscriptOk(runs', tasks[t], t) {
      NewRunElsewhere(runs, tasks[t], t, r, run);
    }
  }

  lemma NewRunElsewhere(runs: map<RunId, Run>, task: Task, t: TaskId, r: RunId, run: Run)
    requires TranscriptOk(runs, task, t) && r !in runs
    ensures TranscriptOk(runs[r := run], task, t)
  {
    assert SameBlocks(runs, runs[r := run]);
    TranscriptFrame(runs, runs[r := run], task, task, t);
  }

  lemma CreateRunTranscripts(s: State, a: Action)
    requires AllTranscripts(s.runs, s.tasks) && Enabled(s, a) && a.CreateRun?
    requires !s.tasks[s.calls[a.call].task].holder.ByRun?
    ensures AllTranscripts(Next(s, a).runs, Next(s, a).tasks)
  {
    CreateRunAll(s.runs, s.tasks, s.calls[a.call].task, a.run, Next(s, a).runs[a.run]);
  }

  lemma MirrorAll(runs: map<RunId, Run>, tasks: map<TaskId, Task>, r: RunId, run': Run, task': Task, m: Message)
    requires AllTranscripts(runs, tasks) && r in runs && runs[r].task in tasks
    requires tasks[runs[r].task].holder == ByRun(r)
    requires run'.task == runs[r].task && run'.mirrored == runs[r].mirrored + [m]
    requires var task := tasks[runs[r].task];
             task' == task.(transcript := task.transcript + [Entry(|task.transcript| + 1, r, m)],
                            lastMessageSeq := |task.transcript| + 1)
    ensures AllTranscripts(runs[r := run'], tasks[runs[r].task := task'])
  {
    var k, runs' := runs[r].task, runs[r := run'];
    var tasks' := tasks[k := task'];
    assert TranscriptOk(runs, tasks[k], k);
    TranscriptMirror(runs, tasks[k], task', k, r, run', m);
    forall t | t in tasks' ensures TranscriptOk(runs', tasks'[t], t) {
      if t != k {
        MirrorElsewhere(runs, runs', tasks[t], t, r);
      }
    }
  }

  // What mirroring changes: one run and its task.
  lemma MirrorUpdate(s: State, a: Action) returns (run': Run, task': Task, m: Message)
    requires Enabled(s, a) && a.Mirror?
    ensures var run, task := s.runs[a.run], s.tasks[s.runs[a.run].task];
            && run'.task == run.task && run'.mirrored == run.mirrored + [m]
            && task' == task.(transcript := task.transcript + [Entry(|task.transcript| + 1, a.run, m)],
                              lastMessageSeq := |task.transcript| + 1)
    ensures Next(s, a).runs == s.runs[a.run := run'] && Next(s, a).tasks == s.tasks[s.runs[a.run].task := task']
  {
    run', task' := Next(s, a).runs[a.run], Next(s, a).tasks[s.runs[a.run].task];
    m := s.runs[a.run].log[|s.runs[a.run].log| - 1];
  }

  lemma MirrorTranscripts(s: State, a: Action)
    requires AllTranscripts(s.runs, s.tasks) && Enabled(s, a) && a.Mirror?
    requires s.tasks[s.runs[a.run].task].holder == ByRun(a.run)
    ensures AllTranscripts(Next(s, a).runs, Next(s, a).tasks)
  {
    var run', task', m := MirrorUpdate(s, a);
    MirrorAll(s.runs, s.tasks, a.run, run', task', m);
  }

  // The transcript of a task that the run does not belong to.
  lemma MirrorElsewhere(runs: map<RunId, Run>, runs': map<RunId, Run>, task: Task, t: TaskId, r: RunId)
    requires TranscriptOk(runs, task, t) && r in runs && runs[r].task != t
    requires r in runs' && runs' == runs[r := runs'[r]]
    ensures TranscriptOk(runs', task, t)
  {
    BlocksFrame(runs, runs', task.order);
  }

  lemma ListedKept(s: State, a: Action)
    requires AllListed(s.runs, s.tasks) && Enabled(s, a)
    requires a.SetRunning? ==> Last(s.tasks[s.calls[a.call].task].order, s.calls[a.call].run)
    ensures AllListed(Next(s, a).runs, Next(s, a).tasks)
  {
    var s' := Next(s, a);
    if Quiet(a) {
      QuietSteps(s, a);
      forall r | r in s'.runs ensures s'.runs[r].task in s'.tasks && r in s'.tasks[s'.runs[r].task].order {
        assert TaskKept(s.tasks[s.runs[r].task], s'.tasks[s.runs[r].task]);
      }
    } else if a.CreateRun? {
      var t := s.calls[a.call].task;
      assert s'.tasks[t].order[|s.tasks[t].order|] == a.run;
    }
  }

  lemma BlocksOfRuns(s: State, a: Action)
    requires AllBlocks(s.runs) && Enabled(s, a) && OfRun(a)
    ensures AllBlocks(Next(s, a).runs)
  {
    var s' := Next(s, a);
    assert BlockOk(s.runs[a.run]) && BlockOk(s'.runs[a.run]);
    assert s'.runs == s.runs[a.run := s'.runs[a.run]];
  }

  lemma BlocksKept(s: State, a: Action)
    requires AllBlocks(s.runs) && Enabled(s, a)
    requires a.SetRunning? ==> s.runs[s.calls[a.call].run].phase.SettingUp?
    ensures AllBlocks(Next(s, a).runs)
  {
    if OfRun(a) {
      BlocksOfRuns(s, a);
    } else if a.SetRunning? {
      assert BlockOk(s.runs[s.calls[a.call].run]);
    } else if !a.CreateRun? {
      assert Next(s, a).runs == s.runs;
    }
  }

  // A call's own run is untouched by the steps of others.
  lemma SetupFrame(s: State, s': State, c: CallId)
    requires c in s.calls && SetupOk(s, c) && c in s'.calls && s'.calls[c] == s.calls[c]
    requires forall t :: t in s.tasks ==> t in s'.tasks && s'.tasks[t].order == s.tasks[t].order
    requires forall r :: r in s.runs && s.runs[r].phase.SettingUp? ==> r in s'.runs && s'.runs[r] == s.runs[r]
    ensures SetupOk(s', c)
  {
  }

  lemma SetupOfCalls(s: State, a: Action)
    requires AllSetup(s) && Enabled(s, a)
    requires a.CreateTask? || OfCall(a) || a.Launch?
    ensures AllSetup(Next(s, a))
  {
    var s' := Next(s, a);
    assert s'.runs == s.runs;
    forall c | c in s'.calls ensures SetupOk(s', c) {
      if c in s.calls && s'.calls[c] == s.calls[c] {
        SetupFrame(s, s', c);
      }
    }
  }

  lemma SetupOfLaunch(s: State, a: Action)
    requires AllSetup(s) && LockOk(s) && Enabled(s, a)
    requires a.CreateRun? || a.SetActive? || a.SetRunning? || a.SetupThrows? || a.SetFailed?
    ensures AllSetup(Next(s, a))
  {
    var s' := Next(s, a);
    assert CallOk(s, a.call);
    forall c | c in s'.calls ensures SetupOk(s', c) {
      assert SetupOk(s, c) && CallOk(s, c);
    }
  }

  lemma SetupOfRuns(s: State, a: Action)
    requires AllSetup(s) && Enabled(s, a) && OfRun(a)
    ensures AllSetup(Next(s, a))
  {
    var s' := Next(s, a);
    assert !s.runs[a.run].phase.SettingUp?;
    forall c | c in s'.calls ensures SetupOk(s', c) {
      if c in s.calls {
        SetupFrame(s, s', c);
      }
    }
  }

  // ---------------------------------------------------------------- delivered messages

  // The run was handed to executeRunRequest with the message in its input.
  predicate Executes(run: Run, m: MessageId) {
    m in run.input && !run.phase.SettingUp?
  }

  ghost predicate Executed(runs: map<RunId, Run>, m: MessageId) {
    exists r :: r in runs && Executes(runs[r], m)
  }

  ghost predicate Covered(s: State, m: MessageId) {
    Executed(s.runs, m) || m in s.refused
  }

  ghost predicate BatchCovered(s: State, c: CallId)
    requires c in s.calls
  {
    s.calls[c].Marking? ==> forall i :: 0 <= i < |s.calls[c].batch| ==> Covered(s, s.calls[c].batch[i])
  }

  ghost predicate DeliveryOk(s: State) {
    && (forall m :: 0 <= m < |s.pending| && s.pending[m].delivered ==> Covered(s, m))
    && (forall c :: c in s.calls ==> BatchCovered(s, c))
  }

  // Runs are never dropped or set up again, their inputs never change, refusals are never
  // forgotten.
  ghost predicate CoverGrows(s: State, s': State) {
    && (forall r :: r in s.runs ==>
          r in s'.runs && s'.runs[r].input == s.runs[r].input
          && (s'.runs[r].phase.SettingUp? ==> s.runs[r].phase.SettingUp?))
    && s.refused <= s'.refused
  }

  lemma CoverKept(s: State, s': State, m: MessageId)
    requires CoverGrows(s, s') && Covered(s, m)
    ensures Covered(s', m)
  {
    if Executed(s.runs, m) {
      var r :| r in s.runs && Executes(s.runs[r], m);
      assert r in s'.runs && Executes(s'.runs[r], m);
    }
  }

  lemma CoverOfCalls(s: State, a: Action)
    requires Enabled(s, a) && !OfRun(a)
    ensures CoverGrows(s, Next(s, a))
  {
  }

  lemma CoverOfRuns(s: State, a: Action)
    requires Enabled(s, a) && OfRun(a)
    ensures CoverGrows(s, Next(s, a))
  {
    var s' := Next(s, a);
    assert s'.refused == s.refused && s'.runs == s.runs[a.run := s'.runs[a.run]];
  }

  lemma CallsOfRuns(s: State, a: Action)
    requires Enabled(s, a) && OfRun(a)
    ensures Next(s, a).pending == s.pending
    ensures forall c :: c in Next(s, a).calls ==>
              Next(s, a).calls[c].Resuming? || (c in s.calls && Next(s, a).calls[c] == s.calls[c])
  {
  }

  lemma DeliveryFrame(s: State, s': State)
    requires DeliveryOk(s) && CoverGrows(s, s')
    requires forall m :: 0 <= m < |s'.pending| && s'.pending[m].delivered ==>
               (m < |s.pending| && s.pending[m].delivered) || Covered(s', m)
    requires forall c :: c in s'.calls ==> (c in s.calls && s'.calls[c] == s.calls[c]) || BatchCovered(s', c)
    ensures DeliveryOk(s')
  {
    forall m | 0 <= m < |s'.pending| && s'.pending[m].delivered ensures Covered(s', m) {
      if !Covered(s', m) {
        CoverKept(s, s', m);
      }
    }
    forall c | c in s'.calls ensures BatchCovered(s', c) {
      if c in s.calls && s'.calls[c] == s.calls[c] && s.calls[c].Marking? {
        assert BatchCovered(s, c);
        forall i | 0 <= i < |s.calls[c].batch| ensures Covered(s', s.calls[c].batch[i]) {
          CoverKept(s, s', s.calls[c].batch[i]);
        }
      }
    }
  }

  lemma DeliveryMark(s: State, a: Action)
    requires DeliveryOk(s) && Enabled(s, a) && a.Mark?
    ensures DeliveryOk(Next(s, a))
  {
    var s', batch := Next(s, a), s.calls[a.call].batch;
    assert BatchCovered(s, a.call);
    assert s'.runs == s.runs && s'.refused == s.refused;
    if batch != [] {
      assert Covered(s, batch[0]) && Covered(s', batch[0]);
      forall i | 0 <= i < |batch[1..]| ensures Covered(s', batch[1..][i]) {
        assert Covered(s, batch[i + 1]);
      }
      assert BatchCovered(s', a.call);
    }
    DeliveryFrame(s, s');
  }

  lemma DeliveryLaunch(s: State, a: Action)
    requires DeliveryOk(s) && Enabled(s, a) && a.Launch?
    ensures DeliveryOk(Next(s, a))
  {
    var s', batch := Next(s, a), s.calls[a.call].batch;
    CoverOfCalls(s, a);
    forall i | 0 <= i < |batch| && s'.calls[a.call].Marking? ensures Covered(s', batch[i]) {
      assert batch[i] in s'.refused;
    }
    assert BatchCovered(s', a.call);
    DeliveryFrame(s, s');
  }

  lemma DeliverySetRunning(s: State, a: Action)
    requires DeliveryOk(s) && AllSetup(s) && Enabled(s, a) && a.SetRunning?
    ensures DeliveryOk(Next(s, a))
  {
    var s', call := Next(s, a), s.calls[a.call];
    CoverOfCalls(s, a);
    assert SetupOk(s, a.call);
    assert s'.runs[call.run].input == call.batch;
    forall i | 0 <= i < |call.batch| ensures Covered(s', call.batch[i]) {
      assert call.run in s'.runs && Executes(s'.runs[call.run], call.batch[i]);
    }
    assert BatchCovered(s', a.call);
    DeliveryFrame(s, s');
  }

  lemma DeliveryOther(s: State, a: Action)
    requires DeliveryOk(s) && Enabled(s, a) && !OfRun(a) && !a.Mark? && !a.Launch? && !a.SetRunning?
    ensures DeliveryOk(Next(s, a))
  {
    CoverOfCalls(s, a);
    DeliveryFrame(s, Next(s, a));
  }

  lemma DeliveryKept(s: State, a: Action)
    requires DeliveryOk(s) && AllSetup(s) && Enabled(s, a)
    ensures DeliveryOk(Next(s, a))
  {
    if OfRun(a) {
      CoverOfRuns(s, a);
      CallsOfRuns(s, a);
      DeliveryFrame(s, Next(s, a));
    } else if a.Mark? {
      DeliveryMark(s, a);
    } else if a.Launch? {
      DeliveryLaunch(s, a);
    } else if a.SetRunning? {
      DeliverySetRunning(s, a);
    } else {
      DeliveryOther(s, a);
    }
  }

  // There is always another run id.
  lemma {:induction false} FreshRun(used: set<RunId>) returns (unused: nat)
    ensures forall k :: k in used ==> k < unused
    decreases used
  {
    if used == {} {
      unused := 0;
    } else {
      var k :| k in used;
      unused := FreshRun(used - {k});
      assert forall j :: j in used ==> j == k || j in used - {k};
      if unused <= k {
        unused := k + 1;
      }
    }
  }

  // --------------------------------------------------------------- every reachable state

  ghost predicate Inv(s: State) {
    && LockOk(s)
    && AllTranscripts(s.runs, s.tasks) && AllBlocks(s.runs) && AllListed(s.runs, s.tasks)
    && AllSetup(s) && DeliveryOk(s)
  }

  lemma LockKept(s: State, a: Action)
    requires LockOk(s) && AllSetup(s) && Enabled(s, a)
    ensures LockOk(Next(s, a))
  {
    if a.Launch? {
      LockLaunch(s, a);
    } else if a.SetRunning? {
      assert SetupOk(s, a.call);
      LockSetRunning(s, a);
    } else if a.SetupThrows? {
      LockSetupThrows(s, a);
    } else if a.Settle? {
      LockSettle(s, a);
    } else if OfRun(a) {
      LockOfRuns(s, a);
    } else {
      LockOfCalls(s, a);
    }
  }

  // All other steps leave the holders alone.
  lemma LockOfCalls(s: State, a: Action)
    requires LockOk(s) && Enabled(s, a) && (OfCall(a) || a.CreateTask? || a.CreateRun? || a.SetActive? || a.SetFailed?)
    ensures LockOk(Next(s, a))
  {
    var s' := Next(s, a);
    if a.CreateTask? {
      LockPutTask(s, a.task, s'.tasks[a.task]);
      LockMoveCall(s.(tasks := s'.tasks), a.call, s'.calls[a.call]);
    } else if a.Enqueue? {
      LockPending(s, s'.pending);
    } else if a.CreateRun? {
      var t := s.calls[a.call].task;
      LockMoveCall(s, a.call, s'.calls[a.call]);
      LockPutRun(s.(calls := s'.calls), a.run, s'.runs[a.run]);
      LockPutTask(s.(calls := s'.calls, runs := s'.runs), t, s'.tasks[t]);
    } else if a.SetActive? {
      var t := s.calls[a.call].task;
      LockMoveCall(s, a.call, s'.calls[a.call]);
      LockPutTask(s.(calls := s'.calls), t, s'.tasks[t]);
    } else if a.SetFailed? {
      var t := s.calls[a.call].task;
      LockDropCall(s, a.call);
      LockPutTask(s.(calls := s'.calls), t, s'.tasks[t]);
    } else {
      LockPending(s, s'.pending);
      LockCallOnly(s.(pending := s'.pending), a.call, s');
    }
  }

  lemma LockCallOnly(s: State, c: CallId, s': State)
    requires LockOk(s) && (c in s.calls ==> !Holding(s.calls[c]))
    requires (c in s.calls && s' == DropCall(s, c))
             || (c in s'.calls && s'.calls[c].task in s.tasks && !Holding(s'.calls[c])
                 && s' == MoveCall(s, c, s'.calls[c]))
    ensures LockOk(s')
  {
  }

  lemma LockOfRuns(s: State, a: Action)
    requires LockOk(s) && Enabled(s, a) && OfRun(a) && !a.Settle?
    ensures LockOk(Next(s, a))
  {
    var s', t := Next(s, a), s.runs[a.run].task;
    LockPutRun(s, a.run, s'.runs[a.run]);
    var ran := s.(runs := s'.runs);
    if a.ListPending? {
      if s' != ran {
        LockMoveCall(ran, a.call, Resuming(t));
      }
    } else if s' != ran {
      LockPutTask(ran, t, s'.tasks[t]);
    }
  }

  lemma SetupKept(s: State, a: Action)
    requires AllSetup(s) && LockOk(s) && Enabled(s, a)
    ensures AllSetup(Next(s, a))
  {
    if OfRun(a) {
      SetupOfRuns(s, a);
    } else if a.CreateRun? || a.SetActive? || a.SetRunning? || a.SetupThrows? || a.SetFailed? {
      SetupOfLaunch(s, a);
    } else {
      SetupOfCalls(s, a);
    }
  }

  lemma TranscriptsKept(s: State, a: Action)
    requires LockOk(s) && AllSetup(s) && AllTranscripts(s.runs, s.tasks) && Enabled(s, a)
    ensures AllTranscripts(Next(s, a).runs, Next(s, a).tasks)
  {
    if a.CreateTask? {
      CreateTaskTranscripts(s, a);
    } else if a.CreateRun? {
      assert CallOk(s, a.call);
      CreateRunTranscripts(s, a);
    } else if a.Mirror? {
      assert RunOk(s, a.run);
      MirrorTranscripts(s, a);
    } else {
      if a.SetRunning? {
        assert SetupOk(s, a.call);
      }
      QuietTranscripts(s, a);
    }
  }

  lemma InvKept(s: State, a: Action)
    requires Inv(s) && Enabled(s, a)
    ensures Inv(Next(s, a))
  {
    LockKept(s, a);
    SetupKept(s, a);
    TranscriptsKept(s, a);
    DeliveryKept(s, a);
    if a.SetRunning? {
      assert SetupOk(s, a.call);
    }
    BlocksKept(s, a);
    ListedKept(s, a);
  }

  lemma {:induction false} RunInv(states: seq<State>, actions: seq<Action>, n: nat)
    requires IsRun(states, actions) && n < |states|
    ensures Inv(states[n])
  {
    if n > 0 {
      RunInv(states, actions, n - 1);
      InvKept(states[n - 1], actions[n - 1]);
    }
  }

  // At most one executeRunRequest is in flight per task, and none during a launch.
  lemma OneExecutionPerTask(states: seq<State>, actions: seq<Action>, n: nat, r: RunId)
    requires IsRun(states, actions) && n < |states| && r in states[n].runs && InFlight(states[n].runs[r])
    ensures forall q :: q in states[n].runs && InFlight(states[n].runs[q])
              && states[n].runs[q].task == states[n].runs[r].task
              ==> q == r
    ensures forall c :: c in states[n].calls && states[n].calls[c].task == states[n].runs[r].task ==>
              !Holding(states[n].calls[c])
  {
    RunInv(states, actions, n);
    var s := states[n];
    assert RunOk(s, r);
    forall q | q in s.runs && InFlight(s.runs[q]) && s.runs[q].task == s.runs[r].task ensures q == r {
      assert RunOk(s, q);
    }
    forall c | c in s.calls && s.calls[c].task == s.runs[r].task ensures !Holding(s.calls[c]) {
      assert CallOk(s, c);
    }
  }

  // The lock is held exactly from the admission of a launch until its execution settles
  // or its setup throws.
  lemma LockIsExact(states: seq<State>, actions: seq<Action>, n: nat, t: TaskId)
    requires IsRun(states, actions) && n < |states|
    ensures var s := states[n];
            t in s.activeTaskLaunches
            <==> (exists c :: c in s.calls && Holding(s.calls[c]) && s.calls[c].task == t)
                 || (exists r :: r in s.runs && InFlight(s.runs[r]) && s.runs[r].task == t)
  {
    RunInv(states, actions, n);
    var s := states[n];
    if t in s.activeTaskLaunches {
      assert HolderOk(s, t);
    }
    forall c | c in s.calls && Holding(s.calls[c]) && s.calls[c].task == t ensures t in s.activeTaskLaunches {
      assert CallOk(s, c);
    }
    forall r | r in s.runs && InFlight(s.runs[r]) && s.runs[r].task == t ensures t in s.activeTaskLaunches {
      assert RunOk(s, r);
    }
  }

  // A task's transcript is the blocks of its runs in launch order, numbered 1..n, each
  // block a run's log or that log without its last message.
  lemma TranscriptIsBlocks(states: seq<State>, actions: seq<Action>, n: nat, t: TaskId)
    requires IsRun(states, actions) && n < |states| && t in states[n].tasks
    ensures var s, task := states[n], states[n].tasks[t];
            && Strip(task.transcript) == Blocks(s.runs, task.order)
            && Numbered(task)
            && (forall r :: r in s.runs && s.runs[r].task == t ==> r in task.order && BlockOk(s.runs[r]))
            && OrderOk(s.runs, task.order, t)
  {
    RunInv(states, actions, n);
    assert TranscriptOk(states[n].runs, states[n].tasks[t], t);
  }
}

/**
  The history that a resumed run is given: the transcript as a store hands it out, which
  is a copy or the store's own list. Other launches may come between a copy and the run,
  so a run need not see all that precedes it; what it sees is a prefix of the blocks of
  the runs before it, and all of them when the store hands out its own list.
 */
module TaskHistory {
  import opened TaskProtocol
  import opened TaskSafety
  import RunExecution

  type Describe = seq<string> -> string

  // The mirrored messages of the runs, one run after the other.
  function Logs(runs: map<RunId, Run>, order: seq<RunId>): seq<Message> {
    if order == [] then []
    else
      var r := order[|order| - 1];
      Logs(runs, order[..|order| - 1]) + (if r in runs then runs[r].mirrored else [])
  }

  // What the model is shown of them, run by run.
  function Rendered(runs: map<RunId, Run>, order: seq<RunId>, describe: Describe): seq<RunExecution.ModelMessage> {
    if order == [] then []
    else
      var r := order[|order| - 1];
      Rendered(runs, order[..|order| - 1], describe)
      + (if r in runs then RunExecution.ModelHistory(runs[r].mirrored, describe) else [])
  }

  function Texts(tagged: seq<(RunId, Message)>): seq<Message> {
    if tagged == [] then [] else Texts(tagged[..|tagged| - 1]) + [tagged[|tagged| - 1].1]
  }

  lemma {:induction false} TextsConcat(a: seq<(RunId, Message)>, b: seq<(RunId, Message)>)
    ensures Texts(a + b) == Texts(a) + Texts(b)
    decreases |b|
  {
    if b == [] {
      assert a + b == a;
    } else {
      var front := b[..|b| - 1];
      TextsConcat(a, front);
      assert (a + b)[..|a + b| - 1] == a + front;
    }
  }

  lemma {:induction false} TextsOfTag(r: RunId, messages: seq<Message>)
    ensures Texts(Tag(r, messages)) == messages
  {
    if messages != [] {
      var front, last := messages[..|messages| - 1], messages[|messages| - 1];
      TextsOfTag(r, front);
      assert Tag(r, messages)[..|Tag(r, front)|] == Tag(r, front);
    }
  }

  lemma {:induction false} TextsOfBlocks(runs: map<RunId, Run>, order: seq<RunId>)
    ensures Texts(Blocks(runs, order)) == Logs(runs, order)
  {
    if order != [] {
      var front, r := order[..|order| - 1], order[|order| - 1];
      TextsOfBlocks(runs, front);
      if r in runs {
        TextsConcat(Blocks(runs, front), Tag(r, runs[r].mirrored));
        TextsOfTag(r, runs[r].mirrored);
      } else {
        assert Blocks(runs, front) + [] == Blocks(runs, front);
      }
    }
  }

  lemma {:induction false} TextsOfStrip(transcript: seq<Entry>)
    ensures Texts(Strip(transcript)) == Messages(transcript)
  {
    if transcript != [] {
      var front := transcript[..|transcript| - 1];
      TextsOfStrip(front);
      assert Strip(transcript)[..|Strip(front)|] == Strip(front);
    }
  }

  // The messages of a transcript are the mirrored logs of its runs.
  lemma TranscriptIsLogs(runs: map<RunId, Run>, task: Task, t: TaskId)
    requires TranscriptOk(runs, task, t)
    ensures Messages(task.transcript) == Logs(runs, task.order)
  {
    TextsOfStrip(task.transcript);
    TextsOfBlocks(runs, task.order);
  }

  // --------------------------------------------------------------------- the invariant

  // What a call has copied of the transcript.
  function CopyOf(call: Call): seq<Message> {
    match call
    case ReadingPending(_, Copied(messages)) => messages
    case Launching(_, _, Copied(messages)) => messages
    case CreatingRun(_, _, history, _) => history
    case _ => []
  }

  ghost predicate CallHistoryOk(tasks: map<TaskId, Task>, call: Call) {
    && (CopyOf(call) != [] ==> call.task in tasks && CopyOf(call) <= Messages(tasks[call.task].transcript))
    && (call.CreatingRun? && call.live ==>
          call.task in tasks && call.history == Messages(tasks[call.task].transcript))
  }

  ghost predicate RunHistoryOk(runs: map<RunId, Run>, order: seq<RunId>, p: nat)
    requires p < |order|
  {
    && order[p] in runs && runs[order[p]].history <= Logs(runs, order[..p])
    && (runs[order[p]].live ==> runs[order[p]].history == Logs(runs, order[..p]))
  }

  ghost predicate TaskHistoryOk(runs: map<RunId, Run>, task: Task) {
    forall p :: 0 <= p < |task.order| ==> RunHistoryOk(runs, task.order, p)
  }

  ghost predicate HistoryOk(s: State) {
    && (forall c :: c in s.calls ==> CallHistoryOk(s.tasks, s.calls[c]))
    && (forall t :: t in s.tasks ==> TaskHistoryOk(s.runs, s.tasks[t]))
  }

  lemma {:induction false} LogsFrame(runs: map<RunId, Run>, runs': map<RunId, Run>, order: seq<RunId>)
    requires forall i :: 0 <= i < |order| ==>
               order[i] in runs && order[i] in runs' && runs'[order[i]].mirrored == runs[order[i]].mirrored
    ensures Logs(runs', order) == Logs(runs, order)
  {
    if order != [] {
      LogsFrame(runs, runs', order[..|order| - 1]);
    }
  }

  // Runs are kept with what they were given and, but for one, what they mirrored.
  ghost predicate RunsKept(runs: map<RunId, Run>, runs': map<RunId, Run>, but: RunId) {
    forall r :: r in runs ==>
      && r in runs' && runs'[r].history == runs[r].history && runs'[r].live == runs[r].live
      && (r != but ==> runs'[r].mirrored == runs[r].mirrored)
  }

  lemma RunHistoryFrame(runs: map<RunId, Run>, runs': map<RunId, Run>, t: TaskId, order: seq<RunId>, p: nat, but: RunId)
    requires OrderOk(runs, order, t) && RunsKept(runs, runs', but) && p < |order| && RunHistoryOk(runs, order, p)
    requires but in order ==> Last(order, but)
    ensures RunHistoryOk(runs', order, p)
  {
    forall i | 0 <= i < p ensures order[..p][i] != but {
      assert order[i] != order[|order| - 1];
    }
    LogsFrame(runs, runs', order[..p]);
  }

  lemma TaskHistoryFrame(runs: map<RunId, Run>, runs': map<RunId, Run>, t: TaskId, task: Task, task': Task, but: RunId)
    requires OrderOk(runs, task.order, t) && RunsKept(runs, runs', but) && TaskHistoryOk(runs, task)
    requires but in task.order ==> Last(task.order, but)
    requires task'.order == task.order
    ensures TaskHistoryOk(runs', task')
  {
    forall p | 0 <= p < |task.order| ensures RunHistoryOk(runs', task'.order, p) {
      RunHistoryFrame(runs, runs', t, task.order, p, but);
    }
  }

  // A new run is given what its launch had read.
  lemma TaskHistoryNewRun(runs: map<RunId, Run>, t: TaskId, task: Task, r: RunId, run: Run)
    requires TranscriptOk(runs, task, t) && TaskHistoryOk(runs, task) && r !in runs
    requires run.history <= Messages(task.transcript) && (run.live ==> run.history == Messages(task.transcript))
    ensures TaskHistoryOk(runs[r := run], task.(order := task.order + [r]))
  {
    var runs', order := runs[r := run], task.order + [r];
    forall p | 0 <= p < |order| ensures RunHistoryOk(runs', order, p) {
      if p < |task.order| {
        RunHistoryFrame(runs, runs', t, task.order, p, r);
        assert order[..p] == task.order[..p];
      } else {
        TranscriptIsLogs(runs, task, t);
        LogsFrame(runs, runs', task.order);
        assert order[..p] == task.order;
      }
    }
  }

  lemma CallHistories(s: State, a: Action)
    requires LockOk(s) && HistoryOk(s) && Enabled(s, a)
    ensures forall c :: c in Next(s, a).calls ==> CallHistoryOk(Next(s, a).tasks, Next(s, a).calls[c])
  {
    var s' := Next(s, a);
    forall c | c in s'.calls ensures CallHistoryOk(s'.tasks, s'.calls[c]) {
      if CopyOf(s'.calls[c]) != [] {
        CallKept(s, a, c);
        TranscriptsGrow(s, a, s'.calls[c].task);
      }
      if s'.calls[c].CreatingRun? && s'.calls[c].live {
        LiveKept(s, a, c);
      }
    }
  }

  // A call that has copied the transcript has just done so, or had the copy before.
  lemma CallKept(s: State, a: Action, c: CallId)
    requires Enabled(s, a) && c in Next(s, a).calls && CopyOf(Next(s, a).calls[c]) != []
    ensures c in s.calls && s.calls[c].task == Next(s, a).calls[c].task
    ensures CopyOf(s.calls[c]) == CopyOf(Next(s, a).calls[c])
            || (s.calls[c].task in s.tasks
                && CopyOf(Next(s, a).calls[c]) == Messages(s.tasks[s.calls[c].task].transcript))
  {
    if OfRun(a) {
      CallsOfRuns(s, a);
    }
  }

  // A launch that creates its run was there before or has just been admitted.
  lemma CreatingKept(s: State, a: Action, c: CallId)
    requires Enabled(s, a) && c in Next(s, a).calls && Next(s, a).calls[c].CreatingRun?
    ensures c in s.calls && s.calls[c].task == Next(s, a).calls[c].task
    ensures if a == Launch(c)
            then Next(s, a).calls[c].history == Mapped(s, s.calls[c].task, s.calls[c].transcript)
                 && Next(s, a).calls[c].live == s.calls[c].transcript.Live?
            else Next(s, a).calls[c] == s.calls[c]
  {
    if OfRun(a) {
      CallsOfRuns(s, a);
    }
  }

  lemma OnlyMirrorAppends(s: State, a: Action, t: TaskId)
    requires Enabled(s, a) && t in s.tasks && (a.Mirror? ==> s.runs[a.run].task != t)
    ensures t in Next(s, a).tasks && Next(s, a).tasks[t].transcript == s.tasks[t].transcript
  {
  }

  // Between the launch and its run the lock is held, so the transcript does not grow.
  lemma LiveKept(s: State, a: Action, c: CallId)
    requires LockOk(s) && Enabled(s, a) && c in Next(s, a).calls
    requires Next(s, a).calls[c].CreatingRun? && Next(s, a).calls[c].live
    requires c in s.calls ==> CallHistoryOk(s.tasks, s.calls[c])
    ensures var t := Next(s, a).calls[c].task;
            t in Next(s, a).tasks && Next(s, a).calls[c].history == Messages(Next(s, a).tasks[t].transcript)
  {
    CreatingKept(s, a, c);
    assert CallOk(s, c);
    if a.Mirror? {
      assert RunOk(s, a.run);
    }
    OnlyMirrorAppends(s, a, s.calls[c].task);
  }

  lemma TranscriptsGrow(s: State, a: Action, t: TaskId)
    requires Enabled(s, a) && t in s.tasks
    ensures t in Next(s, a).tasks && Messages(s.tasks[t].transcript) <= Messages(Next(s, a).tasks[t].transcript)
  {
    if a.Mirror? && s.runs[a.run].task == t {
      var entries := Next(s, a).tasks[t].transcript;
      assert entries[..|s.tasks[t].transcript|] == s.tasks[t].transcript;
    }
  }

  lemma HistoryOfCreateRun(s: State, a: Action)
    requires AllTranscripts(s.runs, s.tasks) && HistoryOk(s) && Enabled(s, a) && a.CreateRun?
    ensures forall t :: t in Next(s, a).tasks ==> TaskHistoryOk(Next(s, a).runs, Next(s, a).tasks[t])
  {
    var s', k := Next(s, a), s.calls[a.call].task;
    assert CallHistoryOk(s.tasks, s.calls[a.call]);
    TaskHistoryNewRun(s.runs, k, s.tasks[k], a.run, s'.runs[a.run]);
    forall t | t in s.tasks && t != k ensures TaskHistoryOk(s'.runs, s'.tasks[t]) {
      assert TranscriptOk(s.runs, s.tasks[t], t);
      TaskHistoryFrame(s.runs, s'.runs, t, s.tasks[t], s'.tasks[t], a.run);
    }
  }

  lemma HistoryOfMirror(s: State, a: Action)
    requires AllTranscripts(s.runs, s.tasks) && HistoryOk(s) && Enabled(s, a) && a.Mirror?
    requires s.tasks[s.runs[a.run].task].holder == ByRun(a.run)
    ensures forall t :: t in Next(s, a).tasks ==> TaskHistoryOk(Next(s, a).runs, Next(s, a).tasks[t])
  {
    var s' := Next(s, a);
    assert TranscriptOk(s.runs, s.tasks[s.runs[a.run].task], s.runs[a.run].task);
    forall t | t in s.tasks ensures TaskHistoryOk(s'.runs, s'.tasks[t]) {
      assert TranscriptOk(s.runs, s.tasks[t], t);
      TaskHistoryFrame(s.runs, s'.runs, t, s.tasks[t], s'.tasks[t], a.run);
    }
  }

  lemma HistoryOfQuiet(s: State, a: Action)
    requires Inv(s) && HistoryOk(s) && Enabled(s, a) && Quiet(a)
    ensures forall t :: t in Next(s, a).tasks ==> TaskHistoryOk(Next(s, a).runs, Next(s, a).tasks[t])
  {
    var s' := Next(s, a);
    if a.SetRunning? {
      assert SetupOk(s, a.call);
    }
    QuietSteps(s, a);
    GivenKept(s, a);
    var none := FreshRun(s.runs.Keys);
    forall t | t in s'.tasks ensures TaskHistoryOk(s'.runs, s'.tasks[t]) {
      assert TranscriptOk(s.runs, s.tasks[t], t);
      TaskHistoryFrame(s.runs, s'.runs, t, s.tasks[t], s'.tasks[t], none);
    }
  }

  lemma GivenKept(s: State, a: Action)
    requires Enabled(s, a)
    ensures forall r :: r in s.runs ==>
              && r in Next(s, a).runs && Next(s, a).runs[r].history == s.runs[r].history
              && Next(s, a).runs[r].live == s.runs[r].live
  {
  }

  lemma HistoryKept(s: State, a: Action)
    requires Inv(s) && HistoryOk(s) && Enabled(s, a)
    ensures HistoryOk(Next(s, a))
  {
    CallHistories(s, a);
    if a.CreateRun? {
      HistoryOfCreateRun(s, a);
    } else if a.Mirror? {
      assert RunOk(s, a.run);
      HistoryOfMirror(s, a);
    } else if Quiet(a) {
      HistoryOfQuiet(s, a);
    }
  }

  lemma {:induction false} RunHistory(states: seq<State>, actions: seq<Action>, n: nat)
    requires IsRun(states, actions) && n < |states|
    ensures HistoryOk(states[n])
  {
    if n > 0 {
      RunHistory(states, actions, n - 1);
      RunInv(states, actions, n - 1);
      HistoryKept(states[n - 1], actions[n - 1]);
    }
  }

  // ------------------------------------------------------------------- what it renders

  lemma {:induction false} RenderedLogs(runs: map<RunId, Run>, order: seq<RunId>, describe: Describe)
    ensures RunExecution.ModelHistory(Logs(runs, order), describe) == Rendered(runs, order, describe)
  {
    if order != [] {
      var front, r := order[..|order| - 1], order[|order| - 1];
      RenderedLogs(runs, front, describe);
      if r in runs {
        RunExecution.HistoryConcat(Logs(runs, front), runs[r].mirrored, describe);
      } else {
        assert Logs(runs, front) + [] == Logs(runs, front);
      }
    }
  }

  lemma PrefixRenders(runs: map<RunId, Run>, order: seq<RunId>, history: seq<Message>, describe: Describe)
    requires history <= Logs(runs, order)
    ensures RunExecution.ModelHistory(history, describe) <= Rendered(runs, order, describe)
    ensures history == Logs(runs, order) ==>
              RunExecution.ModelHistory(history, describe) == Rendered(runs, order, describe)
  {
    var rest := Logs(runs, order)[|history|..];
    assert Logs(runs, order) == history + rest;
    RunExecution.HistoryConcat(history, rest, describe);
    RenderedLogs(runs, order, describe);
  }

  // In every reachable state, the history of a run shows the model a prefix of what the
  // runs launched before it mirrored, run by run in launch order; all of it, if it was
  // taken from the store's own list.
  lemma HistoryIsEarlierRuns(
    states: seq<State>, actions: seq<Action>, n: nat, r: RunId, describe: Describe)
    returns (p: nat)
    requires IsRun(states, actions) && n < |states| && r in states[n].runs
    ensures var s, run := states[n], states[n].runs[r];
            && run.task in s.tasks && p < |s.tasks[run.task].order| && s.tasks[run.task].order[p] == r
            && run.history <= Logs(s.runs, s.tasks[run.task].order[..p])
            && (run.live ==> run.history == Logs(s.runs, s.tasks[run.task].order[..p]))
            && RunExecution.ModelHistory(run.history, describe)
               <= Rendered(s.runs, s.tasks[run.task].order[..p], describe)
            && (run.live ==>
                  RunExecution.ModelHistory(run.history, describe)
                  == Rendered(s.runs, s.tasks[run.task].order[..p], describe))
  {
    var s, run := states[n], states[n].runs[r];
    RunInv(states, actions, n);
    RunHistory(states, actions, n);
    var order := s.tasks[run.task].order;
    p :| 0 <= p < |order| && order[p] == r;
    assert RunHistoryOk(s.runs, order, p);
    PrefixRenders(s.runs, order[..p], run.history, describe);
  }
}

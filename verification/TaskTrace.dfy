/**
  How calls, runs, tasks and messages of the background task protocol come to be what they
  are: for each place a call or run can be in, the step that took it there and what held
  then; and over whole runs of the service, where a launch got its messages and history
  from, what the status of a task is, and which messages were marked and logged.
 */
module TaskTrace {
  import opened Wrappers
  import opened TaskProtocol
  import opened TaskSafety

  // The task is not being worked on, as resumeAgentTask sees it.
  predicate LooksIdle(task: Task) {
    !task.running || task.activeRun.None?
  }

  // The undelivered messages of a task, in enqueue order.
  ghost predicate IsUndelivered(pending: seq<Pending>, t: TaskId, batch: seq<MessageId>) {
    && (forall i, j :: 0 <= i < j < |batch| ==> batch[i] < batch[j])
    && (forall m :: m in batch <==> 0 <= m < |pending| && pending[m].task == t && !pending[m].delivered)
  }

  lemma {:induction false} PendingIdsMeaning(pending: seq<Pending>, t: TaskId)
    ensures IsUndelivered(pending, t, PendingIds(pending, t))
  {
    if pending != [] {
      var front := pending[..|pending| - 1];
      PendingIdsMeaning(front, t);
      forall i | 0 <= i < |PendingIds(front, t)| ensures PendingIds(front, t)[i] < |front| {
        assert PendingIds(front, t)[i] in PendingIds(front, t);
      }
    }
  }

  // ------------------------------------------------------------------------------ calls

  // The step that takes a call to a place, and what held then.
  ghost predicate Arrives(s: State, a: Action, c: CallId, call: Call) {
    match call
    case Resuming(t) =>
      && c !in s.calls
      && (a == BeginResume(c, t)
          || (a.ListPending? && a.call == c && a.run in s.runs && s.runs[a.run].task == t))
    case Reading(t) =>
      a == ReadTask(c) && c in s.calls && s.calls[c] == Resuming(t) && t in s.tasks && LooksIdle(s.tasks[t])
    case ReadingPending(t, transcript) =>
      a == ReadTranscript(c, transcript.Live?) && c in s.calls && s.calls[c] == Reading(t) && t in s.tasks
      && (transcript.Copied? ==> transcript.messages == Messages(s.tasks[t].transcript))
    case Launching(t, batch, transcript) =>
      if c in s.calls
      then a == ReadPending(c) && s.calls[c] == ReadingPending(t, transcript) && IsUndelivered(s.pending, t, batch)
      else a == CreateTask(t, c) && batch == [] && transcript == Copied([])
    case CreatingRun(t, batch, history, live) =>
      a == Launch(c) && t in s.tasks && t !in s.activeTaskLaunches
      && c in s.calls && s.calls[c].Launching? && s.calls[c].task == t && s.calls[c].batch == batch
      && live == s.calls[c].transcript.Live?
      && history == if live then Messages(s.tasks[t].transcript) else s.calls[c].transcript.messages
    case SettingActive(t, batch, r) =>
      a == CreateRun(c, r) && c in s.calls && s.calls[c].CreatingRun?
      && s.calls[c].task == t && s.calls[c].batch == batch
    case SettingRunning(t, batch, r) =>
      a == SetActive(c) && c in s.calls && s.calls[c] == SettingActive(t, batch, r)
    case Marking(t, batch) =>
      c in s.calls
      && (|| (a == SetRunning(c) && s.calls[c].SettingRunning? && s.calls[c].task == t && s.calls[c].batch == batch)
          || (a == Launch(c) && s.calls[c].Launching? && s.calls[c].task == t && s.calls[c].batch == batch
              && t in s.activeTaskLaunches)
          || (a == Mark(c) && s.calls[c].Marking? && s.calls[c].task == t
              && s.calls[c].batch != [] && s.calls[c].batch[1..] == batch))
    case Failing(t) => a == SetupThrows(c) && c in s.calls && Holding(s.calls[c]) && s.calls[c].task == t
  }

  // A call returns when it finds its task being worked on, when it throws, when it has
  // written the failed status, or when it has marked its whole batch.
  ghost predicate Returns(s: State, a: Action, c: CallId)
    requires c in s.calls
  {
    || (a == ReadTask(c) && s.calls[c].task in s.tasks && !LooksIdle(s.tasks[s.calls[c].task]))
    || a == CallThrows(c) || a == SetFailed(c)
    || (a == Mark(c) && s.calls[c] == Marking(s.calls[c].task, []))
  }

  // The call takes the step itself.
  predicate Steps(a: Action, c: CallId) {
    match a
    case ReadTask(k) => k == c
    case ReadTranscript(k, _) => k == c
    case ReadPending(k) => k == c
    case CallThrows(k) => k == c
    case Launch(k) => k == c
    case CreateRun(k, _) => k == c
    case SetActive(k) => k == c
    case SetRunning(k) => k == c
    case SetupThrows(k) => k == c
    case SetFailed(k) => k == c
    case Mark(k) => k == c
    case _ => false
  }

  lemma CallOfReads(s: State, a: Action, c: CallId)
    requires Enabled(s, a) && Steps(a, c) && (a.ReadTask? || a.ReadTranscript? || a.ReadPending? || a.CallThrows?)
    ensures if c in Next(s, a).calls then Arrives(s, a, c, Next(s, a).calls[c]) else Returns(s, a, c)
  {
    PendingIdsMeaning(s.pending, s.calls[c].task);
  }

  lemma CallOfLaunch(s: State, a: Action, c: CallId)
    requires Enabled(s, a) && Steps(a, c) && (a.Launch? || a.CreateRun? || a.SetActive? || a.SetRunning?)
    ensures c in Next(s, a).calls && Arrives(s, a, c, Next(s, a).calls[c])
  {
  }

  lemma CallOfEnds(s: State, a: Action, c: CallId)
    requires Enabled(s, a) && Steps(a, c) && (a.SetupThrows? || a.SetFailed? || a.Mark?)
    ensures if c in Next(s, a).calls then Arrives(s, a, c, Next(s, a).calls[c]) else Returns(s, a, c)
  {
  }

  // A call that takes a step arrives somewhere, for the reason that place has, or returns.
  lemma CallSteps(s: State, a: Action, c: CallId)
    requires Enabled(s, a) && Steps(a, c)
    ensures if c in Next(s, a).calls then Arrives(s, a, c, Next(s, a).calls[c]) else Returns(s, a, c)
  {
    if a.ReadTask? || a.ReadTranscript? || a.ReadPending? || a.CallThrows? {
      CallOfReads(s, a, c);
    } else if a.Launch? || a.CreateRun? || a.SetActive? || a.SetRunning? {
      CallOfLaunch(s, a, c);
    } else {
      CallOfEnds(s, a, c);
    }
  }

  // No other step touches a call; new ones are resumes and launches of new tasks.
  lemma CallStays(s: State, a: Action, c: CallId)
    requires Enabled(s, a) && !Steps(a, c)
    ensures c in s.calls ==> c in Next(s, a).calls && Next(s, a).calls[c] == s.calls[c]
    ensures c in Next(s, a).calls && c !in s.calls ==> Arrives(s, a, c, Next(s, a).calls[c])
  {
    if OfRun(a) && c in s.calls {
      OldCallsStay(s, a, c);
    }
  }

  lemma OldCallsStay(s: State, a: Action, c: CallId)
    requires Enabled(s, a) && OfRun(a) && c in s.calls
    ensures c in Next(s, a).calls && Next(s, a).calls[c] == s.calls[c]
  {
  }

  // A resume that reads its task goes on exactly when the task does not look busy; if it
  // does, nothing but the call changes.
  lemma ResumeGoesOnExactly(states: seq<State>, actions: seq<Action>, n: nat, c: CallId)
    requires IsRun(states, actions) && n < |states| && Enabled(states[n], ReadTask(c))
    ensures var s, s' := states[n], Next(states[n], ReadTask(c));
            && (c in s'.calls <==> LooksIdle(s.tasks[s.calls[c].task]))
            && s'.(calls := s.calls) == s
  {
    CallSteps(states[n], ReadTask(c), c);
  }

  // The end of a run resumes its task exactly when some message of it is undelivered.
  lemma FinaliserResumesExactly(states: seq<State>, actions: seq<Action>, n: nat, r: RunId, c: CallId)
    requires IsRun(states, actions) && n < |states| && Enabled(states[n], ListPending(r, c))
    ensures var s, s' := states[n], Next(states[n], ListPending(r, c));
            c in s'.calls
            <==> exists m :: 0 <= m < |s.pending| && s.pending[m].task == s.runs[r].task && !s.pending[m].delivered
  {
    var s := states[n];
    var ids := PendingIds(s.pending, s.runs[r].task);
    PendingIdsMeaning(s.pending, s.runs[r].task);
    if ids != [] {
      assert ids[0] in ids;
    }
  }

  // ------------------------------------------------------------- where launches come from

  // The call has been under way since that step.
  ghost predicate Since(states: seq<State>, i: nat, n: nat, c: CallId) {
    forall j :: i < j <= n && j < |states| ==> c in states[j].calls
  }

  ghost predicate ArrivedAt(states: seq<State>, actions: seq<Action>, i: nat, n: nat, c: CallId, call: Call)
    requires n < |states| == |actions| + 1
  {
    i < n && Arrives(states[i], actions[i], c, call) && Since(states, i, n, c)
  }

  // Whatever a call is, it arrived there by a step, and has been under way since.
  lemma {:induction false} ArrivedSome(states: seq<State>, actions: seq<Action>, n: nat, c: CallId) returns (i: nat)
    requires IsRun(states, actions) && n < |states| && c in states[n].calls
    ensures ArrivedAt(states, actions, i, n, c, states[n].calls[c])
  {
    assert n > 0;
    var s, a := states[n - 1], actions[n - 1];
    assert Enabled(s, a) && states[n] == Next(s, a);
    if Steps(a, c) {
      CallSteps(s, a, c);
      i := n - 1;
    } else {
      CallStays(s, a, c);
      if c in s.calls {
        i := ArrivedSome(states, actions, n - 1, c);
      } else {
        i := n - 1;
      }
    }
  }

  // A launch is that of a new task, without messages and history, or that of a resume:
  // it read the task when it looked idle, then took the transcript, then listed exactly
  // the undelivered messages, in this order.
  lemma LaunchOrigin(states: seq<State>, actions: seq<Action>, n: nat, c: CallId) returns (i: nat, j: nat, k: nat)
    requires IsRun(states, actions) && n < |states| && c in states[n].calls && states[n].calls[c].Launching?
    ensures k < n && Since(states, k, n, c)
    ensures var Launching(t, batch, transcript) := states[n].calls[c];
            if actions[k].CreateTask? then actions[k] == CreateTask(t, c) && batch == [] && transcript == Copied([])
            else
              && i < j < k && Since(states, i, n, c)
              && actions[i] == ReadTask(c) && t in states[i].tasks && LooksIdle(states[i].tasks[t])
              && actions[j] == ReadTranscript(c, transcript.Live?) && t in states[j].tasks
              && (transcript.Copied? ==> transcript.messages == Messages(states[j].tasks[t].transcript))
              && actions[k] == ReadPending(c) && IsUndelivered(states[k].pending, t, batch)
  {
    k := ArrivedSome(states, actions, n, c);
    i, j := 0, 0;
    if c in states[k].calls {
      j := ArrivedSome(states, actions, k, c);
      i := ArrivedSome(states, actions, j, c);
    }
  }

  // ------------------------------------------------------------------------------- runs

  // The step that takes a run to a phase; was is the run before, if there was one.
  ghost predicate RunArrives(s: State, a: Action, r: RunId, run: Run) {
    if r !in s.runs then
      && a.CreateRun? && a.run == r && a.call in s.calls && s.calls[a.call].CreatingRun?
      && run == Run(s.calls[a.call].task, s.calls[a.call].batch, s.calls[a.call].history, s.calls[a.call].live,
                    [], [], SettingUp)
    else
      var was := s.runs[r];
      match a
      case SetRunning(c) =>
        c in s.calls && s.calls[c].SettingRunning? && s.calls[c].run == r && run == was.(phase := Ready)
      case AppendToRun(q, m) => q == r && was.phase.Ready? && run == was.(log := was.log + [m], phase := Mirroring)
      case AppendThrows(q) => q == r && was.phase.Ready? && run == was.(phase := Stopped)
      case Mirror(q) =>
        q == r && was.phase.Mirroring? && was.log != []
        && run == was.(mirrored := was.mirrored + [was.log[|was.log| - 1]], phase := Ready)
      case MirrorThrows(q) => q == r && was.phase.Mirroring? && run == was.(phase := Stopped)
      case Settle(q) => q == r && (was.phase.Ready? || was.phase.Stopped?) && run == was.(phase := Settled)
      case ClearActive(q) => q == r && was.phase.Settled? && run == was.(phase := Cleared)
      case SetFinalStatus(q) => q == r && was.phase.Cleared? && run == was.(phase := Statused)
      case ListPending(q, _) => q == r && was.phase.Statused? && run == was.(phase := Over)
      case FinaliserThrows(q) => q == r && Finalising(was) && run == was.(phase := Over)
      case _ => false
  }

  predicate StepsRun(s: State, a: Action, r: RunId) {
    (OfRun(a) && a.run == r) || (a.CreateRun? && a.run == r)
    || (a.SetRunning? && a.call in s.calls && s.calls[a.call].SettingRunning? && s.calls[a.call].run == r)
  }

  lemma RunOfFinaliser(s: State, a: Action, r: RunId)
    requires Enabled(s, a) && StepsRun(s, a, r)
    requires a.ClearActive? || a.SetFinalStatus? || a.ListPending? || a.FinaliserThrows?
    ensures r in Next(s, a).runs && RunArrives(s, a, r, Next(s, a).runs[r])
  {
  }

  lemma RunOfExecution(s: State, a: Action, r: RunId)
    requires Enabled(s, a) && StepsRun(s, a, r)
    requires a.AppendToRun? || a.AppendThrows? || a.Mirror? || a.MirrorThrows? || a.Settle?
    ensures r in Next(s, a).runs && RunArrives(s, a, r, Next(s, a).runs[r])
  {
  }

  // A run that takes a step arrives in its next phase, with no more changed than that
  // phase says.
  lemma RunSteps(s: State, a: Action, r: RunId)
    requires Enabled(s, a) && StepsRun(s, a, r)
    ensures r in Next(s, a).runs && RunArrives(s, a, r, Next(s, a).runs[r])
  {
    if a.ClearActive? || a.SetFinalStatus? || a.ListPending? || a.FinaliserThrows? {
      RunOfFinaliser(s, a, r);
    } else if OfRun(a) {
      RunOfExecution(s, a, r);
    }
  }

  lemma RunStays(s: State, a: Action, r: RunId)
    requires Enabled(s, a) && !StepsRun(s, a, r)
    ensures r in s.runs <==> r in Next(s, a).runs
    ensures r in s.runs ==> Next(s, a).runs[r] == s.runs[r]
  {
    if OfRun(a) {
      assert Next(s, a).runs == s.runs[a.run := Next(s, a).runs[a.run]];
    } else if !a.CreateRun? && !a.SetRunning? {
      assert Next(s, a).runs == s.runs;
    }
  }

  // What was appended to a run, in order.
  function Appended(actions: seq<Action>, n: nat, r: RunId): seq<Message>
    requires n <= |actions|
  {
    if n == 0 then []
    else
      Appended(actions, n - 1, r)
      + (match actions[n - 1] case AppendToRun(q, m) => (if q == r then [m] else []) case _ => [])
  }

  // A run's log is what its execution appended.
  lemma {:induction false} LogExactly(states: seq<State>, actions: seq<Action>, n: nat, r: RunId)
    requires IsRun(states, actions) && n < |states|
    ensures (if r in states[n].runs then states[n].runs[r].log else []) == Appended(actions, n, r)
  {
    if n > 0 {
      LogExactly(states, actions, n - 1, r);
      var s, a := states[n - 1], actions[n - 1];
      assert Enabled(s, a) && states[n] == Next(s, a);
      if StepsRun(s, a, r) {
        RunSteps(s, a, r);
      } else {
        RunStays(s, a, r);
      }
    }
  }

  // ------------------------------------------------------------------ status and messages

  // What a step writes to the status and the active run of a task.
  function StatusWritten(s: State, a: Action, t: TaskId, was: (bool, Option<RunId>)): (bool, Option<RunId>) {
    match a
    case CreateTask(k, _) => if k == t then (false, None) else was
    case SetActive(c) =>
      if c in s.calls && s.calls[c].SettingActive? && s.calls[c].task == t then (was.0, Some(s.calls[c].run)) else was
    case SetRunning(c) => if c in s.calls && s.calls[c].task == t then (true, was.1) else was
    case SetFailed(c) => if c in s.calls && s.calls[c].task == t then (false, was.1) else was
    case ClearActive(r) => if r in s.runs && s.runs[r].task == t then (was.0, None) else was
    case SetFinalStatus(r) => if r in s.runs && s.runs[r].task == t then (false, was.1) else was
    case _ => was
  }

  function StatusBy(states: seq<State>, actions: seq<Action>, n: nat, t: TaskId): (bool, Option<RunId>)
    requires n <= |actions| < |states|
  {
    if n == 0 then (false, None)
    else StatusWritten(states[n - 1], actions[n - 1], t, StatusBy(states, actions, n - 1, t))
  }

  lemma StatusStep(s: State, a: Action, t: TaskId)
    requires Enabled(s, a) && t in Next(s, a).tasks
    ensures t in s.tasks || a.CreateTask?
    ensures var was := if t in s.tasks then (s.tasks[t].running, s.tasks[t].activeRun) else (false, None);
            (Next(s, a).tasks[t].running, Next(s, a).tasks[t].activeRun) == StatusWritten(s, a, t, was)
  {
    if OfRun(a) {
      StatusOfRuns(s, a, t);
    } else if OfCall(a) {
      assert Next(s, a).tasks == s.tasks;
    }
  }

  lemma StatusOfRuns(s: State, a: Action, t: TaskId)
    requires Enabled(s, a) && OfRun(a) && t in Next(s, a).tasks
    ensures t in s.tasks
    ensures (Next(s, a).tasks[t].running, Next(s, a).tasks[t].activeRun)
            == StatusWritten(s, a, t, (s.tasks[t].running, s.tasks[t].activeRun))
  {
  }

  lemma NoStatusYet(s: State, a: Action, t: TaskId)
    requires Enabled(s, a) && t !in Next(s, a).tasks
    ensures t !in s.tasks && StatusWritten(s, a, t, (false, None)) == (false, None)
  {
  }

  // Status and active run of a task are what was written to them last.
  lemma {:induction false} StatusExactly(states: seq<State>, actions: seq<Action>, n: nat, t: TaskId)
    requires IsRun(states, actions) && n < |states|
    ensures StatusBy(states, actions, n, t)
            == if t in states[n].tasks then (states[n].tasks[t].running, states[n].tasks[t].activeRun)
               else (false, None)
  {
    if n > 0 {
      StatusExactly(states, actions, n - 1, t);
      var s, a := states[n - 1], actions[n - 1];
      assert Enabled(s, a) && states[n] == Next(s, a);
      if t in states[n].tasks {
        StatusStep(s, a, t);
      } else {
        NoStatusYet(s, a, t);
      }
    }
  }

  // The step marks the message: it heads the batch of a call that is marking.
  ghost predicate Marks(s: State, a: Action, m: MessageId) {
    && a.Mark? && a.call in s.calls && s.calls[a.call].Marking?
    && s.calls[a.call].batch != [] && s.calls[a.call].batch[0] == m
  }

  lemma PendingStep(s: State, a: Action)
    requires Enabled(s, a)
    ensures var p, p' := s.pending, Next(s, a).pending;
            && (if a.Enqueue? then p' == p + [Pending(a.task, false)] else |p'| == |p|)
            && forall m :: 0 <= m < |p| ==> p'[m] == p[m].(delivered := p[m].delivered || Marks(s, a, m))
  {
  }

  // A message is delivered exactly when some step marked it.
  lemma {:induction false} DeliveredByMark(states: seq<State>, actions: seq<Action>, n: nat, m: MessageId)
    requires IsRun(states, actions) && n < |states| && m < |states[n].pending|
    ensures states[n].pending[m].delivered
            <==> exists i :: 0 <= i < n && m < |states[i].pending| && Marks(states[i], actions[i], m)
  {
    if n > 0 {
      var s, a := states[n - 1], actions[n - 1];
      assert Enabled(s, a) && states[n] == Next(s, a);
      PendingStep(s, a);
      if m < |s.pending| {
        DeliveredByMark(states, actions, n - 1, m);
      } else {
        forall i | 0 <= i < n ensures |states[i].pending| <= |s.pending| {
          PendingGrows(states, actions, i, n - 1);
        }
      }
    }
  }

  lemma {:induction false} PendingGrows(states: seq<State>, actions: seq<Action>, i: nat, n: nat)
    requires IsRun(states, actions) && i <= n < |states|
    ensures |states[i].pending| <= |states[n].pending|
  {
    if i < n {
      PendingGrows(states, actions, i, n - 1);
      PendingStep(states[n - 1], actions[n - 1]);
    }
  }
}

/**
  Three runs of the background task protocol in which atomic delivery fails: a message
  that a refused launch loses, one that is lost although a run was created for it, and
  one that is executed twice.
 */
module TaskRaces {
  import opened Wrappers
  import opened TaskProtocol
  import opened TaskLoss

  // All three have one task, numbered 0, and one message, numbered 0.
  function One(
    task: Task, calls: map<CallId, Call>, runs: map<RunId, Run>, delivered: bool, refused: set<MessageId>): State
  {
    State(if task.holder.Free? then {} else {0}, map[0 := task], calls, runs, [Pending(0, delivered)], refused)
  }

  function Idle(order: seq<RunId>): Task {
    Task(false, None, [], 0, order, Free)
  }

  // The launch that created the task, and those of resumes that read the message.
  const CREATOR := Launching(0, [], Copied([]))
  const RESUMER := Launching(0, [0], Copied([]))
  const READER := ReadingPending(0, Copied([]))

  ghost predicate Walks(state: nat -> State, action: nat -> Action, step: nat) {
    Enabled(state(step), action(step)) && state(step + 1) == Next(state(step), action(step))
  }

  lemma WalkIsRun(state: nat -> State, action: nat -> Action, n: nat) returns (states: seq<State>, actions: seq<Action>)
    requires state(0) == Initial() && forall i: nat :: i < n ==> Walks(state, action, i)
    ensures IsRun(states, actions) && |actions| == n && states[n] == state(n)
  {
    states := seq(n + 1, (i: nat) => state(i));
    actions := seq(n, (i: nat) => action(i));
    forall i | 0 <= i < n ensures Enabled(states[i], actions[i]) && states[i + 1] == Next(states[i], actions[i]) {
      assert Walks(state, action, i);
    }
  }

  lemma ReadsTheMessage()
    ensures PendingIds([Pending(0, false)], 0) == [0]
  {
    assert [Pending(0, false)][..0] == [];
  }

  // ------------------------------------------------------------------- a refused launch

  // A client sends a message between the creation of a task and its first launch; the
  // resume it starts is refused by that launch.
  const HELD := Task(false, None, [], 0, [], ByCall(1))
  const CREATING := CreatingRun(0, [], [], false)

  function Refusal(step: nat): State {
    if step == 0 then Initial()
    else if step == 1 then State({}, map[0 := Idle([])], map[1 := CREATOR], map[], [], {})
    else if step == 2 then One(Idle([]), map[1 := CREATOR], map[], false, {})
    else if step == 3 then One(Idle([]), map[1 := CREATOR, 2 := Resuming(0)], map[], false, {})
    else if step == 4 then One(Idle([]), map[1 := CREATOR, 2 := Reading(0)], map[], false, {})
    else if step == 5 then One(Idle([]), map[1 := CREATOR, 2 := READER], map[], false, {})
    else if step == 6 then One(Idle([]), map[1 := CREATOR, 2 := RESUMER], map[], false, {})
    else if step == 7 then One(HELD, map[1 := CREATING, 2 := RESUMER], map[], false, {})
    else if step == 8 then One(HELD, map[1 := CREATING, 2 := Marking(0, [0])], map[], false, {0})
    else One(HELD, map[1 := CREATING, 2 := Marking(0, [])], map[], true, {0})
  }

  function RefusalAction(step: nat): Action {
    if step == 0 then CreateTask(0, 1)
    else if step == 1 then Enqueue(0)
    else if step == 2 then BeginResume(2, 0)
    else if step == 3 then ReadTask(2)
    else if step == 4 then ReadTranscript(2, false)
    else if step == 5 then ReadPending(2)
    else if step == 6 then Launch(1)
    else if step == 7 then Launch(2)
    else Mark(2)
  }

  lemma RefusalReads(step: nat)
    requires step < 6
    ensures Walks(Refusal, RefusalAction, step)
  {
    ReadsTheMessage();
  }

  lemma RefusalMarks(step: nat)
    requires 6 <= step < 9
    ensures Walks(Refusal, RefusalAction, step)
  {
    assert (set m | m in [0]) == {0} && [0][1..] == [];
  }

  // After nine steps the message is marked delivered, and no continuation executes it.
  lemma RefusedLaunchLosesMessage() returns (states: seq<State>, actions: seq<Action>)
    ensures IsRun(states, actions) && |actions| == 9
    ensures Delivered(states[9], 0) && !CanExecute(states[9], 0, {})
  {
    forall step: nat | step < 9 ensures Walks(Refusal, RefusalAction, step) {
      if step < 6 {
        RefusalReads(step);
      } else {
        RefusalMarks(step);
      }
    }
    states, actions := WalkIsRun(Refusal, RefusalAction, 9);
    assert !Carried(Refusal(9), 0);
    DeliveredExecutesExactly(states, actions, 9, 0);
  }

  // ------------------------------------------------------- two resumes read the message

  function Double(step: nat): State {
    if step < 4 then Refusal(step)
    else if step == 4 then One(Idle([]), map[1 := CREATOR, 2 := Resuming(0), 3 := Resuming(0)], map[], false, {})
    else if step == 5 then One(Idle([]), map[1 := CREATOR, 2 := Reading(0), 3 := Resuming(0)], map[], false, {})
    else if step == 6 then One(Idle([]), map[1 := CREATOR, 2 := Reading(0), 3 := Reading(0)], map[], false, {})
    else if step == 7 then One(Idle([]), map[1 := CREATOR, 2 := READER, 3 := Reading(0)], map[], false, {})
    else if step == 8 then One(Idle([]), map[1 := CREATOR, 2 := READER, 3 := READER], map[], false, {})
    else if step == 9 then One(Idle([]), map[1 := CREATOR, 2 := RESUMER, 3 := READER], map[], false, {})
    else if step == 10 then One(Idle([]), map[1 := CREATOR, 2 := RESUMER, 3 := RESUMER], map[], false, {})
    else if step == 11 then
      One(Task(false, None, [], 0, [], ByCall(2)),
          map[1 := CREATOR, 2 := CreatingRun(0, [0], [], false), 3 := RESUMER], map[], false, {})
    else
      One(Task(false, None, [], 0, [7], ByCall(2)),
          map[1 := CREATOR, 2 := SettingActive(0, [0], 7), 3 := RESUMER], map[7 := First(SettingUp)], false, {})
  }

  function First(phase: RunPhase): Run {
    Run(0, [0], [], false, [], [], phase)
  }

  function DoubleAction(step: nat): Action {
    if step < 3 then RefusalAction(step)
    else if step == 3 then BeginResume(3, 0)
    else if step == 4 then ReadTask(2)
    else if step == 5 then ReadTask(3)
    else if step == 6 then ReadTranscript(2, false)
    else if step == 7 then ReadTranscript(3, false)
    else if step == 8 then ReadPending(2)
    else if step == 9 then ReadPending(3)
    else if step == 10 then Launch(2)
    else CreateRun(2, 7)
  }

  lemma DoubleBegins(step: nat)
    requires step < 6
    ensures Walks(Double, DoubleAction, step)
  {
  }

  lemma DoubleReads(step: nat)
    requires 6 <= step < 10
    ensures Walks(Double, DoubleAction, step)
  {
    ReadsTheMessage();
  }

  lemma DoubleLaunches(step: nat)
    requires 10 <= step < 12
    ensures Walks(Double, DoubleAction, step)
  {
    assert [] + [7] == [7];
  }

  lemma DoubleWalks(step: nat)
    requires step < 12
    ensures Walks(Double, DoubleAction, step)
  {
    if step < 6 {
      DoubleBegins(step);
    } else if step < 10 {
      DoubleReads(step);
    } else {
      DoubleLaunches(step);
    }
  }

  // ------------------------------------------------------------------- a failing set-up

  // The first resume creates its run and throws; the second is refused.
  function Orphan(step: nat): State {
    if step <= 12 then Double(step)
    else if step == 13 then
      One(Idle([7]), map[1 := CREATOR, 2 := Failing(0), 3 := RESUMER], map[7 := First(SettingUp)], false, {})
    else if step == 14 then
      One(Task(false, None, [], 0, [7], ByCall(1)), map[1 := CREATING, 2 := Failing(0), 3 := RESUMER],
          map[7 := First(SettingUp)], false, {})
    else if step == 15 then
      One(Task(false, None, [], 0, [7], ByCall(1)), map[1 := CREATING, 2 := Failing(0), 3 := Marking(0, [0])],
          map[7 := First(SettingUp)], false, {0})
    else
      One(Task(false, None, [], 0, [7], ByCall(1)), map[1 := CREATING, 2 := Failing(0), 3 := Marking(0, [])],
          map[7 := First(SettingUp)], true, {0})
  }

  function OrphanAction(step: nat): Action {
    if step < 12 then DoubleAction(step)
    else if step == 12 then SetupThrows(2)
    else if step == 13 then Launch(1)
    else if step == 14 then Launch(3)
    else Mark(3)
  }

  lemma OrphanThrows(step: nat)
    requires step == 12 || step == 13
    ensures Walks(Orphan, OrphanAction, step)
  {
  }

  lemma OrphanMarks(step: nat)
    requires step == 14 || step == 15
    ensures Walks(Orphan, OrphanAction, step)
  {
    assert (set m | m in [0]) == {0} && [0][1..] == [];
  }

  lemma OrphanWalks(step: nat)
    requires step < 16
    ensures Walks(Orphan, OrphanAction, step)
  {
    if step < 12 {
      DoubleWalks(step);
    } else if step < 14 {
      OrphanThrows(step);
    } else {
      OrphanMarks(step);
    }
  }

  // After sixteen steps the message is in the input of a run and marked delivered, but
  // that run never started, and no continuation executes the message.
  lemma FailedSetupLosesMessage() returns (states: seq<State>, actions: seq<Action>)
    ensures IsRun(states, actions) && |actions| == 16
    ensures Delivered(states[16], 0) && 7 in states[16].runs && 0 in states[16].runs[7].input
    ensures !CanExecute(states[16], 0, {})
  {
    forall step: nat | step < 16 ensures Walks(Orphan, OrphanAction, step) {
      OrphanWalks(step);
    }
    states, actions := WalkIsRun(Orphan, OrphanAction, 16);
    assert !Carried(Orphan(16), 0);
    DeliveredExecutesExactly(states, actions, 16, 0);
  }

  // ------------------------------------------------------------------- a second execution

  // The first resume hands its run over and marks the message; the second still carries it.
  function Repeat(step: nat): State {
    if step <= 12 then Double(step)
    else if step == 13 then
      One(Task(false, Some(7), [], 0, [7], ByCall(2)),
          map[1 := CREATOR, 2 := SettingRunning(0, [0], 7), 3 := RESUMER], map[7 := First(SettingUp)], false, {})
    else if step == 14 then
      One(Task(true, Some(7), [], 0, [7], ByRun(7)),
          map[1 := CREATOR, 2 := Marking(0, [0]), 3 := RESUMER], map[7 := First(Ready)], false, {})
    else
      One(Task(true, Some(7), [], 0, [7], ByRun(7)),
          map[1 := CREATOR, 2 := Marking(0, []), 3 := RESUMER], map[7 := First(Ready)], true, {})
  }

  function RepeatAction(step: nat): Action {
    if step < 12 then DoubleAction(step)
    else if step == 12 then SetActive(2)
    else if step == 13 then SetRunning(2)
    else Mark(2)
  }

  lemma RepeatWalks(step: nat)
    requires step < 15
    ensures Walks(Repeat, RepeatAction, step)
  {
    if step < 12 {
      DoubleWalks(step);
    } else {
      assert [0][1..] == [];
    }
  }

  // After fifteen steps the message is executed and marked delivered, and some
  // continuation executes it once more.
  lemma SecondLaunchRepeatsMessage() returns (states: seq<State>, actions: seq<Action>)
    ensures IsRun(states, actions) && |actions| == 15
    ensures Delivered(states[15], 0) && Executing(states[15], 0) == {7} && CanExecute(states[15], 0, {7})
  {
    forall step: nat | step < 15 ensures Walks(Repeat, RepeatAction, step) {
      RepeatWalks(step);
    }
    states, actions := WalkIsRun(Repeat, RepeatAction, 15);
    var s := Repeat(15);
    assert Carries(s.calls[3], 0) && Carried(s, 0);
    assert Executing(s, 0) == {7};
    DeliveredRepeatsExactly(states, actions, 15, 0);
  }
}

/**
  Which delivered messages an agent executes, and how often. A launch that finds the lock
  taken still has its messages marked delivered, and two resumes may carry the same
  message; so at await granularity a message can be lost or be executed twice. This module
  says exactly when.
 */
module TaskLoss {
  import opened TaskProtocol
  import opened TaskSafety

  predicate Delivered(s: State, m: MessageId) {
    m < |s.pending| && s.pending[m].delivered
  }

  // A launch that has not handed its run over to the execution holds the message.
  ghost predicate Carried(s: State, m: MessageId) {
    exists c :: c in s.calls && Carries(s.calls[c], m)
  }

  predicate Carries(call: Call, m: MessageId) {
    (call.Launching? || call.CreatingRun? || call.SettingActive? || call.SettingRunning?) && m in call.batch
  }

  // A run that is not among the known ones executes the message.
  ghost predicate ExecutedBeyond(s: State, m: MessageId, known: set<RunId>) {
    exists r :: r in s.runs && r !in known && Executes(s.runs[r], m)
  }

  // These steps lead to a state in which a further run executes the message.
  ghost predicate Leads(s: State, actions: seq<Action>, m: MessageId, known: set<RunId>)
    decreases |actions|
  {
    if actions == [] then ExecutedBeyond(s, m, known)
    else Enabled(s, actions[0]) && Leads(Next(s, actions[0]), actions[1..], m, known)
  }

  ghost predicate CanExecute(s: State, m: MessageId, known: set<RunId>) {
    exists actions :: Leads(s, actions, m, known)
  }

  // The known runs were handed to their executions.
  ghost predicate Begun(s: State, known: set<RunId>) {
    forall r :: r in known ==> r in s.runs && !s.runs[r].phase.SettingUp?
  }

  // A message is marked delivered without being executed only if a launch that carried it
  // was refused.
  lemma DeliveredOrRefused(states: seq<State>, actions: seq<Action>, n: nat, m: MessageId)
    requires IsRun(states, actions) && n < |states| && Delivered(states[n], m)
    ensures Executed(states[n].runs, m) || m in states[n].refused
  {
    RunInv(states, actions, n);
    assert Covered(states[n], m);
  }

  lemma Grows(s: State, a: Action)
    requires Enabled(s, a)
    ensures CoverGrows(s, Next(s, a))
  {
    if OfRun(a) {
      CoverOfRuns(s, a);
    } else {
      CoverOfCalls(s, a);
    }
  }

  lemma Onward(s: State, a: Action, known: set<RunId>)
    requires Inv(s) && Begun(s, known) && Enabled(s, a)
    ensures Inv(Next(s, a)) && Begun(Next(s, a), known)
  {
    InvKept(s, a);
    Grows(s, a);
  }

  // --------------------------------------------------------- no further execution ever

  ghost predicate Frozen(s: State, m: MessageId, known: set<RunId>) {
    Delivered(s, m) && !Carried(s, m) && !ExecutedBeyond(s, m, known)
  }

  lemma {:induction false} PendingIdsUndelivered(pending: seq<Pending>, t: TaskId, m: MessageId)
    requires m < |pending| && pending[m].delivered
    ensures m !in PendingIds(pending, t)
    decreases |pending|
  {
    PendingIdsBounded(pending[..|pending| - 1], t);
    if m < |pending| - 1 {
      PendingIdsUndelivered(pending[..|pending| - 1], t, m);
    }
  }

  lemma {:induction false} PendingIdsBounded(pending: seq<Pending>, t: TaskId)
    ensures forall m :: m in PendingIds(pending, t) ==> m < |pending|
  {
    if pending != [] {
      PendingIdsBounded(pending[..|pending| - 1], t);
    }
  }

  lemma FrozenByCalls(s: State, a: Action, m: MessageId, known: set<RunId>)
    requires Frozen(s, m, known) && Enabled(s, a) && (OfCall(a) || a.CreateTask? || a.SetFailed?)
    ensures Frozen(Next(s, a), m, known)
  {
    if a.ReadPending? {
      PendingIdsUndelivered(s.pending, s.calls[a.call].task, m);
    }
    var s' := Next(s, a);
    assert s'.runs == s.runs;
    forall c | c in s'.calls ensures !Carries(s'.calls[c], m) {
      assert c in s.calls ==> !Carries(s.calls[c], m);
    }
  }

  lemma FrozenByLaunch(s: State, a: Action, m: MessageId, known: set<RunId>)
    requires Frozen(s, m, known) && Enabled(s, a)
    requires a.Launch? || a.CreateRun? || a.SetActive? || a.SetupThrows?
    ensures Frozen(Next(s, a), m, known)
  {
    var s' := Next(s, a);
    assert !Carries(s.calls[a.call], m);
    forall c | c in s'.calls ensures !Carries(s'.calls[c], m) {
      assert !Carries(s.calls[c], m);
    }
    forall r | r in s'.runs && r !in known ensures !Executes(s'.runs[r], m) {
      assert r in s.runs ==> s'.runs[r] == s.runs[r] && !Executes(s.runs[r], m);
    }
  }

  // The run that is handed over has the input that its launch carried.
  lemma FrozenByHandOver(s: State, a: Action, m: MessageId, known: set<RunId>)
    requires AllSetup(s) && Frozen(s, m, known) && Enabled(s, a) && a.SetRunning?
    ensures Frozen(Next(s, a), m, known)
  {
    var s' := Next(s, a);
    assert SetupOk(s, a.call) && !Carries(s.calls[a.call], m);
    forall c | c in s'.calls ensures !Carries(s'.calls[c], m) {
      assert !Carries(s.calls[c], m);
    }
    forall r | r in s'.runs && r !in known ensures !Executes(s'.runs[r], m) {
      assert r in s.runs && !Executes(s.runs[r], m);
    }
  }

  lemma FrozenByRuns(s: State, a: Action, m: MessageId, known: set<RunId>)
    requires Frozen(s, m, known) && Enabled(s, a) && OfRun(a)
    ensures Frozen(Next(s, a), m, known)
  {
    var s' := Next(s, a);
    CallsOfRuns(s, a);
    forall c | c in s'.calls ensures !Carries(s'.calls[c], m) {
      assert c in s.calls ==> !Carries(s.calls[c], m);
    }
    assert s'.runs == s.runs[a.run := s'.runs[a.run]] && s'.runs[a.run].input == s.runs[a.run].input;
    forall r | r in s'.runs && r !in known ensures !Executes(s'.runs[r], m) {
      assert r in s.runs && !Executes(s.runs[r], m);
    }
  }

  // Once no launch carries a delivered message, no step makes a further run execute it.
  lemma FrozenStays(s: State, a: Action, m: MessageId, known: set<RunId>)
    requires Inv(s) && Frozen(s, m, known) && Enabled(s, a)
    ensures Frozen(Next(s, a), m, known)
  {
    if OfRun(a) {
      FrozenByRuns(s, a, m, known);
    } else if OfCall(a) || a.CreateTask? || a.SetFailed? {
      FrozenByCalls(s, a, m, known);
    } else if a.SetRunning? {
      FrozenByHandOver(s, a, m, known);
    } else {
      FrozenByLaunch(s, a, m, known);
    }
  }

  lemma {:induction false} FrozenForever(s: State, actions: seq<Action>, m: MessageId, known: set<RunId>)
    requires Inv(s) && Frozen(s, m, known)
    ensures !Leads(s, actions, m, known)
    decreases |actions|
  {
    if actions != [] && Enabled(s, actions[0]) {
      InvKept(s, actions[0]);
      FrozenStays(s, actions[0], m, known);
      FrozenForever(Next(s, actions[0]), actions[1..], m, known);
    }
  }

  // ------------------------------------------------------- carried can still be executed

  lemma StepBack(s: State, a: Action, m: MessageId, known: set<RunId>)
    requires Enabled(s, a) && CanExecute(Next(s, a), m, known)
    ensures CanExecute(s, m, known)
  {
    var rest :| Leads(Next(s, a), rest, m, known);
    var actions := [a] + rest;
    assert actions[1..] == rest;
    assert Leads(s, actions, m, known);
  }

  lemma HandOverExecutes(s: State, c: CallId, m: MessageId, known: set<RunId>)
    requires Inv(s) && Begun(s, known) && c in s.calls && s.calls[c].SettingRunning? && m in s.calls[c].batch
    ensures CanExecute(s, m, known)
  {
    assert CallOk(s, c) && SetupOk(s, c);
    var s' := Next(s, SetRunning(c));
    assert Executes(s'.runs[s.calls[c].run], m);
    assert Leads(s', [], m, known);
    StepBack(s, SetRunning(c), m, known);
  }

  lemma ActiveExecutes(s: State, c: CallId, m: MessageId, known: set<RunId>)
    requires Inv(s) && Begun(s, known) && c in s.calls && s.calls[c].SettingActive? && m in s.calls[c].batch
    ensures CanExecute(s, m, known)
  {
    assert CallOk(s, c);
    Onward(s, SetActive(c), known);
    HandOverExecutes(Next(s, SetActive(c)), c, m, known);
    StepBack(s, SetActive(c), m, known);
  }

  lemma CreatingExecutes(s: State, c: CallId, m: MessageId, known: set<RunId>)
    requires Inv(s) && Begun(s, known) && c in s.calls && s.calls[c].CreatingRun? && m in s.calls[c].batch
    ensures CanExecute(s, m, known)
  {
    assert CallOk(s, c);
    var r := FreshRun(s.runs.Keys);
    var a := CreateRun(c, r);
    Onward(s, a, known);
    ActiveExecutes(Next(s, a), c, m, known);
    StepBack(s, a, m, known);
  }

  lemma FreeExecutes(s: State, c: CallId, m: MessageId, known: set<RunId>)
    requires Inv(s) && Begun(s, known) && c in s.calls && s.calls[c].Launching? && m in s.calls[c].batch
    requires s.calls[c].task !in s.activeTaskLaunches
    ensures CanExecute(s, m, known)
  {
    assert CallOk(s, c);
    Onward(s, Launch(c), known);
    CreatingExecutes(Next(s, Launch(c)), c, m, known);
    StepBack(s, Launch(c), m, known);
  }

  lemma StoppedExecutes(s: State, c: CallId, m: MessageId, known: set<RunId>, r: RunId)
    requires Inv(s) && Begun(s, known) && c in s.calls && s.calls[c].Launching? && m in s.calls[c].batch
    requires r in s.runs && s.runs[r].task == s.calls[c].task && (s.runs[r].phase.Ready? || s.runs[r].phase.Stopped?)
    ensures CanExecute(s, m, known)
  {
    assert CallOk(s, c);
    Onward(s, Settle(r), known);
    FreeExecutes(Next(s, Settle(r)), c, m, known);
    StepBack(s, Settle(r), m, known);
  }

  // The holder of the lock can always let go of it.
  lemma AfterCallExecutes(s: State, c: CallId, m: MessageId, known: set<RunId>, h: CallId)
    requires Inv(s) && Begun(s, known) && c in s.calls && s.calls[c].Launching? && m in s.calls[c].batch
    requires KnownCall(s, h) && Holding(s.calls[h]) && s.calls[h].task == s.calls[c].task
    ensures CanExecute(s, m, known)
  {
    Onward(s, SetupThrows(h), known);
    FreeExecutes(Next(s, SetupThrows(h)), c, m, known);
    StepBack(s, SetupThrows(h), m, known);
  }

  lemma AfterRunExecutes(s: State, c: CallId, m: MessageId, known: set<RunId>, r: RunId)
    requires Inv(s) && Begun(s, known) && c in s.calls && s.calls[c].Launching? && m in s.calls[c].batch
    requires KnownRun(s, r) && InFlight(s.runs[r]) && s.runs[r].task == s.calls[c].task
    ensures CanExecute(s, m, known)
  {
    if s.runs[r].phase.Mirroring? {
      Onward(s, MirrorThrows(r), known);
      StoppedExecutes(Next(s, MirrorThrows(r)), c, m, known, r);
      StepBack(s, MirrorThrows(r), m, known);
    } else {
      StoppedExecutes(s, c, m, known, r);
    }
  }

  lemma HeldExecutes(s: State, c: CallId, m: MessageId, known: set<RunId>)
    requires Inv(s) && Begun(s, known) && c in s.calls && s.calls[c].Launching? && m in s.calls[c].batch
    requires s.calls[c].task in s.activeTaskLaunches
    ensures CanExecute(s, m, known)
  {
    var t := s.calls[c].task;
    assert HolderOk(s, t);
    match s.tasks[t].holder
    case ByCall(h) => AfterCallExecutes(s, c, m, known, h);
    case ByRun(r) => AfterRunExecutes(s, c, m, known, r);
  }

  // A message that a launch carries can be executed by a run that is not known yet.
  lemma CarriedCanExecute(s: State, m: MessageId, known: set<RunId>)
    requires Inv(s) && Begun(s, known) && Carried(s, m)
    ensures CanExecute(s, m, known)
  {
    var c :| c in s.calls && Carries(s.calls[c], m);
    match s.calls[c]
    case SettingRunning(_, _, _) => HandOverExecutes(s, c, m, known);
    case SettingActive(_, _, _) => ActiveExecutes(s, c, m, known);
    case CreatingRun(_, _, _, _) => CreatingExecutes(s, c, m, known);
    case Launching(t, _, _) =>
      if t in s.activeTaskLaunches {
        HeldExecutes(s, c, m, known);
      } else {
        FreeExecutes(s, c, m, known);
      }
  }

  // ---------------------------------------------------------------- the exact conditions

  // In every reachable state, a run beyond the known ones executes a delivered message,
  // now or in some continuation, exactly when one does now or a launch carries it.
  lemma FurtherExecutionExactly(states: seq<State>, actions: seq<Action>, n: nat, m: MessageId, known: set<RunId>)
    requires IsRun(states, actions) && n < |states| && Delivered(states[n], m) && Begun(states[n], known)
    ensures CanExecute(states[n], m, known) <==> ExecutedBeyond(states[n], m, known) || Carried(states[n], m)
  {
    var s := states[n];
    RunInv(states, actions, n);
    if ExecutedBeyond(s, m, known) {
      assert Leads(s, [], m, known);
    } else if Carried(s, m) {
      CarriedCanExecute(s, m, known);
    } else {
      forall continuation ensures !Leads(s, continuation, m, known) {
        FrozenForever(s, continuation, m, known);
      }
    }
  }

  // So a delivered message is not lost exactly when it was executed or is carried.
  lemma DeliveredExecutesExactly(states: seq<State>, actions: seq<Action>, n: nat, m: MessageId)
    requires IsRun(states, actions) && n < |states| && Delivered(states[n], m)
    ensures CanExecute(states[n], m, {}) <==> Executed(states[n].runs, m) || Carried(states[n], m)
  {
    FurtherExecutionExactly(states, actions, n, m, {});
    assert Executed(states[n].runs, m) <==> ExecutedBeyond(states[n], m, {});
  }

  function Executing(s: State, m: MessageId): set<RunId> {
    set r | r in s.runs && Executes(s.runs[r], m)
  }

  // And it can be executed once more exactly when a launch carries it.
  lemma DeliveredRepeatsExactly(states: seq<State>, actions: seq<Action>, n: nat, m: MessageId)
    requires IsRun(states, actions) && n < |states| && Delivered(states[n], m)
    ensures CanExecute(states[n], m, Executing(states[n], m)) <==> Carried(states[n], m)
  {
    FurtherExecutionExactly(states, actions, n, m, Executing(states[n], m));
  }

  // ----------------------------------------------------------------------- exactly once

  ghost predicate Once(s: State, m: MessageId, r: RunId) {
    && r in s.runs && Executes(s.runs[r], m)
    && !ExecutedBeyond(s, m, {r})
  }

  // One run executes the message after these steps, if they can be taken.
  ghost predicate OnceAfter(s: State, actions: seq<Action>, m: MessageId)
    decreases |actions|
  {
    if actions == [] then exists r :: Once(s, m, r)
    else Enabled(s, actions[0]) ==> OnceAfter(Next(s, actions[0]), actions[1..], m)
  }

  lemma StillExecutes(s: State, a: Action, m: MessageId, r: RunId)
    requires Enabled(s, a) && r in s.runs && Executes(s.runs[r], m)
    ensures r in Next(s, a).runs && Executes(Next(s, a).runs[r], m)
  {
    Grows(s, a);
  }

  lemma {:induction false} FrozenOnce(s: State, actions: seq<Action>, m: MessageId, r: RunId)
    requires Inv(s) && Frozen(s, m, {r}) && Once(s, m, r)
    ensures OnceAfter(s, actions, m)
    decreases |actions|
  {
    if actions != [] && Enabled(s, actions[0]) {
      InvKept(s, actions[0]);
      FrozenStays(s, actions[0], m, {r});
      StillExecutes(s, actions[0], m, r);
      FrozenOnce(Next(s, actions[0]), actions[1..], m, r);
    }
  }

  lemma {:induction false} FurtherIsTwice(s: State, actions: seq<Action>, m: MessageId, r: RunId)
    requires r in s.runs && Executes(s.runs[r], m) && Leads(s, actions, m, {r})
    ensures !OnceAfter(s, actions, m)
    decreases |actions|
  {
    if actions == [] {
      var q :| q in s.runs && q !in {r} && Executes(s.runs[q], m);
      forall k: RunId ensures !Once(s, m, k) {
        assert r !in {k} || q !in {k};
      }
    } else {
      StillExecutes(s, actions[0], m, r);
      FurtherIsTwice(Next(s, actions[0]), actions[1..], m, r);
    }
  }

  lemma CarriedNotOnce(s: State, m: MessageId, r: RunId) returns (continuation: seq<Action>)
    requires Inv(s) && Once(s, m, r) && Carried(s, m)
    ensures !OnceAfter(s, continuation, m)
  {
    CarriedCanExecute(s, m, {r});
    continuation :| Leads(s, continuation, m, {r});
    FurtherIsTwice(s, continuation, m, r);
  }

  // A delivered message is executed by exactly one run, now and in every continuation,
  // exactly when one run executes it now and no launch carries it.
  lemma ExactlyOnceExactly(states: seq<State>, actions: seq<Action>, n: nat, m: MessageId)
    requires IsRun(states, actions) && n < |states| && Delivered(states[n], m)
    ensures (forall continuation :: OnceAfter(states[n], continuation, m))
            <==> (exists r :: Once(states[n], m, r)) && !Carried(states[n], m)
  {
    var s := states[n];
    RunInv(states, actions, n);
    assert OnceAfter(s, [], m) <==> exists r :: Once(s, m, r);
    if r :| Once(s, m, r) {
      if Carried(s, m) {
        var continuation := CarriedNotOnce(s, m, r);
      } else {
        forall continuation ensures OnceAfter(s, continuation, m) {
          FrozenOnce(s, continuation, m, r);
        }
      }
    }
  }
}

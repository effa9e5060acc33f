/**
  SandboxedToolRunner.execute (apps/tool-runner-host): the event handlers that watch
  one child process. Events arrive in any order; the machine must send the execute
  message once, settle once, and remove the sandbox directory before it reports.
 */
module Sandbox {
  import opened Wrappers

  datatype Pending = TimedOut | NeverReady | CpuLimitExceeded

  datatype Failure =
    | SpawnFailed
    | SendFailed
    | Reported(message: string)
    | Deferred(pending: Pending)
    | OutOfMemory
    | KilledBySignal
    | ExitCode(code: int)
    | NoResult
    | CleanupFailed

  datatype Outcome = Resolved(result: string) | Rejected(failure: Failure)

  datatype Event =
    | Ready(sendThrows: bool)          // worker announced itself; child.send may throw
    | ResultMessage(result: string)
    | ErrorMessage(message: string)
    | SpawnError
    | Close(outOfMemory: bool, signalled: bool, code: int)
    | ExecutionTimeout
    | StartupTimeout
    | CpuLimit
    | CleanupEnded(ok: bool)           // the directory removal finished

  // The worker's side: what it announced and what is still queued for it.
  datatype Worker = Worker(
    ready: bool,
    queued: bool,                      // the execute message waits for the worker
    result: Option<string>,
    error: Option<string>,
    sends: nat)                        // calls of child.send

  datatype Timers = Timers(timeoutSet: bool, startupSet: bool, cpuWatched: bool)

  datatype Settlement = Settlement(
    settled: bool,
    cleanedUp: bool,
    removals: nat,                     // calls of removeSandboxDirectory
    decision: Option<Outcome>,         // the settler that waits for the cleanup
    reports: seq<Outcome>)             // calls of resolve or reject

  datatype State = State(
    hasDirectory: bool,
    worker: Worker,
    timers: Timers,
    pendingError: Option<Pending>,
    settlement: Settlement)

  function Initial(hasDirectory: bool): State {
    State(hasDirectory, Worker(false, true, None, None, 0), Timers(false, true, false), None,
          Settlement(false, false, 0, None, []))
  }

  function SettleWith(t: Settlement, hasDirectory: bool, outcome: Outcome): Settlement {
    if t.settled then t
    else Settlement(true, t.cleanedUp || hasDirectory,
                    if hasDirectory && !t.cleanedUp then t.removals + 1 else t.removals,
                    Some(outcome), t.reports)
  }

  function Settle(s: State, outcome: Outcome): State {
    State(s.hasDirectory, s.worker,
          if s.settlement.settled then s.timers else Timers(false, false, false),
          s.pendingError, SettleWith(s.settlement, s.hasDirectory, outcome))
  }

  function RecordPending(s: State, p: Pending): State {
    if s.pendingError.None? then s.(pendingError := Some(p)) else s
  }

  function Dispatch(s: State, sendThrows: bool): State {
    if !s.worker.ready || !s.worker.queued then s
    else
      var sent := s.(worker := s.worker.(queued := false, sends := s.worker.sends + 1));
      if sendThrows then Settle(sent, Rejected(SendFailed)) else sent
  }

  function OnReadyMessage(s: State, sendThrows: bool): State {
    var ready := Dispatch(s.(worker := s.worker.(ready := true), timers := s.timers.(startupSet := false)), sendThrows);
    if ready.timers.timeoutSet then ready
    else ready.(timers := ready.timers.(timeoutSet := true, cpuWatched := true))
  }

  function OnReplyMessage(s: State, worker: Worker): State {
    s.(timers := s.timers.(timeoutSet := false, cpuWatched := false), worker := worker)
  }

  // What a close decides, given what was received and recorded before it.
  function CloseOutcome(error: Option<string>, result: Option<string>, pending: Option<Pending>,
                        outOfMemory: bool, signalled: bool, code: int): Outcome
  {
    if error.Some? then Rejected(Reported(error.value))
    else if result.Some? then Resolved(result.value)
    else if pending.Some? then Rejected(Deferred(pending.value))
    else if outOfMemory then Rejected(OutOfMemory)
    else if signalled then Rejected(KilledBySignal)
    else if code != 0 then Rejected(ExitCode(code))
    else Rejected(NoResult)
  }

  function Report(t: Settlement, hasDirectory: bool, ok: bool): Settlement {
    if t.decision.None? then t
    else
      var outcome := if ok || !hasDirectory then t.decision.value else Rejected(CleanupFailed);
      t.(decision := None, reports := t.reports + [outcome])
  }

  function Handle(s: State, e: Event): State {
    match e
    case Ready(sendThrows) => OnReadyMessage(s, sendThrows)
    case ResultMessage(r) => OnReplyMessage(s, s.worker.(result := Some(r)))
    case ErrorMessage(m) => OnReplyMessage(s, s.worker.(error := Some(m)))
    case SpawnError => Settle(s, Rejected(SpawnFailed))
    case Close(oom, signalled, code) =>
      Settle(s, CloseOutcome(s.worker.error, s.worker.result, s.pendingError, oom, signalled, code))
    case ExecutionTimeout => if s.timers.timeoutSet then RecordPending(s, TimedOut) else s
    case StartupTimeout => if s.timers.startupSet && !s.worker.ready then RecordPending(s, NeverReady) else s
    case CpuLimit => if s.timers.cpuWatched then RecordPending(s, CpuLimitExceeded) else s
    case CleanupEnded(ok) => s.(settlement := Report(s.settlement, s.hasDirectory, ok))
  }

  // The closure variables of execute and the handlers that update them.
  class Execution {
    const hasDirectory: bool
    var settled: bool
    var workerReady: bool
    var queued: bool
    var result: Option<string>
    var error: Option<string>
    var cleanedUp: bool
    var pendingError: Option<Pending>
    var timeoutSet: bool
    var startupSet: bool
    var cpuWatched: bool
    var decision: Option<Outcome>
    var sends: nat
    var removals: nat
    var reports: seq<Outcome>

    function View(): State
      reads this
    {
      State(hasDirectory, Worker(workerReady, queued, result, error, sends),
            Timers(timeoutSet, startupSet, cpuWatched), pendingError,
            Settlement(settled, cleanedUp, removals, decision, reports))
    }

    constructor (hasDirectory: bool)
      ensures View() == Initial(hasDirectory)
    {
      this.hasDirectory := hasDirectory;
      settled, workerReady, queued, cleanedUp := false, false, true, false;
      result, error, pendingError, decision := None, None, None, None;
      timeoutSet, startupSet, cpuWatched := false, true, false;
      sends, removals, reports := 0, 0, [];
    }

    method SettleOnce(outcome: Outcome)
      modifies this
      ensures View() == Settle(old(View()), outcome)
    {
      if settled {
        return;
      }
      settled := true;
      cpuWatched := false;
      startupSet := false;
      timeoutSet := false;
      decision := Some(outcome);
      if !hasDirectory || cleanedUp {
        return;
      }
      cleanedUp := true;
      removals := removals + 1;
    }

    method DispatchMessage(sendThrows: bool)
      modifies this
      ensures View() == Dispatch(old(View()), sendThrows)
    {
      if !workerReady || !queued {
        return;
      }
      queued := false;
      sends := sends + 1;
      if sendThrows {
        SettleOnce(Rejected(SendFailed));
      }
    }

    method OnReady(sendThrows: bool)
      modifies this
      ensures View() == Handle(old(View()), Ready(sendThrows))
    {
      workerReady := true;
      startupSet := false;
      DispatchMessage(sendThrows);
      if !timeoutSet {
        timeoutSet := true;
        cpuWatched := true;
      }
    }

    method OnReply(e: Event)
      requires e.ResultMessage? || e.ErrorMessage?
      modifies this
      ensures View() == Handle(old(View()), e)
    {
      timeoutSet := false;
      cpuWatched := false;
      if e.ResultMessage? {
        result := Some(e.result);
      } else {
        error := Some(e.message);
      }
    }

    method OnSpawnError()
      modifies this
      ensures View() == Handle(old(View()), SpawnError)
    {
      SettleOnce(Rejected(SpawnFailed));
    }

    method OnClose(outOfMemory: bool, signalled: bool, code: int)
      modifies this
      ensures View() == Handle(old(View()), Close(outOfMemory, signalled, code))
    {
      if error.Some? {
        SettleOnce(Rejected(Reported(error.value)));
      } else if result.Some? {
        SettleOnce(Resolved(result.value));
      } else if pendingError.Some? {
        SettleOnce(Rejected(Deferred(pendingError.value)));
      } else if outOfMemory {
        SettleOnce(Rejected(OutOfMemory));
      } else if signalled {
        SettleOnce(Rejected(KilledBySignal));
      } else if code != 0 {
        SettleOnce(Rejected(ExitCode(code)));
      } else {
        SettleOnce(Rejected(NoResult));
      }
    }

    method OnTimer(e: Event)
      requires e.ExecutionTimeout? || e.StartupTimeout? || e.CpuLimit?
      modifies this
      ensures View() == Handle(old(View()), e)
    {
      if pendingError.Some? {
        return;
      }
      if e.ExecutionTimeout? && timeoutSet {
        pendingError := Some(TimedOut);
      } else if e.StartupTimeout? && startupSet && !workerReady {
        pendingError := Some(NeverReady);
      } else if e.CpuLimit? && cpuWatched {
        pendingError := Some(CpuLimitExceeded);
      }
    }

    method OnCleanupEnded(ok: bool)
      modifies this
      ensures View() == Handle(old(View()), CleanupEnded(ok))
    {
      if decision.Some? {
        reports := reports + [if ok || !hasDirectory then decision.value else Rejected(CleanupFailed)];
        decision := None;
      }
    }

    // Any event, in whatever order it arrives.
    method On(e: Event, ghost events: seq<Event>)
      requires View() == Run(hasDirectory, events)
      modifies this
      ensures View() == Run(hasDirectory, events + [e])
      ensures reports == match ReportOf(hasDirectory, events + [e]) case Some(outcome) => [outcome] case None => []
    {
      assert (events + [e])[..|events|] == events;
      ReportedExactly(hasDirectory, events + [e]);
      match e {
        case Ready(sendThrows) => OnReady(sendThrows);
        case ResultMessage(_) => OnReply(e);
        case ErrorMessage(_) => OnReply(e);
        case SpawnError => OnSpawnError();
        case Close(outOfMemory, signalled, code) => OnClose(outOfMemory, signalled, code);
        case ExecutionTimeout => OnTimer(e);
        case StartupTimeout => OnTimer(e);
        case CpuLimit => OnTimer(e);
        case CleanupEnded(ok) => OnCleanupEnded(ok);
      }
    }
  }

  // ------------------------------------------------------------------- whole histories

  function Run(hasDirectory: bool, events: seq<Event>): State {
    if events == [] then Initial(hasDirectory)
    else Handle(Run(hasDirectory, events[..|events| - 1]), events[|events| - 1])
  }

  predicate HasReady(events: seq<Event>) {
    exists i :: 0 <= i < |events| && events[i].Ready?
  }

  function LastError(events: seq<Event>): Option<string> {
    if events == [] then None
    else if events[|events| - 1].ErrorMessage? then Some(events[|events| - 1].message)
    else LastError(events[..|events| - 1])
  }

  function LastResult(events: seq<Event>): Option<string> {
    if events == [] then None
    else if events[|events| - 1].ResultMessage? then Some(events[|events| - 1].result)
    else LastResult(events[..|events| - 1])
  }

  predicate IsReply(e: Event) {
    e.ResultMessage? || e.ErrorMessage?
  }

  // The worker is ready and has not replied since: its time and its CPU are limited.
  predicate Working(events: seq<Event>) {
    exists i :: 0 <= i < |events| && events[i].Ready? && NoReplyAfter(events, i)
  }

  predicate NoReplyAfter(events: seq<Event>, i: nat) {
    forall j :: i < j < |events| ==> !IsReply(events[j])
  }

  // The first limit that was exceeded while it applied.
  function FirstLimit(events: seq<Event>): Option<Pending> {
    if events == [] then None
    else
      var before, e := events[..|events| - 1], events[|events| - 1];
      if FirstLimit(before).Some? then FirstLimit(before)
      else if e.ExecutionTimeout? && Working(before) then Some(TimedOut)
      else if e.StartupTimeout? && !HasReady(before) then Some(NeverReady)
      else if e.CpuLimit? && Working(before) then Some(CpuLimitExceeded)
      else None
  }

  // What an event decides after a history, in terms of the history alone.
  function RulingOf(before: seq<Event>, e: Event): Option<Outcome> {
    match e
    case SpawnError => Some(Rejected(SpawnFailed))
    case Ready(sendThrows) => if sendThrows && !HasReady(before) then Some(Rejected(SendFailed)) else None
    case Close(oom, signalled, code) =>
      Some(CloseOutcome(LastError(before), LastResult(before), FirstLimit(before), oom, signalled, code))
    case _ => None
  }

  // The first event that decides anything.
  function FirstRuling(events: seq<Event>): Option<Outcome> {
    if events == [] then None
    else
      var earlier := FirstRuling(events[..|events| - 1]);
      if earlier.Some? then earlier else RulingOf(events[..|events| - 1], events[|events| - 1])
  }

  // What the caller is told: the ruling, at the end of the first cleanup after it, unless
  // that cleanup failed.
  function ReportOf(hasDirectory: bool, events: seq<Event>): Option<Outcome> {
    if events == [] then None
    else
      var before, e := events[..|events| - 1], events[|events| - 1];
      if ReportOf(hasDirectory, before).Some? then ReportOf(hasDirectory, before)
      else if !e.CleanupEnded? || FirstRuling(before).None? then None
      else if e.ok || !hasDirectory then FirstRuling(before)
      else Some(Rejected(CleanupFailed))
  }

  // Everything the machine does, read off the history.
  ghost predicate WorkerAgrees(w: Worker, events: seq<Event>) {
    && w.ready == HasReady(events)
    && w.queued == !HasReady(events)
    && w.sends == (if HasReady(events) then 1 else 0)
    && w.error == LastError(events)
    && w.result == LastResult(events)
  }

  ghost predicate SettlementAgrees(
    t: Settlement, hasDirectory: bool, ruling: Option<Outcome>, report: Option<Outcome>)
  {
    && (t.settled <==> ruling.Some?)
    && t.cleanedUp == (t.settled && hasDirectory)
    && t.removals == (if t.settled && hasDirectory then 1 else 0)
    && (report.Some? ==> ruling.Some?)
    && t.decision == (if report.Some? then None else ruling)
    && t.reports == (if report.Some? then [report.value] else [])
  }

  // The limits matter until the settlement.
  ghost predicate LimitsAgree(s: State, events: seq<Event>) {
    && s.timers.timeoutSet == s.timers.cpuWatched == Working(events)
    && s.timers.startupSet == !HasReady(events)
    && s.pendingError == FirstLimit(events)
  }

  ghost predicate Agrees(s: State, events: seq<Event>) {
    && WorkerAgrees(s.worker, events)
    && (FirstRuling(events).None? ==> LimitsAgree(s, events))
    && SettlementAgrees(s.settlement, s.hasDirectory, FirstRuling(events), ReportOf(s.hasDirectory, events))
  }

  lemma HistoryGrows(before: seq<Event>, e: Event)
    ensures HasReady(before + [e]) == (HasReady(before) || e.Ready?)
    ensures Working(before + [e]) == (e.Ready? || (Working(before) && !IsReply(e)))
  {
    var events := before + [e];
    assert events[|before|] == e;
    if HasReady(before) {
      var i :| 0 <= i < |before| && before[i].Ready?;
      assert events[i].Ready?;
    }
    if e.Ready? {
      assert NoReplyAfter(events, |before|);
    } else if Working(before) && !IsReply(e) {
      var i :| 0 <= i < |before| && before[i].Ready? && NoReplyAfter(before, i);
      assert events[i].Ready? && NoReplyAfter(events, i);
    }
    if !e.Ready? && Working(events) {
      WorkingBefore(before, e);
    }
  }

  lemma WorkingBefore(before: seq<Event>, e: Event)
    requires !e.Ready? && Working(before + [e])
    ensures Working(before) && !IsReply(e)
  {
    var events := before + [e];
    var i :| 0 <= i < |events| && events[i].Ready? && NoReplyAfter(events, i);
    assert !IsReply(events[|before|]);
    forall j | i < j < |before| ensures !IsReply(before[j]) {
      assert events[j] == before[j];
    }
    assert before[i].Ready? && NoReplyAfter(before, i);
  }

  lemma ReadyAgrees(s: State, before: seq<Event>, e: Event)
    requires Agrees(s, before) && e.Ready?
    ensures Agrees(Handle(s, e), before + [e])
  {
    HistoryGrows(before, e);
    assert (before + [e])[..|before|] == before;
    ReadyWorker(s, e.sendThrows);
  }

  // The first ready message sends, and settles only if that send throws; the limits of
  // the execution apply from then on.
  lemma ReadyWorker(s: State, sendThrows: bool)
    ensures var s' := OnReadyMessage(s, sendThrows);
            && s'.hasDirectory == s.hasDirectory && s'.pendingError == s.pendingError
            && s'.timers.timeoutSet && !s'.timers.startupSet
            && (s.timers.timeoutSet == s.timers.cpuWatched ==> s'.timers.cpuWatched)
            && s'.worker == s.worker.(ready := true, queued := false,
                                      sends := if s.worker.queued then s.worker.sends + 1 else s.worker.sends)
            && s'.settlement == if s.worker.queued && sendThrows
                                then SettleWith(s.settlement, s.hasDirectory, Rejected(SendFailed)) else s.settlement
  {
  }

  lemma SettlingAgrees(s: State, before: seq<Event>, e: Event)
    requires Agrees(s, before) && (e.SpawnError? || e.Close?)
    ensures Agrees(Handle(s, e), before + [e])
  {
    HistoryGrows(before, e);
    assert (before + [e])[..|before|] == before;
  }

  lemma OtherAgrees(s: State, before: seq<Event>, e: Event)
    requires Agrees(s, before) && !e.Ready? && !e.SpawnError? && !e.Close?
    ensures Agrees(Handle(s, e), before + [e])
  {
    HistoryGrows(before, e);
    assert (before + [e])[..|before|] == before;
  }

  // For every order of events the machine agrees with the history.
  lemma {:induction false} RunAgrees(hasDirectory: bool, events: seq<Event>)
    ensures Run(hasDirectory, events).hasDirectory == hasDirectory
    ensures Agrees(Run(hasDirectory, events), events)
  {
    if events != [] {
      var before, e := events[..|events| - 1], events[|events| - 1];
      RunAgrees(hasDirectory, before);
      var s := Run(hasDirectory, before);
      assert events == before + [e];
      if e.Ready? {
        ReadyAgrees(s, before, e);
      } else if e.SpawnError? || e.Close? {
        SettlingAgrees(s, before, e);
      } else {
        OtherAgrees(s, before, e);
      }
    }
  }

  // What the caller is told is a function of the history: which failure, which result.
  lemma ReportedExactly(hasDirectory: bool, events: seq<Event>)
    ensures Run(hasDirectory, events).settlement.reports
            == match ReportOf(hasDirectory, events) case Some(outcome) => [outcome] case None => []
  {
    RunAgrees(hasDirectory, events);
  }

  // The discipline in plain terms: at most one send, only after the worker is ready; at
  // most one report and one removal, the removal first; settled exactly when an event
  // ruled.
  lemma Discipline(hasDirectory: bool, events: seq<Event>)
    ensures var s := Run(hasDirectory, events);
            && s.worker.sends <= 1 && (s.worker.sends == 1 <==> HasReady(events))
            && |s.settlement.reports| <= 1 && s.settlement.removals <= 1
            && (s.settlement.reports != [] && hasDirectory ==> s.settlement.removals == 1)
            && (s.settlement.settled <==> FirstRuling(events).Some?)
  {
    RunAgrees(hasDirectory, events);
  }

  lemma SettledStays(s: State, e: Event)
    ensures s.settlement.settled || e.Close? ==> Handle(s, e).settlement.settled
    ensures |s.settlement.reports| <= |Handle(s, e).settlement.reports|
    ensures e.CleanupEnded? && s.settlement.decision.Some? ==> Handle(s, e).settlement.reports != []
  {
  }

  // A history with a close in it has settled, and reports once the removal of the
  // directory is over; a report is never taken back or repeated.
  lemma {:induction false} CloseSettles(hasDirectory: bool, events: seq<Event>, i: nat)
    requires i < |events| && events[i].Close?
    ensures Run(hasDirectory, events).settlement.settled
    ensures |Run(hasDirectory, events).settlement.reports| <= 1
    ensures forall j :: i < j < |events| && events[j].CleanupEnded? ==>
              |Run(hasDirectory, events).settlement.reports| == 1
  {
    var before := events[..|events| - 1];
    RunAgrees(hasDirectory, events);
    RunAgrees(hasDirectory, before);
    SettledStays(Run(hasDirectory, before), events[|events| - 1]);
    if i < |events| - 1 {
      CloseSettles(hasDirectory, before, i);
      forall j | i < j < |events| && events[j].CleanupEnded?
        ensures |Run(hasDirectory, events).settlement.reports| == 1
      {
        if j < |events| - 1 {
          assert before[j] == events[j];
        }
      }
    }
  }

  // The first timeout or limit that was recorded is the one that is reported.
  lemma {:induction false} FirstPendingWins(hasDirectory: bool, events: seq<Event>, n: nat)
    requires n <= |events| && Run(hasDirectory, events[..n]).pendingError.Some?
    ensures Run(hasDirectory, events).pendingError == Run(hasDirectory, events[..n]).pendingError
  {
    if n < |events| {
      var before := events[..|events| - 1];
      assert before[..n] == events[..n];
      FirstPendingWins(hasDirectory, before, n);
      PendingStays(Run(hasDirectory, before), events[|events| - 1]);
    } else {
      assert events[..n] == events;
    }
  }

  lemma PendingStays(s: State, e: Event)
    requires s.pendingError.Some?
    ensures Handle(s, e).pendingError == s.pendingError
  {
  }

  // The promise resolves only with the result that was the last one to arrive before
  // the close, when no error message had arrived before it.
  lemma {:induction false} SuccessNeedsResult(hasDirectory: bool, events: seq<Event>) returns (close: nat)
    requires Run(hasDirectory, events).settlement.reports != []
              && Run(hasDirectory, events).settlement.reports[0].Resolved?
    ensures close < |events| && events[close].Close?
    ensures LastResult(events[..close]) == Some(Run(hasDirectory, events).settlement.reports[0].result)
    ensures LastError(events[..close]) == None
  {
    RunAgrees(hasDirectory, events);
    ReportIsRuling(hasDirectory, events);
    close := RulingHasClose(events);
  }

  lemma {:induction false} ReportIsRuling(hasDirectory: bool, events: seq<Event>)
    requires ReportOf(hasDirectory, events).Some?
    ensures FirstRuling(events).Some?
    ensures ReportOf(hasDirectory, events) == FirstRuling(events)
            || (hasDirectory && ReportOf(hasDirectory, events) == Some(Rejected(CleanupFailed)))
  {
    if ReportOf(hasDirectory, events[..|events| - 1]).Some? {
      ReportIsRuling(hasDirectory, events[..|events| - 1]);
    }
  }

  lemma {:induction false} RulingHasClose(events: seq<Event>) returns (close: nat)
    requires FirstRuling(events).Some? && FirstRuling(events).value.Resolved?
    ensures close < |events| && events[close].Close? && LastError(events[..close]) == None
    ensures LastResult(events[..close]) == Some(FirstRuling(events).value.result)
  {
    var before := events[..|events| - 1];
    if FirstRuling(before).Some? {
      close := RulingHasClose(before);
      assert before[..close] == events[..close];
    } else {
      close := |events| - 1;
    }
  }

  // ------------------------------------------------------------- what a close decides

  // Nothing in the history settled: no close, no spawn error, and the first ready message
  // could be answered.
  ghost predicate Unsettling(before: seq<Event>) {
    && (forall k :: 0 <= k < |before| ==> !before[k].Close? && !before[k].SpawnError?)
    && (forall k :: 0 <= k < |before| && before[k] == Ready(true) ==> HasReady(before[..k]))
  }

  lemma {:induction false} UnsettlingExactly(before: seq<Event>)
    ensures Unsettling(before) <==> FirstRuling(before).None?
  {
    if before != [] {
      var front, e := before[..|before| - 1], before[|before| - 1];
      UnsettlingExactly(front);
      assert Unsettling(before) ==> Unsettling(front) by {
        assert forall k :: 0 <= k < |front| ==> front[..k] == before[..k];
      }
      if Unsettling(front) && RulingOf(front, e).None? {
        forall k | 0 <= k < |before| && before[k] == Ready(true) ensures HasReady(before[..k]) {
          assert k < |front| ==> front[..k] == before[..k];
        }
      }
    }
  }

  // The last message of each kind in a history.
  ghost predicate IsLastError(before: seq<Event>, m: string) {
    exists k :: 0 <= k < |before| && before[k] == ErrorMessage(m)
                && forall j :: k < j < |before| ==> !before[j].ErrorMessage?
  }

  ghost predicate IsLastResult(before: seq<Event>, result: string) {
    exists k :: 0 <= k < |before| && before[k] == ResultMessage(result)
                && forall j :: k < j < |before| ==> !before[j].ResultMessage?
  }

  ghost predicate NoError(before: seq<Event>) {
    forall k :: 0 <= k < |before| ==> !before[k].ErrorMessage?
  }

  ghost predicate NoResultIn(before: seq<Event>) {
    forall k :: 0 <= k < |before| ==> !before[k].ResultMessage?
  }

  lemma IsLastErrorStep(front: seq<Event>, e: Event, m: string)
    ensures IsLastError(front + [e], m) <==> if e.ErrorMessage? then e == ErrorMessage(m) else IsLastError(front, m)
  {
    var before := front + [e];
    assert before[|front|] == e;
    if !e.ErrorMessage? && IsLastError(front, m) {
      var k :| 0 <= k < |front| && front[k] == ErrorMessage(m)
               && forall j :: k < j < |front| ==> !front[j].ErrorMessage?;
      assert before[k] == ErrorMessage(m) && forall j :: k < j < |before| ==> !before[j].ErrorMessage?;
    }
    if !e.ErrorMessage? && IsLastError(before, m) {
      var k :| 0 <= k < |before| && before[k] == ErrorMessage(m)
               && forall j :: k < j < |before| ==> !before[j].ErrorMessage?;
      assert front[k] == ErrorMessage(m);
      forall j | k < j < |front| ensures !front[j].ErrorMessage? {
        assert before[j] == front[j];
      }
    }
  }

  lemma {:induction false} LastErrorExactly(before: seq<Event>)
    ensures LastError(before).None? <==> NoError(before)
    ensures forall m :: LastError(before) == Some(m) <==> IsLastError(before, m)
  {
    if before != [] {
      var front, e := before[..|before| - 1], before[|before| - 1];
      assert before == front + [e];
      LastErrorExactly(front);
      forall m ensures LastError(before) == Some(m) <==> IsLastError(before, m) {
        IsLastErrorStep(front, e, m);
      }
    }
  }

  lemma IsLastResultStep(front: seq<Event>, e: Event, r: string)
    ensures IsLastResult(front + [e], r) <==> if e.ResultMessage? then e == ResultMessage(r) else IsLastResult(front, r)
  {
    var before := front + [e];
    assert before[|front|] == e;
    if !e.ResultMessage? && IsLastResult(front, r) {
      var k :| 0 <= k < |front| && front[k] == ResultMessage(r)
               && forall j :: k < j < |front| ==> !front[j].ResultMessage?;
      assert before[k] == ResultMessage(r) && forall j :: k < j < |before| ==> !before[j].ResultMessage?;
    }
    if !e.ResultMessage? && IsLastResult(before, r) {
      var k :| 0 <= k < |before| && before[k] == ResultMessage(r)
               && forall j :: k < j < |before| ==> !before[j].ResultMessage?;
      assert front[k] == ResultMessage(r);
      forall j | k < j < |front| ensures !front[j].ResultMessage? {
        assert before[j] == front[j];
      }
    }
  }

  lemma {:induction false} LastResultExactly(before: seq<Event>)
    ensures LastResult(before).None? <==> NoResultIn(before)
    ensures forall r :: LastResult(before) == Some(r) <==> IsLastResult(before, r)
  {
    if before != [] {
      var front, e := before[..|before| - 1], before[|before| - 1];
      assert before == front + [e];
      LastResultExactly(front);
      forall r ensures LastResult(before) == Some(r) <==> IsLastResult(before, r) {
        IsLastResultStep(front, e, r);
      }
    }
  }

  // A child that closes before anything else settled, and a directory that is removed:
  // the caller is told the last error message if there was one; otherwise the last result
  // if there was one; otherwise the first limit that was exceeded, whatever the exit
  // status; otherwise what the exit status says.
  lemma CloseVerdict(hasDirectory: bool, before: seq<Event>, oom: bool, signalled: bool, code: int) returns (o: Outcome)
    requires Unsettling(before)
    ensures Run(hasDirectory, before + [Close(oom, signalled, code), CleanupEnded(true)]).settlement.reports == [o]
    ensures forall m :: o == Rejected(Reported(m)) <==> IsLastError(before, m)
    ensures forall r :: o == Resolved(r) <==> NoError(before) && IsLastResult(before, r)
    ensures var silent := NoError(before) && NoResultIn(before);
            && (forall p :: o == Rejected(Deferred(p)) <==> silent && FirstLimit(before) == Some(p))
            && var unlimited := silent && FirstLimit(before).None?;
               && (o == Rejected(OutOfMemory) <==> unlimited && oom)
               && (o == Rejected(KilledBySignal) <==> unlimited && !oom && signalled)
               && (forall c :: o == Rejected(ExitCode(c)) <==> unlimited && !oom && !signalled && c == code != 0)
               && (o == Rejected(NoResult) <==> unlimited && !oom && !signalled && code == 0)
  {
    LastErrorExactly(before);
    LastResultExactly(before);
    o := CloseReport(hasDirectory, before, oom, signalled, code);
  }

  lemma CloseReport(hasDirectory: bool, before: seq<Event>, oom: bool, signalled: bool, code: int) returns (o: Outcome)
    requires Unsettling(before)
    ensures Run(hasDirectory, before + [Close(oom, signalled, code), CleanupEnded(true)]).settlement.reports == [o]
    ensures o == CloseOutcome(LastError(before), LastResult(before), FirstLimit(before), oom, signalled, code)
  {
    var close := Close(oom, signalled, code);
    var closed, events := before + [close], before + [close, CleanupEnded(true)];
    assert closed[..|before|] == before && events[..|closed|] == closed;
    UnsettlingExactly(before);
    NoReportYet(hasDirectory, before);
    assert FirstRuling(closed) == RulingOf(before, close);
    ReportedExactly(hasDirectory, events);
    o := FirstRuling(closed).value;
  }

  // A child that does not start or cannot be sent its message, and a cleanup that fails.
  lemma OtherVerdicts(hasDirectory: bool, before: seq<Event>, e: Event, ok: bool)
    requires Unsettling(before) && (e.SpawnError? || (e == Ready(true) && !HasReady(before)))
    ensures Run(hasDirectory, before + [e, CleanupEnded(ok)]).settlement.reports
            == [Rejected(if hasDirectory && !ok then CleanupFailed
                         else if e.SpawnError? then SpawnFailed else SendFailed)]
  {
    var settled, events := before + [e], before + [e, CleanupEnded(ok)];
    assert settled[..|before|] == before && events[..|settled|] == settled;
    UnsettlingExactly(before);
    NoReportYet(hasDirectory, before);
    assert FirstRuling(settled) == RulingOf(before, e);
    ReportedExactly(hasDirectory, events);
  }

  lemma RunAppend(hasDirectory: bool, events: seq<Event>, e: Event)
    ensures Run(hasDirectory, events + [e]) == Handle(Run(hasDirectory, events), e)
  {
    assert (events + [e])[..|events|] == events;
  }

  // A settled state in which nothing is timed or watched.
  predicate AtRest(s: State) {
    s.settlement.settled && s.timers == Timers(false, false, false)
  }

  lemma RestStays(s: State, e: Event)
    requires AtRest(s) && !e.Ready?
    ensures AtRest(Handle(s, e))
  {
  }

  // Once settled, nothing is timed or watched any more, until a late ready message.
  lemma {:induction false} SettledStopsTimers(hasDirectory: bool, before: seq<Event>, e: Event, after: seq<Event>)
    requires Unsettling(before) && (e.SpawnError? || e.Close?)
    requires forall k :: 0 <= k < |after| ==> !after[k].Ready?
    ensures AtRest(Run(hasDirectory, before + [e] + after))
    decreases |after|
  {
    var settled := before + [e];
    if after == [] {
      UnsettlingExactly(before);
      RunAgrees(hasDirectory, before);
      RunAppend(hasDirectory, before, e);
      assert settled + after == settled;
    } else {
      var fewer, last := after[..|after| - 1], after[|after| - 1];
      SettledStopsTimers(hasDirectory, before, e, fewer);
      RunAppend(hasDirectory, settled + fewer, last);
      RestStays(Run(hasDirectory, settled + fewer), last);
      assert settled + after == settled + fewer + [last];
    }
  }

  lemma {:induction false} NoReportYet(hasDirectory: bool, before: seq<Event>)
    requires FirstRuling(before).None?
    ensures ReportOf(hasDirectory, before).None?
  {
    if before != [] {
      NoReportYet(hasDirectory, before[..|before| - 1]);
    }
  }

  // ------------------------------------------------------------- directory removal

  const MAX_ATTEMPTS := 10
  const RETRY_DELAY_MS := 100

  datatype Removal = Removed | Busy | Refused   // Busy: EBUSY, EPERM or ENOTEMPTY

  // removeSandboxDirectory: tries until a removal is not busy, at most ten times, and
  // throws unless the last try removed the directory.
  method RemoveDirectory(rm: nat -> Removal) returns (removed: bool, tries: nat, waitedMs: nat)
    ensures 1 <= tries <= 10
    ensures forall t :: 1 <= t < tries ==> rm(t).Busy?
    ensures tries == 10 || !rm(tries).Busy?
    ensures removed <==> rm(tries).Removed?
    ensures waitedMs == 50 * tries * (tries - 1)
  {
    waitedMs := 0;
    tries := 1;
    while tries < MAX_ATTEMPTS && rm(tries).Busy?
      invariant 1 <= tries <= MAX_ATTEMPTS
      invariant forall t :: 1 <= t < tries ==> rm(t).Busy?
      invariant 2 * waitedMs == RETRY_DELAY_MS * tries * (tries - 1)
    {
      waitedMs := waitedMs + RETRY_DELAY_MS * tries;
      tries := tries + 1;
    }
    removed := rm(tries).Removed?;
  }
}

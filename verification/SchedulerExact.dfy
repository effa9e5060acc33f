/**
  What the scheduler decides, over every run: which jobs a tick records and how often,
  when a job is skipped, submitted or failed, when the breaker disables it, and what the
  last write to a job was. Nothing here refers to how a step decides.
 */
module SchedulerExact {
  import opened Scheduler
  import opened SchedulerSafety

  lemma RunGuarded(states: seq<State>, actions: seq<Action>, n: nat)
    requires IsRun(states, actions) && n < |states|
    ensures Guarded(states[n])
  {
    RunInv(states, actions, n);
  }

  // ------------------------------------------------------------------ which way it goes

  // The job has a submitted execution whose run is pending or running.
  ghost predicate HasActive(s: State, j: JobId) {
    exists i, run ::
      && 0 <= i < |s.rows| && s.rows[i].job == j && s.rows[i].status == Submitted(run)
      && run in s.runs && s.runs[run] in {PendingRun, RunningRun}
  }

  function RecentFailures(s: State, j: JobId): nat {
    Failures(LastFive(RowsOf(s.rows, j)))
  }

  lemma ActiveExactly(s: State, j: JobId)
    ensures HasRunningExecution(s.rows, s.runs, j) <==> HasActive(s, j)
  {
    if HasRunningExecution(s.rows, s.runs, j) {
      var i :| 0 <= i < |s.rows| && s.rows[i].job == j && ActiveRow(s.rows[i], s.runs);
      assert s.rows[i].status == Submitted(s.rows[i].status.run);
    }
    if HasActive(s, j) {
      var i, run :| 0 <= i < |s.rows| && s.rows[i].job == j && s.rows[i].status == Submitted(run)
                    && run in s.runs && s.runs[run] in {PendingRun, RunningRun};
      assert ActiveRow(s.rows[i], s.runs);
    }
  }

  // A job is skipped exactly when it has an active execution.
  lemma SkippedExactly(states: seq<State>, actions: seq<Action>, n: nat, k: nat)
    requires IsRun(states, actions) && n < |states| && Enabled(states[n], CheckRunning(k))
    ensures var s, s' := states[n], Next(states[n], CheckRunning(k));
            s'.ticks[k] == s.ticks[k].(pc := if HasActive(s, s.ticks[k].job) then Skipping else Submitting)
  {
    ActiveExactly(states[n], states[n].ticks[k].job);
  }

  // After a failure a job is to be disabled exactly when at least three of its last five
  // records are failures, and rescheduled otherwise.
  lemma JudgedExactly(states: seq<State>, actions: seq<Action>, n: nat, k: nat)
    requires IsRun(states, actions) && n < |states| && Enabled(states[n], Judge(k))
    ensures var s, s' := states[n], Next(states[n], Judge(k));
            s'.ticks[k] == s.ticks[k].(pc := if RecentFailures(s, s.ticks[k].job) >= 3 then Disabling else Rescheduling)
  {
    RunInv(states, actions, n);
    var s := states[n];
    assert HistoryOk(s.rows, s.clock, s.ticks[k].job);
    CountIsLastFive(s.rows, s.ticks[k].job);
  }

  // A job that allows it is submitted at once, any other is checked first.
  lemma TakenExactly(states: seq<State>, actions: seq<Action>, n: nat, k: nat)
    requires IsRun(states, actions) && n < |states| && Enabled(states[n], TakeJob(k)) && states[n].ticks[k].due != []
    ensures var s, s' := states[n], Next(states[n], TakeJob(k));
            && s'.ticks[k].job == s.ticks[k].due[0] && s'.ticks[k].due == s.ticks[k].due[1..]
            && (NonConcurrent(s, s.ticks[k].due[0]) ==> s'.ticks[k].pc.Checking?)
            && (s.ticks[k].due[0] in s.jobs && !NonConcurrent(s, s.ticks[k].due[0]) ==> s'.ticks[k].pc.Submitting?)
  {
  }

  // A timer that fires starts a tick exactly when none is in progress.
  lemma TimerExactly(states: seq<State>, actions: seq<Action>, n: nat, now: nat)
    requires IsRun(states, actions) && n < |states| && Enabled(states[n], TimerFires(now))
    ensures var s, s' := states[n], Next(states[n], TimerFires(now));
            if s.ticks == [] then |s'.ticks| == 1 && s'.ticks[0].now == now && s'.ticks[0].pc.Finding?
            else s' == s
  {
    RunGuarded(states, actions, n);
  }

  // ------------------------------------------------------------------- what turns it off

  lemma {:induction false} DisablingNeedsThree(states: seq<State>, actions: seq<Action>, n: nat, k: nat)
    requires IsRun(states, actions) && n < |states| && k < |states[n].ticks| && states[n].ticks[k].pc.Disabling?
    ensures RecentFailures(states[n], states[n].ticks[k].job) >= 3
  {
    if n > 0 {
      RunGuarded(states, actions, n - 1);
      RunGuarded(states, actions, n);
      var s, a := states[n - 1], actions[n - 1];
      if a.Judge? {
        JudgedExactly(states, actions, n - 1, a.tick);
      } else {
        StaysAt(s, a);
        DisablingNeedsThree(states, actions, n - 1, k);
      }
    }
  }

  lemma StaysAt(s: State, a: Action)
    requires Guarded(s) && Enabled(s, a) && !a.Judge?
    requires |Next(s, a).ticks| == 1 && Next(s, a).ticks[0].pc.Disabling?
    ensures Next(s, a).ticks == s.ticks && Next(s, a).rows == s.rows
  {
  }

  // No step turns an enabled job off, except an edit and the breaker at three failures
  // among its last five records.
  lemma TurnedOffExactly(states: seq<State>, actions: seq<Action>, i: nat, j: JobId)
    requires IsRun(states, actions) && i < |actions|
    requires j in states[i].jobs && states[i].jobs[j].enabled
    requires j in states[i + 1].jobs && !states[i + 1].jobs[j].enabled
    ensures (actions[i].EditJob? && actions[i].job == j && !actions[i].enabled)
            || (actions[i].Disable? && RecentFailures(states[i], j) >= 3)
  {
    var a := actions[i];
    assert Enabled(states[i], a) && states[i + 1] == Next(states[i], a);
    if a.Disable? {
      DisablingNeedsThree(states, actions, i, a.tick);
    }
  }

  // -------------------------------------------------------------------- last write wins

  // What is written to a job by a step.
  function Written(s: State, a: Action, j: JobId, was: Job): Job {
    match a
    case EditJob(job, enabled, nextRunAt) =>
      if job == j then was.(enabled := enabled, nextRunAt := nextRunAt) else was
    case Disable(k) => if k < |s.ticks| && s.ticks[k].job == j then was.(enabled := false) else was
    case Reschedule(k, nextRunAt) =>
      if k < |s.ticks| && s.ticks[k].job == j then was.(nextRunAt := nextRunAt) else was
    case _ => was
  }

  function JobBy(states: seq<State>, actions: seq<Action>, n: nat, j: JobId): Job
    requires n <= |actions| < |states| && j in states[0].jobs
  {
    if n == 0 then states[0].jobs[j] else Written(states[n - 1], actions[n - 1], j, JobBy(states, actions, n - 1, j))
  }

  lemma WrittenStep(s: State, a: Action, j: JobId)
    requires Enabled(s, a) && j in s.jobs
    ensures j in Next(s, a).jobs && Next(s, a).jobs[j] == Written(s, a, j, s.jobs[j])
  {
  }

  // Jobs are what the last edit, disabling or rescheduling wrote, and nothing else.
  lemma {:induction false} JobsExactly(states: seq<State>, actions: seq<Action>, n: nat, j: JobId)
    requires IsRun(states, actions) && n < |states| && j in states[0].jobs
    ensures j in states[n].jobs && states[n].jobs[j] == JobBy(states, actions, n, j)
  {
    if n > 0 {
      JobsExactly(states, actions, n - 1, j);
      WrittenStep(states[n - 1], actions[n - 1], j);
    }
  }

  // ------------------------------------------------------------- one record per due job

  function CountAt(own: seq<Row>, time: nat): nat {
    if own == [] then 0
    else CountAt(own[..|own| - 1], time) + (if own[|own| - 1].scheduledAt == time then 1 else 0)
  }

  lemma CountAppend(own: seq<Row>, row: Row, time: nat)
    ensures CountAt(own + [row], time) == CountAt(own, time) + (if row.scheduledAt == time then 1 else 0)
  {
    assert (own + [row])[..|own|] == own;
  }

  lemma {:induction false} CountNone(own: seq<Row>, time: nat)
    requires forall i :: 0 <= i < |own| ==> own[i].scheduledAt < time
    ensures CountAt(own, time) == 0
  {
    if own != [] {
      CountNone(own[..|own| - 1], time);
    }
  }

  predicate Busy(t: Tick) {
    !t.pc.Finding? && !t.pc.Looping?
  }

  // The record of the job in hand is written.
  predicate Recorded(t: Tick) {
    t.pc.Judging? || t.pc.Disabling? || t.pc.Rescheduling?
  }

  // How many of the found jobs the tick is through with.
  function Done(t: Tick): int {
    |t.found| - |t.due| - (if Busy(t) then 1 else 0)
  }

  ghost predicate Split(t: Tick) {
    && NoDuplicates(t.found)
    && (t.pc.Finding? ==> t.found == [] && t.due == [])
    && 0 <= Done(t) && t.found[|t.found| - |t.due|..] == t.due
    && (Busy(t) ==> t.found[Done(t)] == t.job)
  }

  ghost predicate IsRecorded(t: Tick, j: JobId)
    requires Split(t)
  {
    j in t.found[..Done(t)] || (Recorded(t) && j == t.job)
  }

  ghost predicate Counted(rows: seq<Row>, t: Tick) {
    && Split(t)
    && forall j :: CountAt(RowsOf(rows, j), t.now) == if IsRecorded(t, j) then 1 else 0
  }

  lemma CountedTimer(s: State, now: nat)
    requires Breaker(s) && s.clock < now
    ensures Counted(s.rows, Tick(now, Finding, 0, 0, [], []))
  {
    forall j ensures CountAt(RowsOf(s.rows, j), now) == 0 {
      assert HistoryOk(s.rows, s.clock, j);
      CountNone(RowsOf(s.rows, j), now);
    }
  }

  // Moves of a tick that write nothing and finish no job.
  lemma CountedMove(rows: seq<Row>, t: Tick, t': Tick)
    requires Counted(rows, t) && Busy(t) && Busy(t') && Recorded(t') == Recorded(t)
    requires t' == t.(pc := t'.pc, run := t'.run)
    ensures Counted(rows, t')
  {
    assert Done(t') == Done(t);
    forall j ensures IsRecorded(t', j) == IsRecorded(t, j) {
    }
  }

  lemma CountedFind(rows: seq<Row>, t: Tick, due: seq<JobId>)
    requires Counted(rows, t) && t.pc.Finding? && NoDuplicates(due)
    ensures Counted(rows, t.(pc := Looping, due := due, found := due))
  {
    var t' := t.(pc := Looping, due := due, found := due);
    assert due[0..] == due && due[..0] == [];
    forall j ensures CountAt(RowsOf(rows, j), t.now) == 0 && !IsRecorded(t', j) {
      assert !IsRecorded(t, j);
    }
  }

  lemma CountedTake(rows: seq<Row>, t: Tick, pc: Pc)
    requires Counted(rows, t) && t.pc.Looping? && t.due != [] && (pc.Submitting? || pc.Checking?)
    ensures Counted(rows, Tick(t.now, pc, t.due[0], 0, t.due[1..], t.found))
  {
    var t' := Tick(t.now, pc, t.due[0], 0, t.due[1..], t.found);
    assert t.found[|t.found| - |t.due|..][0] == t.due[0];
    assert t.found[|t.found| - |t.due| + 1..] == t.due[1..];
    forall j ensures IsRecorded(t', j) == IsRecorded(t, j) {
    }
  }

  lemma CountedWrite(rows: seq<Row>, t: Tick, pc: Pc)
    requires Counted(rows, t) && Busy(t) && !Recorded(t) && (pc.Judging? || pc.Rescheduling?)
    ensures Counted(rows + [RowFor(t)], t.(pc := pc))
  {
    var t' := t.(pc := pc);
    assert Done(t') == Done(t) && t.job !in t.found[..Done(t)];
    forall j ensures CountAt(RowsOf(rows + [RowFor(t)], j), t.now) == if IsRecorded(t', j) then 1 else 0 {
      RowsOfAppend(rows, RowFor(t), j);
      CountAppend(RowsOf(rows, j), RowFor(t), t.now);
      assert IsRecorded(t', j) <==> IsRecorded(t, j) || j == t.job;
    }
  }

  lemma CountedDone(rows: seq<Row>, t: Tick)
    requires Counted(rows, t) && Recorded(t)
    ensures Counted(rows, t.(pc := Looping))
  {
    var t' := t.(pc := Looping);
    assert t.found[..Done(t')] == t.found[..Done(t)] + [t.job];
    forall j ensures IsRecorded(t', j) == IsRecorded(t, j) {
    }
  }

  ghost predicate AllCounted(s: State) {
    forall k :: 0 <= k < |s.ticks| ==> Counted(s.rows, s.ticks[k])
  }

  lemma CountedOne(s: State, t: Tick)
    requires s.ticks == [t] && Counted(s.rows, t)
    ensures AllCounted(s)
  {
  }

  lemma CountedByFind(s: State, a: Action)
    requires Guarded(s) && Enabled(s, a) && AllCounted(s) && a.FindDue?
    ensures AllCounted(Next(s, a))
  {
    CountedFind(s.rows, s.ticks[0], a.due);
    CountedOne(Next(s, a), s.ticks[0].(pc := Looping, due := a.due, found := a.due));
  }

  lemma CountedByTake(s: State, a: Action)
    requires Guarded(s) && Enabled(s, a) && AllCounted(s) && a.TakeJob?
    ensures AllCounted(Next(s, a))
  {
    var s', t := Next(s, a), s.ticks[0];
    if t.due != [] {
      var pc := s'.ticks[0].pc;
      CountedTake(s.rows, t, pc);
      CountedOne(s', Tick(t.now, pc, t.due[0], 0, t.due[1..], t.found));
    }
  }

  lemma CountedByWrite(s: State, a: Action)
    requires Guarded(s) && Enabled(s, a) && AllCounted(s) && a.WriteRow?
    ensures AllCounted(Next(s, a))
  {
    var s', t := Next(s, a), s.ticks[0];
    CountedWrite(s.rows, t, s'.ticks[0].pc);
    CountedOne(s', t.(pc := s'.ticks[0].pc));
  }

  lemma CountedBySettle(s: State, a: Action)
    requires Guarded(s) && Enabled(s, a) && AllCounted(s) && (a.Disable? || a.Reschedule?)
    ensures AllCounted(Next(s, a))
  {
    CountedDone(s.rows, s.ticks[0]);
    CountedOne(Next(s, a), s.ticks[0].(pc := Looping));
  }

  lemma CountedByMove(s: State, a: Action)
    requires Guarded(s) && Enabled(s, a) && AllCounted(s)
    requires a.CheckRunning? || a.Submit? || a.SubmitThrows? || a.Judge?
    ensures AllCounted(Next(s, a))
  {
    var s' := Next(s, a);
    assert a.tick == 0 && Counted(s.rows, s.ticks[0]);
    CountedMove(s.rows, s.ticks[0], s'.ticks[0]);
    CountedOne(s', s'.ticks[0]);
  }

  lemma CountedOutside(s: State, a: Action)
    requires AllCounted(s) && Enabled(s, a) && (a.RunAdvances? || a.OtherRun? || a.EditJob?)
    ensures AllCounted(Next(s, a))
  {
    assert Next(s, a).ticks == s.ticks && Next(s, a).rows == s.rows;
  }

  lemma CountedByTimer(s: State, a: Action)
    requires Guarded(s) && Breaker(s) && AllCounted(s) && Enabled(s, a) && a.TimerFires?
    ensures AllCounted(Next(s, a))
  {
    if !s.tickInProgress {
      CountedTimer(s, a.now);
      CountedOne(Next(s, a), Tick(a.now, Finding, 0, 0, [], []));
    }
  }

  lemma {:induction false} RunCounted(states: seq<State>, actions: seq<Action>, n: nat)
    requires IsRun(states, actions) && n < |states|
    ensures AllCounted(states[n])
  {
    if n > 0 {
      RunCounted(states, actions, n - 1);
      var s, a := states[n - 1], actions[n - 1];
      assert Enabled(s, a) && states[n] == Next(s, a);
      if a.TimerFires? {
        RunInv(states, actions, n - 1);
        CountedByTimer(s, a);
      } else {
        RunGuarded(states, actions, n - 1);
        if a.RunAdvances? || a.OtherRun? || a.EditJob? {
          CountedOutside(s, a);
        } else if a.CheckRunning? || a.Submit? || a.SubmitThrows? || a.Judge? {
          CountedByMove(s, a);
        } else if a.FindDue? {
          CountedByFind(s, a);
        } else if a.TakeJob? {
          CountedByTake(s, a);
        } else if a.WriteRow? {
          CountedByWrite(s, a);
        } else {
          CountedBySettle(s, a);
        }
      }
    }
  }

  // --------------------------------------------------------------- what a record means

  predicate Writes(t: Tick) {
    t.pc.Skipping? || t.pc.Recording? || t.pc.Failing?
  }

  // The step that decided what a tick is about to record.
  ghost predicate Decides(s: State, a: Action, t: Tick) {
    && |s.ticks| == 1 && s.ticks[0].job == t.job && s.ticks[0].now == t.now
    && (t.pc.Skipping? ==> a == CheckRunning(0) && HasActive(s, t.job))
    && (t.pc.Recording? ==> a == Submit(0, t.run))
    && (t.pc.Failing? ==> a == SubmitThrows(0))
  }

  lemma DecidesOrStays(s: State, a: Action)
    requires Guarded(s) && Enabled(s, a) && |Next(s, a).ticks| == 1 && Writes(Next(s, a).ticks[0])
    ensures Decides(s, a, Next(s, a).ticks[0]) || Next(s, a).ticks == s.ticks
  {
    if |s.ticks| == 1 {
      ActiveExactly(s, s.ticks[0].job);
    }
  }

  lemma {:induction false} DecidedSome(states: seq<State>, actions: seq<Action>, n: nat) returns (h: nat)
    requires IsRun(states, actions) && n < |states| && |states[n].ticks| == 1 && Writes(states[n].ticks[0])
    ensures h < n && Decides(states[h], actions[h], states[n].ticks[0])
  {
    assert n > 0;
    RunGuarded(states, actions, n - 1);
    DecidesOrStays(states[n - 1], actions[n - 1]);
    if Decides(states[n - 1], actions[n - 1], states[n].ticks[0]) {
      h := n - 1;
    } else {
      h := DecidedSome(states, actions, n - 1);
    }
  }

  lemma {:induction false} WrittenAt(states: seq<State>, actions: seq<Action>, n: nat, q: nat) returns (i: nat)
    requires IsRun(states, actions) && n < |states| && q < |states[n].rows|
    ensures i < n && actions[i] == WriteRow(0) && |states[i].ticks| == 1 && Writes(states[i].ticks[0])
    ensures states[n].rows[q] == RowFor(states[i].ticks[0])
  {
    assert n > 0;
    RunGuarded(states, actions, n - 1);
    AppendsAtMost(states[n - 1], actions[n - 1]);
    if q < |states[n - 1].rows| {
      i := WrittenAt(states, actions, n - 1, q);
    } else {
      i := n - 1;
    }
  }

  lemma AppendsAtMost(s: State, a: Action)
    requires Guarded(s) && Enabled(s, a)
    ensures if a.WriteRow?
            then a.tick == 0 && |s.ticks| == 1 && Writes(s.ticks[0]) && Next(s, a).rows == s.rows + [RowFor(s.ticks[0])]
            else Next(s, a).rows == s.rows
  {
  }

  // Every record of a job is skipped because the job had an active execution, submitted
  // with the run that submitTask answered, or failed because submitTask threw.
  lemma RecordsExactly(states: seq<State>, actions: seq<Action>, n: nat, q: nat) returns (h: nat)
    requires IsRun(states, actions) && n < |states| && q < |states[n].rows|
    ensures h < n && |states[h].ticks| == 1
    ensures var row, t := states[n].rows[q], states[h].ticks[0];
            && row.job == t.job && row.scheduledAt == t.now
            && match row.status
               case Skipped => actions[h] == CheckRunning(0) && HasActive(states[h], row.job)
               case Submitted(run) => actions[h] == Submit(0, run)
               case Failed => actions[h] == SubmitThrows(0)
  {
    var i := WrittenAt(states, actions, n, q);
    h := DecidedSome(states, actions, i);
  }

  // The step at which the tick found its jobs.
  ghost predicate FoundAt(states: seq<State>, actions: seq<Action>, h: nat, t: Tick)
    requires h < |actions| < |states|
  {
    actions[h] == FindDue(0, t.found) && |states[h].ticks| == 1 && states[h].ticks[0].now == t.now
  }

  lemma {:induction false} FoundSome(states: seq<State>, actions: seq<Action>, n: nat) returns (h: nat)
    requires IsRun(states, actions) && n < |states| && |states[n].ticks| == 1 && !states[n].ticks[0].pc.Finding?
    ensures h < n && FoundAt(states, actions, h, states[n].ticks[0])
  {
    assert n > 0;
    RunGuarded(states, actions, n - 1);
    if actions[n - 1].FindDue? {
      FindGives(states[n - 1], actions[n - 1]);
      h := n - 1;
    } else {
      SameFound(states[n - 1], actions[n - 1]);
      h := FoundSome(states, actions, n - 1);
    }
  }

  lemma FindGives(s: State, a: Action)
    requires Guarded(s) && Enabled(s, a) && a.FindDue?
    ensures |s.ticks| == 1 && a == FindDue(0, Next(s, a).ticks[0].found) && s.ticks[0].now == Next(s, a).ticks[0].now
  {
  }

  lemma SameFound(s: State, a: Action)
    requires Guarded(s) && Enabled(s, a) && !a.FindDue?
    requires |Next(s, a).ticks| == 1 && !Next(s, a).ticks[0].pc.Finding?
    ensures |s.ticks| == 1 && !s.ticks[0].pc.Finding?
    ensures s.ticks[0].found == Next(s, a).ticks[0].found && s.ticks[0].now == Next(s, a).ticks[0].now
  {
  }

  predicate IsDue(s: State, j: JobId, now: nat) {
    j in s.jobs && s.jobs[j].enabled && s.jobs[j].nextRunAt <= now
  }

  // When a tick ends, every job that was enabled and due when it looked has exactly one
  // record of that tick, and no other job has any.
  lemma TickRecordsExactly(states: seq<State>, actions: seq<Action>, n: nat) returns (h: nat)
    requires IsRun(states, actions) && n < |actions| && actions[n] == TakeJob(0) && states[n].ticks[0].due == []
    ensures var now := states[n].ticks[0].now;
            && h < n && actions[h].FindDue? && states[h].ticks[0].now == now && states[n + 1].ticks == []
            && forall j :: CountAt(RowsOf(states[n].rows, j), now)
                           == if IsDue(states[h], j, now) then 1 else 0
  {
    RunGuarded(states, actions, n);
    RunCounted(states, actions, n);
    var t := states[n].ticks[0];
    h := FoundSome(states, actions, n);
    assert t.found[..Done(t)] == t.found;
    forall j ensures IsRecorded(t, j) <==> j in t.found {
    }
  }
}

/**
  What every interleaving of the scheduler keeps: one tick at a time, no overlapping
  executions of a non-concurrent job, and the circuit breaker over whole histories.
 */
module SchedulerSafety {
  import opened Scheduler

  // ----------------------------------------------------------------------- invariants

  ghost predicate NonConcurrent(s: State, j: JobId) {
    j in s.jobs && !s.jobs[j].allowConcurrent
  }

  ghost predicate Guarded(s: State) {
    && |s.ticks| <= 1
    && (s.tickInProgress <==> |s.ticks| == 1)
    && forall k :: 0 <= k < |s.ticks| ==> s.ticks[k].now == s.clock
  }

  // Two records of one job that are both still active.
  ghost predicate Overlap(s: State, i: nat, j: nat) {
    && i < j < |s.rows| && s.rows[i].job == s.rows[j].job
    && ActiveRow(s.rows[i], s.runs) && ActiveRow(s.rows[j], s.runs)
  }

  ghost predicate Exclusive(s: State) {
    && (forall i :: 0 <= i < |s.rows| && s.rows[i].status.Submitted? ==> s.rows[i].status.run in s.runs)
    && (forall i: nat, j: nat :: i < j < |s.rows| && NonConcurrent(s, s.rows[i].job) ==> !Overlap(s, i, j))
    && (forall k :: 0 <= k < |s.ticks| ==> MayCreate(s, s.ticks[k]))
  }

  // Between the check and the new record, the job has no active execution.
  ghost predicate MayCreate(s: State, t: Tick) {
    && (t.pc.Recording? ==> t.run in s.runs)
    && (t.pc.Submitting? || t.pc.Recording? ==>
          NonConcurrent(s, t.job) ==> !HasRunningExecution(s.rows, s.runs, t.job))
  }

  ghost predicate Before(rows: seq<Row>, j: JobId, now: nat) {
    forall i :: 0 <= i < |RowsOf(rows, j)| ==> RowsOf(rows, j)[i].scheduledAt < now
  }

  ghost predicate Fresh(rows: seq<Row>, j: JobId, now: nat) {
    Calm(RowsOf(rows, j)) && Before(rows, j, now)
  }

  ghost predicate JustFailed(rows: seq<Row>, j: JobId) {
    var own := RowsOf(rows, j);
    own != [] && own[|own| - 1].status.Failed? && Calm(own[..|own| - 1])
  }

  ghost predicate TickOk(rows: seq<Row>, t: Tick) {
    && NoDuplicates(t.due)
    && (t.pc.Finding? ==> t.due == [] && forall j :: Before(rows, j, t.now))
    && (forall i :: 0 <= i < |t.due| ==> Fresh(rows, t.due[i], t.now))
    && (!t.pc.Finding? && !t.pc.Looping? ==> t.job !in t.due)
    && (t.pc.Checking? || t.pc.Skipping? || t.pc.Submitting? || t.pc.Recording? || t.pc.Failing? ==>
          Fresh(rows, t.job, t.now))
    && (t.pc.Judging? || t.pc.Disabling? ==> JustFailed(rows, t.job))
    && (t.pc.Rescheduling? ==> Calm(RowsOf(rows, t.job)))
  }

  ghost predicate Judged(s: State, j: JobId) {
    exists k :: 0 <= k < |s.ticks| && s.ticks[k].job == j && (s.ticks[k].pc.Judging? || s.ticks[k].pc.Disabling?)
  }

  ghost predicate HistoryOk(rows: seq<Row>, clock: nat, j: JobId) {
    var own := RowsOf(rows, j);
    && Increasing(own) && CalmUntilLast(own)
    && forall i :: 0 <= i < |own| ==> own[i].scheduledAt <= clock
  }

  ghost predicate Breaker(s: State) {
    && (forall j :: HistoryOk(s.rows, s.clock, j))
    && (forall j :: j in s.jobs && s.jobs[j].enabled && !Judged(s, j) ==> Calm(RowsOf(s.rows, j)))
    && (forall k :: 0 <= k < |s.ticks| ==> TickOk(s.rows, s.ticks[k]))
  }

  ghost predicate Inv(s: State) {
    Guarded(s) && Exclusive(s) && Breaker(s)
  }

  // ------------------------------------------------------------------- one tick at a time

  lemma GuardKept(s: State, a: Action)
    requires Guarded(s) && Enabled(s, a)
    ensures Guarded(Next(s, a))
  {
  }

  // --------------------------------------------------------------- no overlapping runs

  // Steps that change neither records nor run states keep exclusion if the new position
  // of the tick is allowed to create.
  lemma ExclusiveFrame(s: State, s': State)
    requires Exclusive(s) && s'.rows == s.rows
    requires forall r :: r in s.runs ==> r in s'.runs && (Active(s'.runs[r]) ==> Active(s.runs[r]))
    requires forall j :: NonConcurrent(s', j) ==> NonConcurrent(s, j)
    requires forall k :: 0 <= k < |s'.ticks| ==> MayCreate(s', s'.ticks[k])
    ensures Exclusive(s')
  {
    forall i: nat, j: nat | i < j < |s'.rows| && NonConcurrent(s', s'.rows[i].job) ensures !Overlap(s', i, j) {
      assert !Overlap(s, i, j);
    }
  }

  lemma StillIdle(s: State, s': State, job: JobId)
    requires Exclusive(s) && s'.rows == s.rows
    requires forall r :: r in s.runs ==> r in s'.runs && (Active(s'.runs[r]) ==> Active(s.runs[r]))
    requires !HasRunningExecution(s.rows, s.runs, job)
    ensures !HasRunningExecution(s'.rows, s'.runs, job)
  {
  }

  lemma ExclusiveTick(s: State, a: Action)
    requires Guarded(s) && Exclusive(s) && Enabled(s, a)
    requires a.TimerFires? || a.FindDue? || a.TakeJob? || a.CheckRunning? || a.SubmitThrows? || a.Judge?
    ensures Exclusive(Next(s, a))
  {
    var s' := Next(s, a);
    assert s'.rows == s.rows && s'.runs == s.runs && s'.jobs == s.jobs;
    forall k | 0 <= k < |s'.ticks| ensures MayCreate(s', s'.ticks[k]) {
    }
    ExclusiveFrame(s, s');
  }

  lemma ExclusiveJobs(s: State, a: Action)
    requires Guarded(s) && Exclusive(s) && Enabled(s, a)
    requires a.Disable? || a.Reschedule? || a.EditJob?
    ensures Exclusive(Next(s, a))
  {
    var s' := Next(s, a);
    assert s'.rows == s.rows && s'.runs == s.runs;
    forall k | 0 <= k < |s'.ticks| ensures MayCreate(s', s'.ticks[k]) {
      assert MayCreate(s, s.ticks[k]);
    }
    ExclusiveFrame(s, s');
  }

  lemma ExclusiveRuns(s: State, a: Action)
    requires Guarded(s) && Exclusive(s) && Enabled(s, a)
    requires a.Submit? || a.RunAdvances? || a.OtherRun?
    ensures Exclusive(Next(s, a))
  {
    var s' := Next(s, a);
    assert s'.rows == s.rows && s'.jobs == s.jobs;
    forall k | 0 <= k < |s'.ticks| ensures MayCreate(s', s'.ticks[k]) {
      assert MayCreate(s, s.ticks[k]);
      var t := s'.ticks[k];
      if (t.pc.Submitting? || t.pc.Recording?) && NonConcurrent(s', t.job) {
        StillIdle(s, s', t.job);
      }
    }
    ExclusiveFrame(s, s');
  }

  lemma ExclusiveWrite(s: State, a: Action)
    requires Guarded(s) && Exclusive(s) && Enabled(s, a) && a.WriteRow?
    ensures Exclusive(Next(s, a))
  {
    var s', t := Next(s, a), s.ticks[a.tick];
    var n := |s.rows|;
    assert MayCreate(s, t);
    assert s'.rows[n] == RowFor(t) && forall i :: 0 <= i < n ==> s'.rows[i] == s.rows[i];
    forall i: nat, j: nat | i < j < |s'.rows| && NonConcurrent(s', s'.rows[i].job) ensures !Overlap(s', i, j) {
      if j < n {
        assert !Overlap(s, i, j);
      } else if s'.rows[i].job == t.job && t.pc.Recording? {
        assert !ActiveRow(s.rows[i], s.runs);
      }
    }
  }

  lemma ExclusionKept(s: State, a: Action)
    requires Guarded(s) && Exclusive(s) && Enabled(s, a)
    ensures Exclusive(Next(s, a))
  {
    if a.WriteRow? {
      ExclusiveWrite(s, a);
    } else if a.Submit? || a.RunAdvances? || a.OtherRun? {
      ExclusiveRuns(s, a);
    } else if a.Disable? || a.Reschedule? || a.EditJob? {
      ExclusiveJobs(s, a);
    } else {
      ExclusiveTick(s, a);
    }
  }

  // ---------------------------------------------------------------- the circuit breaker

  // Steps that write no record.
  lemma BreakerFrame(s: State, s': State)
    requires Breaker(s) && s'.rows == s.rows && s.clock <= s'.clock
    requires forall j :: j in s'.jobs && s'.jobs[j].enabled ==> j in s.jobs && s.jobs[j].enabled
    requires forall j :: Judged(s, j) && !Judged(s', j) && j in s'.jobs && s'.jobs[j].enabled ==>
              Calm(RowsOf(s.rows, j))
    requires forall k :: 0 <= k < |s'.ticks| ==> TickOk(s.rows, s'.ticks[k])
    ensures Breaker(s')
  {
    forall j ensures HistoryOk(s'.rows, s'.clock, j) {
      assert HistoryOk(s.rows, s.clock, j);
    }
  }

  predicate AtJudgement(t: Tick) {
    t.pc.Judging? || t.pc.Disabling?
  }

  // The only tick moves on; jobs may only be disabled.
  lemma BreakerTick(s: State, s': State, t: Tick)
    requires Breaker(s) && |s.ticks| == 1 && s'.ticks == [t] && TickOk(s.rows, t)
    requires s'.rows == s.rows && s'.clock == s.clock
    requires forall j :: j in s'.jobs && s'.jobs[j].enabled ==> j in s.jobs && s.jobs[j].enabled
    requires AtJudgement(s.ticks[0]) ==> Released(s, s', t, s.ticks[0].job)
    ensures Breaker(s')
  {
    assert s'.ticks[0] == t;
    if AtJudgement(t) {
      assert Judged(s', t.job);
    }
    forall j | Judged(s, j) && !Judged(s', j) && j in s'.jobs && s'.jobs[j].enabled ensures Calm(RowsOf(s.rows, j)) {
      assert j == s.ticks[0].job;
    }
    BreakerFrame(s, s');
  }

  // Judgement of a job goes on, or ended with a calm history, or disabled the job.
  ghost predicate Released(s: State, s': State, t: Tick, j: JobId) {
    || (AtJudgement(t) && t.job == j)
    || Calm(RowsOf(s.rows, j))
    || (j in s'.jobs && !s'.jobs[j].enabled)
  }

  lemma BreakerTimer(s: State, a: Action)
    requires Guarded(s) && Breaker(s) && Enabled(s, a) && a.TimerFires?
    ensures Breaker(Next(s, a))
  {
    var s' := Next(s, a);
    forall j ensures Before(s.rows, j, a.now) {
      assert HistoryOk(s.rows, s.clock, j);
    }
    if !s.tickInProgress {
      assert s'.ticks == [Tick(a.now, Finding, 0, 0, [], [])];
    }
    BreakerFrame(s, s');
  }

  lemma TickFind(s: State, due: seq<JobId>)
    requires Guarded(s) && Breaker(s) && At(s, 0, Finding) && IsDueList(s.jobs, s.ticks[0].now, due)
    ensures TickOk(s.rows, s.ticks[0].(pc := Looping, due := due, found := due))
  {
    assert TickOk(s.rows, s.ticks[0]);
    forall i | 0 <= i < |due| ensures Fresh(s.rows, due[i], s.clock) {
      assert due[i] in due;
      assert !Judged(s, due[i]);
      assert Before(s.rows, due[i], s.clock);
    }
  }

  lemma BreakerFind(s: State, a: Action)
    requires Guarded(s) && Breaker(s) && Enabled(s, a) && a.FindDue?
    ensures Breaker(Next(s, a))
  {
    assert a.tick == 0;
    TickFind(s, a.due);
    BreakerTick(s, Next(s, a), s.ticks[0].(pc := Looping, due := a.due, found := a.due));
  }

  lemma TickTake(rows: seq<Row>, t: Tick, pc: Pc)
    requires TickOk(rows, t) && t.pc.Looping? && t.due != [] && (pc.Submitting? || pc.Checking?)
    ensures TickOk(rows, Tick(t.now, pc, t.due[0], 0, t.due[1..], t.found))
  {
  }

  lemma BreakerTake(s: State, a: Action)
    requires Guarded(s) && Breaker(s) && Enabled(s, a) && a.TakeJob?
    ensures Breaker(Next(s, a))
  {
    var s', t := Next(s, a), s.ticks[0];
    assert a.tick == 0 && TickOk(s.rows, t);
    if t.due == [] {
      assert s'.ticks == [];
      assert forall j :: !Judged(s, j);
      BreakerFrame(s, s');
    } else {
      TickTake(s.rows, t, s'.ticks[0].pc);
      BreakerTick(s, s', Tick(t.now, s'.ticks[0].pc, t.due[0], 0, t.due[1..], t.found));
    }
  }

  lemma TickMove(rows: seq<Row>, t: Tick, t': Tick)
    requires TickOk(rows, t) && (t.pc.Checking? || t.pc.Submitting?)
    requires t' == t.(pc := t'.pc, run := t'.run)
    requires t'.pc.Skipping? || t'.pc.Submitting? || t'.pc.Recording? || t'.pc.Failing?
    ensures TickOk(rows, t')
  {
  }

  lemma BreakerMove(s: State, a: Action)
    requires Guarded(s) && Breaker(s) && Enabled(s, a)
    requires a.CheckRunning? || a.Submit? || a.SubmitThrows?
    ensures Breaker(Next(s, a))
  {
    var s' := Next(s, a);
    assert a.tick == 0 && TickOk(s.rows, s.ticks[0]);
    TickMove(s.rows, s.ticks[0], s'.ticks[0]);
    BreakerTick(s, s', s'.ticks[0]);
  }

  lemma BreakerOutside(s: State, a: Action)
    requires Guarded(s) && Breaker(s) && Enabled(s, a)
    requires a.RunAdvances? || a.OtherRun? || a.EditJob?
    ensures Breaker(Next(s, a))
  {
  }

  // A third failure in the window trips the breaker; fewer leave the history calm.
  lemma Verdict(rows: seq<Row>, j: JobId)
    requires JustFailed(rows, j) && Increasing(RowsOf(rows, j))
    ensures CountRecentFailures(rows, j, 5) < 3 <==> Calm(RowsOf(rows, j))
  {
    CountIsLastFive(rows, j);
  }

  lemma TickJudge(rows: seq<Row>, t: Tick, pc: Pc)
    requires TickOk(rows, t) && t.pc.Judging? && Increasing(RowsOf(rows, t.job))
    requires pc == if CountRecentFailures(rows, t.job, 5) >= 3 then Disabling else Rescheduling
    ensures TickOk(rows, t.(pc := pc))
  {
    Verdict(rows, t.job);
  }

  lemma BreakerJudge(s: State, a: Action)
    requires Guarded(s) && Breaker(s) && Enabled(s, a) && a.Judge?
    ensures Breaker(Next(s, a))
  {
    var s', t := Next(s, a), s.ticks[0];
    assert a.tick == 0 && TickOk(s.rows, t);
    assert HistoryOk(s.rows, s.clock, t.job);
    TickJudge(s.rows, t, s'.ticks[0].pc);
    BreakerTick(s, s', t.(pc := s'.ticks[0].pc));
  }

  lemma BreakerSettle(s: State, a: Action)
    requires Guarded(s) && Breaker(s) && Enabled(s, a) && (a.Disable? || a.Reschedule?)
    ensures Breaker(Next(s, a))
  {
    var t := s.ticks[0];
    assert a.tick == 0 && TickOk(s.rows, t);
    assert TickOk(s.rows, t.(pc := Looping));
    BreakerTick(s, Next(s, a), t.(pc := Looping));
  }

  lemma RowsOfAppend(rows: seq<Row>, row: Row, j: JobId)
    ensures RowsOf(rows + [row], j) == if row.job == j then RowsOf(rows, j) + [row] else RowsOf(rows, j)
  {
  }

  lemma HistoryAppend(rows: seq<Row>, row: Row, clock: nat, j: JobId)
    requires HistoryOk(rows, clock, j) && Fresh(rows, row.job, clock) && row.scheduledAt == clock
    ensures HistoryOk(rows + [row], clock, j)
  {
    RowsOfAppend(rows, row, j);
    if row.job == j {
      OwnAppend(RowsOf(rows, j), row, clock);
    }
  }

  lemma OwnAppend(own: seq<Row>, row: Row, clock: nat)
    requires Increasing(own) && Calm(own) && row.scheduledAt == clock
    requires forall i :: 0 <= i < |own| ==> own[i].scheduledAt < clock
    ensures Increasing(own + [row]) && CalmUntilLast(own + [row])
    ensures forall i :: 0 <= i < |own + [row]| ==> (own + [row])[i].scheduledAt <= clock
  {
  }

  lemma TickAppend(rows: seq<Row>, t: Tick, pc: Pc)
    requires TickOk(rows, t) && (t.pc.Skipping? || t.pc.Recording? || t.pc.Failing?)
    requires pc == if t.pc.Failing? then Judging else Rescheduling
    ensures TickOk(rows + [RowFor(t)], t.(pc := pc))
  {
    var rows', own := rows + [RowFor(t)], RowsOf(rows, t.job);
    RowsOfAppend(rows, RowFor(t), t.job);
    if t.pc.Failing? {
      assert (own + [RowFor(t)])[..|own|] == own;
    } else {
      CalmAppendOther(own, RowFor(t));
    }
    forall i | 0 <= i < |t.due| ensures Fresh(rows', t.due[i], t.now) {
      RowsOfAppend(rows, RowFor(t), t.due[i]);
      assert Fresh(rows, t.due[i], t.now);
    }
  }

  lemma BreakerWrite(s: State, a: Action)
    requires Guarded(s) && Breaker(s) && Enabled(s, a) && a.WriteRow?
    ensures Breaker(Next(s, a))
  {
    var s', t := Next(s, a), s.ticks[0];
    assert a.tick == 0 && TickOk(s.rows, t);
    TickAppend(s.rows, t, s'.ticks[0].pc);
    forall j ensures HistoryOk(s'.rows, s'.clock, j) {
      HistoryAppend(s.rows, RowFor(t), s.clock, j);
    }
    if t.pc.Failing? {
      assert s'.ticks[0].pc.Judging? && s'.ticks[0].job == t.job;
      assert Judged(s', t.job);
    }
    forall j | j in s'.jobs && s'.jobs[j].enabled && !Judged(s', j) ensures Calm(RowsOf(s'.rows, j)) {
      CalmAfterWrite(s, s', t, j);
    }
  }

  lemma CalmAfterWrite(s: State, s': State, t: Tick, j: JobId)
    requires Breaker(s) && s.ticks == [t] && j in s.jobs && s.jobs[j].enabled
    requires t.pc.Skipping? || t.pc.Recording? || t.pc.Failing?
    requires s'.rows == s.rows + [RowFor(t)]
    requires j == t.job ==> !t.pc.Failing?
    ensures Calm(RowsOf(s'.rows, j))
  {
    assert TickOk(s.rows, t) by {
      assert s.ticks[0] == t;
    }
    RowsOfAppend(s.rows, RowFor(t), j);
    if j == t.job {
      CalmAppendOther(RowsOf(s.rows, j), RowFor(t));
    } else {
      assert !Judged(s, j);
    }
  }

  lemma BreakerKept(s: State, a: Action)
    requires Guarded(s) && Breaker(s) && Enabled(s, a)
    ensures Breaker(Next(s, a))
  {
    match a
    case TimerFires(_) => BreakerTimer(s, a);
    case FindDue(_, _) => BreakerFind(s, a);
    case TakeJob(_) => BreakerTake(s, a);
    case CheckRunning(_) => BreakerMove(s, a);
    case Submit(_, _) => BreakerMove(s, a);
    case SubmitThrows(_) => BreakerMove(s, a);
    case WriteRow(_) => BreakerWrite(s, a);
    case Judge(_) => BreakerJudge(s, a);
    case Disable(_) => BreakerSettle(s, a);
    case Reschedule(_, _) => BreakerSettle(s, a);
    case RunAdvances(_, _) => BreakerOutside(s, a);
    case OtherRun(_) => BreakerOutside(s, a);
    case EditJob(_, _, _) => BreakerOutside(s, a);
  }

  // ------------------------------------------------------------------------- theorems

  lemma {:induction false} RunInv(states: seq<State>, actions: seq<Action>, n: nat)
    requires IsRun(states, actions) && n < |states|
    ensures Inv(states[n])
  {
    if n == 0 {
      forall j ensures HistoryOk(states[0].rows, states[0].clock, j) {
        assert RowsOf(states[0].rows, j) == [];
      }
    } else {
      RunInv(states, actions, n - 1);
      var s, a := states[n - 1], actions[n - 1];
      GuardKept(s, a);
      ExclusionKept(s, a);
      BreakerKept(s, a);
    }
  }

  // A job that stays non-concurrent never has two submitted executions whose runs are
  // both pending or running.
  lemma NoOverlap(states: seq<State>, actions: seq<Action>, n: nat, i: nat, j: nat)
    requires IsRun(states, actions) && n < |states|
    requires i < j < |states[n].rows| && states[n].rows[i].job == states[n].rows[j].job
    requires NonConcurrent(states[n], states[n].rows[i].job)
    ensures !(ActiveRow(states[n].rows[i], states[n].runs) && ActiveRow(states[n].rows[j], states[n].runs))
  {
    RunInv(states, actions, n);
    assert !Overlap(states[n], i, j);
  }

  // A third failure within five consecutive records of a job is its last record.
  lemma ThirdFailureIsLast(states: seq<State>, actions: seq<Action>, n: nat, job: JobId, lo: nat, hi: nat)
    requires IsRun(states, actions) && n < |states|
    requires lo <= hi <= |RowsOf(states[n].rows, job)| && hi <= lo + 5
    requires Failures(RowsOf(states[n].rows, job)[lo..hi]) >= 3
    ensures hi == |RowsOf(states[n].rows, job)|
  {
    RunInv(states, actions, n);
    assert HistoryOk(states[n].rows, states[n].clock, job);
    ThirdFailure(RowsOf(states[n].rows, job), lo, hi);
  }

  lemma ThirdFailure(own: seq<Row>, lo: nat, hi: nat)
    requires CalmUntilLast(own) && lo <= hi <= |own| && hi <= lo + 5 && Failures(own[lo..hi]) >= 3
    ensures hi == |own|
  {
    if hi < |own| {
      var front := own[..|own| - 1];
      assert front[lo..hi] == own[lo..hi];
      CalmWindows(front, lo, hi);
    }
  }

  // An enabled job whose last failure is not being judged has at most two failures for
  // every started five records.
  lemma EnabledJobFailures(states: seq<State>, actions: seq<Action>, n: nat, job: JobId)
    requires IsRun(states, actions) && n < |states|
    requires job in states[n].jobs && states[n].jobs[job].enabled && !Judged(states[n], job)
    ensures var own := RowsOf(states[n].rows, job);
            Failures(own) <= 2 * ((|own| + 4) / 5)
  {
    RunInv(states, actions, n);
    CalmTotal(RowsOf(states[n].rows, job));
  }
}

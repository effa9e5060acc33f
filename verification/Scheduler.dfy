/**
  SchedulerService (packages/scheduler) over the job and execution tables
  (packages/storage). Ticks are interleaved with everything else at their awaits: runs
  advance, other runs are created, jobs are edited, the timer fires again. Storage
  calls do not fail, submitTask may; a job is never enabled again; tick times increase.
 */
module Scheduler {

  type JobId = nat
  type RunId = nat

  datatype Job = Job(enabled: bool, allowConcurrent: bool, nextRunAt: nat)

  datatype ExecutionStatus = Submitted(run: RunId) | Skipped | Failed

  datatype Row = Row(job: JobId, status: ExecutionStatus, scheduledAt: nat)

  datatype RunStatus = PendingRun | RunningRun | CompletedRun | FailedRun

  predicate Active(status: RunStatus) {
    status.PendingRun? || status.RunningRun?
  }

  // The await at which a tick is suspended.
  datatype Pc =
    | Finding        // findDueJobs
    | Looping        // between two due jobs
    | Checking       // hasRunningExecution
    | Skipping       // create of a skipped record
    | Submitting     // submitTask
    | Recording      // create of a submitted record
    | Failing        // create of a failed record
    | Judging        // countRecentFailures
    | Disabling      // disable
    | Rescheduling   // updateNextRun

  datatype Tick = Tick(
    now: nat, pc: Pc, job: JobId, run: RunId,
    due: seq<JobId>,          // due jobs not yet taken
    found: seq<JobId>)        // all due jobs, as found (history variable)

  datatype State = State(
    jobs: map<JobId, Job>,
    rows: seq<Row>,                 // job_executions in insertion order
    runs: map<RunId, RunStatus>,
    tickInProgress: bool,
    ticks: seq<Tick>,               // every tick that has not returned
    clock: nat)                     // time of the latest tick

  // --------------------------------------------------------------------- table queries

  function RowsOf(rows: seq<Row>, job: JobId): seq<Row> {
    if rows == [] then []
    else RowsOf(rows[..|rows| - 1], job) + (if rows[|rows| - 1].job == job then [rows[|rows| - 1]] else [])
  }

  function InsertDesc(row: Row, sorted: seq<Row>): seq<Row> {
    if sorted == [] || sorted[0].scheduledAt <= row.scheduledAt then [row] + sorted
    else [sorted[0]] + InsertDesc(row, sorted[1..])
  }

  // ORDER BY scheduled_at DESC
  function OrderDesc(rows: seq<Row>): seq<Row> {
    if rows == [] then [] else InsertDesc(rows[|rows| - 1], OrderDesc(rows[..|rows| - 1]))
  }

  function Limit(rows: seq<Row>, n: nat): seq<Row> {
    if |rows| <= n then rows else rows[..n]
  }

  function Failures(rows: seq<Row>): nat {
    if rows == [] then 0 else Failures(rows[..|rows| - 1]) + (if rows[|rows| - 1].status.Failed? then 1 else 0)
  }

  function CountRecentFailures(rows: seq<Row>, job: JobId, limit: nat): nat {
    Failures(Limit(OrderDesc(RowsOf(rows, job)), limit))
  }

  predicate ActiveRow(row: Row, runs: map<RunId, RunStatus>) {
    row.status.Submitted? && row.status.run in runs && Active(runs[row.status.run])
  }

  predicate HasRunningExecution(rows: seq<Row>, runs: map<RunId, RunStatus>, job: JobId) {
    exists i :: 0 <= i < |rows| && rows[i].job == job && ActiveRow(rows[i], runs)
  }

  predicate NoDuplicates(js: seq<JobId>) {
    forall i, j :: 0 <= i < j < |js| ==> js[i] != js[j]
  }

  // An answer of findDueJobs, in any order.
  ghost predicate IsDueList(jobs: map<JobId, Job>, now: nat, due: seq<JobId>) {
    && NoDuplicates(due)
    && forall j :: j in due <==> j in jobs && jobs[j].enabled && jobs[j].nextRunAt <= now
  }

  // ------------------------------------------------------------------------- the steps

  datatype Action =
    | TimerFires(now: nat)
    | FindDue(tick: nat, due: seq<JobId>)
    | TakeJob(tick: nat)
    | CheckRunning(tick: nat)
    | Submit(tick: nat, run: RunId)
    | SubmitThrows(tick: nat)
    | WriteRow(tick: nat)
    | Judge(tick: nat)
    | Disable(tick: nat)
    | Reschedule(tick: nat, nextRunAt: nat)
    | RunAdvances(run: RunId, status: RunStatus)
    | OtherRun(run: RunId)
    | EditJob(job: JobId, enabled: bool, nextRunAt: nat)

  predicate At(s: State, k: nat, pc: Pc) {
    k < |s.ticks| && s.ticks[k].pc == pc && (pc.Finding? || pc.Looping? || s.ticks[k].job in s.jobs)
  }

  ghost predicate Enabled(s: State, a: Action) {
    match a
    case TimerFires(now) => s.clock < now
    case FindDue(k, due) => At(s, k, Finding) && IsDueList(s.jobs, s.ticks[k].now, due)
    case TakeJob(k) => At(s, k, Looping)
    case CheckRunning(k) => At(s, k, Checking)
    case Submit(k, run) => At(s, k, Submitting) && run !in s.runs
    case SubmitThrows(k) => At(s, k, Submitting)
    case WriteRow(k) => At(s, k, Skipping) || At(s, k, Recording) || At(s, k, Failing)
    case Judge(k) => At(s, k, Judging)
    case Disable(k) => At(s, k, Disabling)
    case Reschedule(k, nextRunAt) => At(s, k, Rescheduling) && s.ticks[k].now < nextRunAt
    case RunAdvances(run, status) => run in s.runs && Active(s.runs[run]) && !status.PendingRun?
    case OtherRun(run) => run !in s.runs
    case EditJob(job, enabled, _) => job in s.jobs && (enabled ==> s.jobs[job].enabled)
  }

  function Goto(s: State, k: nat, pc: Pc): State
    requires k < |s.ticks|
  {
    s.(ticks := s.ticks[k := s.ticks[k].(pc := pc)])
  }

  function RowFor(t: Tick): Row {
    Row(t.job, if t.pc.Skipping? then Skipped else if t.pc.Recording? then Submitted(t.run) else Failed, t.now)
  }

  function Next(s: State, a: Action): State
    requires Enabled(s, a)
  {
    match a
    case TimerFires(now) =>
      // a firing while a tick is in progress returns at once
      if s.tickInProgress then s
      else s.(tickInProgress := true, clock := now, ticks := s.ticks + [Tick(now, Finding, 0, 0, [], [])])
    case FindDue(k, due) => s.(ticks := s.ticks[k := s.ticks[k].(pc := Looping, due := due, found := due)])
    case TakeJob(k) =>
      var t := s.ticks[k];
      if t.due == [] then s.(tickInProgress := false, ticks := s.ticks[..k] + s.ticks[k + 1..])
      else
        var concurrent := t.due[0] in s.jobs && s.jobs[t.due[0]].allowConcurrent;
        var pc := if concurrent then Submitting else Checking;
        s.(ticks := s.ticks[k := Tick(t.now, pc, t.due[0], 0, t.due[1..], t.found)])
    case CheckRunning(k) =>
      Goto(s, k, if HasRunningExecution(s.rows, s.runs, s.ticks[k].job) then Skipping else Submitting)
    case Submit(k, run) =>
      s.(runs := s.runs[run := PendingRun], ticks := s.ticks[k := s.ticks[k].(pc := Recording, run := run)])
    case SubmitThrows(k) => Goto(s, k, Failing)
    case WriteRow(k) =>
      var t := s.ticks[k];
      Goto(s.(rows := s.rows + [RowFor(t)]), k, if t.pc.Failing? then Judging else Rescheduling)
    case Judge(k) =>
      Goto(s, k, if CountRecentFailures(s.rows, s.ticks[k].job, 5) >= 3 then Disabling else Rescheduling)
    case Disable(k) =>
      var j := s.ticks[k].job;
      Goto(s.(jobs := s.jobs[j := s.jobs[j].(enabled := false)]), k, Looping)
    case Reschedule(k, nextRunAt) =>
      var j := s.ticks[k].job;
      Goto(s.(jobs := s.jobs[j := s.jobs[j].(nextRunAt := nextRunAt)]), k, Looping)
    case RunAdvances(run, status) => s.(runs := s.runs[run := status])
    case OtherRun(run) => s.(runs := s.runs[run := PendingRun])
    case EditJob(job, enabled, nextRunAt) =>
      s.(jobs := s.jobs[job := s.jobs[job].(enabled := enabled, nextRunAt := nextRunAt)])
  }

  ghost predicate Initial(s: State) {
    s.rows == [] && s.ticks == [] && !s.tickInProgress
  }

  // States along a run.
  ghost predicate IsRun(states: seq<State>, actions: seq<Action>) {
    && |states| == |actions| + 1
    && Initial(states[0])
    && forall i :: 0 <= i < |actions| ==> Enabled(states[i], actions[i]) && states[i + 1] == Next(states[i], actions[i])
  }

  // ---------------------------------------------------------------- the sliding window

  function LastFive(rows: seq<Row>): seq<Row> {
    if |rows| <= 5 then rows else rows[|rows| - 5..]
  }

  // Whenever a record was the last one, the five latest held at most two failures.
  ghost predicate Calm(rows: seq<Row>) {
    rows == [] || (Calm(rows[..|rows| - 1]) && Failures(LastFive(rows)) <= 2)
  }

  // Calm, except perhaps for the last record.
  ghost predicate CalmUntilLast(rows: seq<Row>) {
    Calm(rows) || (rows != [] && Calm(rows[..|rows| - 1]))
  }

  ghost predicate Increasing(rows: seq<Row>) {
    forall i, j :: 0 <= i < j < |rows| ==> rows[i].scheduledAt < rows[j].scheduledAt
  }

  lemma {:induction false} FailuresConcat(a: seq<Row>, b: seq<Row>)
    ensures Failures(a + b) == Failures(a) + Failures(b)
    decreases |b|
  {
    if b == [] {
      assert a + b == a;
    } else {
      FailuresConcat(a, b[..|b| - 1]);
      assert (a + b)[..|a + b| - 1] == a + b[..|b| - 1];
    }
  }

  lemma FailuresOfSlice(rows: seq<Row>, lo: nat, mid: nat, hi: nat)
    requires lo <= mid <= hi <= |rows|
    ensures Failures(rows[lo..hi]) == Failures(rows[lo..mid]) + Failures(rows[mid..hi])
  {
    FailuresConcat(rows[lo..mid], rows[mid..hi]);
    assert rows[lo..hi] == rows[lo..mid] + rows[mid..hi];
  }

  lemma {:induction false} CalmPrefix(rows: seq<Row>, n: nat)
    requires Calm(rows) && n <= |rows|
    ensures Calm(rows[..n])
  {
    if n < |rows| {
      CalmPrefix(rows[..|rows| - 1], n);
      assert rows[..|rows| - 1][..n] == rows[..n];
    } else {
      assert rows[..n] == rows;
    }
  }

  // A calm history has at most two failures among any five consecutive records.
  lemma CalmWindows(rows: seq<Row>, lo: nat, hi: nat)
    requires Calm(rows) && lo <= hi <= |rows| && hi <= lo + 5
    ensures Failures(rows[lo..hi]) <= 2
  {
    CalmPrefix(rows, hi);
    var from := if hi <= 5 then 0 else hi - 5;
    assert LastFive(rows[..hi]) == rows[from..hi];
    FailuresOfSlice(rows, from, lo, hi);
    if hi == 0 {
      assert rows[lo..hi] == [];
    }
  }

  // So at most two failures per started five records.
  lemma {:induction false} CalmTotal(rows: seq<Row>)
    requires Calm(rows)
    ensures Failures(rows) <= 2 * ((|rows| + 4) / 5)
    decreases |rows|
  {
    if rows != [] {
      var cut := if |rows| <= 5 then 0 else |rows| - 5;
      CalmWindows(rows, cut, |rows|);
      CalmPrefix(rows, cut);
      CalmTotal(rows[..cut]);
      FailuresOfSlice(rows, 0, cut, |rows|);
      assert rows[0..|rows|] == rows && rows[0..cut] == rows[..cut];
    }
  }

  // Appending a record keeps a history calm exactly when the new window is calm.
  lemma CalmAppend(rows: seq<Row>, row: Row)
    requires Calm(rows)
    ensures Calm(rows + [row]) <==> Failures(LastFive(rows + [row])) <= 2
  {
  }

  lemma WindowAppend(rows: seq<Row>, row: Row, from: nat)
    requires from <= |rows|
    ensures Failures((rows + [row])[from..]) == Failures(rows[from..|rows|]) + (if row.status.Failed? then 1 else 0)
  {
    assert (rows + [row])[from..] == rows[from..|rows|] + [row];
    FailuresConcat(rows[from..|rows|], [row]);
    assert [row][..0] == [];
  }

  // A record that is not a failure never upsets a calm history.
  lemma CalmAppendOther(rows: seq<Row>, row: Row)
    requires Calm(rows) && !row.status.Failed?
    ensures Calm(rows + [row])
  {
    var from := if |rows| < 5 then 0 else |rows| - 4;
    WindowAppend(rows, row, from);
    CalmWindows(rows, from, |rows|);
    assert LastFive(rows + [row]) == (rows + [row])[from..];
    CalmAppend(rows, row);
  }

  // ------------------------------------------- ORDER BY ... LIMIT reads the last records

  function Reverse(rows: seq<Row>): seq<Row> {
    if rows == [] then [] else [rows[|rows| - 1]] + Reverse(rows[..|rows| - 1])
  }

  lemma {:induction false} OrderIsReverse(rows: seq<Row>)
    requires Increasing(rows)
    ensures OrderDesc(rows) == Reverse(rows)
  {
    if rows != [] {
      var front := rows[..|rows| - 1];
      OrderIsReverse(front);
      if front != [] {
        assert Reverse(front)[0] == rows[|rows| - 2];
      }
    }
  }

  lemma {:induction false} ReverseTake(rows: seq<Row>, n: nat)
    ensures |Reverse(rows)| == |rows|
    ensures n <= |rows| ==> Failures(Reverse(rows)[..n]) == Failures(rows[|rows| - n..])
    decreases |rows|
  {
    if rows == [] {
    } else if n == 0 {
      ReverseTake(rows[..|rows| - 1], 0);
      assert rows[|rows|..] == [];
    } else {
      var front, last := rows[..|rows| - 1], rows[|rows| - 1];
      ReverseTake(front, n - 1);
      if n <= |rows| {
        var from := |rows| - n;
        assert front[from..] + [last] == rows[from..] by {
          assert rows == front + [last];
        }
        assert [last] + Reverse(front)[..n - 1] == Reverse(rows)[..n] by {
          assert Reverse(rows) == [last] + Reverse(front);
        }
        FailuresConcat([last], Reverse(front)[..n - 1]);
        FailuresConcat(front[from..], [last]);
      }
    }
  }

  // With increasing times the query counts the failures of the last records.
  lemma CountIsLastFive(rows: seq<Row>, job: JobId)
    requires Increasing(RowsOf(rows, job))
    ensures CountRecentFailures(rows, job, 5) == Failures(LastFive(RowsOf(rows, job)))
  {
    var own := RowsOf(rows, job);
    OrderIsReverse(own);
    var n := if |own| <= 5 then |own| else 5;
    ReverseTake(own, n);
    assert own[|own| - n..] == LastFive(own);
    assert Limit(Reverse(own), 5) == Reverse(own)[..n];
  }
}

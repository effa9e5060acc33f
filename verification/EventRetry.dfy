/**
  EventProcessor of packages/connector-worker: one event is attempted, recorded and
  retried with capped exponential backoff. The event store does not fail; filtering
  and transformation are functions of the payload; every submission may answer
  differently.
 */
module EventRetry {
  import opened Wrappers

  // What a thrown value looks like to shouldRetry.
  datatype Error = Primitive | Object(statusCode: Option<int>, status: Option<int>, code: Option<string>)

  datatype SubmitResult = Accepted(runId: string) | Threw(error: Error)

  // What filters and transformation make of the payload (the same on every attempt).
  datatype Screening = FilteredOut | ScreeningThrew(error: Error) | Input(text: string)

  // The terminal status of one attempt's event record.
  datatype Status = Filtered | Submitted(runId: string) | Failed(error: Error)

  datatype EventRecord = EventRecord(id: nat, transformedInput: Option<string>, status: Status)

  datatype RetryPolicy = RetryPolicy(maxRetries: int, initialDelayMs: real, maxDelayMs: real, backoffMultiplier: real)

  const RETRYABLE_ERROR_CODES := {
    "ECONNABORTED", "ECONNREFUSED", "ECONNRESET", "EAI_AGAIN",
    "ENETDOWN", "ENETUNREACH", "ENOTFOUND", "ETIMEDOUT"
  }

  predicate ShouldRetry(error: Error) {
    match error
    case Primitive => false
    case Object(statusCode, status, code) =>
      var seen := if statusCode.Some? then statusCode else status;
      if seen.Some? && (seen.value == 429 || seen.value >= 500) then true
      else if seen.Some? && 400 <= seen.value < 500 then false
      else code.Some? && code.value in RETRYABLE_ERROR_CODES
  }

  // The HTTP status of an error; statusCode goes before status.
  predicate HasStatus(error: Error, n: int) {
    error.Object? && (error.statusCode == Some(n) || (error.statusCode.None? && error.status == Some(n)))
  }

  predicate HasCode(error: Error, code: string) {
    error.Object? && error.code == Some(code)
  }

  // Too many requests and server errors are retried, other client errors are not, and
  // without such a status exactly eight network errors are.
  lemma RetriedExactly(error: Error)
    ensures (exists n :: HasStatus(error, n) && (n == 429 || n >= 500)) ==> ShouldRetry(error)
    ensures (exists n :: HasStatus(error, n) && 400 <= n < 500 && n != 429) ==> !ShouldRetry(error)
    ensures (forall n :: HasStatus(error, n) ==> n < 400) ==>
              (ShouldRetry(error)
               <==> || HasCode(error, "ECONNABORTED") || HasCode(error, "ECONNREFUSED")
                    || HasCode(error, "ECONNRESET") || HasCode(error, "EAI_AGAIN")
                    || HasCode(error, "ENETDOWN") || HasCode(error, "ENETUNREACH")
                    || HasCode(error, "ENOTFOUND") || HasCode(error, "ETIMEDOUT"))
  {
    if error.Object? {
      var seen := if error.statusCode.Some? then error.statusCode else error.status;
      assert seen.Some? ==> HasStatus(error, seen.value);
    }
  }

  function RealPow(b: real, e: nat): real {
    if e == 0 then 1.0 else b * RealPow(b, e - 1)
  }

  function Min(a: real, b: real): real {
    if a < b then a else b
  }

  function RetryDelay(policy: RetryPolicy, attempt: nat): real
    requires attempt >= 1
  {
    Min(policy.initialDelayMs * RealPow(policy.backoffMultiplier, attempt - 1), policy.maxDelayMs)
  }

  // How attempt number k ends.
  function StatusOf(screening: Screening, submit: nat -> SubmitResult, k: nat): Status {
    match screening
    case FilteredOut => Filtered
    case ScreeningThrew(e) => Failed(e)
    case Input(_) =>
      match submit(k)
      case Accepted(runId) => Submitted(runId)
      case Threw(e) => Failed(e)
  }

  predicate Retries(policy: RetryPolicy, status: Status, k: nat) {
    status.Failed? && ShouldRetry(status.error) && k <= policy.maxRetries
  }

  datatype Report = Report(statuses: seq<Status>, delays: seq<real>, resolved: bool)

  // Everything that processEventAttempt does from attempt k on.
  function Attempts(policy: RetryPolicy, screening: Screening, submit: nat -> SubmitResult, k: nat): Report
    requires k >= 1
    decreases policy.maxRetries + 1 - k
  {
    var status := StatusOf(screening, submit, k);
    if Retries(policy, status, k) then
      var rest := Attempts(policy, screening, submit, k + 1);
      Report([status] + rest.statuses, [RetryDelay(policy, k)] + rest.delays, rest.resolved)
    else
      Report([status], [], !status.Failed?)
  }

  function StatusesOf(events: seq<EventRecord>): seq<Status> {
    if events == [] then [] else StatusesOf(events[..|events| - 1]) + [events[|events| - 1].status]
  }

  lemma Regroup<T>(a: seq<T>, x: T, b: seq<T>)
    ensures a + [x] + b == a + ([x] + b)
  {
  }

  class EventProcessor {
    const policy: RetryPolicy
    var events: seq<EventRecord>
    var delays: seq<real>

    constructor (policy: RetryPolicy)
      ensures this.policy == policy && events == [] && delays == []
    {
      this.policy := policy;
      events, delays := [], [];
    }

    ghost function Statuses(): seq<Status>
      reads this
    {
      StatusesOf(events)
    }

    // Records are named by their position, so ids never repeat.
    ghost predicate Valid()
      reads this
    {
      forall i :: 0 <= i < |events| ==> events[i].id == i
    }

    method ProcessEvent(screening: Screening, submit: nat -> SubmitResult) returns (resolved: bool)
      requires Valid()
      modifies this
      ensures Valid()
      ensures var report := Attempts(policy, screening, submit, 1);
              && Statuses() == old(Statuses()) + report.statuses
              && delays == old(delays) + report.delays
              && resolved == report.resolved
      ensures |events| > |old(events)| && events[..|old(events)|] == old(events)
    {
      resolved := ProcessEventAttempt(screening, submit, 1);
    }

    method ProcessEventAttempt(screening: Screening, submit: nat -> SubmitResult, attempt: nat)
      returns (resolved: bool)
      requires Valid() && attempt >= 1
      modifies this
      ensures Valid()
      ensures var report := Attempts(policy, screening, submit, attempt);
              && Statuses() == old(Statuses()) + report.statuses
              && delays == old(delays) + report.delays
              && resolved == report.resolved
      ensures |events| > |old(events)| && events[..|old(events)|] == old(events)
      decreases policy.maxRetries + 1 - attempt
    {
      var status := RecordAttempt(screening, submit, attempt);
      if status.Failed? && ShouldRetry(status.error) && attempt <= policy.maxRetries {
        delays := delays + [RetryDelay(policy, attempt)];
        resolved := ProcessEventAttempt(screening, submit, attempt + 1);
        ghost var rest := Attempts(policy, screening, submit, attempt + 1);
        Regroup(old(Statuses()), status, rest.statuses);
        Regroup(old(delays), RetryDelay(policy, attempt), rest.delays);
      } else {
        resolved := !status.Failed?;
      }
    }

    // One attempt up to its terminal record.
    method RecordAttempt(screening: Screening, submit: nat -> SubmitResult, attempt: nat) returns (status: Status)
      requires Valid()
      modifies this`events
      ensures Valid() && status == StatusOf(screening, submit, attempt)
      ensures Statuses() == old(Statuses()) + [status]
      ensures |events| == |old(events)| + 1 && events[..|old(events)|] == old(events)
      ensures events[|old(events)|].transformedInput == if screening.Input? then Some(screening.text) else None
    {
      var transformed: Option<string> := None;
      match screening {
        case FilteredOut =>
          status := Filtered;
        case ScreeningThrew(e) =>
          status := Failed(e);
        case Input(text) =>
          transformed := Some(text);
          match submit(attempt) {
            case Accepted(runId) => status := Submitted(runId);
            case Threw(e) => status := Failed(e);
          }
      }
      events := events + [EventRecord(|events|, transformed, status)];
      assert events[..|events| - 1] == old(events);
    }
  }

  // -------------------------------------------------------------------- the attempts

  // The run, said without recursion: attempt i is retried exactly when it failed with
  // a retryable error and i <= maxRetries, and the report lists the attempts in order.
  lemma {:induction false} AttemptsCharacterised(
    policy: RetryPolicy, screening: Screening, submit: nat -> SubmitResult, k: nat)
    requires k >= 1
    ensures var r := Attempts(policy, screening, submit, k);
            && |r.statuses| >= 1 && |r.delays| == |r.statuses| - 1
            && (forall i :: 0 <= i < |r.statuses| ==> r.statuses[i] == StatusOf(screening, submit, k + i))
            && (forall i :: 0 <= i < |r.statuses| ==>
                  (Retries(policy, r.statuses[i], k + i) <==> i < |r.statuses| - 1))
            && (forall i :: 0 <= i < |r.delays| ==> r.delays[i] == RetryDelay(policy, k + i))
            && (r.resolved <==> !r.statuses[|r.statuses| - 1].Failed?)
    decreases policy.maxRetries + 1 - k
  {
    var status := StatusOf(screening, submit, k);
    if Retries(policy, status, k) {
      AttemptsCharacterised(policy, screening, submit, k + 1);
      var rest := Attempts(policy, screening, submit, k + 1);
      var r := Attempts(policy, screening, submit, k);
      assert r.statuses == [status] + rest.statuses && r.delays == [RetryDelay(policy, k)] + rest.delays;
      forall i | 0 < i < |r.statuses|
        ensures r.statuses[i] == StatusOf(screening, submit, k + i)
        ensures Retries(policy, r.statuses[i], k + i) <==> i < |r.statuses| - 1
      {
        assert r.statuses[i] == rest.statuses[i - 1] && k + i == (k + 1) + (i - 1);
      }
      forall i | 0 < i < |r.delays| ensures r.delays[i] == RetryDelay(policy, k + i) {
        assert r.delays[i] == rest.delays[i - 1] && k + i == (k + 1) + (i - 1);
      }
    }
  }

  function AttemptBound(policy: RetryPolicy): nat {
    if policy.maxRetries < 0 then 1 else policy.maxRetries + 1
  }

  // What filters, transformation and submissions make of the records: a payload that is
  // filtered out has one filtered record; a submission that is accepted is recorded with
  // its run; whatever throws is recorded as failed with that error.
  lemma StatusesExactly(policy: RetryPolicy, screening: Screening, submit: nat -> SubmitResult)
    ensures screening.FilteredOut? ==> Attempts(policy, screening, submit, 1) == Report([Filtered], [], true)
    ensures var statuses := Attempts(policy, screening, submit, 1).statuses;
            forall i :: 0 <= i < |statuses| ==>
              && (statuses[i].Filtered? <==> screening.FilteredOut?)
              && (forall id :: statuses[i] == Submitted(id) <==> screening.Input? && submit(1 + i) == Accepted(id))
              && (forall e :: statuses[i] == Failed(e)
                              <==> screening == ScreeningThrew(e) || (screening.Input? && submit(1 + i) == Threw(e)))
  {
    AttemptsCharacterised(policy, screening, submit, 1);
  }

  // At most maxRetries + 1 attempts, at most one accepted submission, which is the
  // last attempt, and the call resolves exactly when the last attempt was submitted
  // or filtered.
  lemma ProcessEventOutcome(policy: RetryPolicy, screening: Screening, submit: nat -> SubmitResult)
    ensures var r := Attempts(policy, screening, submit, 1);
            && 1 <= |r.statuses| <= AttemptBound(policy)
            && (forall i :: 0 <= i < |r.statuses| - 1 ==> r.statuses[i].Failed?)
            && (r.resolved <==> r.statuses[|r.statuses| - 1].Submitted? || r.statuses[|r.statuses| - 1].Filtered?)
  {
    AttemptsCharacterised(policy, screening, submit, 1);
    var r := Attempts(policy, screening, submit, 1);
    var n := |r.statuses|;
    if n >= 2 {
      assert Retries(policy, r.statuses[n - 2], 1 + (n - 2));
    }
    forall i | 0 <= i < n - 1 ensures r.statuses[i].Failed? {
      assert Retries(policy, r.statuses[i], 1 + i);
    }
  }

  // A retryable failure that never clears uses every attempt.
  lemma PersistentFailure(policy: RetryPolicy, screening: Screening, submit: nat -> SubmitResult)
    requires forall k: nat :: StatusOf(screening, submit, k).Failed?
              && ShouldRetry(StatusOf(screening, submit, k).error)
    ensures |Attempts(policy, screening, submit, 1).statuses| == AttemptBound(policy)
    ensures !Attempts(policy, screening, submit, 1).resolved
  {
    AttemptsCharacterised(policy, screening, submit, 1);
    ProcessEventOutcome(policy, screening, submit);
    var r := Attempts(policy, screening, submit, 1);
    var n := |r.statuses|;
    assert r.statuses[n - 1] == StatusOf(screening, submit, 1 + (n - 1));
    assert !Retries(policy, r.statuses[n - 1], 1 + (n - 1));
  }

  // ----------------------------------------------------------------------- the delays

  function Sum(xs: seq<real>): real {
    if xs == [] then 0.0 else Sum(xs[..|xs| - 1]) + xs[|xs| - 1]
  }

  lemma {:induction false} RealPowGrows(b: real, e: nat)
    requires b >= 1.0
    ensures RealPow(b, e) >= 1.0 && RealPow(b, e + 1) >= RealPow(b, e)
  {
    if e > 0 {
      RealPowGrows(b, e - 1);
      ScaleUp(b, RealPow(b, e));
    }
  }

  lemma ScaleUp(b: real, x: real)
    requires b >= 1.0 && x >= 0.0
    ensures b * x >= x
  {
  }

  // Delays never shrink and never exceed the cap.
  lemma DelaysMonotone(policy: RetryPolicy, k: nat)
    requires k >= 1 && policy.backoffMultiplier >= 1.0 && policy.initialDelayMs >= 0.0
    ensures RetryDelay(policy, k) <= RetryDelay(policy, k + 1) <= policy.maxDelayMs
  {
    RealPowGrows(policy.backoffMultiplier, k - 1);
    var p, q := RealPow(policy.backoffMultiplier, k - 1), RealPow(policy.backoffMultiplier, k);
    assert policy.initialDelayMs * (q - p) >= 0.0;
  }

  // The first delay is the initial one, up to the cap.
  lemma FirstDelay(policy: RetryPolicy)
    ensures RetryDelay(policy, 1)
            == if policy.initialDelayMs < policy.maxDelayMs then policy.initialDelayMs else policy.maxDelayMs
  {
    assert RealPow(policy.backoffMultiplier, 0) == 1.0;
  }

  lemma UncappedGrows(policy: RetryPolicy, k: nat)
    requires k >= 1 && policy.backoffMultiplier >= 1.0 && policy.initialDelayMs >= 0.0
    ensures var c, m := policy.initialDelayMs, policy.backoffMultiplier;
            c * RealPow(m, k - 1) >= 0.0 && c * RealPow(m, k) == m * (c * RealPow(m, k - 1))
  {
    var c, m := policy.initialDelayMs, policy.backoffMultiplier;
    RealPowGrows(m, k - 1);
    ProductNonNegative(c, RealPow(m, k - 1));
    Swap(c, m, RealPow(m, k - 1));
  }

  // Each further delay is the multiplier times the one before, up to the cap.
  lemma DelayRecurrence(policy: RetryPolicy, k: nat)
    requires k >= 1 && policy.backoffMultiplier >= 1.0 && policy.initialDelayMs >= 0.0 && policy.maxDelayMs >= 0.0
    ensures var next := policy.backoffMultiplier * RetryDelay(policy, k);
            RetryDelay(policy, k + 1) == if next < policy.maxDelayMs then next else policy.maxDelayMs
  {
    UncappedGrows(policy, k);
    CappedStep(policy.initialDelayMs * RealPow(policy.backoffMultiplier, k - 1), policy.backoffMultiplier,
               policy.maxDelayMs);
  }

  lemma CappedStep(x: real, m: real, cap: real)
    requires x >= 0.0 && m >= 1.0 && cap >= 0.0
    ensures var next := m * Min(x, cap); Min(m * x, cap) == if next < cap then next else cap
  {
    if x < cap {
    } else {
      ScaleUp(m, cap);
      ScaleUp(m, x);
    }
  }

  lemma Swap(c: real, m: real, p: real)
    ensures c * (m * p) == m * (c * p)
  {
  }

  predicate IsDelayPlan(policy: RetryPolicy, delays: seq<real>) {
    forall i :: 0 <= i < |delays| ==> delays[i] == RetryDelay(policy, i + 1)
  }

  function Times(n: int, x: real): real {
    n as real * x
  }

  lemma TimesStep(n: nat, x: real)
    ensures Times(n + 1, x) == Times(n, x) + x
  {
  }

  lemma {:induction false} CappedSum(policy: RetryPolicy, delays: seq<real>)
    requires IsDelayPlan(policy, delays)
    ensures Sum(delays) <= Times(|delays|, policy.maxDelayMs)
  {
    if delays != [] {
      CappedSum(policy, delays[..|delays| - 1]);
      TimesStep(|delays| - 1, policy.maxDelayMs);
    }
  }

  // initialDelayMs * (1 + m + ... + m^(n-1)), the backoff without the cap.
  function Geometric(c: real, m: real, n: nat): real {
    if n == 0 then 0.0 else Geometric(c, m, n - 1) + c * RealPow(m, n - 1)
  }

  // The closed form, multiplied out so that multiplier 1 is not special.
  lemma {:induction false} GeometricClosedForm(c: real, m: real, n: nat)
    ensures Geometric(c, m, n) * (m - 1.0) == c * (RealPow(m, n) - 1.0)
  {
    if n > 0 {
      GeometricClosedForm(c, m, n - 1);
      GeometricStep(Geometric(c, m, n - 1), c, m, RealPow(m, n - 1), Geometric(c, m, n), RealPow(m, n));
    }
  }

  lemma GeometricStep(g: real, c: real, m: real, p: real, g': real, p': real)
    requires g' == g + c * p && p' == m * p
    requires g * (m - 1.0) == c * (p - 1.0)
    ensures g' * (m - 1.0) == c * (p' - 1.0)
  {
    calc {
      g' * (m - 1.0);
      g * (m - 1.0) + c * p * (m - 1.0);
      c * (p - 1.0) + c * p * (m - 1.0);
      c * (p' - 1.0);
    }
  }

  lemma {:induction false} GeometricSum(policy: RetryPolicy, delays: seq<real>)
    requires IsDelayPlan(policy, delays)
    ensures Sum(delays) <= Geometric(policy.initialDelayMs, policy.backoffMultiplier, |delays|)
  {
    if delays != [] {
      GeometricSum(policy, delays[..|delays| - 1]);
    }
  }

  lemma {:induction false} GeometricGrows(c: real, m: real, i: nat, j: nat)
    requires i <= j && c >= 0.0 && m >= 1.0
    ensures Geometric(c, m, i) <= Geometric(c, m, j)
    decreases j - i
  {
    if i < j {
      GeometricGrows(c, m, i, j - 1);
      RealPowGrows(m, j - 1);
      ProductNonNegative(c, RealPow(m, j - 1));
    }
  }

  lemma ProductNonNegative(x: real, y: real)
    requires x >= 0.0 && y >= 0.0
    ensures x * y >= 0.0
  {
  }

  // Over any whole run: delays are non-decreasing and capped, and their total is at
  // most maxRetries * maxDelayMs and at most the geometric sum over the retries made,
  // hence over all maxRetries retries (GeometricClosedForm gives its closed form).
  lemma TotalBackoff(policy: RetryPolicy, screening: Screening, submit: nat -> SubmitResult)
    requires policy.backoffMultiplier >= 1.0 && policy.initialDelayMs >= 0.0 && policy.maxDelayMs >= 0.0
    requires policy.maxRetries >= 0
    ensures var ds := Attempts(policy, screening, submit, 1).delays;
            && |ds| <= policy.maxRetries
            && (forall i, j :: 0 <= i <= j < |ds| ==> ds[i] <= ds[j] <= policy.maxDelayMs)
            && Sum(ds) <= Times(policy.maxRetries, policy.maxDelayMs)
            && Sum(ds) <= Geometric(policy.initialDelayMs, policy.backoffMultiplier, |ds|)
                       <= Geometric(policy.initialDelayMs, policy.backoffMultiplier, policy.maxRetries)
  {
    AttemptsCharacterised(policy, screening, submit, 1);
    ProcessEventOutcome(policy, screening, submit);
    PlanBackoff(policy, Attempts(policy, screening, submit, 1).delays);
  }

  lemma PlanBackoff(policy: RetryPolicy, ds: seq<real>)
    requires policy.backoffMultiplier >= 1.0 && policy.initialDelayMs >= 0.0 && policy.maxDelayMs >= 0.0
    requires |ds| <= policy.maxRetries && IsDelayPlan(policy, ds)
    ensures forall i, j :: 0 <= i <= j < |ds| ==> ds[i] <= ds[j] <= policy.maxDelayMs
    ensures Sum(ds) <= Times(policy.maxRetries, policy.maxDelayMs)
    ensures Sum(ds) <= Geometric(policy.initialDelayMs, policy.backoffMultiplier, |ds|)
                    <= Geometric(policy.initialDelayMs, policy.backoffMultiplier, policy.maxRetries)
  {
    forall i, j | 0 <= i <= j < |ds| ensures ds[i] <= ds[j] <= policy.maxDelayMs {
      DelayOrder(policy, i + 1, j + 1);
    }
    CappedSum(policy, ds);
    CapGrows(|ds|, policy.maxRetries, policy.maxDelayMs);
    GeometricSum(policy, ds);
    GeometricGrows(policy.initialDelayMs, policy.backoffMultiplier, |ds|, policy.maxRetries);
  }

  lemma CapGrows(i: nat, j: nat, cap: real)
    requires i <= j && cap >= 0.0
    ensures Times(i, cap) <= Times(j, cap)
  {
  }

  lemma {:induction false} DelayOrder(policy: RetryPolicy, i: nat, j: nat)
    requires 1 <= i <= j && policy.backoffMultiplier >= 1.0 && policy.initialDelayMs >= 0.0
    ensures RetryDelay(policy, i) <= RetryDelay(policy, j) <= policy.maxDelayMs
    decreases j - i
  {
    if i < j {
      DelayOrder(policy, i, j - 1);
      DelaysMonotone(policy, j - 1);
    }
  }
}

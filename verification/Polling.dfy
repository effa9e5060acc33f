/**
  Change detection of the polling connector (packages/connector-worker). Fetching and
  processing are inputs of each poll; SHA-256 is a function given to the connector,
  assumed injective only where a theorem says so.
 */
module Polling {
  import opened Wrappers

  datatype Strategy = ContentHash | Etag | LastModified

  datatype Response = Response(ok: bool, body: string, etag: Option<string>, lastModified: Option<string>)

  datatype PollingState = PollingState(etag: Option<string>, lastModified: Option<string>, contentHash: string)

  // One poll: the fetch throws, or it answers and processing that answer would
  // succeed or throw.
  datatype Poll = FetchThrew | Answered(response: Response, processes: bool)

  datatype Outcome = Threw | Unchanged | Processed

  type Hash = string -> string

  ghost predicate Injective(hash: Hash) {
    forall a, b :: hash(a) == hash(b) ==> a == b
  }

  function BuildState(hash: Hash, response: Response): PollingState {
    PollingState(response.etag, response.lastModified, hash(response.body))
  }

  // A header that is absent or empty is falsy.
  predicate Present(header: Option<string>) {
    header.Some? && header.value != ""
  }

  predicate IsUnchanged(strategy: Strategy, previous: Option<PollingState>, next: PollingState) {
    if previous.None? then false
    else if strategy.Etag? && Present(next.etag) then previous.value.etag == next.etag
    else if strategy.LastModified? && Present(next.lastModified) then previous.value.lastModified == next.lastModified
    else previous.value.contentHash == next.contentHash
  }

  function OutcomeOf(hash: Hash, strategy: Strategy, previous: Option<PollingState>, poll: Poll): Outcome {
    if poll.FetchThrew? || !poll.response.ok then Threw
    else if IsUnchanged(strategy, previous, BuildState(hash, poll.response)) then Unchanged
    else if poll.processes then Processed
    else Threw
  }

  function NextState(hash: Hash, strategy: Strategy, previous: Option<PollingState>, poll: Poll): Option<PollingState> {
    if OutcomeOf(hash, strategy, previous, poll).Processed? then Some(BuildState(hash, poll.response)) else previous
  }

  function Lookup<T>(m: map<string, T>, key: string): Option<T> {
    if key in m then Some(m[key]) else None
  }

  class PollingConnector {
    const hash: Hash
    var states: map<string, PollingState>

    constructor (hash: Hash)
      ensures this.hash == hash && states == map[]
    {
      this.hash := hash;
      states := map[];
    }

    method Poll(connectorId: string, strategy: Strategy, poll: Poll) returns (outcome: Outcome)
      modifies this
      ensures outcome == OutcomeOf(hash, strategy, old(Lookup(states, connectorId)), poll)
      ensures Lookup(states, connectorId) == NextState(hash, strategy, old(Lookup(states, connectorId)), poll)
      ensures forall other :: other != connectorId ==> Lookup(states, other) == old(Lookup(states, other))
    {
      if poll.FetchThrew? {
        return Threw;
      }
      if !poll.response.ok {
        return Threw;
      }
      var nextState := BuildState(hash, poll.response);
      var previousState := Lookup(states, connectorId);
      if IsUnchanged(strategy, previousState, nextState) {
        return Unchanged;
      }
      if !poll.processes {
        return Threw;
      }
      states := states[connectorId := nextState];
      return Processed;
    }
  }

  // ------------------------------------------------------------------ whole histories

  // The stored state after a sequence of polls of one connector.
  function StateAfter(hash: Hash, strategy: Strategy, polls: seq<Poll>): Option<PollingState> {
    if polls == [] then None
    else NextState(hash, strategy, StateAfter(hash, strategy, polls[..|polls| - 1]), polls[|polls| - 1])
  }

  // The responses that were processed, in order.
  function ProcessedIn(hash: Hash, strategy: Strategy, polls: seq<Poll>): seq<Response> {
    if polls == [] then []
    else
      var before := polls[..|polls| - 1];
      var poll := polls[|polls| - 1];
      ProcessedIn(hash, strategy, before)
      + (if OutcomeOf(hash, strategy, StateAfter(hash, strategy, before), poll).Processed? then [poll.response] else [])
  }

  predicate Delivers(poll: Poll) {
    poll.Answered? && poll.response.ok && poll.processes
  }

  // The successful responses whose processing does not throw, in order.
  function Deliverable(polls: seq<Poll>): seq<Response> {
    if polls == [] then []
    else
      var poll := polls[|polls| - 1];
      Deliverable(polls[..|polls| - 1]) + (if Delivers(poll) then [poll.response] else [])
  }

  type Same = (Response, Response) -> bool

  // Consecutive repeats removed, where a repeat is decided against the last response
  // kept; the first of each block of repeats is kept.
  function Dedup(same: Same, answers: seq<Response>): seq<Response> {
    if answers == [] then []
    else
      var kept := Dedup(same, answers[..|answers| - 1]);
      if Repeats(same, kept, answers[|answers| - 1]) then kept else kept + [answers[|answers| - 1]]
  }

  predicate Repeats(same: Same, kept: seq<Response>, next: Response) {
    kept != [] && same(kept[|kept| - 1], next)
  }

  function SameBody(): Same {
    (a: Response, b: Response) => a.body == b.body
  }

  // The header that a strategy other than content hashing looks at.
  function Header(strategy: Strategy, r: Response): Option<string> {
    match strategy
    case Etag => r.etag
    case LastModified => r.lastModified
    case ContentHash => None
  }

  function SameHeader(strategy: Strategy): Same {
    (a: Response, b: Response) => Header(strategy, a) == Header(strategy, b)
  }

  // The comparison that the connector makes.
  function Compared(hash: Hash, strategy: Strategy): Same {
    (a: Response, b: Response) => IsUnchanged(strategy, Some(BuildState(hash, a)), BuildState(hash, b))
  }

  // The stored state is that of the last successfully processed response.
  lemma {:induction false} StateIsLastProcessed(hash: Hash, strategy: Strategy, polls: seq<Poll>)
    ensures var done := ProcessedIn(hash, strategy, polls);
            StateAfter(hash, strategy, polls)
            == if done == [] then None else Some(BuildState(hash, done[|done| - 1]))
  {
    if polls != [] {
      StateIsLastProcessed(hash, strategy, polls[..|polls| - 1]);
    }
  }

  lemma ComparedWithLast(hash: Hash, strategy: Strategy, before: seq<Poll>, next: Response)
    ensures IsUnchanged(strategy, StateAfter(hash, strategy, before), BuildState(hash, next))
            == Repeats(Compared(hash, strategy), ProcessedIn(hash, strategy, before), next)
  {
    StateIsLastProcessed(hash, strategy, before);
  }

  // The processed responses are the deliverable ones without the repeats that the
  // comparison sees. Responses whose processing failed leave no trace, so they are
  // tried again.
  lemma {:induction false} ProcessedIsDedup(hash: Hash, strategy: Strategy, polls: seq<Poll>)
    ensures ProcessedIn(hash, strategy, polls) == Dedup(Compared(hash, strategy), Deliverable(polls))
  {
    if polls != [] {
      var before, poll := polls[..|polls| - 1], polls[|polls| - 1];
      ProcessedIsDedup(hash, strategy, before);
      if Delivers(poll) {
        ComparedWithLast(hash, strategy, before, poll.response);
        DedupAppend(Compared(hash, strategy), Deliverable(before), poll.response);
      } else {
        assert Deliverable(polls) == Deliverable(before);
      }
    }
  }

  lemma DedupAppend(same: Same, answers: seq<Response>, next: Response)
    ensures Dedup(same, answers + [next])
            == var kept := Dedup(same, answers); if Repeats(same, kept, next) then kept else kept + [next]
  {
  }

  // ------------------------------------------------ when two comparisons keep the same

  // Two comparisons agree wherever the first one is asked along these answers.
  ghost predicate AgreeAlong(same: Same, other: Same, answers: seq<Response>) {
    forall i :: 0 <= i < |answers| ==> AgreeAt(same, other, answers, i)
  }

  ghost predicate AgreeAt(same: Same, other: Same, answers: seq<Response>, i: nat)
    requires i < |answers|
  {
    var kept := Dedup(same, answers[..i]);
    Repeats(same, kept, answers[i]) == Repeats(other, kept, answers[i])
  }

  lemma {:induction false} AgreeingKeepsSame(same: Same, other: Same, answers: seq<Response>)
    requires AgreeAlong(same, other, answers)
    ensures Dedup(same, answers) == Dedup(other, answers)
  {
    if answers != [] {
      var before := answers[..|answers| - 1];
      forall i | 0 <= i < |before| ensures AgreeAt(same, other, before, i) {
        assert AgreeAt(same, other, answers, i) && before[..i] == answers[..i];
      }
      AgreeingKeepsSame(same, other, before);
      assert AgreeAt(same, other, answers, |before|);
    }
  }

  // What was kept stays kept, and the first response kept after it is no repeat of it.
  lemma {:induction false} KeptGrows(same: Same, answers: seq<Response>, n: nat)
    requires n <= |answers|
    ensures Dedup(same, answers[..n]) <= Dedup(same, answers)
    ensures var kept, all := Dedup(same, answers[..n]), Dedup(same, answers);
            |kept| < |all| ==> !Repeats(same, kept, all[|kept|])
    decreases |answers|
  {
    if n < |answers| {
      var before := answers[..|answers| - 1];
      assert before[..n] == answers[..n];
      KeptGrows(same, before, n);
    } else {
      assert answers[..n] == answers;
    }
  }

  // An answer that is no repeat is kept at that place for good.
  lemma KeptNext(same: Same, answers: seq<Response>, i: nat)
    requires i < |answers| && !Repeats(same, Dedup(same, answers[..i]), answers[i])
    ensures var n := |Dedup(same, answers[..i])|; n < |Dedup(same, answers)| && Dedup(same, answers)[n] == answers[i]
  {
    var kept, further := Dedup(same, answers[..i]), Dedup(same, answers[..i + 1]);
    assert further == kept + [answers[i]] by {
      assert answers[..i + 1] == answers[..i] + [answers[i]];
      DedupAppend(same, answers[..i], answers[i]);
    }
    KeptGrows(same, answers, i + 1);
    assert further[|kept|] == answers[i];
  }

  // A first disagreement is never made up for.
  lemma DisagreementStays(same: Same, other: Same, answers: seq<Response>, i: nat)
    requires i < |answers| && Dedup(same, answers[..i]) == Dedup(other, answers[..i])
    requires Repeats(same, Dedup(same, answers[..i]), answers[i])
              && !Repeats(other, Dedup(same, answers[..i]), answers[i])
    ensures Dedup(same, answers) != Dedup(other, answers)
  {
    KeptNext(other, answers, i);
    KeptGrows(same, answers, i);
  }

  lemma {:induction false} SameKeptAgrees(same: Same, other: Same, answers: seq<Response>, n: nat)
    requires Dedup(same, answers) == Dedup(other, answers) && n <= |answers|
    ensures forall i :: 0 <= i < n ==> AgreeAt(same, other, answers, i)
  {
    if n > 0 {
      SameKeptAgrees(same, other, answers, n - 1);
      var before := answers[..n - 1];
      forall i | 0 <= i < n - 1 ensures AgreeAt(same, other, before, i) {
        assert AgreeAt(same, other, answers, i) && before[..i] == answers[..i];
      }
      AgreeingKeepsSame(same, other, before);
      if !AgreeAt(same, other, answers, n - 1) {
        if Repeats(same, Dedup(same, before), answers[n - 1]) {
          DisagreementStays(same, other, answers, n - 1);
        } else {
          DisagreementStays(other, same, answers, n - 1);
        }
      }
    }
  }

  // Two comparisons keep the same responses exactly when they agree along the way.
  lemma SameKeptExactly(same: Same, other: Same, answers: seq<Response>)
    ensures Dedup(same, answers) == Dedup(other, answers) <==> AgreeAlong(same, other, answers)
  {
    if AgreeAlong(same, other, answers) {
      AgreeingKeepsSame(same, other, answers);
    }
    if Dedup(same, answers) == Dedup(other, answers) {
      SameKeptAgrees(same, other, answers, |answers|);
    }
  }

  lemma {:induction false} KeptAreAnswers(same: Same, answers: seq<Response>)
    ensures forall r :: r in Dedup(same, answers) ==> r in answers
  {
    if answers != [] {
      KeptAreAnswers(same, answers[..|answers| - 1]);
    }
  }

  // Comparisons that agree on all pairs of answers keep the same.
  lemma SameOnAnswers(same: Same, other: Same, answers: seq<Response>)
    requires forall a, b :: a in answers && b in answers ==> same(a, b) == other(a, b)
    ensures Dedup(same, answers) == Dedup(other, answers)
  {
    forall i | 0 <= i < |answers| ensures AgreeAt(same, other, answers, i) {
      KeptAreAnswers(same, answers[..i]);
      var kept := Dedup(same, answers[..i]);
      if kept != [] {
        assert kept[|kept| - 1] in answers[..i];
        assert answers[i] in answers;
      }
    }
    AgreeingKeepsSame(same, other, answers);
  }

  // -------------------------------------------------------------------- the strategies

  // With an injective hash, content hashing processes the bodies with consecutive
  // repeats removed.
  lemma ContentHashDedup(hash: Hash, polls: seq<Poll>)
    requires Injective(hash)
    ensures ProcessedIn(hash, ContentHash, polls) == Dedup(SameBody(), Deliverable(polls))
  {
    var compared, same, answers := Compared(hash, ContentHash), SameBody(), Deliverable(polls);
    ProcessedIsDedup(hash, ContentHash, polls);
    forall a, b | a in answers && b in answers ensures compared(a, b) == same(a, b) {
      ComparedByHeader(hash, ContentHash, a, b);
    }
    SameOnAnswers(compared, same, answers);
  }

  lemma ComparedByHeader(hash: Hash, strategy: Strategy, a: Response, b: Response)
    ensures Compared(hash, strategy)(a, b)
            == if Present(Header(strategy, b)) then Header(strategy, a) == Header(strategy, b)
               else hash(a.body) == hash(b.body)
  {
    match strategy
    case Etag =>
    case LastModified =>
    case ContentHash =>
  }

  // Comparing ETags (section 8.8.3 of RFC 9110) or modification dates: when every
  // deliverable response carries the header, repeats are decided by it alone.
  lemma HeaderDedup(hash: Hash, strategy: Strategy, polls: seq<Poll>)
    requires forall r :: r in Deliverable(polls) ==> Present(Header(strategy, r))
    ensures ProcessedIn(hash, strategy, polls) == Dedup(SameHeader(strategy), Deliverable(polls))
  {
    var compared, same, answers := Compared(hash, strategy), SameHeader(strategy), Deliverable(polls);
    ProcessedIsDedup(hash, strategy, polls);
    forall a, b | a in answers && b in answers ensures compared(a, b) == same(a, b) {
      ComparedByHeader(hash, strategy, a, b);
    }
    SameOnAnswers(compared, same, answers);
  }

  // When none carries it, the comparison is content hashing.
  lemma HeaderFallsBack(hash: Hash, strategy: Strategy, polls: seq<Poll>)
    requires forall r :: r in Deliverable(polls) ==> !Present(Header(strategy, r))
    ensures ProcessedIn(hash, strategy, polls) == ProcessedIn(hash, ContentHash, polls)
  {
    ProcessedIsDedup(hash, strategy, polls);
    ProcessedIsDedup(hash, ContentHash, polls);
    var compared, same, answers := Compared(hash, strategy), Compared(hash, ContentHash), Deliverable(polls);
    forall a, b | a in answers && b in answers ensures compared(a, b) == same(a, b) {
      ComparedByHeader(hash, strategy, a, b);
      ComparedByHeader(hash, ContentHash, a, b);
    }
    SameOnAnswers(compared, same, answers);
  }

  // An answer with the header has that of the last body kept before it exactly when it
  // has that body.
  ghost predicate HeaderFollowsBody(strategy: Strategy, answers: seq<Response>, i: nat)
    requires i < |answers|
  {
    var kept, next := Dedup(SameBody(), answers[..i]), answers[i];
    kept != [] && Present(Header(strategy, next)) ==>
      (Header(strategy, kept[|kept| - 1]) == Header(strategy, next) <==> kept[|kept| - 1].body == next.body)
  }

  lemma HeaderAgreement(hash: Hash, strategy: Strategy, answers: seq<Response>, i: nat)
    requires Injective(hash) && i < |answers|
    ensures AgreeAt(SameBody(), Compared(hash, strategy), answers, i) <==> HeaderFollowsBody(strategy, answers, i)
  {
    var kept, next := Dedup(SameBody(), answers[..i]), answers[i];
    if kept != [] {
      ComparedByHeader(hash, strategy, kept[|kept| - 1], next);
    }
  }

  // A strategy processes the bodies with consecutive repeats removed exactly for the
  // histories in which its header changes with the body.
  lemma BodiesDedupedExactly(hash: Hash, strategy: Strategy, polls: seq<Poll>)
    requires Injective(hash)
    ensures ProcessedIn(hash, strategy, polls) == Dedup(SameBody(), Deliverable(polls))
            <==> forall i :: 0 <= i < |Deliverable(polls)| ==> HeaderFollowsBody(strategy, Deliverable(polls), i)
  {
    var answers, compared := Deliverable(polls), Compared(hash, strategy);
    ProcessedIsDedup(hash, strategy, polls);
    SameKeptExactly(SameBody(), compared, answers);
    forall i | 0 <= i < |answers|
      ensures AgreeAt(SameBody(), compared, answers, i) <==> HeaderFollowsBody(strategy, answers, i)
    {
      HeaderAgreement(hash, strategy, answers, i);
    }
  }

  // A poll throws exactly when the fetch threw or was not answered well, or when a new
  // response could not be processed; it finds nothing new exactly when a good response
  // repeats the last one processed, as the strategy compares; otherwise it processes.
  lemma OutcomeExactly(hash: Hash, strategy: Strategy, polls: seq<Poll>, poll: Poll)
    ensures var outcome := OutcomeOf(hash, strategy, StateAfter(hash, strategy, polls), poll);
            var good := poll.Answered? && poll.response.ok;
            var repeats := good && Repeats(Compared(hash, strategy), ProcessedIn(hash, strategy, polls), poll.response);
            && (outcome.Unchanged? <==> repeats)
            && (outcome.Processed? <==> good && !repeats && poll.processes)
            && (outcome.Threw? <==> !good || (!repeats && !poll.processes))
  {
    if poll.Answered? {
      ComparedWithLast(hash, strategy, polls, poll.response);
    }
  }

  // A header counts as present exactly when it has a value that is not empty.
  lemma EmptyHeaderIsAbsent(header: Option<string>)
    ensures Present(header) <==> exists value :: header == Some(value) && |value| > 0
  {
    if Present(header) {
      assert header == Some(header.value) && |header.value| > 0;
    }
  }

  // So ETag comparison does not always remove repeated bodies: a server that starts
  // to send tags makes an unchanged body count as new.
  lemma EtagRepeatsBody(hash: Hash)
    ensures var a := Response(true, "x", None, None);
            var b := Response(true, "x", Some("tag"), None);
            ProcessedIn(hash, Etag, [Answered(a, true), Answered(b, true)]) == [a, b]
  {
    var a, b := Response(true, "x", None, None), Response(true, "x", Some("tag"), None);
    var polls := [Answered(a, true), Answered(b, true)];
    assert polls[..1] == [Answered(a, true)] && polls[..1][..0] == [];
    assert StateAfter(hash, Etag, []) == None && ProcessedIn(hash, Etag, []) == [];
    assert ProcessedIn(hash, Etag, polls[..1]) == [a];
    assert StateAfter(hash, Etag, polls[..1]) == Some(BuildState(hash, a));
    assert "tag" != "";
  }

  // Polls that deliver nothing leave the state alone, however many there are; so an
  // answer whose processing threw is attempted again, and processed as soon as it can be.
  lemma {:induction false} FailedProcessingIsRetried(
    hash: Hash, strategy: Strategy, polls: seq<Poll>, failing: seq<Poll>, response: Response)
    requires response.ok && forall i :: 0 <= i < |failing| ==> !Delivers(failing[i])
    requires !IsUnchanged(strategy, StateAfter(hash, strategy, polls), BuildState(hash, response))
    ensures StateAfter(hash, strategy, polls + failing) == StateAfter(hash, strategy, polls)
    ensures ProcessedIn(hash, strategy, polls + failing + [Answered(response, true)])
            == ProcessedIn(hash, strategy, polls) + [response]
  {
    var next := Answered(response, true);
    assert (polls + failing + [next])[..|polls + failing|] == polls + failing;
    if failing == [] {
      assert polls + failing == polls;
    } else {
      var fewer := failing[..|failing| - 1];
      FailedProcessingIsRetried(hash, strategy, polls, fewer, response);
      assert (polls + fewer + [next])[..|polls + fewer|] == polls + fewer;
      assert (polls + failing)[..|polls + failing| - 1] == polls + fewer;
    }
  }
}

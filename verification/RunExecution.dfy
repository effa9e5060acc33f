/**
  executeRunRequest and submitTask (apps/agent-runner): the statuses and messages that
  one run persists. Every repository call may throw without persisting; the language
  model, its provider and the tool setup are inputs.
 */
module RunExecution {
  import opened Wrappers

  datatype RunStatus = Pending | Running | Completed | Failed

  datatype Message =
    | System(content: string)
    | User(content: string)
    | AssistantCalls(calls: seq<string>)
    | AssistantText(content: string)
    | ToolMessage(toolCallId: string, content: string)

  datatype Step = Step(toolCalls: seq<string>, toolResults: seq<(string, string)>, text: string)

  datatype FinishReason = Stop | Other | Length | Unlisted

  datatype ModelResult = ModelResult(steps: seq<Step>, finishReason: FinishReason, text: string)

  // What the parts around the repositories do.
  datatype Model = ProviderThrows | SetupThrows | CallThrows | Answers(result: ModelResult)

  datatype Metric = Success | Failure

  // -------------------------------------------------------------------- the full log

  function ToolMessages(results: seq<(string, string)>): seq<Message> {
    if results == [] then []
    else ToolMessages(results[..|results| - 1]) + [ToolMessage(results[|results| - 1].0, results[|results| - 1].1)]
  }

  function StepLog(step: Step): seq<Message> {
    (if step.toolCalls != [] then [AssistantCalls(step.toolCalls)] + ToolMessages(step.toolResults) else [])
    + (if step.text != "" then [AssistantText(step.text)] else [])
  }

  function StepsLog(steps: seq<Step>): seq<Message> {
    if steps == [] then [] else StepsLog(steps[..|steps| - 1]) + StepLog(steps[|steps| - 1])
  }

  function Opening(prompt: string, input: string): seq<Message> {
    [System(prompt), User(input)]
  }

  function Closing(result: ModelResult): seq<Message> {
    if (result.finishReason.Stop? || result.finishReason.Other?) && result.steps == []
    then [AssistantText(result.text)] else []
  }

  function AnswerLog(model: Model): seq<Message> {
    if model.Answers? then StepsLog(model.result.steps) + Closing(model.result) else []
  }

  // The messages of a run when nothing throws.
  function FullLog(prompt: string, input: string, model: Model): seq<Message> {
    Opening(prompt, input)
    + AnswerLog(model)
  }

  // Completed is what a run whose model answers without hitting the limit ends with.
  predicate Completes(model: Model) {
    model.Answers? && !model.result.finishReason.Length?
  }

  // ------------------------------------------------------------ the status discipline

  // pending, then running unless that write failed, then at most one terminal status.
  predicate Disciplined(statuses: seq<RunStatus>) {
    || statuses == [Pending]
    || statuses == [Pending, Running]
    || statuses == [Pending, Failed]
    || statuses == [Pending, Running, Completed]
    || statuses == [Pending, Running, Failed]
  }

  // The run's rows in the run and message repositories.
  class RunStore {
    var statuses: seq<RunStatus>
    var messages: seq<Message>
    var faulted: bool           // some write threw

    constructor ()
      ensures statuses == [Pending] && messages == [] && !faulted
    {
      statuses, messages, faulted := [Pending], [], false;
    }

    method UpdateStatus(status: RunStatus) returns (ok: bool)
      modifies this`statuses, this`faulted
      ensures statuses == if ok then old(statuses) + [status] else old(statuses)
      ensures faulted == (old(faulted) || !ok)
    {
      ok := *;
      if ok {
        statuses := statuses + [status];
      } else {
        faulted := true;
      }
    }

    method Append(message: Message) returns (ok: bool)
      modifies this`messages, this`faulted
      ensures messages == if ok then old(messages) + [message] else old(messages)
      ensures faulted == (old(faulted) || !ok)
    {
      ok := *;
      if ok {
        messages := messages + [message];
      } else {
        faulted := true;
      }
    }

    // markRunFailed swallows a failing write.
    method MarkRunFailed()
      modifies this`statuses, this`faulted
      ensures statuses == old(statuses) + [Failed] || (faulted && statuses == old(statuses))
      ensures old(faulted) ==> faulted
    {
      var ok := UpdateStatus(Failed);
    }

    method AppendStep(step: Step) returns (ok: bool)
      modifies this`messages, this`faulted
      ensures faulted == (old(faulted) || !ok)
      ensures ok ==> messages == old(messages) + StepLog(step)
      ensures old(messages) <= messages <= old(messages) + StepLog(step)
    {
      ok := true;
      if step.toolCalls != [] {
        ghost var calls, results := [AssistantCalls(step.toolCalls)], ToolMessages(step.toolResults);
        AppendUnder(old(messages), calls, results, StepLog(step));
        ok := Append(AssistantCalls(step.toolCalls));
        if !ok {
          return;
        }
        ok := AppendToolResults(step.toolResults);
        if !ok {
          return;
        }
        assert messages == old(messages) + calls + results;
      }
      if step.text != "" {
        ok := Append(AssistantText(step.text));
      }
    }

    method AppendToolResults(results: seq<(string, string)>) returns (ok: bool)
      modifies this`messages, this`faulted
      ensures faulted == (old(faulted) || !ok)
      ensures ok ==> messages == old(messages) + ToolMessages(results)
      ensures old(messages) <= messages <= old(messages) + ToolMessages(results)
    {
      ok := true;
      assert results[..|results|] == results;
      for n := 0 to |results|
        invariant ok && faulted == old(faulted) && messages == old(messages) + ToolMessages(results[..n])
      {
        assert results[..n + 1][..n] == results[..n];
        ok := Append(ToolMessage(results[n].0, results[n].1));
        if !ok {
          ToolMessagesGrow(results, n);
          return;
        }
      }
    }

    method AppendSteps(steps: seq<Step>) returns (ok: bool)
      modifies this`messages, this`faulted
      ensures faulted == (old(faulted) || !ok)
      ensures ok ==> messages == old(messages) + StepsLog(steps)
      ensures old(messages) <= messages <= old(messages) + StepsLog(steps)
    {
      ok := true;
      assert steps[..|steps|] == steps;
      for n := 0 to |steps|
        invariant ok && faulted == old(faulted) && messages == old(messages) + StepsLog(steps[..n])
      {
        ghost var before := messages;
        ok := AppendStep(steps[n]);
        StepsLogStep(steps, n);
        AppendUnder(old(messages), StepsLog(steps[..n]), StepLog(steps[n]), StepsLog(steps));
        assert before + StepLog(steps[n]) == old(messages) + (StepsLog(steps[..n]) + StepLog(steps[n]));
        if !ok {
          return;
        }
      }
    }

    // executeRunRequest. The metric is recorded by the finally block, which an early
    // throw of the opening writes does not reach.
    method ExecuteRunRequest(prompt: string, input: string, model: Model)
      returns (threw: bool, metric: Option<Metric>)
      requires statuses == [Pending] && messages == [] && !faulted
      modifies this
      ensures Disciplined(statuses) && (threw ==> statuses == [Pending] || statuses == [Pending, Running])
      ensures threw <==> metric.None?
      ensures metric == Some(Success) <==> Completed in statuses
      ensures messages <= FullLog(prompt, input, model)
      ensures Completed in statuses ==> messages == FullLog(prompt, input, model) && Completes(model)
      ensures !faulted ==> statuses == [Pending, Running, if Completes(model) then Completed else Failed]
                           && messages == FullLog(prompt, input, model)
    {
      var ok := UpdateStatus(Running);
      if !ok {
        return true, None;
      }
      ok := Append(System(prompt));
      if !ok {
        return true, None;
      }
      ok := Append(User(input));
      if !ok {
        return true, None;
      }
      assert messages == Opening(prompt, input);
      var done := ExecuteSpan(model);
      return false, Some(if done then Success else Failure);
    }

    // The body of the agent.execute span with its inner and outer catch.
    method ExecuteSpan(model: Model) returns (success: bool)
      requires statuses == [Pending, Running] && !faulted
      modifies this
      ensures success ==> statuses == [Pending, Running, Completed]
      ensures !success ==> statuses == [Pending, Running, Failed] || (faulted && statuses == [Pending, Running])
      ensures !faulted ==> (success <==> Completes(model)) && messages == old(messages) + AnswerLog(model)
      ensures old(messages) <= messages <= old(messages) + AnswerLog(model)
      ensures success ==> Completes(model) && messages == old(messages) + AnswerLog(model)
    {
      success := false;
      if !model.Answers? {
        MarkRunFailed();
        return;
      }
      var result := model.result;
      var ok := AppendSteps(result.steps);
      if !ok {
        MarkRunFailed();
        return;
      }
      if (result.finishReason.Stop? || result.finishReason.Other?) && result.steps == [] {
        ok := Append(AssistantText(result.text));
        if !ok {
          MarkRunFailed();
          return;
        }
      }
      assert messages == old(messages) + (StepsLog(result.steps) + Closing(result));
      if result.finishReason.Length? {
        MarkRunFailed();
        return;
      }
      ok := UpdateStatus(Completed);
      if ok {
        success := true;
      } else {
        MarkRunFailed();
      }
    }

    // submitTask marks the run failed when the execution rejects.
    method SubmitTask(prompt: string, input: string, model: Model) returns (metric: Option<Metric>)
      requires statuses == [Pending] && messages == [] && !faulted
      modifies this
      ensures Disciplined(statuses)
      ensures metric == Some(Success) <==> Completed in statuses
      ensures messages <= FullLog(prompt, input, model)
      ensures Completed in statuses ==> messages == FullLog(prompt, input, model) && Completes(model)
      ensures !faulted ==> statuses == [Pending, Running, if Completes(model) then Completed else Failed]
                           && messages == FullLog(prompt, input, model)
    {
      var threw;
      threw, metric := ExecuteRunRequest(prompt, input, model);
      if threw {
        MarkRunFailed();
      }
    }
  }

  lemma {:induction false} ToolMessagesGrow(results: seq<(string, string)>, n: nat)
    requires n <= |results|
    ensures ToolMessages(results[..n]) <= ToolMessages(results)
    decreases |results|
  {
    if n < |results| {
      var front := results[..|results| - 1];
      ToolMessagesGrow(front, n);
      assert front[..n] == results[..n];
    } else {
      assert results[..n] == results;
    }
  }

  // The messages of a step by position: the calls, one result for each tool result in
  // order, and last the text; without calls only the text.
  lemma {:induction false} StepLogAt(step: Step)
    ensures var log, n := StepLog(step), if step.toolCalls != [] then 1 + |step.toolResults| else 0;
            && |log| == n + (if step.text != "" then 1 else 0)
            && (step.toolCalls != [] ==>
                  && log[0] == AssistantCalls(step.toolCalls)
                  && forall i :: 0 <= i < |step.toolResults| ==>
                       log[1 + i] == ToolMessage(step.toolResults[i].0, step.toolResults[i].1))
            && (step.text != "" ==> log[n] == AssistantText(step.text))
  {
    ToolMessagesAt(step.toolResults);
    var calls := if step.toolCalls != [] then [AssistantCalls(step.toolCalls)] + ToolMessages(step.toolResults) else [];
    assert StepLog(step) == if step.text != "" then calls + [AssistantText(step.text)] else calls;
  }

  lemma {:induction false} ToolMessagesAt(results: seq<(string, string)>)
    ensures |ToolMessages(results)| == |results|
    ensures forall i :: 0 <= i < |results| ==> ToolMessages(results)[i] == ToolMessage(results[i].0, results[i].1)
  {
    if results != [] {
      ToolMessagesAt(results[..|results| - 1]);
    }
  }

  // The whole log: system prompt, user input, the steps one after the other, and the text
  // of an answer without steps that stopped by itself. Only an answer that hit the turn
  // limit, or none, does not complete.
  lemma FullLogAt(prompt: string, input: string, model: Model)
    ensures var log := FullLog(prompt, input, model);
            && |log| >= 2 && log[0] == System(prompt) && log[1] == User(input)
            && (!model.Answers? ==> |log| == 2 && !Completes(model))
            && (model.Answers? ==>
                  && (Completes(model) <==> model.result.finishReason != Length)
                  && (model.result.steps != [] ==> log[2..] == StepsLog(model.result.steps))
                  && (model.result.steps == [] ==>
                        log[2..] == if model.result.finishReason == Stop || model.result.finishReason == Other
                                    then [AssistantText(model.result.text)] else []))
  {
    var log := FullLog(prompt, input, model);
    assert log[2..] == AnswerLog(model);
  }

  lemma StepsLogStep(steps: seq<Step>, n: nat)
    requires n < |steps|
    ensures StepsLog(steps[..n + 1]) == StepsLog(steps[..n]) + StepLog(steps[n])
    ensures StepsLog(steps[..n]) + StepLog(steps[n]) <= StepsLog(steps)
  {
    assert steps[..n + 1][..n] == steps[..n];
    StepsLogGrows(steps, n + 1);
  }

  lemma AppendUnder<T>(a: seq<T>, b: seq<T>, c: seq<T>, whole: seq<T>)
    requires b + c <= whole
    ensures a <= a + b + c <= a + whole
  {
  }

  lemma {:induction false} StepsLogGrows(steps: seq<Step>, n: nat)
    requires n <= |steps|
    ensures StepsLog(steps[..n]) <= StepsLog(steps)
    decreases |steps|
  {
    if n < |steps| {
      var front := steps[..|steps| - 1];
      StepsLogGrows(front, n);
      assert front[..n] == steps[..n];
    } else {
      assert steps[..n] == steps;
    }
  }

  // ------------------------------------------------------ the history a resumed run sees

  datatype Role = UserRole | AssistantRole

  datatype ModelMessage = ModelMessage(role: Role, content: string)

  function Render(message: Message, describe: seq<string> -> string): seq<ModelMessage> {
    match message
    case System(_) => []
    case User(c) => [ModelMessage(UserRole, c)]
    case AssistantText(c) => [ModelMessage(AssistantRole, if c != "" then c else "Assistant response")]
    case AssistantCalls(calls) =>
      [ModelMessage(AssistantRole, if calls != [] then describe(calls) else "Assistant response")]
    case ToolMessage(id, c) => [ModelMessage(AssistantRole, "Tool result (" + id + "): " + c)]
  }

  function FlatMap<T, U>(f: T -> seq<U>, xs: seq<T>): seq<U> {
    if xs == [] then [] else FlatMap(f, xs[..|xs| - 1]) + f(xs[|xs| - 1])
  }

  function ModelHistory(messages: seq<Message>, describe: seq<string> -> string): seq<ModelMessage> {
    FlatMap(message => Render(message, describe), messages)
  }

  // toModelHistoryMessages
  method ToModelHistoryMessages(messages: seq<Message>, describe: seq<string> -> string)
    returns (normalized: seq<ModelMessage>)
    ensures normalized == ModelHistory(messages, describe)
  {
    normalized := [];
    for n := 0 to |messages|
      invariant normalized == ModelHistory(messages[..n], describe)
    {
      assert messages[..n + 1][..n] == messages[..n];
      normalized := normalized + Render(messages[n], describe);
    }
    assert messages[..|messages|] == messages;
  }

  lemma {:induction false} FlatMapConcat<T, U>(f: T -> seq<U>, a: seq<T>, b: seq<T>)
    ensures FlatMap(f, a + b) == FlatMap(f, a) + FlatMap(f, b)
    decreases |b|
  {
    if b == [] {
      assert a + b == a;
    } else {
      var front := b[..|b| - 1];
      FlatMapConcat(f, a, front);
      assert (a + b)[..|a + b| - 1] == a + front;
    }
  }

  lemma HistoryConcat(earlier: seq<Message>, later: seq<Message>, describe: seq<string> -> string)
    ensures ModelHistory(earlier + later, describe) == ModelHistory(earlier, describe) + ModelHistory(later, describe)
  {
    FlatMapConcat(message => Render(message, describe), earlier, later);
  }

  lemma HistoryOfOne(message: Message, describe: seq<string> -> string)
    ensures ModelHistory([message], describe) == Render(message, describe)
  {
    FlatMapOne((m: Message) => Render(m, describe), message);
  }

  lemma FlatMapOne<T, U>(f: T -> seq<U>, x: T)
    ensures FlatMap(f, [x]) == f(x)
  {
  }

  // Everything but system prompts.
  function Shown(messages: seq<Message>): seq<Message> {
    if messages == [] then []
    else
      var last := messages[|messages| - 1];
      Shown(messages[..|messages| - 1]) + (if last.System? then [] else [last])
  }

  // The history by position: every message but system prompts, in order; what the user
  // said under the user's role, everything else under the assistant's, tool results with
  // the id of their call.
  lemma {:induction false} HistoryAt(messages: seq<Message>, describe: seq<string> -> string)
    ensures var shown, history := Shown(messages), ModelHistory(messages, describe);
            && |history| == |shown|
            && forall i :: 0 <= i < |shown| ==>
                 && (history[i].role.UserRole? <==> shown[i].User?)
                 && (shown[i].User? ==> history[i].content == shown[i].content)
                 && (shown[i].AssistantText? && shown[i].content != "" ==> history[i].content == shown[i].content)
                 && (shown[i].AssistantCalls? && shown[i].calls != [] ==>
                       history[i].content == describe(shown[i].calls))
                 && (shown[i].ToolMessage? ==>
                       history[i].content == "Tool result (" + shown[i].toolCallId + "): " + shown[i].content)
  {
    if messages != [] {
      var front, last := messages[..|messages| - 1], messages[|messages| - 1];
      HistoryAt(front, describe);
      HistoryConcat(front, [last], describe);
      HistoryOfOne(last, describe);
      assert messages == front + [last];
    }
  }

  // A run's log is shown without its system prompt.
  lemma HistoryOfRun(prompt: string, input: string, rest: seq<Message>, describe: seq<string> -> string)
    ensures ModelHistory(Opening(prompt, input) + rest, describe)
            == [ModelMessage(UserRole, input)] + ModelHistory(rest, describe)
  {
    var opening := Opening(prompt, input);
    HistoryConcat(opening, rest, describe);
    HistoryConcat([System(prompt)], [User(input)], describe);
    HistoryOfOne(System(prompt), describe);
    HistoryOfOne(User(input), describe);
    assert opening == [System(prompt)] + [User(input)];
  }
}

# Verified model of the Senclaw agent platform

This project models the concurrent cores and the exact algorithms of the platform in
Dafny and proves what they keep over every input, every history or every interleaving.
`dafny verify dfyconfig.toml` checks all of it.

| module | what it models |
|---|---|
| `TaskProtocol`, `TaskSafety` | background agent tasks at await granularity: the launch lock, mirrored transcripts, delivery marks, with every repository call an interleaving point that may throw |
| `TaskLoss`, `TaskRaces` | which delivered messages are handed to an execution, and how often, at that granularity; three runs in which that is not exactly once |
| `TaskHistory` | the transcript that a resumed run is given |
| `TaskTrace` | how calls, runs, tasks and messages come to be what they are: which step took them there, and what held then |
| `Delivery`, `DeliveryExact` | the same tasks with atomic create, send, resume and finalise: exactly-once delivery in order, and every launch, mark and scheduled resume read off the history |
| `Repositories` | the in-memory message stores and the mirroring repository, which follow every run of the task protocol |
| `RunExecution` | the statuses and messages one run persists, for every pattern of throwing writes |
| `ToolBatch` | concurrent tool batches with sibling cancellation, for every completion order |
| `Sandbox` | the event handlers around one sandboxed child process, for every order of events |
| `Seccomp` | the compiler from a deny list to classic BPF, with an interpreter |
| `RedisIngest` | settling of Redis stream entries, with refused calls, lost replies, crashes between any two calls and other loops at work |
| `EventRetry` | event attempts with capped exponential backoff |
| `Polling` | change detection over whole histories of polls |
| `Scheduler`, `SchedulerSafety`, `SchedulerExact` | ticks, the skip-if-running rule and the circuit breaker, interleaved with everything else: what never happens, and which way each decision goes |
| `Paths` | lexical containment of POSIX paths in the write allowlist |
| `Base62` | API key encoding |

How the models are built:

- A protocol whose steps interleave is a state machine: a `State`, an `Action`, a guard
  and `Next`; theorems range over all runs (`IsRun`). A step is what runs between two
  awaits. The in-memory stores apply an effect when the call is made; the machines apply
  it at a separate step, which only adds interleavings.
- Code that updates an object in place is a class whose methods are proved against a
  function of the old state, and whole histories of that function are reasoned about in
  lemmas. Whatever the code cannot decide (which call settles next, whether a write
  throws, what the model answers) is a nondeterministic choice or a parameter.
- Logging, metrics and tracing are no-ops, except for the success metric of a run.
  Clocks are abstract increasing numbers. Hashing, JSONPath, templates, schema checks,
  the language model and cron evaluation are parameters.

Results a reader of the code may not expect:

- A resume that finds the launch lock taken still marks its messages delivered
  (apps/agent-runner/src/agent-service.ts:258-260), and two resumes can read the same
  message. So at await granularity a message can be lost or be executed twice, and
  `TaskRaces` has runs that do so. `TaskLoss.DeliveredExecutesExactly` and
  `TaskLoss.DeliveredRepeatsExactly` say for which messages, and
  `TaskLoss.ExactlyOnceExactly` for which neither can happen. The specification in
  openspec/specs/resumable-agent-tasks promises delivery without these exceptions.
- All cancelled calls of a tool batch have one common cause, a failure that was not
  itself a cancellation; longer chains of cancellations cannot occur.
- The design note of the scheduler (openspec/changes/scheduler/design.md:188) speaks of
  three consecutive failures; the code, and the model, disable a job at three failures
  among its last five records.
- A Redis entry that was delivered and not settled stays in the group's pending list,
  but the driver only ever asks for new entries, so nothing in this repository hands it
  out again: it is kept, but not processed (`RedisIngest.StrandedForever`). The contracts
  of `ReadGroup`, `ConsumeEntry` and `ConsumeLoop` say exactly which entries that befalls.
- The write allowlist refuses a path whose first segment below a root merely begins with
  `..` (`Paths.BelowRootExactly`), and change detection by a header reprocesses an
  unchanged body when a server starts to send that header
  (`Polling.BodiesDedupedExactly`).
- The BPF program length is passed as a 16-bit number, but a truncated program is never
  installed: the kernel refuses every list of more than 2045 entries, and
  `apply_seccomp_filter` then reports the error.

## Model

| member | source | states |
|---|---|---|
| `TaskSafety.OneExecutionPerTask` | apps/agent-runner/src/agent-service.ts:277-359 | in every reachable state at most one execution is in flight per task, and no launch of that task is between admission and hand-over |
| `TaskSafety.LockIsExact` | apps/agent-runner/src/agent-service.ts:283-357 | a task id is in `activeTaskLaunches` exactly while a launch was admitted and its execution has neither settled nor had its setup fail |
| `TaskSafety.TranscriptIsBlocks` | apps/agent-runner/src/agent-service.ts:51-66 | a transcript is the blocks of the task's runs in launch order, never interleaved, numbered 1..n with `lastMessageSeq` n; each block is the run's log or lacks only its last message |
| `TaskLoss.DeliveredExecutesExactly` | apps/agent-runner/src/agent-service.ts:246-357 | in every reachable state, a delivered message is handed to an execution, now or in some continuation, exactly when it was or a launch still carries it |
| `TaskLoss.DeliveredRepeatsExactly` | apps/agent-runner/src/agent-service.ts:246-357 | it can be handed to one more execution exactly when a launch still carries it |
| `TaskLoss.ExactlyOnceExactly` | apps/agent-runner/src/agent-service.ts:246-357 | exactly one run executes it, now and in every continuation, exactly when one does now and no launch carries it |
| `TaskLoss.FurtherExecutionExactly` | apps/agent-runner/src/agent-service.ts:246-357 | the general form: a run beyond any set of known ones executes it, now or later, exactly when one does now or a launch carries it |
| `TaskLoss.FrozenForever` | apps/agent-runner/src/agent-service.ts:258-357 | once no launch carries a delivered message, no continuation at all makes a further run execute it |
| `TaskLoss.CarriedCanExecute` | apps/agent-runner/src/agent-service.ts:283-345 | whoever holds the lock can let go of it, so a launch that carries a message can still hand it to a new execution |
| `TaskLoss.DeliveredOrRefused` | apps/agent-runner/src/agent-service.ts:251-260 | a message that was marked delivered and never handed to an execution was in the batch of a refused launch |
| `TaskRaces.RefusedLaunchLosesMessage` | apps/agent-runner/src/agent-service.ts:283-285 | a run of nine steps after which a message is marked delivered and no continuation executes it |
| `TaskRaces.FailedSetupLosesMessage` | apps/agent-runner/src/agent-service.ts:350-357 | a run of sixteen steps with the same end, although a run with the message in its input was created: its setup threw |
| `TaskRaces.SecondLaunchRepeatsMessage` | apps/agent-runner/src/agent-service.ts:246-260 | a run of fifteen steps after which a message is executed and marked delivered, and some continuation executes it again |
| `TaskSafety.InvKept` | apps/agent-runner/src/agent-service.ts:226-359 | every step of every call, execution and finaliser, throwing or not, keeps lock, transcript and delivery invariants |
| `TaskSafety.LockKept` | apps/agent-runner/src/agent-service.ts:283-351 | lock ownership passes from call to execution to nobody, whatever interleaves |
| `TaskSafety.TranscriptsKept` | apps/agent-runner/src/agent-service.ts:302-327 | only the lock-holding run of a task extends its transcript, at the end of its own block |
| `TaskSafety.DeliveryKept` | apps/agent-runner/src/agent-service.ts:246-260 | delivered messages and batches being marked were handed to an execution or carried by a refused launch, and stay so |
| `TaskSafety.RunInv` | apps/agent-runner/src/agent-service.ts:152-359 | the invariants hold in every state of every run of the service |
| `TaskTrace.CallSteps` | apps/agent-runner/src/agent-service.ts:226-357 | a call that takes a step arrives at its next place, for exactly the reason that place has, or returns for exactly the reasons there are |
| `TaskTrace.ResumeGoesOnExactly` | apps/agent-runner/src/agent-service.ts:226-234 | a resume that reads its task goes on exactly when the task is not running or has no active run; otherwise nothing but the call changes |
| `TaskTrace.LaunchOrigin` | apps/agent-runner/src/agent-service.ts:152-255 | a launch is that of a new task, without messages and history, or that of a resume that read the task as idle, then took the transcript, then listed exactly the undelivered messages in enqueue order |
| `TaskTrace.FinaliserResumesExactly` | apps/agent-runner/src/agent-service.ts:336-345 | the end of a run resumes its task exactly when some message of it is undelivered |
| `TaskTrace.RunSteps` | apps/agent-runner/src/agent-service.ts:289-345 | a run that takes a step arrives in its next phase, with no more changed than that phase says |
| `TaskTrace.LogExactly` | apps/agent-runner/src/agent-service.ts:51-66 | a run's log is what its execution appended, in order |
| `TaskTrace.StatusExactly` | apps/agent-runner/src/agent-service.ts:294-356 | status and active run of a task are what was written to them last |
| `TaskTrace.DeliveredByMark` | apps/agent-runner/src/agent-service.ts:258-260 | a message is delivered exactly when some step marked it |
| `Delivery.ExactlyOnceInOrder` | apps/agent-runner/src/agent-service.ts:198-263 | with atomic operations, the inputs of a task's runs hold its follow-up messages once each, in enqueue order, and delivered means exactly that |
| `Delivery.QuiescentHasNoPending` | apps/agent-runner/src/agent-service.ts:326-345 | a task without a run and without a scheduled resume has no pending message |
| `Delivery.HistoryInv` | apps/agent-runner/src/agent-service.ts:152-359 | lock, status and active run agree, and run inputs followed by pending messages are all messages sent, in every history |
| `Delivery.AgentService.Perform` | apps/agent-runner/src/agent-service.ts:152-359 | every operation of the service keeps the invariant and acts as the atomic operation it stands for |
| `Delivery.AgentService.MarkDelivered` | apps/agent-runner/src/agent-service.ts:258-260 | the loop marks exactly the task's pending messages |
| `Delivery.PendingIdsExact` | apps/agent-runner/src/repositories.ts:250-256 | the pending list holds exactly the undelivered messages of the task |
| `DeliveryExact.ScheduledExactly` | apps/agent-runner/src/agent-service.ts:198-345 | the scheduled resumes are exactly those owed: one for a send to a task without a run, one for the end of a run that leaves a message undelivered |
| `DeliveryExact.RunsExactly` | apps/agent-runner/src/agent-service.ts:152-296 | a task's runs are exactly those of its creation and of the resumes that found it without a run, each with all that was undelivered then |
| `DeliveryExact.DeliveredExactly` | apps/agent-runner/src/agent-service.ts:226-263 | a message is delivered exactly when a resume of its task started a run after it was sent |
| `DeliveryExact.RunningExactly` | apps/agent-runner/src/agent-service.ts:283-335 | a task is locked and running exactly when the last operation that started or ended a run started it |
| `DeliveryExact.ActiveExactly` | apps/agent-runner/src/agent-service.ts:294-329 | the active run of a task that has one is its latest run, and of any other none |
| `DeliveryExact.QuietTaskRunsOnce` | apps/agent-runner/src/agent-service.ts:336-345 | without a send and without a client's resume, no resume of a task is ever scheduled and its only run is that of its creation |
| `TaskHistory.HistoryIsEarlierRuns` | apps/agent-runner/src/agent-service.ts:241-255 | the history a run is given shows the model a prefix of what the runs launched before it mirrored, run by run in launch order, and all of it when the store handed out its own list |
| `TaskHistory.HistoryKept` | apps/agent-runner/src/agent-service.ts:241-255 | every step keeps what launches have read a prefix of the transcript, and what runs were given a prefix of the blocks before them |
| `TaskHistory.RenderedLogs` | apps/agent-runner/src/execution-loop.ts:87-116 | rendering the blocks of a task is rendering run after run |
| `Repositories.StoresAfter` | apps/agent-runner/src/repositories.ts:185-224 | after every run of the protocol the stored transcript of a task is the blocks of its runs, numbered 1..n, and its cursor is n |
| `Repositories.StoresFollow` | apps/agent-runner/src/repositories.ts:185-224 | every step of the protocol, whatever interleaves, is followed by the stores |
| `Repositories.MessageStores.Mirror` | apps/agent-runner/src/agent-service.ts:58-61 | a message reaches the transcript only after the log; a throw leaves the log at most one message ahead |
| `RunExecution.RunStore.ExecuteRunRequest` | apps/agent-runner/src/execution-loop.ts:118-370 | statuses are disciplined; the success metric is recorded exactly when completed was persisted; completed only after the whole message log; without faults the outcome is determined by the model |
| `RunExecution.RunStore.ExecuteSpan` | apps/agent-runner/src/execution-loop.ts:149-362 | after running at most one terminal status is written, and completed excludes any later write |
| `RunExecution.RunStore.SubmitTask` | apps/agent-runner/src/agent-service.ts:121-150 | the same discipline with the catch that marks a rejected execution failed, where running may be missing |
| `RunExecution.RunStore.MarkRunFailed` | apps/agent-runner/src/run-failure.ts:11-30 | failed is persisted, or the write threw and nothing changed |
| `RunExecution.RunStore.AppendSteps` | apps/agent-runner/src/execution-loop.ts:261-317 | the messages of all model steps are appended in order, or a prefix of them when a write throws |
| `RunExecution.RunStore.AppendStep` | apps/agent-runner/src/execution-loop.ts:263-315 | one step appends its calls, its tool results and its text in that order |
| `RunExecution.ToModelHistoryMessages` | apps/agent-runner/src/execution-loop.ts:87-116 | the loop computes the rendered history |
| `RunExecution.HistoryOfRun` | apps/agent-runner/src/execution-loop.ts:94-100 | a run's log is shown without its system prompt, starting with its user input |
| `RunExecution.HistoryAt` | apps/agent-runner/src/execution-loop.ts:87-116 | by position: everything but system prompts in order, the user's words under the user's role, all else under the assistant's, tool results with the id of their call |
| `RunExecution.StepLogAt` | apps/agent-runner/src/execution-loop.ts:261-317 | by position: the calls, one message for each tool result in order, last the text |
| `RunExecution.FullLogAt` | apps/agent-runner/src/execution-loop.ts:141-362 | prompt and input first, then the steps, or the text of an answer without steps; exactly an answer that did not hit the turn limit completes |
| `ToolBatch.ToolRegistry.ExecuteTools` | apps/tool-runner-host/src/registry.ts:311-336 | for every completion order: one result per call in call order; a call of a tool that is unknown or not registered as safe overlaps no other, neighbouring calls of safe tools run together; an unknown tool is an error; a call is cancelled exactly when a sibling of its batch, registered to cancel, failed by itself before it had finished |
| `ToolBatch.ToolRegistry.ExecuteConcurrentBatch` | apps/tool-runner-host/src/registry.ts:281-309 | every completion order of a batch is explained, and all cancelled calls share one cause that settled before them and was not a cancellation |
| `ToolBatch.ToolRegistry.AwaitAll` | apps/tool-runner-host/src/registry.ts:286-308 | whichever call makes progress next, the batch ends with every call settled |
| `ToolBatch.ToolRegistry.ExecuteAlone` | apps/tool-runner-host/src/registry.ts:330-331 | a call outside a batch keeps its own outcome |
| `ToolBatch.ToolRegistry.FlushBatch` | apps/tool-runner-host/src/registry.ts:315-321 | flushing appends the batch's results and keeps everything before explained |
| `ToolBatch.ToolRegistry.Register` | apps/tool-runner-host/src/registry.ts:78-95 | a name is registered once; a second registration changes nothing |
| `ToolBatch.FinishStep` | apps/tool-runner-host/src/registry.ts:128-156 | a handler that finishes while it still races keeps its own outcome, no outcome that is fixed changes, and the batch comes closer to its end |
| `ToolBatch.SettleStep` | apps/tool-runner-host/src/registry.ts:293-306 | settling a failure that cancels siblings aborts everything that still races, and only the first such failure has an effect |
| `ToolBatch.BoardExplains` | apps/tool-runner-host/src/registry.ts:281-309 | a finished batch has at most one root failure and every cancelled call is due to it |
| `ToolBatch.AppendBatch` | apps/tool-runner-host/src/registry.ts:323-334 | no cancellation and no overlap crosses a batch boundary |
| `Sandbox.RunAgrees` | apps/tool-runner-host/src/sandbox.ts:173-386 | for every order of events, what was sent, recorded, settled, removed and reported is a function of the history alone |
| `Sandbox.ReportedExactly` | apps/tool-runner-host/src/sandbox.ts:195-359 | which result or which failure the caller is told: the first ruling event decides, a close by the last error message, the last result, the first limit exceeded while it applied, memory, signal and exit code, in that order; a failed cleanup replaces it |
| `Sandbox.CloseVerdict` | apps/tool-runner-host/src/sandbox.ts:316-359 | a child that closes before anything else settled: the caller is told the last error message if there was one, otherwise the last result if there was one, otherwise the first limit exceeded whatever the exit status, otherwise memory, signal, exit code or no result, each exactly |
| `Sandbox.OtherVerdicts` | apps/tool-runner-host/src/sandbox.ts:186-264 | a child that does not start, a message that cannot be sent, and a cleanup that fails |
| `Sandbox.SettledStopsTimers` | apps/tool-runner-host/src/sandbox.ts:195-209 | once settled by a close or a failed start, no timer runs and nothing is watched |
| `Sandbox.Discipline` | apps/tool-runner-host/src/sandbox.ts:186-264 | at most one send, only after ready; at most one report and one removal, the removal first |
| `Sandbox.CloseSettles` | apps/tool-runner-host/src/sandbox.ts:316-359 | a delivered close has settled the promise, and the end of the cleanup reports it once |
| `Sandbox.SuccessNeedsResult` | apps/tool-runner-host/src/sandbox.ts:316-325 | the promise resolves only with the last result before a close that no error message preceded |
| `Sandbox.FirstPendingWins` | apps/tool-runner-host/src/sandbox.ts:224-226 | the first recorded timeout or limit is never replaced |
| `Sandbox.Execution.On` | apps/tool-runner-host/src/sandbox.ts:186-386 | the handlers, called for any event after any history, leave exactly the report that the history determines |
| `Sandbox.RemoveDirectory` | apps/tool-runner-host/src/sandbox.ts:77-101 | at most ten tries, stopping at the first that is not busy; the linear backoff adds up to 50·n·(n−1) ms |
| `Seccomp.BuildFilter` | native/sandbox-runner/src/lib.rs:367-383 | for every deny list the filter has 2n+5 instructions, cannot be left by any jump, and decides every system call as the policy does; the kernel accepts what it is handed exactly for at most 2045 entries, and then it was handed the whole filter |
| `Seccomp.FilterCorrect` | native/sandbox-runner/src/lib.rs:329-378 | interpretation halts without a fault within n+4 instructions; the verdict is EPERM exactly when the architecture is not x86-64 or the number is listed, and allow otherwise |
| `Seccomp.ChecksDecide` | native/sandbox-runner/src/lib.rs:373-378 | from the i-th check on the program decides membership in the rest of the list |
| `Seccomp.FilterSafe` | native/sandbox-runner/src/lib.rs:368-378 | for every list, every jump lands in the program, every load is in range, the last instruction returns |
| `Seccomp.InstalledExactly` | native/sandbox-runner/src/lib.rs:380-383 | the kernel, which refuses more than 4096 instructions, accepts the submitted program exactly for at most 2045 entries; no list is ever installed truncated |
| `Seccomp.PrefixUnsafe` | native/sandbox-runner/src/lib.rs:380-383 | no proper prefix that the 16-bit length could leave passes the kernel's check |
| `RedisIngest.Lineage` | packages/connector-worker/src/redis-queue-driver.ts:273-324 | following requeued copies from any entry ends at the same payload, which will be handed out, is in a loop's hands, was processed, dead-lettered, or rejected with nowhere to go, or is stranded in the pending list |
| `RedisIngest.StrandedForever` | packages/connector-worker/src/redis-queue-driver.ts:273-284 | an entry in the pending list that no running loop holds stays there in every continuation, whatever loops and producers do, and is not processed any more |
| `RedisIngest.LostReadNeverProcessed` | packages/connector-worker/src/redis-queue-driver.ts:278-284 | an entry whose delivery was not answered is never processed, although nothing is lost |
| `RedisIngest.LeftForGood` | packages/connector-worker/src/redis-queue-driver.ts:273-324 | what earlier loops left stranded stays so during all that a later consumer and whatever interleaves with it do, and is not processed |
| `RedisIngest.AcknowledgeSafeExactly` | packages/connector-worker/src/redis-queue-driver.ts:226-232 | acknowledging a pending entry loses nothing exactly when it was processed, copied, dead-lettered or may be dropped |
| `RedisIngest.Consumer.ConsumeLoop` | packages/connector-worker/src/redis-queue-driver.ts:273-324 | while producers and other loops interleave with every call: no entry is lost after any call; the loop stops at the first read that is not answered or the first entry that cannot be settled; a delivered entry is left in the pending list exactly when it was not reached, did not parse, or no attempt to settle it was acknowledged; those are among the last batch and stranded; entries delivered earlier and not held by other loops are untouched |
| `RedisIngest.Consumer.ConsumeBatch` | packages/connector-worker/src/redis-queue-driver.ts:286-312 | the same for one batch, which is handled to its end or up to the first entry that cannot be settled |
| `RedisIngest.Consumer.ConsumeEntry` | packages/connector-worker/src/redis-queue-driver.ts:286-312 | an entry is handled exactly when it parses and one of its attempts succeeds; where it then is and what became of it is exact: pending, kept in the stream, processed, rejected, and its copy in the source stream if failures are requeued, otherwise in the dead-letter stream if there is one |
| `RedisIngest.Consumer.OnMessage` | packages/connector-worker/src/queue-connector.ts:37-44 | a processed message is acknowledged, anything else, a failed acknowledgement included, is nacked |
| `RedisIngest.Consumer.Nack` | packages/connector-worker/src/redis-queue-driver.ts:288-295 | a copy goes to the source stream exactly when failures are requeued and to the dead-letter stream otherwise, before the entry is settled; the entry stays pending exactly when the publication is not answered or the acknowledgement is refused |
| `RedisIngest.Consumer.AcknowledgeAndDelete` | packages/connector-worker/src/redis-queue-driver.ts:226-232 | the entry leaves the pending list exactly when the acknowledgement is not refused, and the stream on success |
| `RedisIngest.Consumer.ReadGroup` | packages/connector-worker/src/redis-queue-driver.ts:278-284 | exactly the new entries, in stream order, at most a batch; when the reply is lost they are pending and stranded |
| `EventRetry.EventProcessor.ProcessEvent` | packages/connector-worker/src/event-processor.ts:66-68 | the records, delays and result of a call are those of the attempts from the first on, appended to an untouched store |
| `EventRetry.EventProcessor.ProcessEventAttempt` | packages/connector-worker/src/event-processor.ts:70-133 | one terminal record per attempt, one delay per retry, and the nested result |
| `EventRetry.EventProcessor.RecordAttempt` | packages/connector-worker/src/event-processor.ts:77-120 | an attempt leaves one record with its terminal status and transformed input |
| `EventRetry.AttemptsCharacterised` | packages/connector-worker/src/event-processor.ts:113-132 | an attempt is followed by another exactly when it failed retryably within the limit; records, delays and result follow from that |
| `EventRetry.ProcessEventOutcome` | packages/connector-worker/src/event-processor.ts:66-133 | at most maxRetries+1 attempts, at most one accepted submission, which is last, and resolution exactly when the last attempt was submitted or filtered |
| `EventRetry.PersistentFailure` | packages/connector-worker/src/event-processor.ts:122-131 | a retryable failure that never clears uses every attempt and rejects |
| `EventRetry.StatusesExactly` | packages/connector-worker/src/event-processor.ts:77-120 | a filtered payload has one filtered record; an accepted submission is recorded with its run; whatever throws is recorded as failed with that error |
| `EventRetry.RetriedExactly` | packages/connector-worker/src/event-processor.ts:135-159 | too many requests and server errors are retried, other client errors are not, and without such a status exactly eight network errors are |
| `EventRetry.DelayRecurrence` | packages/connector-worker/src/event-processor.ts:161-167 | each delay is the multiplier times the one before, up to the cap |
| `EventRetry.FirstDelay` | packages/connector-worker/src/event-processor.ts:161-167 | the first delay is the initial one, up to the cap |
| `EventRetry.DelaysMonotone` | packages/connector-worker/src/event-processor.ts:161-167 | delays never shrink and never exceed the cap |
| `EventRetry.TotalBackoff` | packages/connector-worker/src/event-processor.ts:122-128 | the total delay of any run is at most maxRetries times the cap and at most the geometric sum |
| `EventRetry.GeometricClosedForm` | packages/connector-worker/src/event-processor.ts:161-167 | the closed form of that geometric sum |
| `Polling.PollingConnector.Poll` | packages/connector-worker/src/polling-connector.ts:62-91 | outcome and stored state of one poll; other connectors are untouched |
| `Polling.StateIsLastProcessed` | packages/connector-worker/src/polling-connector.ts:79-88 | the stored state is that of the last successfully processed response |
| `Polling.OutcomeExactly` | packages/connector-worker/src/polling-connector.ts:73-90 | over any history, a poll throws exactly on a bad fetch or when a new response cannot be processed, finds nothing new exactly on a repeat, and processes otherwise |
| `Polling.ProcessedIsDedup` | packages/connector-worker/src/polling-connector.ts:79-88 | the processed responses are the deliverable ones with consecutive repeats, as the comparison sees them, removed |
| `Polling.SameKeptExactly` | packages/connector-worker/src/polling-connector.ts:134-152 | two comparisons keep the same responses of a history exactly when they agree on each answer against the last one kept before it |
| `Polling.ContentHashDedup` | packages/connector-worker/src/polling-connector.ts:126-152 | with an injective hash the key is the body |
| `Polling.HeaderDedup` | packages/connector-worker/src/polling-connector.ts:143-149 | when every response carries the ETag or the modification date that the strategy looks at, repeats are decided by it alone |
| `Polling.HeaderFallsBack` | packages/connector-worker/src/polling-connector.ts:143-151 | when none carries it, the comparison is content hashing, for every hash |
| `Polling.EmptyHeaderIsAbsent` | packages/connector-worker/src/polling-connector.ts:143-149 | a header that is empty counts as absent |
| `Polling.BodiesDedupedExactly` | packages/connector-worker/src/polling-connector.ts:134-152 | with an injective hash, a strategy processes the bodies with consecutive repeats removed exactly for the histories in which every answer with the header has that of the last body kept before it exactly when it has that body |
| `Polling.EtagRepeatsBody` | packages/connector-worker/src/polling-connector.ts:143-145 | two equal bodies, the second with a new tag, are both processed |
| `Polling.FailedProcessingIsRetried` | packages/connector-worker/src/polling-connector.ts:86-90 | polls that deliver nothing leave the state alone; a response whose processing threw is attempted again and processed at the first poll that can |
| `SchedulerSafety.NoOverlap` | packages/scheduler/src/scheduler.ts:125-160 | a non-concurrent job never has two submitted executions whose runs are both pending or running, in any interleaving |
| `SchedulerSafety.ThirdFailureIsLast` | packages/scheduler/src/scheduler.ts:205-225 | a third failure among five consecutive records of a job is its last record |
| `SchedulerSafety.EnabledJobFailures` | packages/scheduler/src/scheduler.ts:205-222 | an enabled job with n records has at most 2·⌈n/5⌉ failures, unless its last one is being judged |
| `SchedulerSafety.ExclusionKept` | packages/scheduler/src/scheduler.ts:128-160 | between the check and the new record no execution of the job becomes active |
| `SchedulerSafety.BreakerKept` | packages/scheduler/src/scheduler.ts:176-225 | every step keeps the histories of enabled jobs calm and job records in time order |
| `SchedulerSafety.Verdict` | packages/scheduler/src/scheduler.ts:206-210 | after a failed record the query answers below three exactly when the history is still calm |
| `SchedulerExact.JudgedExactly` | packages/scheduler/src/scheduler.ts:205-224 | after a failure a job is to be disabled exactly when at least three of its last five records are failures, and rescheduled otherwise |
| `SchedulerExact.TurnedOffExactly` | packages/scheduler/src/scheduler.ts:205-222 | no step turns an enabled job off except an edit and the breaker at three failures among its last five records |
| `SchedulerExact.SkippedExactly` | packages/scheduler/src/scheduler.ts:128-150 | a checked job is skipped exactly when it has a submitted execution whose run is pending or running |
| `SchedulerExact.TickRecordsExactly` | packages/scheduler/src/scheduler.ts:107-123 | when a tick ends, every job that was enabled and due when it looked has exactly one record of it, and no other job has any |
| `SchedulerExact.RecordsExactly` | packages/scheduler/src/scheduler.ts:125-200 | a record is skipped because the job had an active execution, submitted with the run that was answered, or failed because submitTask threw |
| `SchedulerExact.TakenExactly` | packages/scheduler/src/scheduler.ts:125-130 | due jobs are taken in order; one that allows concurrency is submitted at once, any other is checked first |
| `SchedulerExact.TimerExactly` | packages/scheduler/src/scheduler.ts:107-112 | a timer that fires starts a tick exactly when none is in progress |
| `SchedulerExact.JobsExactly` | packages/storage/src/job-repository.ts:152-196 | a job is what the last edit, disabling or rescheduling wrote |
| `Scheduler.CountIsLastFive` | packages/storage/src/execution-repository.ts:119-132 | with increasing times, ordering by time and limiting to five counts the failures of the last five records |
| `Scheduler.CalmWindows` | packages/storage/src/execution-repository.ts:119-132 | a calm history has at most two failures in any five consecutive records |
| `Scheduler.CalmTotal` | packages/scheduler/src/scheduler.ts:205-222 | hence at most two per started five records |
| `Paths.NormalizePathMeaning` | packages/config/src/permissions.ts:39-44 | the normalised path means the lexical resolution of the original |
| `Paths.PieceResolves` | packages/config/src/permissions.ts:39-44 | a last "." leads nowhere and a last ".." to the parent, which of the root is the root |
| `Paths.BaseResolves` | packages/config/src/permissions.ts:39-44 | what single pieces, the empty path and the root mean, absolutely and in a working directory |
| `Paths.WithinRootMeaning` | packages/config/src/permissions.ts:54-67 | containment holds exactly when the root's segments are a prefix and the next segment does not begin with ".." |
| `Paths.WriteDecision` | packages/config/src/permissions.ts:123-144 | a write is allowed exactly when there is a target and all writes are allowed or some root contains it, lexically on POSIX paths and by the Windows rules when some value is a Windows path |
| `Paths.ShellDecision` | packages/config/src/permissions.ts:99-121 | a shell command is allowed exactly when it declares nothing, all writes are allowed, or every declared path lies in a root |
| `Paths.OtherDecisions` | packages/config/src/permissions.ts:88-101 | elevation is a matter of approval, or denied without a prompt; reading is allowed |
| `Paths.WindowsSelected` | packages/config/src/permissions.ts:30-37 | the Windows rules are selected exactly when the target, a root or a declared path begins with a drive letter, a colon and a slash, or with two backslashes |
| `Paths.BelowRootExactly` | packages/config/src/permissions.ts:61-66 | containment equals being below the root exactly outside the family of targets whose next segment begins with ".." |
| `Paths.DotDotChildRefused` | packages/config/src/permissions.ts:63-66 | under every root, for every working directory, the child "..b" is in that family and refused |
| `Paths.RespelledResolves` | packages/config/src/permissions.ts:39-52 | doubled and trailing slashes, "." segments and names followed by "..", at the beginning, in the middle or at the end, do not change what a path means |
| `Paths.EndSpelling` | packages/config/src/permissions.ts:39-52 | any path followed by such pieces is a spelling of it |
| `Paths.StartSpelling` | packages/config/src/permissions.ts:39-52 | any relative path preceded by such pieces is a spelling of it |
| `Paths.OuterSpellings` | packages/config/src/permissions.ts:39-52 | in particular trailing "/", "/." and "/x/..", and leading "./" and "x/../" |
| `Paths.SpellingIrrelevant` | packages/config/src/permissions.ts:81-144 | the outcome of a request is the same for all spellings of its target, of the allowed roots and of the declared paths that select the same rules, provided the Windows rules, if selected, do not depend on the spelling |
| `Base62.Encode` | packages/storage/src/api-key-crypto.ts:13-27 | the loop yields alphabet characters that denote the buffer's number, 43 of them for up to 32 bytes |
| `Base62.EncodeRoundTrip` | packages/storage/src/api-key-crypto.ts:13-27 | decoding an encoded number returns it |
| `Base62.KeyLength` | packages/storage/src/api-key-crypto.ts:26-26 | a body has 43 characters exactly for numbers below 62^43, hence for all 32-byte buffers |
| `Base62.BodyLengthIsTight` | packages/storage/src/api-key-crypto.ts:5-5 | 62^42 < 2^256 < 62^43 |
| `Base62.KeysAreDistinct` | packages/storage/src/api-key-crypto.ts:29-31 | distinct buffers of one length give distinct keys |
| `Base62.GeneratedKeys` | packages/storage/src/api-key-crypto.ts:29-35 | every generated key passes the format check |
| `Base62.KeySpace` | packages/storage/src/api-key-crypto.ts:8-35 | a well-formed key is generated by some 32-byte buffer exactly when its body denotes a number below 2^256 |

## Left out

- Delivery.ExactlyOnceInOrder: assumes that create, send, resume and finalise are atomic, storage does not fail and the agent exists; without atomicity messages can be lost or repeated, and TaskLoss.ExactlyOnceExactly says for which messages neither can happen.
- Paths.WriteDecision: what the Windows rules contain is a parameter; the POSIX functions of node:path are modelled from their documented behaviour.
- Paths.ShellDecision: the Windows rules are a parameter, as above.
- Paths.SpellingIrrelevant: that the Windows rules do not depend on the spelling is a hypothesis, as these rules are a parameter.
- SchedulerSafety.NoOverlap: one scheduler, storage that does not fail, and the SQL query for running executions; the gateway's in-memory variant, which does not look at run status, is not modelled.
- SchedulerSafety.ThirdFailureIsLast: a job that is enabled again by hand is not modelled.
- EventRetry.ProcessEventOutcome: event-store writes that throw are not modelled.
- TaskHistory.HistoryIsEarlierRuns: only a prefix for a store that hands out copies, since launches that come between the copy and the run can add blocks that it does not see.
- Exact task status while a finaliser overlaps a new launch, and storage back ends other than the in-memory stores.
- The CPU monitor, stderr collection and the Rust runner behind sandbox level 4, apart from its seccomp filter; the numeric values of the denied system calls.
- The timing of reconnects, the RabbitMQ driver, and reclaiming of pending Redis entries by consumers other than this driver.
- The filter operators, the transformation of payloads, the parsing of response bodies and the evaluation of cron expressions are parameters.
- CRUD stores, the approval queue, HTTP routes, authentication, rate limits, the web console, the CLI and launchers are not modelled.

/**
  The in-memory message stores of apps/agent-runner and the mirroring repository that
  appends every message of a run to the run's log and then to its task's transcript.
  Whatever interleaves, the stores follow every run of the task protocol.
 */
module Repositories {
  import opened TaskProtocol
  import opened TaskSafety

  function Get<K, V>(m: map<K, seq<V>>, key: K): seq<V> {
    if key in m then m[key] else []
  }

  datatype Stores = Stores(
    runMessages: map<RunId, seq<Message>>,
    transcripts: map<TaskId, seq<Entry>>,
    lastMessageSeq: map<TaskId, nat>)          // the transcript cursors of existing tasks

  function LogAppended(st: Stores, r: RunId, message: Message): Stores {
    st.(runMessages := st.runMessages[r := Get(st.runMessages, r) + [message]])
  }

  // An entry is numbered after the existing ones; an unknown task has no cursor.
  function TranscriptAppended(st: Stores, t: TaskId, r: RunId, message: Message): Stores {
    var n := |Get(st.transcripts, t)| + 1;
    st.(transcripts := st.transcripts[t := Get(st.transcripts, t) + [Entry(n, r, message)]],
        lastMessageSeq := if t in st.lastMessageSeq then st.lastMessageSeq[t := n] else st.lastMessageSeq)
  }

  class MessageStores {
    var runMessages: map<RunId, seq<Message>>
    var transcripts: map<TaskId, seq<Entry>>
    var lastMessageSeq: map<TaskId, nat>

    function View(): Stores
      reads this
    {
      Stores(runMessages, transcripts, lastMessageSeq)
    }

    constructor ()
      ensures Represents(View(), Initial())
    {
      runMessages, transcripts, lastMessageSeq := map[], map[], map[];
    }

    method AppendToRun(r: RunId, message: Message)
      modifies this`runMessages
      ensures View() == LogAppended(old(View()), r, message)
    {
      runMessages := runMessages[r := Get(runMessages, r) + [message]];
    }

    method AppendToTask(t: TaskId, message: Message, source: RunId) returns (entry: Entry)
      modifies this`transcripts, this`lastMessageSeq
      ensures View() == TranscriptAppended(old(View()), t, source, message)
      ensures transcripts[t][|transcripts[t]| - 1] == entry
    {
      var existing := Get(transcripts, t);
      entry := Entry(|existing| + 1, source, message);
      transcripts := transcripts[t := existing + [entry]];
      if t in lastMessageSeq {
        lastMessageSeq := lastMessageSeq[t := entry.seqNo];
      }
    }

    // MirroringMessageRepository.append, uninterrupted: either store may throw before
    // persisting, and the transcript is reached only after the log.
    method Mirror(t: TaskId, r: RunId, message: Message) returns (ok: bool)
      modifies this
      ensures ok ==> View() == TranscriptAppended(LogAppended(old(View()), r, message), t, r, message)
      ensures !ok ==> View() == old(View()) || View() == LogAppended(old(View()), r, message)
    {
      var logThrows: bool, transcriptThrows: bool := *, *;
      if logThrows {
        return false;
      }
      AppendToRun(r, message);
      if transcriptThrows {
        return false;
      }
      var entry := AppendToTask(t, message, r);
      ok := true;
    }
  }

  // ------------------------------------------------------- the stores and the protocol

  ghost predicate LogsHeld(runMessages: map<RunId, seq<Message>>, runs: map<RunId, Run>) {
    forall r :: if r in runs then Get(runMessages, r) == runs[r].log else r !in runMessages
  }

  ghost predicate TranscriptsHeld(transcripts: map<TaskId, seq<Entry>>, tasks: map<TaskId, Task>) {
    forall t :: if t in tasks then Get(transcripts, t) == tasks[t].transcript else t !in transcripts
  }

  ghost predicate CursorsHeld(cursors: map<TaskId, nat>, tasks: map<TaskId, Task>) {
    cursors.Keys == tasks.Keys && forall t :: t in tasks ==> cursors[t] == tasks[t].lastMessageSeq
  }

  // The stores hold the logs, transcripts and cursors of a state of the protocol.
  ghost predicate Represents(st: Stores, s: State) {
    && LogsHeld(st.runMessages, s.runs)
    && TranscriptsHeld(st.transcripts, s.tasks) && CursorsHeld(st.lastMessageSeq, s.tasks)
  }

  // What a step of the protocol does to the stores.
  function Stored(st: Stores, s: State, a: Action): Stores
    requires Enabled(s, a)
  {
    match a
    case CreateTask(t, _) => st.(lastMessageSeq := st.lastMessageSeq[t := 0])
    case AppendToRun(r, message) => LogAppended(st, r, message)
    case Mirror(r) => TranscriptAppended(st, s.runs[r].task, r, s.runs[r].log[|s.runs[r].log| - 1])
    case _ => st
  }

  lemma AppendFollows(st: Stores, s: State, a: Action)
    requires Represents(st, s) && Enabled(s, a) && a.AppendToRun?
    ensures Represents(Stored(st, s, a), Next(s, a))
  {
  }

  lemma MirrorFollows(st: Stores, s: State, a: Action)
    requires Represents(st, s) && Enabled(s, a) && a.Mirror?
    ensures Represents(Stored(st, s, a), Next(s, a))
  {
    var t, s', st' := s.runs[a.run].task, Next(s, a), Stored(st, s, a);
    assert s'.tasks == s.tasks[t := s'.tasks[t]];
    assert Get(st'.transcripts, t) == s'.tasks[t].transcript;
    assert LogsHeld(st'.runMessages, s'.runs);
    assert TranscriptsHeld(st'.transcripts, s'.tasks);
  }

  // Logs, transcripts and cursors are the same in both states, but for new empty logs.
  ghost predicate SameStored(s: State, s': State) {
    && s'.tasks.Keys == s.tasks.Keys
    && (forall t :: t in s.tasks ==>
          s'.tasks[t].transcript == s.tasks[t].transcript && s'.tasks[t].lastMessageSeq == s.tasks[t].lastMessageSeq)
    && (forall r :: r in s.runs ==> r in s'.runs && s'.runs[r].log == s.runs[r].log)
    && (forall r :: r in s'.runs && r !in s.runs ==> s'.runs[r].log == [])
  }

  lemma StoredByCalls(s: State, a: Action)
    requires Enabled(s, a) && !OfRun(a) && !a.CreateTask?
    ensures SameStored(s, Next(s, a))
  {
    if OfCall(a) {
      assert Next(s, a).tasks == s.tasks && Next(s, a).runs == s.runs;
    }
  }

  lemma StoredByRuns(s: State, a: Action)
    requires Enabled(s, a) && OfRun(a) && !a.AppendToRun? && !a.Mirror?
    ensures SameStored(s, Next(s, a))
  {
    var s' := Next(s, a);
    assert s'.runs == s.runs[a.run := s'.runs[a.run]];
  }

  lemma SameStoredHeld(st: Stores, s: State, s': State)
    requires Represents(st, s) && SameStored(s, s')
    ensures Represents(st, s')
  {
  }

  lemma CreateTaskFollows(st: Stores, s: State, a: Action)
    requires Represents(st, s) && Enabled(s, a) && a.CreateTask?
    ensures Represents(Stored(st, s, a), Next(s, a))
  {
  }

  // Every step of the protocol is followed by the stores.
  lemma StoresFollow(st: Stores, s: State, a: Action)
    requires Represents(st, s) && Enabled(s, a)
    ensures Represents(Stored(st, s, a), Next(s, a))
  {
    if a.CreateTask? {
      CreateTaskFollows(st, s, a);
    } else if a.AppendToRun? {
      AppendFollows(st, s, a);
    } else if a.Mirror? {
      MirrorFollows(st, s, a);
    } else {
      if OfRun(a) {
        StoredByRuns(s, a);
      } else {
        StoredByCalls(s, a);
      }
      SameStoredHeld(st, s, Next(s, a));
    }
  }

  // The stores after a run of the protocol.
  function StoredBy(states: seq<State>, actions: seq<Action>, n: nat): Stores
    requires n <= |actions| < |states| && forall i :: 0 <= i < |actions| ==> Enabled(states[i], actions[i])
  {
    if n == 0 then Stores(map[], map[], map[])
    else Stored(StoredBy(states, actions, n - 1), states[n - 1], actions[n - 1])
  }

  // In every reachable state the stored transcript of a task is the blocks of its runs,
  // numbered 1..n, and its cursor is n.
  lemma {:induction false} StoresAfter(states: seq<State>, actions: seq<Action>, n: nat)
    requires IsRun(states, actions) && n < |states|
    ensures var st, s := StoredBy(states, actions, n), states[n];
            && Represents(st, s)
            && forall t :: t in s.tasks ==>
                 && Strip(Get(st.transcripts, t)) == Blocks(s.runs, s.tasks[t].order)
                 && t in st.lastMessageSeq && st.lastMessageSeq[t] == |Get(st.transcripts, t)|
                 && forall i :: 0 <= i < |Get(st.transcripts, t)| ==> Get(st.transcripts, t)[i].seqNo == i + 1
  {
    if n > 0 {
      StoresAfter(states, actions, n - 1);
      StoresFollow(StoredBy(states, actions, n - 1), states[n - 1], actions[n - 1]);
    }
    RunInv(states, actions, n);
    assert forall t :: t in states[n].tasks ==> TranscriptOk(states[n].runs, states[n].tasks[t], t);
  }
}

/**
  ToolRegistry.executeTools (apps/tool-runner-host): calls of concurrency-safe tools
  run together in batches, every other call runs alone, and a failing call may cancel
  its siblings. Handlers finish in any order: each scheduling choice below is
  nondeterministic, so the contracts hold for every completion order.
 */
module ToolBatch {
  import opened Wrappers

  datatype Tool = Tool(safe: bool, cancelsSiblings: bool)

  datatype Invocation = Invocation(callId: string, toolName: string)

  // What a handler makes of its call on its own. An unknown tool, rejected arguments,
  // a timeout and a pending approval all count as Err.
  datatype Own = Ok(content: string) | Err(error: string)

  datatype Ending = ByItself(own: Own) | Cancelled

  predicate Failed(e: Ending) {
    e.Cancelled? || e.own.Err?
  }

  datatype ToolResult = ToolResult(callId: string, ending: Ending)

  // The life of one call on a clock that ticks with every event: it is unsettled from
  // start to settle; finish is when its own outcome won the race against the abort.
  datatype Span = Span(start: nat, finish: Option<nat>, settle: nat, ending: Ending)

  type Tools = map<string, Tool>

  predicate IsSafe(tools: Tools, inv: Invocation) {
    inv.toolName in tools && tools[inv.toolName].safe
  }

  predicate CancelsSiblings(tools: Tools, inv: Invocation) {
    inv.toolName in tools && tools[inv.toolName].cancelsSiblings
  }

  function OwnOutcome(tools: Tools, inv: Invocation, outcome: Own): Own {
    if inv.toolName in tools then outcome else Err("Tool not found")
  }

  // Calls i and j fall into the same concurrent batch: everything between is safe.
  ghost predicate SameBatch(tools: Tools, invs: seq<Invocation>, i: nat, j: nat) {
    i < |invs| && j < |invs|
    && forall k :: (i <= k <= j || j <= k <= i) ==> IsSafe(tools, invs[k])
  }

  // r failed by itself, cancels siblings, and settled before i had finished.
  ghost predicate Cancels(tools: Tools, invs: seq<Invocation>, spans: seq<Span>, r: nat, i: nat)
    requires |spans| <= |invs| && r < |spans| && i < |spans|
  {
    && r != i
    && CancelsSiblings(tools, invs[r])
    && spans[r].ending.ByItself? && spans[r].ending.own.Err?
    && (spans[i].finish.Some? ==> spans[r].settle < spans[i].finish.value)
  }

  ghost predicate Timed(span: Span, from: nat, to: nat) {
    && from <= span.start < span.settle < to
    && (span.finish.Some? <==> span.ending.ByItself?)
    && (span.finish.Some? ==> span.start < span.finish.value < span.settle)
  }

  // A whole batch: every call keeps its own outcome unless a sibling cancelled it, and
  // all cancelled calls have one common cause, settled before them.
  ghost predicate BatchOk(tools: Tools, batch: seq<Invocation>, env: seq<Own>, spans: seq<Span>, from: nat, to: nat) {
    && |spans| == |batch| == |env|
    && (forall i :: 0 <= i < |batch| ==> Timed(spans[i], from, to))
    && (forall i :: 0 <= i < |batch| && spans[i].ending.ByItself? ==>
          spans[i].ending.own == OwnOutcome(tools, batch[i], env[i]))
    && (forall i, r :: 0 <= i < |batch| && 0 <= r < |batch| && Cancels(tools, batch, spans, r, i) ==>
          spans[i].ending.Cancelled?)
    && ((exists i :: 0 <= i < |batch| && spans[i].ending.Cancelled?) ==>
          exists r :: 0 <= r < |batch| && CommonCause(tools, batch, spans, r))
  }

  // Every call starts before any of them settles.
  ghost predicate AllOverlap(spans: seq<Span>) {
    forall i, j :: 0 <= i < |spans| && 0 <= j < |spans| ==> spans[i].start < spans[j].settle
  }

  ghost predicate CommonCause(tools: Tools, batch: seq<Invocation>, spans: seq<Span>, r: nat)
    requires |batch| == |spans| && r < |batch|
  {
    forall i :: 0 <= i < |batch| && spans[i].ending.Cancelled? ==>
      Cancels(tools, batch, spans, r, i) && spans[r].settle < spans[i].settle
  }

  // ------------------------------------------------------------- one concurrent batch

  // The running batch: calls still racing against their abort signal, calls whose
  // continuation has not run, and what is known of the others.
  datatype Board = Board(
    racing: set<nat>,
    unsettled: set<nat>,
    ending: map<nat, Ending>,
    finish: map<nat, nat>,
    settle: map<nat, nat>,
    root: Option<nat>,        // the first failure that cancelled siblings
    clock: nat)

  ghost predicate Shape(n: nat, b: Board, from: nat) {
    && b.racing <= b.unsettled
    && (forall i: nat :: i in b.unsettled ==> i < n)
    && (forall i: nat :: i in b.ending <==> i < n && i !in b.racing)
    && (forall i: nat :: i in b.settle <==> i < n && i !in b.unsettled)
    && (forall i: nat :: i in b.finish <==> i in b.ending && b.ending[i].ByItself?)
    && from + n <= b.clock
    && (forall i: nat :: i in b.finish ==> from + n <= b.finish[i] < b.clock)
    && (forall i: nat :: i in b.settle ==> from + n <= b.settle[i] < b.clock)
    && (forall i: nat :: i in b.finish && i in b.settle ==> b.finish[i] < b.settle[i])
  }

  predicate Triggers(tools: Tools, batch: seq<Invocation>, b: Board, r: nat) {
    && r < |batch| && r in b.settle && r in b.ending
    && CancelsSiblings(tools, batch[r]) && Failed(b.ending[r])
  }

  ghost predicate RootOk(tools: Tools, batch: seq<Invocation>, b: Board) {
    && (b.root.None? ==>
          && (forall i: nat :: i in b.ending ==> b.ending[i].ByItself?)
          && (forall r: nat :: !Triggers(tools, batch, b, r)))
    && (b.root.Some? ==>
          var r := b.root.value;
          && b.racing == {}
          && Triggers(tools, batch, b, r) && b.ending[r].ByItself?
          && (forall i: nat :: i in b.finish ==> b.finish[i] < b.settle[r])
          && (forall i: nat :: i in b.settle && i in b.ending && b.ending[i].Cancelled? ==> b.settle[r] < b.settle[i])
          && (forall q: nat :: Triggers(tools, batch, b, q) ==> b.settle[r] <= b.settle[q]))
  }

  ghost predicate OwnOk(tools: Tools, batch: seq<Invocation>, env: seq<Own>, b: Board)
    requires |batch| == |env|
  {
    forall i: nat :: i in b.ending && i < |batch| && b.ending[i].ByItself? ==>
      b.ending[i].own == OwnOutcome(tools, batch[i], env[i])
  }

  // The handler of i finishes and wins the race.
  function Finish(b: Board, i: nat, own: Own): Board {
    b.(racing := b.racing - {i}, ending := b.ending[i := ByItself(own)],
       finish := b.finish[i := b.clock], clock := b.clock + 1)
  }

  // The continuation of i runs; if i failed and cancels siblings, the abort reaches
  // everything that is still racing.
  function SettleCall(tools: Tools, batch: seq<Invocation>, b: Board, i: nat): Board
    requires i in b.ending && i < |batch|
  {
    var settled := b.(unsettled := b.unsettled - {i}, settle := b.settle[i := b.clock], clock := b.clock + 1);
    if !Failed(b.ending[i]) || !CancelsSiblings(tools, batch[i]) then settled
    else
      settled.(racing := {},
               ending := b.ending + (map k | k in b.racing :: Cancelled),
               root := if b.root.None? then Some(i) else b.root)
  }

  function AllCalls(n: nat): (calls: set<nat>)
    ensures forall i: nat :: i in calls <==> i < n
  {
    if n == 0 then {} else AllCalls(n - 1) + {n - 1}
  }

  function StartBatch(n: nat, from: nat): Board {
    Board(AllCalls(n), AllCalls(n), map[], map[], map[], None, from + n)
  }

  ghost predicate BoardOk(tools: Tools, batch: seq<Invocation>, env: seq<Own>, b: Board, from: nat) {
    |batch| == |env| && Shape(|batch|, b, from) && RootOk(tools, batch, b) && OwnOk(tools, batch, env, b)
  }

  ghost function Work(b: Board): nat {
    |b.unsettled| + |b.racing|
  }

  lemma StartOk(tools: Tools, batch: seq<Invocation>, env: seq<Own>, from: nat)
    requires |batch| == |env|
    ensures BoardOk(tools, batch, env, StartBatch(|batch|, from), from)
  {
  }

  lemma LessWork(b: Board, b': Board, i: nat)
    requires (i in b.racing && b'.racing == b.racing - {i} && b'.unsettled == b.unsettled)
             || (i in b.unsettled && b'.unsettled == b.unsettled - {i} && (b'.racing == {} || b'.racing == b.racing))
    ensures Work(b') < Work(b)
  {
  }

  lemma FinishKeeps(tools: Tools, batch: seq<Invocation>, env: seq<Own>, b: Board, i: nat, from: nat)
    requires |batch| == |env| && i < |batch| && i in b.racing
    requires Shape(|batch|, b, from) && RootOk(tools, batch, b) && OwnOk(tools, batch, env, b)
    ensures var b' := Finish(b, i, OwnOutcome(tools, batch[i], env[i]));
            Shape(|batch|, b', from) && RootOk(tools, batch, b') && OwnOk(tools, batch, env, b')
  {
    var b' := Finish(b, i, OwnOutcome(tools, batch[i], env[i]));
    forall r: nat ensures Triggers(tools, batch, b', r) ==> Triggers(tools, batch, b, r) {
    }
  }

  lemma SettleKeepsShape(tools: Tools, batch: seq<Invocation>, env: seq<Own>, b: Board, i: nat, from: nat)
    requires |batch| == |env| && i < |batch| && i in b.unsettled && i !in b.racing
    requires Shape(|batch|, b, from) && OwnOk(tools, batch, env, b)
    ensures Shape(|batch|, SettleCall(tools, batch, b, i), from)
    ensures OwnOk(tools, batch, env, SettleCall(tools, batch, b, i))
  {
  }

  lemma SettleKeepsRoot(tools: Tools, batch: seq<Invocation>, b: Board, i: nat, from: nat)
    requires i < |batch| && i in b.unsettled && i !in b.racing
    requires Shape(|batch|, b, from) && RootOk(tools, batch, b)
    ensures RootOk(tools, batch, SettleCall(tools, batch, b, i))
  {
    var b' := SettleCall(tools, batch, b, i);
    forall q: nat ensures Triggers(tools, batch, b', q) ==> q == i || Triggers(tools, batch, b, q) {
    }
  }

  // An outcome that is fixed stays fixed: a handler that finished is never cancelled.
  ghost predicate EndingsKept(b: Board, b': Board) {
    forall i: nat :: i in b.ending ==> i in b'.ending && b'.ending[i] == b.ending[i]
  }

  lemma FinishStep(tools: Tools, batch: seq<Invocation>, env: seq<Own>, b: Board, i: nat, from: nat)
    requires BoardOk(tools, batch, env, b, from) && i in b.racing
    ensures i < |batch|
    ensures var b' := Finish(b, i, OwnOutcome(tools, batch[i], env[i]));
            && BoardOk(tools, batch, env, b', from) && Work(b') < Work(b)
            && EndingsKept(b, b') && b'.ending[i] == ByItself(OwnOutcome(tools, batch[i], env[i]))
  {
    FinishKeeps(tools, batch, env, b, i, from);
    LessWork(b, Finish(b, i, OwnOutcome(tools, batch[i], env[i])), i);
  }

  lemma SettleStep(tools: Tools, batch: seq<Invocation>, env: seq<Own>, b: Board, i: nat, from: nat)
    requires BoardOk(tools, batch, env, b, from) && i in b.unsettled && i !in b.racing
    ensures i < |batch| && i in b.ending
    ensures var b' := SettleCall(tools, batch, b, i);
            && BoardOk(tools, batch, env, b', from) && Work(b') < Work(b) && EndingsKept(b, b')
  {
    SettleKeepsShape(tools, batch, env, b, i, from);
    SettleKeepsRoot(tools, batch, b, i, from);
    LessWork(b, SettleCall(tools, batch, b, i), i);
  }

  function SpanOf(b: Board, start: nat, i: nat): Span
    requires i in b.ending && i in b.settle
  {
    Span(start, if i in b.finish then Some(b.finish[i]) else None, b.settle[i], b.ending[i])
  }

  function SpansOf(b: Board, n: nat, from: nat): (spans: seq<Span>)
    requires forall i: nat :: i < n ==> i in b.ending && i in b.settle
    ensures |spans| == n && forall i :: 0 <= i < n ==> spans[i] == SpanOf(b, from + i, i)
  {
    if n == 0 then [] else SpansOf(b, n - 1, from) + [SpanOf(b, from + n - 1, n - 1)]
  }

  // A finished board is a well-explained batch.
  lemma BoardExplains(tools: Tools, batch: seq<Invocation>, env: seq<Own>, b: Board, from: nat, spans: seq<Span>)
    requires BoardOk(tools, batch, env, b, from) && |spans| == |batch| && b.unsettled == {}
    requires forall i :: 0 <= i < |batch| ==> spans[i] == SpanOf(b, from + i, i)
    ensures BatchOk(tools, batch, env, spans, from, b.clock)
  {
    forall i, r | 0 <= i < |batch| && 0 <= r < |batch| && Cancels(tools, batch, spans, r, i)
      ensures spans[i].ending.Cancelled?
    {
      assert Triggers(tools, batch, b, r);
    }
    if exists i :: 0 <= i < |batch| && spans[i].ending.Cancelled? {
      assert b.root.Some?;
      assert CommonCause(tools, batch, spans, b.root.value);
    }
  }

  // --------------------------------------------------------------- the whole call list

  // No concurrent batch reaches across position p.
  ghost predicate Boundary(tools: Tools, invs: seq<Invocation>, p: nat) {
    p == 0 || p >= |invs| || !IsSafe(tools, invs[p - 1]) || !IsSafe(tools, invs[p])
  }

  // Calls of different batches do not overlap: the earlier one settles first.
  ghost predicate Ordered(tools: Tools, invs: seq<Invocation>, spans: seq<Span>)
    requires |spans| <= |invs|
  {
    forall i, j :: 0 <= i < j < |spans| && !SameBatch(tools, invs, i, j) ==> spans[i].settle < spans[j].start
  }

  // All calls of a batch start before any of them settles.
  ghost predicate Together(tools: Tools, invs: seq<Invocation>, spans: seq<Span>)
    requires |spans| <= |invs|
  {
    forall i, j :: 0 <= i < |spans| && 0 <= j < |spans| && SameBatch(tools, invs, i, j) ==>
      spans[i].start < spans[j].settle
  }

  // A call is cancelled exactly when some call of its own batch cancels it; otherwise
  // it keeps its own outcome.
  ghost predicate Explained(tools: Tools, invs: seq<Invocation>, env: seq<Own>, spans: seq<Span>, i: nat)
    requires i < |spans| <= |invs| == |env|
  {
    && (spans[i].ending.Cancelled? ==>
          exists r :: 0 <= r < |spans| && SameBatch(tools, invs, r, i) && Cancels(tools, invs, spans, r, i)
                      && spans[r].settle < spans[i].settle)
    && ((exists r :: 0 <= r < |spans| && SameBatch(tools, invs, r, i) && Cancels(tools, invs, spans, r, i)) ==>
          spans[i].ending.Cancelled?)
    && (spans[i].ending.ByItself? ==> spans[i].ending.own == OwnOutcome(tools, invs[i], env[i]))
  }

  ghost predicate Progress(tools: Tools, invs: seq<Invocation>, env: seq<Own>, spans: seq<Span>, clock: nat) {
    && |spans| <= |invs| == |env|
    && (forall i :: 0 <= i < |spans| ==> Timed(spans[i], 0, clock))
    && Ordered(tools, invs, spans) && Together(tools, invs, spans)
    && (forall i :: 0 <= i < |spans| ==> Explained(tools, invs, env, spans, i))
  }

  lemma CrossBoundary(tools: Tools, invs: seq<Invocation>, p: nat, i: nat, j: nat)
    requires Boundary(tools, invs, p) && i < p <= j < |invs|
    ensures !SameBatch(tools, invs, i, j) && !SameBatch(tools, invs, j, i)
  {
  }

  ghost predicate OneBatch(tools: Tools, invs: seq<Invocation>, lo: nat, hi: nat) {
    && lo <= hi <= |invs|
    && ((forall k :: lo <= k < hi ==> IsSafe(tools, invs[k])) || hi == lo + 1)
    && Boundary(tools, invs, lo)
  }

  lemma InsideBatch(tools: Tools, invs: seq<Invocation>, lo: nat, hi: nat, i: nat, j: nat)
    requires OneBatch(tools, invs, lo, hi) && lo <= i < hi && lo <= j < hi && i != j
    ensures SameBatch(tools, invs, i, j)
  {
  }

  lemma AppendOrdered(
    tools: Tools, invs: seq<Invocation>, env: seq<Own>, spans: seq<Span>, more: seq<Span>, lo: nat, hi: nat,
    from: nat, to: nat)
    requires OneBatch(tools, invs, lo, hi) && |spans| == lo && |env| == |invs|
    requires Progress(tools, invs, env, spans, from)
    requires BatchOk(tools, invs[lo..hi], env[lo..hi], more, from, to)
    ensures Ordered(tools, invs, spans + more)
    ensures forall i :: 0 <= i < hi ==> Timed((spans + more)[i], 0, if from <= to then to else from)
  {
    var all := spans + more;
    forall i | 0 <= i < hi ensures Timed(all[i], 0, if from <= to then to else from) {
      if i >= lo {
        assert all[i] == more[i - lo];
      }
    }
    forall i, j | 0 <= i < j < hi && !SameBatch(tools, invs, i, j) ensures all[i].settle < all[j].start {
      if lo <= i {
        InsideBatch(tools, invs, lo, hi, i, j);
      } else if lo <= j {
        assert all[i] == spans[i] && all[j] == more[j - lo];
      }
    }
  }

  lemma OldExplained(tools: Tools, invs: seq<Invocation>, env: seq<Own>, spans: seq<Span>, more: seq<Span>, i: nat)
    requires i < |spans| && |spans| + |more| <= |invs| == |env|
    requires Boundary(tools, invs, |spans|)
    requires Explained(tools, invs, env, spans, i)
    ensures Explained(tools, invs, env, spans + more, i)
  {
    var all := spans + more;
    forall r | |spans| <= r < |all| ensures !SameBatch(tools, invs, r, i) {
      CrossBoundary(tools, invs, |spans|, i, r);
    }
    forall r | 0 <= r < |spans|
      ensures Cancels(tools, invs, all, r, i) <==> Cancels(tools, invs, spans, r, i)
    {
      assert all[r] == spans[r] && all[i] == spans[i];
    }
    if spans[i].ending.Cancelled? {
      var r :| 0 <= r < |spans| && SameBatch(tools, invs, r, i) && Cancels(tools, invs, spans, r, i)
               && spans[r].settle < spans[i].settle;
      assert all[r] == spans[r] && all[i] == spans[i];
    }
  }

  lemma ShiftCancels(tools: Tools, invs: seq<Invocation>, spans: seq<Span>, more: seq<Span>, hi: nat, r: nat, i: nat)
    requires |spans| + |more| == hi <= |invs| && r < |more| && i < |more|
    ensures Cancels(tools, invs, spans + more, |spans| + r, |spans| + i)
            <==> Cancels(tools, invs[|spans|..hi], more, r, i)
  {
  }

  lemma NewExplained(
    tools: Tools, invs: seq<Invocation>, env: seq<Own>, spans: seq<Span>, more: seq<Span>, lo: nat, hi: nat,
    from: nat, to: nat, i: nat)
    requires OneBatch(tools, invs, lo, hi) && |spans| == lo <= i < hi && |env| == |invs|
    requires BatchOk(tools, invs[lo..hi], env[lo..hi], more, from, to)
    ensures Explained(tools, invs, env, spans + more, i)
  {
    var all, batch := spans + more, invs[lo..hi];
    assert all[i] == more[i - lo] && batch[i - lo] == invs[i] && env[lo..hi][i - lo] == env[i];
    if more[i - lo].ending.Cancelled? {
      var r :| 0 <= r < |batch| && CommonCause(tools, batch, more, r);
      assert Cancels(tools, batch, more, r, i - lo);
      ShiftCancels(tools, invs, spans, more, hi, r, i - lo);
      InsideBatch(tools, invs, lo, hi, lo + r, i);
      assert all[lo + r] == more[r];
    }
    forall r | 0 <= r < lo ensures !SameBatch(tools, invs, r, i) {
      CrossBoundary(tools, invs, lo, r, i);
    }
    forall r | lo <= r < |all| && Cancels(tools, invs, all, r, i)
      ensures all[i].ending.Cancelled?
    {
      ShiftCancels(tools, invs, spans, more, hi, r - lo, i - lo);
    }
  }

  lemma AppendTogether(
    tools: Tools, invs: seq<Invocation>, spans: seq<Span>, more: seq<Span>, lo: nat, hi: nat)
    requires OneBatch(tools, invs, lo, hi) && |spans| == lo
    requires Together(tools, invs, spans) && AllOverlap(more) && |more| == hi - lo
    ensures Together(tools, invs, spans + more)
  {
    var all := spans + more;
    forall i, j | 0 <= i < lo <= j < hi ensures !SameBatch(tools, invs, i, j) && !SameBatch(tools, invs, j, i) {
      CrossBoundary(tools, invs, lo, i, j);
    }
    forall i, j | 0 <= i < |all| && 0 <= j < |all| && SameBatch(tools, invs, i, j)
      ensures all[i].start < all[j].settle
    {
      if i >= lo {
        assert all[i] == more[i - lo] && all[j] == more[j - lo];
      }
    }
  }

  lemma AppendBatch(
    tools: Tools, invs: seq<Invocation>, env: seq<Own>, spans: seq<Span>, more: seq<Span>, lo: nat, hi: nat,
    from: nat, to: nat)
    requires OneBatch(tools, invs, lo, hi) && |spans| == lo && |env| == |invs| && from <= to
    requires Progress(tools, invs, env, spans, from)
    requires BatchOk(tools, invs[lo..hi], env[lo..hi], more, from, to) && AllOverlap(more)
    ensures Progress(tools, invs, env, spans + more, to)
  {
    AppendOrdered(tools, invs, env, spans, more, lo, hi, from, to);
    AppendTogether(tools, invs, spans, more, lo, hi);
    forall i | 0 <= i < hi ensures Explained(tools, invs, env, spans + more, i) {
      if i < lo {
        OldExplained(tools, invs, env, spans, more, i);
      } else {
        NewExplained(tools, invs, env, spans, more, lo, hi, from, to, i);
      }
    }
  }

  lemma AppendOne(
    tools: Tools, invs: seq<Invocation>, env: seq<Own>, spans: seq<Span>, span: Span, n: nat, from: nat, to: nat)
    requires n < |invs| == |env| && |spans| == n && !IsSafe(tools, invs[n]) && from <= to
    requires Progress(tools, invs, env, spans, from)
    requires BatchOk(tools, [invs[n]], [env[n]], [span], from, to) && AllOverlap([span])
    ensures Progress(tools, invs, env, spans + [span], to)
  {
    assert invs[n..n + 1] == [invs[n]] && env[n..n + 1] == [env[n]];
    AppendBatch(tools, invs, env, spans, [span], n, n + 1, from, to);
  }

  ghost predicate Aligned(invs: seq<Invocation>, spans: seq<Span>, results: seq<ToolResult>) {
    && |results| == |spans| <= |invs|
    && forall i :: 0 <= i < |results| ==> results[i] == ToolResult(invs[i].callId, spans[i].ending)
  }

  lemma AlignedAppend(
    invs: seq<Invocation>, spans: seq<Span>, results: seq<ToolResult>, more: seq<Span>, added: seq<ToolResult>,
    hi: nat)
    requires Aligned(invs, spans, results) && |spans| <= hi <= |invs| && Aligned(invs[|spans|..hi], more, added)
    ensures Aligned(invs, spans + more, results + added)
  {
  }

  // What the progress through all calls amounts to, in terms of the registered tools.
  lemma Promises(
    tools: Tools, invs: seq<Invocation>, env: seq<Own>, spans: seq<Span>, results: seq<ToolResult>, clock: nat)
    requires |spans| == |invs| && Progress(tools, invs, env, spans, clock) && Aligned(invs, spans, results)
    ensures forall i, j :: 0 <= i < |invs| && 0 <= j < |invs| && i != j
                           && !(invs[i].toolName in tools && tools[invs[i].toolName].safe) ==>
              spans[i].settle < spans[j].start || spans[j].settle < spans[i].start
    ensures forall i :: 0 <= i < |invs| - 1
                        && invs[i].toolName in tools && tools[invs[i].toolName].safe
                        && invs[i + 1].toolName in tools && tools[invs[i + 1].toolName].safe ==>
              spans[i].start < spans[i + 1].settle && spans[i + 1].start < spans[i].settle
    ensures forall i :: 0 <= i < |invs| && invs[i].toolName !in tools ==>
              results[i].ending == ByItself(Err("Tool not found"))
    ensures forall i :: 0 <= i < |invs| && results[i].ending.Cancelled? ==>
              exists r :: 0 <= r < |invs| && RegisteredCause(tools, invs[r], results[r])
  {
    UnsafeAlone(tools, invs, spans);
    SafeTogether(tools, invs, spans);
    forall i | 0 <= i < |invs| && invs[i].toolName !in tools
      ensures results[i].ending == ByItself(Err("Tool not found"))
    {
      RegisteredExplains(tools, invs, env, spans, results, i);
    }
    forall i | 0 <= i < |invs| && results[i].ending.Cancelled?
      ensures exists r :: 0 <= r < |invs| && RegisteredCause(tools, invs[r], results[r])
    {
      RegisteredExplains(tools, invs, env, spans, results, i);
    }
  }

  class ToolRegistry {
    var tools: Tools

    constructor ()
      ensures tools == map[]
    {
      tools := map[];
    }

    method Register(name: string, tool: Tool) returns (registered: bool)
      modifies this
      ensures registered <==> name !in old(tools)
      ensures tools == if registered then old(tools)[name := tool] else old(tools)
    {
      registered := name !in tools;
      if registered {
        tools := tools[name := tool];
      }
    }

    method ExecuteConcurrentBatch(batch: seq<Invocation>, env: seq<Own>, from: nat)
      returns (results: seq<ToolResult>, spans: seq<Span>, to: nat)
      requires |batch| == |env|
      ensures from <= to && BatchOk(tools, batch, env, spans, from, to) && AllOverlap(spans)
      ensures Aligned(batch, spans, results) && |results| == |batch|
    {
      var b := AwaitAll(batch, env, from);
      spans := SpansOf(b, |batch|, from);
      results := seq(|batch|, i requires 0 <= i < |spans| && |spans| == |batch| =>
                                ToolResult(batch[i].callId, spans[i].ending));
      to := b.clock;
      BoardExplains(tools, batch, env, b, from, spans);
    }

    // Promise.all over the batch: whichever call can make progress may be next.
    method AwaitAll(batch: seq<Invocation>, env: seq<Own>, from: nat) returns (b: Board)
      requires |batch| == |env|
      ensures BoardOk(tools, batch, env, b, from) && b.unsettled == {}
    {
      b := StartBatch(|batch|, from);
      StartOk(tools, batch, env, from);
      while b.unsettled != {}
        invariant BoardOk(tools, batch, env, b, from)
        decreases Work(b)
      {
        var i :| i in b.unsettled;
        if i in b.racing {
          FinishStep(tools, batch, env, b, i, from);
          b := Finish(b, i, OwnOutcome(tools, batch[i], env[i]));
        } else {
          SettleStep(tools, batch, env, b, i, from);
          b := SettleCall(tools, batch, b, i);
        }
      }
    }

    // A call that is not concurrency-safe runs alone, without an abort signal.
    method ExecuteAlone(inv: Invocation, own: Own, from: nat) returns (result: ToolResult, span: Span, to: nat)
      ensures from <= to && BatchOk(tools, [inv], [own], [span], from, to) && AllOverlap([span])
      ensures result == ToolResult(inv.callId, span.ending)
    {
      var ending := ByItself(OwnOutcome(tools, inv, own));
      result := ToolResult(inv.callId, ending);
      span := Span(from, Some(from + 1), from + 2, ending);
      to := from + 3;
    }

    method ExecuteTools(invs: seq<Invocation>, env: seq<Own>)
      returns (results: seq<ToolResult>, spans: seq<Span>)
      requires |env| == |invs|
      // one result per call, in call order
      ensures |results| == |spans| == |invs|
      ensures forall i :: 0 <= i < |invs| ==> results[i] == ToolResult(invs[i].callId, spans[i].ending)
      // while a call of a tool that is unknown or not registered as safe is unsettled, no
      // other call is
      ensures forall i, j :: 0 <= i < |invs| && 0 <= j < |invs| && i != j
                             && !(invs[i].toolName in tools && tools[invs[i].toolName].safe) ==>
                spans[i].settle < spans[j].start || spans[j].settle < spans[i].start
      // neighbouring calls of safe tools run together
      ensures forall i :: 0 <= i < |invs| - 1
                          && invs[i].toolName in tools && tools[invs[i].toolName].safe
                          && invs[i + 1].toolName in tools && tools[invs[i + 1].toolName].safe ==>
                spans[i].start < spans[i + 1].settle && spans[i + 1].start < spans[i].settle
      // an unknown tool is an error; a call is cancelled only by a failing call of a safe
      // tool that cancels its siblings
      ensures forall i :: 0 <= i < |invs| && invs[i].toolName !in tools ==>
                results[i].ending == ByItself(Err("Tool not found"))
      ensures forall i :: 0 <= i < |invs| && results[i].ending.Cancelled? ==>
                exists r :: 0 <= r < |invs| && RegisteredCause(tools, invs[r], results[r])
      // calls of different batches run in call order
      ensures Ordered(tools, invs, spans)
      // cancellation is caused within the batch, by a failure that was no cancellation
      ensures forall i :: 0 <= i < |invs| ==> Explained(tools, invs, env, spans, i)
    {
      var clock;
      results, spans, clock := ExecuteInOrder(invs, env);
      Promises(tools, invs, env, spans, results, clock);
    }

    // The loop over the calls: safe ones are collected, and flushed before any other.
    method ExecuteInOrder(invs: seq<Invocation>, env: seq<Own>)
      returns (results: seq<ToolResult>, spans: seq<Span>, clock: nat)
      requires |env| == |invs|
      ensures |spans| == |invs| && Progress(tools, invs, env, spans, clock) && Aligned(invs, spans, results)
    {
      results, spans := [], [];
      var concurrentBatch: seq<Invocation> := [];
      clock := 0;
      for n := 0 to |invs|
        invariant |concurrentBatch| <= n && concurrentBatch == invs[n - |concurrentBatch|..n]
        invariant |spans| == n - |concurrentBatch|
        invariant forall k :: |spans| <= k < n ==> IsSafe(tools, invs[k])
        invariant |spans| == 0 || !IsSafe(tools, invs[|spans| - 1])
        invariant Progress(tools, invs, env, spans, clock) && Aligned(invs, spans, results)
      {
        if IsSafe(tools, invs[n]) {
          concurrentBatch := concurrentBatch + [invs[n]];
        } else {
          results, spans, clock := FlushBatch(concurrentBatch, invs, env, results, spans, n, clock);
          concurrentBatch := [];
          results, spans, clock := AppendAlone(invs, env, results, spans, n, clock);
        }
      }
      results, spans, clock := FlushBatch(concurrentBatch, invs, env, results, spans, |invs|, clock);
    }

    method AppendAlone(invs: seq<Invocation>, env: seq<Own>,
                       results: seq<ToolResult>, spans: seq<Span>, n: nat, clock: nat)
      returns (results': seq<ToolResult>, spans': seq<Span>, clock': nat)
      requires |spans| == n < |invs| == |env| && !IsSafe(tools, invs[n])
      requires Progress(tools, invs, env, spans, clock) && Aligned(invs, spans, results)
      ensures |spans'| == n + 1 && Progress(tools, invs, env, spans', clock') && Aligned(invs, spans', results')
    {
      var result, span, to := ExecuteAlone(invs[n], env[n], clock);
      AppendOne(tools, invs, env, spans, span, n, clock, to);
      results', spans', clock' := results + [result], spans + [span], to;
    }

    method FlushBatch(concurrentBatch: seq<Invocation>, invs: seq<Invocation>, env: seq<Own>,
                      results: seq<ToolResult>, spans: seq<Span>, n: nat, clock: nat)
      returns (results': seq<ToolResult>, spans': seq<Span>, clock': nat)
      requires |spans| <= n <= |invs| == |env| && concurrentBatch == invs[|spans|..n]
      requires forall k :: |spans| <= k < n ==> IsSafe(tools, invs[k])
      requires |spans| == 0 || !IsSafe(tools, invs[|spans| - 1])
      requires Progress(tools, invs, env, spans, clock) && Aligned(invs, spans, results)
      ensures |spans'| == n && Progress(tools, invs, env, spans', clock') && Aligned(invs, spans', results')
    {
      var lo := |spans|;
      if concurrentBatch == [] {
        return results, spans, clock;
      }
      var newResults, more, to := ExecuteConcurrentBatch(concurrentBatch, env[lo..n], clock);
      AppendBatch(tools, invs, env, spans, more, lo, n, clock, to);
      AlignedAppend(invs, spans, results, more, newResults, n);
      results', spans', clock' := results + newResults, spans + more, to;
    }
  }

  // A call of a registered safe tool that cancels its siblings, and failed by itself.
  predicate RegisteredCause(tools: Tools, inv: Invocation, result: ToolResult) {
    && inv.toolName in tools && tools[inv.toolName].safe && tools[inv.toolName].cancelsSiblings
    && result.ending.ByItself? && result.ending.own.Err?
  }

  ghost predicate Registered(tools: Tools, invs: seq<Invocation>, results: seq<ToolResult>, i: nat)
    requires i < |invs| == |results|
  {
    && (invs[i].toolName !in tools ==> results[i].ending == ByItself(Err("Tool not found")))
    && (results[i].ending.Cancelled? ==> exists r :: 0 <= r < |invs| && RegisteredCause(tools, invs[r], results[r]))
  }

  lemma RegisteredExplains(
    tools: Tools, invs: seq<Invocation>, env: seq<Own>, spans: seq<Span>, results: seq<ToolResult>, i: nat)
    requires |spans| == |invs| == |env| && Aligned(invs, spans, results) && i < |invs|
    requires Explained(tools, invs, env, spans, i)
    ensures Registered(tools, invs, results, i)
  {
    if spans[i].ending.Cancelled? {
      var r :| 0 <= r < |spans| && SameBatch(tools, invs, r, i) && Cancels(tools, invs, spans, r, i)
               && spans[r].settle < spans[i].settle;
      assert IsSafe(tools, invs[i]) && IsSafe(tools, invs[r]);
      assert RegisteredCause(tools, invs[r], results[r]);
    }
  }

  lemma SafeTogether(tools: Tools, invs: seq<Invocation>, spans: seq<Span>)
    requires |spans| == |invs| && Together(tools, invs, spans)
    ensures forall i :: 0 <= i < |invs| - 1 && IsSafe(tools, invs[i]) && IsSafe(tools, invs[i + 1]) ==>
              spans[i].start < spans[i + 1].settle && spans[i + 1].start < spans[i].settle
  {
    forall i | 0 <= i < |invs| - 1 && IsSafe(tools, invs[i]) && IsSafe(tools, invs[i + 1])
      ensures spans[i].start < spans[i + 1].settle && spans[i + 1].start < spans[i].settle
    {
      assert SameBatch(tools, invs, i, i + 1) && SameBatch(tools, invs, i + 1, i);
    }
  }

  lemma UnsafeAlone(tools: Tools, invs: seq<Invocation>, spans: seq<Span>)
    requires |spans| == |invs| && Ordered(tools, invs, spans)
    ensures forall i, j :: 0 <= i < |invs| && 0 <= j < |invs| && i != j && !IsSafe(tools, invs[i]) ==>
              spans[i].settle < spans[j].start || spans[j].settle < spans[i].start
  {
  }
}

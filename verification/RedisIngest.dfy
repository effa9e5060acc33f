/**
  Redis queue ingestion (packages/connector-worker): entries of a stream are read by a
  consumer group, processed, and settled by acknowledging and deleting them, after a
  copy was requeued or dead-lettered when processing failed. The broker is abstract.
  Every broker call may be refused, or take effect while its reply is lost; the consumer
  may die between any two calls; and other loops of the group, such as the one a
  reconnect starts while an old batch is still being handled, interleave with every call.
 */
module RedisIngest {

  type EntryId = nat
  type Payload = string

  datatype Config = Config(requeueOnFailure: bool, deadLetters: bool) {
    // Failed payloads have nowhere to go.
    predicate Drops() {
      !requeueOnFailure && !deadLetters
    }
  }

  // The broker, and what became of the entries. Entry ids grow.
  datatype Broker = Broker(
    published: map<EntryId, Payload>,  // every entry ever added to the source stream
    stream: set<EntryId>,              // entries not deleted
    next: EntryId,                     // the id of the next entry
    cursor: EntryId,                   // entries below were delivered to the group
    unacked: set<EntryId>,             // the group's pending list: delivered, not acknowledged
    dead: map<EntryId, Payload>,       // copies in the dead-letter stream, by origin
    copies: map<EntryId, EntryId>,     // requeued copies in the source stream, by origin
    processed: set<EntryId>,           // processEvent resolved
    rejected: set<EntryId>)            // processEvent rejected

  // The broker will hand the entry out.
  predicate Undelivered(b: Broker, id: EntryId) {
    id in b.stream && b.cursor <= id
  }

  // The entry is in the pending list and no running loop holds it.
  predicate Stranded(b: Broker, held: set<EntryId>, id: EntryId) {
    id in b.unacked && id !in held
  }

  // The entry need not be handed out again.
  predicate Accounted(b: Broker, config: Config, id: EntryId) {
    id in b.processed || id in b.dead || id in b.copies || (config.Drops() && id in b.rejected)
  }

  predicate WellFormed(b: Broker) {
    && b.cursor <= b.next
    && (forall id :: id in b.published ==> id < b.next && (b.cursor <= id ==> id in b.stream))
    && (forall id :: id in b.stream ==> id in b.published)
    && (forall id :: id in b.unacked ==> id in b.stream && id < b.cursor)
    && (forall id :: id in b.processed ==> id < b.cursor)
    && (forall id :: id in b.rejected ==> id < b.cursor)
    && (forall id :: id in b.dead ==> id < b.cursor && id in b.published && b.dead[id] == b.published[id])
    && (forall id :: id in b.copies ==> id < b.cursor && CopyOk(b, id))
  }

  predicate CopyOk(b: Broker, id: EntryId)
    requires id in b.copies
  {
    && id in b.published && id < b.copies[id] && b.copies[id] in b.published
    && b.published[b.copies[id]] == b.published[id]
  }

  // Nothing is lost: an entry that is neither undelivered nor pending is accounted for.
  predicate NoLoss(b: Broker, config: Config) {
    && WellFormed(b)
    && forall id :: id in b.published ==> Undelivered(b, id) || id in b.unacked || Accounted(b, config, id)
  }

  // ------------------------------------------------------------------- broker effects

  function Add(b: Broker, payload: Payload): Broker {
    b.(published := b.published[b.next := payload], stream := b.stream + {b.next}, next := b.next + 1)
  }

  function Requeue(b: Broker, id: EntryId): Broker
    requires id in b.published
  {
    Add(b, b.published[id]).(copies := b.copies[id := b.next])
  }

  function DeadLetter(b: Broker, id: EntryId): Broker
    requires id in b.published
  {
    b.(dead := b.dead[id := b.published[id]])
  }

  function Acknowledge(b: Broker, id: EntryId): Broker {
    b.(unacked := b.unacked - {id})
  }

  function Delete(b: Broker, id: EntryId): Broker {
    b.(stream := b.stream - {id})
  }

  // Delivers every entry of the stream below the new cursor.
  function Deliver(b: Broker, cursor: EntryId): Broker
    requires b.cursor <= cursor <= b.next
  {
    b.(cursor := cursor, unacked := b.unacked + (set id | id in b.stream && b.cursor <= id < cursor))
  }

  function Resolve(b: Broker, id: EntryId): Broker {
    b.(processed := b.processed + {id})
  }

  function Reject(b: Broker, id: EntryId): Broker {
    b.(rejected := b.rejected + {id})
  }

  // ------------------------------------------------------------------------ one step

  // What only grows: fates of entries are never revoked.
  predicate Later(b: Broker, b': Broker) {
    && b.processed <= b'.processed && b.rejected <= b'.rejected
    && b.dead.Keys <= b'.dead.Keys && b.copies.Keys <= b'.copies.Keys
    && b.next <= b'.next && b.cursor <= b'.cursor
    && (forall id :: id in b.published ==> id in b'.published && b'.published[id] == b.published[id])
  }

  // Where an entry is and what became of it.
  datatype Status = Status(pending: bool, kept: bool, processed: bool, rejected: bool, requeued: bool, dead: bool)

  function StatusOf(b: Broker, id: EntryId): Status {
    Status(id in b.unacked, id in b.stream, id in b.processed, id in b.rejected, id in b.copies, id in b.dead)
  }

  // Nothing happened to an entry.
  predicate Same(b: Broker, b': Broker, id: EntryId) {
    StatusOf(b, id) == StatusOf(b', id)
  }

  // A step of loops that hold some entries: it may take undelivered entries and do what
  // it likes with those it holds, but of the delivered entries it touches no others.
  predicate Step(config: Config, b: Broker, held: set<EntryId>, b': Broker, held': set<EntryId>) {
    && NoLoss(b', config) && Later(b, b')
    && held <= held' && (forall id :: id in held' ==> id in held || b.cursor <= id < b'.cursor)
    && (forall id :: id in b.published && id < b.cursor && id !in held ==> Same(b, b', id))
  }

  // A step of one loop is a step of any set of loops that includes it.
  lemma StepOfMore(config: Config, b: Broker, held: set<EntryId>, b': Broker, held': set<EntryId>, all: set<EntryId>)
    requires Step(config, b, held, b', held') && held <= all
    ensures Step(config, b, all, b', all + held')
  {
  }

  // A producer's step needs no entry at all.
  lemma AddStep(b: Broker, config: Config, payload: Payload)
    requires NoLoss(b, config)
    ensures Step(config, b, {}, Add(b, payload), {})
  {
  }

  lemma RequeueStep(b: Broker, config: Config, id: EntryId)
    requires NoLoss(b, config) && id in b.published && id < b.cursor
    ensures Step(config, b, {id}, Requeue(b, id), {id})
  {
    RequeueKeeps(b, id);
    var b' := Requeue(b, id);
    forall e | e in b'.published ensures Undelivered(b', e) || e in b'.unacked || Accounted(b', config, e) {
      assert e != b.next ==> Undelivered(b, e) || e in b.unacked || Accounted(b, config, e);
    }
  }

  lemma RequeueKeeps(b: Broker, id: EntryId)
    requires WellFormed(b) && id in b.published && id < b.cursor
    ensures WellFormed(Requeue(b, id))
  {
    var b' := Requeue(b, id);
    forall e | e in b'.copies ensures CopyOk(b', e) {
      assert e != id ==> CopyOk(b, e);
    }
  }

  // Recording what became of delivered entries loses nothing.
  lemma MarkKeeps(b: Broker, config: Config, b': Broker)
    requires NoLoss(b, config)
    requires b' == b.(dead := b'.dead, processed := b'.processed, rejected := b'.rejected)
    requires b.dead.Keys <= b'.dead.Keys && b.processed <= b'.processed && b.rejected <= b'.rejected
    requires forall id :: id in b'.processed || id in b'.rejected || id in b'.dead ==> id < b.cursor
    requires forall id :: id in b'.dead ==> id in b.published && b'.dead[id] == b.published[id]
    ensures NoLoss(b', config)
  {
    forall e | e in b.published ensures Undelivered(b', e) || e in b'.unacked || Accounted(b', config, e) {
      assert Undelivered(b, e) || e in b.unacked || Accounted(b, config, e);
    }
    forall e | e in b'.copies ensures CopyOk(b', e) {
      assert CopyOk(b, e);
    }
  }

  lemma DeadLetterStep(b: Broker, config: Config, id: EntryId)
    requires NoLoss(b, config) && id in b.published && id < b.cursor
    ensures Step(config, b, {id}, DeadLetter(b, id), {id})
  {
    MarkKeeps(b, config, DeadLetter(b, id));
  }

  lemma ResolveStep(b: Broker, config: Config, id: EntryId)
    requires NoLoss(b, config) && id in b.published && id < b.cursor
    ensures Step(config, b, {id}, Resolve(b, id), {id})
  {
  }

  lemma RejectStep(b: Broker, config: Config, id: EntryId)
    requires NoLoss(b, config) && id in b.published && id < b.cursor
    ensures Step(config, b, {id}, Reject(b, id), {id})
  {
  }

  // Acknowledging an entry is safe once it is accounted for.
  lemma AcknowledgeStep(b: Broker, config: Config, id: EntryId)
    requires NoLoss(b, config) && Accounted(b, config, id) && id < b.cursor
    ensures Step(config, b, {id}, Acknowledge(b, id), {id})
  {
    var b' := Acknowledge(b, id);
    forall e | e in b.published ensures Undelivered(b', e) || e in b'.unacked || Accounted(b', config, e) {
      assert Undelivered(b, e) || e in b.unacked || Accounted(b, config, e);
    }
    forall e | e in b.copies ensures CopyOk(b', e) {
      assert CopyOk(b, e);
    }
  }

  // Deleting it is safe once it is acknowledged as well.
  lemma DeleteStep(b: Broker, config: Config, id: EntryId)
    requires NoLoss(b, config) && Accounted(b, config, id) && id < b.cursor && id !in b.unacked
    ensures Step(config, b, {id}, Delete(b, id), {id})
  {
    var b' := Delete(b, id);
    forall e | e in b.published ensures Undelivered(b', e) || e in b'.unacked || Accounted(b', config, e) {
      assert Undelivered(b, e) || e in b.unacked || Accounted(b, config, e);
    }
    forall e | e in b.copies ensures CopyOk(b', e) {
      assert CopyOk(b, e);
    }
  }

  // And only then: acknowledging a pending entry loses it exactly when it is not.
  lemma AcknowledgeSafeExactly(b: Broker, config: Config, id: EntryId)
    requires NoLoss(b, config) && id in b.unacked
    ensures NoLoss(Acknowledge(b, id), config) <==> Accounted(b, config, id)
  {
    var b' := Acknowledge(b, id);
    if Accounted(b, config, id) {
      AcknowledgeStep(b, config, id);
    } else {
      assert id in b'.published && !Undelivered(b', id) && id !in b'.unacked && !Accounted(b', config, id);
    }
  }

  lemma DeliverStep(b: Broker, config: Config, cursor: EntryId)
    requires NoLoss(b, config) && b.cursor <= cursor <= b.next
    ensures Step(config, b, {}, Deliver(b, cursor), set id | id in b.stream && b.cursor <= id < cursor)
  {
  }

  // --------------------------------------------------------- lineages and strandedness

  // Following requeued copies from any entry ends at an entry with the same payload that
  // will be handed out, is in a loop's hands, was processed, was dead-lettered, was
  // rejected with nowhere to go, or is stranded.
  lemma {:induction false} Lineage(b: Broker, config: Config, held: set<EntryId>, id: EntryId) returns (end: EntryId)
    requires NoLoss(b, config) && id in b.published
    ensures id <= end && end in b.published && b.published[end] == b.published[id]
    ensures Undelivered(b, end) || (end in b.unacked && end in held) || end in b.processed || end in b.dead
            || (config.Drops() && end in b.rejected) || Stranded(b, held, end)
    decreases b.next - id
  {
    end := id;
    if id in b.copies && id !in b.unacked && !Undelivered(b, id) {
      assert CopyOk(b, id);
      end := Lineage(b, config, held, b.copies[id]);
    } else {
      assert Undelivered(b, id) || id in b.unacked || Accounted(b, config, id);
    }
  }

  // The broker and what the running loops hold, over any number of their steps.
  ghost predicate History(config: Config, brokers: seq<Broker>, held: seq<set<EntryId>>) {
    && |brokers| == |held| >= 1 && NoLoss(brokers[0], config)
    && forall i :: 0 <= i < |brokers| - 1 ==> Step(config, brokers[i], held[i], brokers[i + 1], held[i + 1])
  }

  lemma HistoryAppend(config: Config, brokers: seq<Broker>, held: seq<set<EntryId>>, b: Broker, h: set<EntryId>)
    requires History(config, brokers, held) && Step(config, brokers[|brokers| - 1], held[|held| - 1], b, h)
    ensures History(config, brokers + [b], held + [h])
  {
    var brokers', held' := brokers + [b], held + [h];
    forall i | 0 <= i < |brokers'| - 1 ensures Step(config, brokers'[i], held'[i], brokers'[i + 1], held'[i + 1]) {
      if i < |brokers| - 1 {
        assert Step(config, brokers[i], held[i], brokers[i + 1], held[i + 1]);
      }
    }
  }

  // A stranded entry stays in the pending list for good: no loop of this driver, however
  // many there are, is ever handed it, so it is never processed if it was not.
  lemma {:induction false} StrandedForever(
    config: Config, brokers: seq<Broker>, held: seq<set<EntryId>>, n: nat, id: EntryId)
    requires History(config, brokers, held) && n < |brokers| && Stranded(brokers[0], held[0], id)
    ensures Stranded(brokers[n], held[n], id)
    ensures id in brokers[n].processed <==> id in brokers[0].processed
  {
    if n > 0 {
      StrandedForever(config, brokers, held, n - 1, id);
      HistoryWellFormed(config, brokers, held, n - 1);
      assert Step(config, brokers[n - 1], held[n - 1], brokers[n], held[n]);
      assert id in brokers[n - 1].published;
    }
  }

  const EMPTY := Broker(map[], {}, 0, 0, {}, map[], map[], {}, {})

  // So at-least-once processing fails: when the reply to the read that delivers an entry
  // is lost, nothing that can happen later processes it, although nothing is lost.
  lemma LostReadNeverProcessed(config: Config, payload: Payload, brokers: seq<Broker>, held: seq<set<EntryId>>, n: nat)
    requires History(config, brokers, held) && n < |brokers|
    requires brokers[0] == Deliver(Add(EMPTY, payload), 1) && held[0] == {}
    ensures 0 in brokers[n].unacked && 0 !in brokers[n].processed && NoLoss(brokers[n], config)
  {
    assert 0 in brokers[0].unacked;
    StrandedForever(config, brokers, held, n, 0);
    HistoryWellFormed(config, brokers, held, n);
  }

  lemma {:induction false} HistoryWellFormed(config: Config, brokers: seq<Broker>, held: seq<set<EntryId>>, n: nat)
    requires History(config, brokers, held) && n < |brokers|
    ensures NoLoss(brokers[n], config)
  {
    if n > 0 {
      assert Step(config, brokers[n - 1], held[n - 1], brokers[n], held[n]);
    }
  }

  // ------------------------------------------------------------ what the network does

  // A call is refused, takes effect while its reply is lost, or is answered.
  datatype Reply = Refused | Lost | Answered

  // The replies to one attempt to settle an entry.
  datatype Try = Try(publish: Reply, acknowledge: Reply, delete: Reply)

  // An attempt that is not made.
  const NEVER := Try(Refused, Refused, Refused)

  // What befalls one entry: whether its payload parses, whether processEvent resolves,
  // and the replies to the acknowledgement and to the two nacks that may follow.
  datatype Fate = Fate(parses: bool, resolves: bool, ack: Try, nack: Try, secondNack: Try)

  // The attempt gets past the publication of a copy, if it makes one.
  predicate Reaches(config: Config, nacks: bool, t: Try) {
    nacks && !config.Drops() ==> t.publish.Answered?
  }

  predicate Acks(config: Config, nacks: bool, t: Try) {
    Reaches(config, nacks, t) && !t.acknowledge.Refused?
  }

  predicate Settles(config: Config, nacks: bool, t: Try) {
    Reaches(config, nacks, t) && t.acknowledge.Answered? && t.delete.Answered?
  }

  // Some attempt to settle the entry gets its acknowledgement through.
  predicate Acknowledged(config: Config, f: Fate) {
    && f.parses
    && ((f.resolves && Acks(config, false, f.ack)) || Acks(config, true, f.nack) || Acks(config, true, f.secondNack))
  }

  // Some attempt succeeds.
  predicate Handled(config: Config, f: Fate) {
    && f.parses
    && (|| (f.resolves && Settles(config, false, f.ack))
        || Settles(config, true, f.nack) || Settles(config, true, f.secondNack))
  }

  predicate Deletes(config: Config, nacks: bool, t: Try) {
    Reaches(config, nacks, t) && t.acknowledge.Answered? && !t.delete.Refused?
  }

  // Some attempt gets its deletion through.
  predicate Deleted(config: Config, f: Fate) {
    && f.parses
    && (|| (f.resolves && Deletes(config, false, f.ack))
        || Deletes(config, true, f.nack) || Deletes(config, true, f.secondNack))
  }

  // The entry is nacked unless it was processed and settled, and nacked again if that
  // fails.
  predicate Nacked(config: Config, f: Fate) {
    f.parses && !(f.resolves && Settles(config, false, f.ack))
  }

  predicate NackedAgain(config: Config, f: Fate) {
    Nacked(config, f) && !Settles(config, true, f.nack)
  }

  // A nack gets the publication of its copy through.
  predicate Published(config: Config, f: Fate) {
    || (Nacked(config, f) && !f.nack.publish.Refused?)
    || (NackedAgain(config, f) && !f.secondNack.publish.Refused?)
  }

  // ------------------------------------------------------------------ what is promised

  ghost predicate Rising(ids: seq<EntryId>) {
    forall i, j :: 0 <= i < j < |ids| ==> ids[i] < ids[j]
  }

  function Ids(ids: seq<EntryId>): set<EntryId> {
    set id | id in ids
  }

  // Delivered, and nothing became of it yet.
  const UNTOUCHED := Status(true, true, false, false, false, false)

  predicate New(b: Broker, id: EntryId) {
    id in b.published && StatusOf(b, id) == UNTOUCHED
  }

  // What becomes of an entry that is reached: it stays in the pending list exactly when no
  // attempt to settle it is acknowledged, and in the stream exactly when none deletes it;
  // it is processed exactly when it parses and processEvent resolves; and a published copy
  // is in the source stream exactly when failures are requeued, and otherwise in the
  // dead-letter stream if there is one.
  function Expected(config: Config, f: Fate): Status {
    Status(!Acknowledged(config, f), !Deleted(config, f), f.parses && f.resolves, f.parses && !f.resolves,
           config.requeueOnFailure && Published(config, f),
           !config.requeueOnFailure && config.deadLetters && Published(config, f))
  }

  // What a nack makes of an entry.
  function AfterNack(config: Config, was: Status, t: Try): Status {
    was.(pending := was.pending && !Acks(config, true, t), kept := was.kept && !Deletes(config, true, t),
         requeued := was.requeued || (config.requeueOnFailure && !t.publish.Refused?),
         dead := was.dead || (!config.requeueOnFailure && config.deadLetters && !t.publish.Refused?))
  }

  // What the handler of an entry that parses makes of it, step by step.
  lemma StepsAsExpected(config: Config, f: Fate)
    requires f.parses && f.secondNack == NEVER
    ensures var done := if f.resolves then UNTOUCHED.(processed := true) else UNTOUCHED.(rejected := true);
            var acked := done.(pending := f.ack.acknowledge.Refused?,
                               kept := !(f.ack.acknowledge.Answered? && !f.ack.delete.Refused?));
            && (f.resolves && Settles(config, false, f.ack) ==> acked == Expected(config, f))
            && (f.resolves && !Settles(config, false, f.ack) ==>
                  AfterNack(config, acked, f.nack) == Expected(config, f))
            && (!f.resolves ==> AfterNack(config, done, f.nack) == Expected(config, f))
  {
  }

  lemma SecondNackAsExpected(config: Config, f: Fate)
    requires f.parses
    ensures var first := f.(secondNack := NEVER);
            if Handled(config, first) then Handled(config, f) && Expected(config, first) == Expected(config, f)
            else Handled(config, f) == Settles(config, true, f.secondNack)
                 && AfterNack(config, Expected(config, first), f.secondNack) == Expected(config, f)
  {
  }

  // What became of delivered entries when the first few were reached.
  ghost predicate Outcome(config: Config, b: Broker, taken: seq<EntryId>, reached: nat, fate: EntryId -> Fate) {
    && reached <= |taken|
    && forall k :: 0 <= k < |taken| ==> EntryOutcome(config, b, taken[k], k < reached, fate(taken[k]))
  }

  ghost predicate EntryOutcome(config: Config, b: Broker, id: EntryId, reached: bool, f: Fate) {
    StatusOf(b, id) == if reached then Expected(config, f) else UNTOUCHED
  }

  ghost predicate AllHandled(config: Config, ids: seq<EntryId>, n: int, fate: EntryId -> Fate) {
    n <= |ids| && forall k :: 0 <= k < n ==> Handled(config, fate(ids[k]))
  }

  // A batch is handled to its end, or up to the first entry that cannot be settled.
  ghost predicate EndsAt(config: Config, batch: seq<EntryId>, reached: nat, open: bool, fate: EntryId -> Fate) {
    if open then reached == |batch| && AllHandled(config, batch, reached, fate)
    else 0 < reached <= |batch| && AllHandled(config, batch, reached - 1, fate)
         && !Handled(config, fate(batch[reached - 1]))
  }

  // A loop goes on while reads are answered and entries are settled.
  ghost predicate Goes(
    config: Config, replies: seq<Reply>, rounds: nat, taken: seq<EntryId>, reached: nat, fate: EntryId -> Fate)
  {
    && rounds <= |replies| && (forall i :: 0 <= i < rounds ==> replies[i].Answered?)
    && reached == |taken| && AllHandled(config, taken, reached, fate)
  }

  // It stops when it is told to, at a read that is not answered, whose entries it never
  // reaches, or at the first entry that cannot be settled.
  ghost predicate Stops(
    config: Config, replies: seq<Reply>, rounds: nat, taken: seq<EntryId>, reached: nat, fate: EntryId -> Fate)
  {
    || (rounds == |replies| && Goes(config, replies, rounds, taken, reached, fate))
    || (&& 0 < rounds <= |replies| && (forall i :: 0 <= i < rounds - 1 ==> replies[i].Answered?)
        && if replies[rounds - 1].Answered? then EndsAt(config, taken, reached, false, fate)
           else AllHandled(config, taken, reached, fate) && (replies[rounds - 1].Refused? ==> reached == |taken|))
  }

  lemma RoundEnds(
    config: Config, replies: seq<Reply>, rounds: nat, taken: seq<EntryId>,
    batch: seq<EntryId>, part: nat, open: bool, fate: EntryId -> Fate)
    requires rounds < |replies| && Goes(config, replies, rounds, taken, |taken|, fate)
    requires if replies[rounds].Answered? then EndsAt(config, batch, part, open, fate) else !open && part == 0
    requires replies[rounds].Refused? ==> batch == []
    ensures if open then Goes(config, replies, rounds + 1, taken + batch, |taken| + part, fate)
            else Stops(config, replies, rounds + 1, taken + batch, |taken| + part, fate)
  {
  }

  // Pending entries are among the last few.
  ghost predicate PendingLast(b: Broker, taken: seq<EntryId>, few: nat) {
    forall k :: 0 <= k < |taken| && taken[k] in b.unacked ==> |taken| - k <= few
  }

  // What was handled is not pending, so only entries of the last batch are.
  lemma PendingInBatch(
    config: Config, b: Broker, taken: seq<EntryId>, batch: seq<EntryId>, part: nat, fate: EntryId -> Fate)
    requires AllHandled(config, taken, |taken|, fate) && Outcome(config, b, taken + batch, |taken| + part, fate)
    ensures PendingLast(b, taken + batch, |batch|)
  {
    var all := taken + batch;
    forall k | 0 <= k < |taken| ensures all[k] !in b.unacked {
      assert EntryOutcome(config, b, all[k], k < |taken| + part, fate(all[k]));
      assert Handled(config, fate(taken[k]));
    }
  }

  // -------------------------------------------------------------------- the consumer

  // The broker as a consumer sees it, with the entries that it and other loops hold.
  datatype Sight = Sight(broker: Broker, history: seq<Broker>, mine: set<EntryId>, others: set<EntryId>)

  ghost predicate Moved(v: Sight, v': Sight, touched: set<EntryId>) {
    && v.history <= v'.history && Later(v.broker, v'.broker)
    && v.mine <= v'.mine && (forall id :: id in v'.mine ==> id in v.mine || v.broker.cursor <= id)
    && v.others <= v'.others && (forall id :: id in v'.others ==> id in v.others || v.broker.cursor <= id)
    && forall id :: id in v.broker.published && id < v.broker.cursor && id !in v.others && id !in touched ==>
         Same(v.broker, v'.broker, id)
  }

  lemma MovedTwice(v: Sight, v': Sight, v'': Sight, first: set<EntryId>, second: set<EntryId>, touched: set<EntryId>)
    requires Moved(v, v', first) && Moved(v', v'', second)
    requires forall id :: id in first + second ==> id in touched || v.broker.cursor <= id
    ensures Moved(v, v'', touched)
  {
    assert v.history <= v''.history;
    forall id | id in v.broker.published && id < v.broker.cursor && id !in v.others && id !in touched
      ensures Same(v.broker, v''.broker, id)
    {
      assert id !in first + second;
      assert Same(v.broker, v'.broker, id) && Same(v'.broker, v''.broker, id);
    }
  }

  // An entry in this consumer's hands that was not touched.
  lemma MineKept(v: Sight, v': Sight, touched: set<EntryId>, id: EntryId)
    requires Moved(v, v', touched) && id !in touched && id !in v.others
    requires id in v.broker.published && id < v.broker.cursor
    ensures Same(v.broker, v'.broker, id) && id in v'.broker.published
    ensures New(v.broker, id) ==> New(v'.broker, id)
  {
  }

  // Handling one entry leaves the others of the batch alone.
  lemma EntryConsumed(v: Sight, v': Sight, config: Config, batch: seq<EntryId>, i: nat, fate: EntryId -> Fate)
    requires Rising(batch) && i < |batch| && Moved(v, v', {batch[i]})
    requires forall k :: 0 <= k < |batch| ==> Owned(v, batch[k])
    requires Outcome(config, v.broker, batch, i, fate)
              && EntryOutcome(config, v'.broker, batch[i], true, fate(batch[i]))
    ensures Outcome(config, v'.broker, batch, i + 1, fate)
    ensures forall k :: i < k < |batch| && New(v.broker, batch[k]) ==> New(v'.broker, batch[k])
  {
  }

  ghost predicate Owned(v: Sight, id: EntryId) {
    id in v.broker.published && id < v.broker.cursor && id !in v.others
  }

  // A further batch leaves the earlier entries alone.
  lemma BatchConsumed(
    v: Sight, v': Sight, config: Config, taken: seq<EntryId>, batch: seq<EntryId>, part: nat, fate: EntryId -> Fate)
    requires Moved(v, v', {}) && forall id :: id in taken ==> Owned(v, id)
    requires Outcome(config, v.broker, taken, |taken|, fate) && Outcome(config, v'.broker, batch, part, fate)
    ensures Outcome(config, v'.broker, taken + batch, |taken| + part, fate)
  {
    forall k | 0 <= k < |taken| ensures EntryOutcome(config, v'.broker, taken[k], true, fate(taken[k])) {
      assert taken[k] in taken;
      MineKept(v, v', {}, taken[k]);
    }
  }

  lemma NothingReached(config: Config, b: Broker, batch: seq<EntryId>, fate: EntryId -> Fate)
    requires forall id :: id in batch ==> New(b, id)
    ensures Outcome(config, b, batch, 0, fate)
  {
    forall k | 0 <= k < |batch| ensures EntryOutcome(config, b, batch[k], k < 0, fate(batch[k])) {
      assert batch[k] in batch;
    }
  }

  lemma RisingConcat(a: seq<EntryId>, b: seq<EntryId>, bound: EntryId)
    requires Rising(a) && Rising(b)
    requires (forall id :: id in a ==> id < bound) && (forall id :: id in b ==> bound <= id)
    ensures Rising(a + b) && Ids(a + b) == Ids(a) + Ids(b)
  {
    forall i, j | 0 <= i < j < |a + b| ensures (a + b)[i] < (a + b)[j] {
      assert i < |a| ==> a[i] in a;
      assert j >= |a| ==> b[j - |a|] in b;
    }
  }

  // New entries were taken; delivered ones that no other loop holds were left alone.
  ghost predicate Took(v: Sight, v': Sight, taken: seq<EntryId>) {
    && Moved(v, v', {}) && Rising(taken) && v'.mine == v.mine + Ids(taken)
    && forall id :: id in taken ==> v.broker.cursor <= id && Owned(v', id)
  }

  lemma TookTwice(v: Sight, v': Sight, v'': Sight, taken: seq<EntryId>, batch: seq<EntryId>)
    requires Took(v, v', taken) && Took(v', v'', batch)
    ensures Took(v, v'', taken + batch)
  {
    MovedTwice(v, v', v'', {}, {}, {});
    RisingConcat(taken, batch, v'.broker.cursor);
  }

  // What was taken is dealt with.
  lemma TookThen(v: Sight, v': Sight, v'': Sight, taken: seq<EntryId>, touched: set<EntryId>)
    requires Took(v, v', taken) && Moved(v', v'', touched) && v''.mine == v'.mine && touched <= Ids(taken)
    ensures Took(v, v'', taken)
  {
    MovedTwice(v, v', v'', {}, touched, {});
  }

  // One more entry of a batch is dealt with.
  lemma TouchedMore(v: Sight, v': Sight, v'': Sight, batch: seq<EntryId>, i: nat)
    requires i < |batch| && Moved(v, v', Ids(batch)) && Moved(v', v'', {batch[i]})
    ensures Moved(v, v'', Ids(batch))
  {
    assert batch[i] in batch;
    MovedTwice(v, v', v'', Ids(batch), {batch[i]}, Ids(batch));
  }

  // Where a loop stands.
  datatype Session = Session(rounds: nat, taken: seq<EntryId>, reached: nat, open: bool)

  ghost predicate SessionOk(
    config: Config, b: Broker, replies: seq<Reply>, few: nat, fate: EntryId -> Fate, at: Session)
  {
    && Outcome(config, b, at.taken, at.reached, fate) && PendingLast(b, at.taken, few)
    && if at.open then Goes(config, replies, at.rounds, at.taken, at.reached, fate)
       else Stops(config, replies, at.rounds, at.taken, at.reached, fate)
  }

  // What one round adds.
  ghost predicate RoundOk(config: Config, b: Broker, reply: Reply, few: nat, fate: EntryId -> Fate, round: Session) {
    && |round.taken| <= few && Outcome(config, b, round.taken, round.reached, fate)
    && (reply.Refused? ==> round.taken == [])
    && if reply.Answered? then EndsAt(config, round.taken, round.reached, round.open, fate)
       else !round.open && round.reached == 0
  }

  // Before the first round.
  lemma SessionStart(config: Config, v: Sight, replies: seq<Reply>, few: nat, fate: EntryId -> Fate)
    ensures Took(v, v, []) && SessionOk(config, v.broker, replies, few, fate, Session(0, [], 0, true))
  {
  }

  // A further round of an open session.
  lemma SessionRound(
    config: Config, v: Sight, v': Sight, replies: seq<Reply>, few: nat, fate: EntryId -> Fate, at: Session,
    round: Session)
    requires Moved(v, v', {}) && forall id :: id in at.taken ==> Owned(v, id)
    requires SessionOk(config, v.broker, replies, few, fate, at) && at.open && at.rounds < |replies|
    requires RoundOk(config, v'.broker, replies[at.rounds], few, fate, round)
    ensures SessionOk(config, v'.broker, replies, few, fate,
                      Session(at.rounds + 1, at.taken + round.taken, at.reached + round.reached, round.open))
  {
    BatchConsumed(v, v', config, at.taken, round.taken, round.reached, fate);
    RoundEnds(config, replies, at.rounds, at.taken, round.taken, round.reached, round.open, fate);
    PendingInBatch(config, v'.broker, at.taken, round.taken, round.reached, fate);
  }

  class Consumer {
    const config: Config
    var broker: Broker
    var history: seq<Broker>        // the broker after every call, where a crash may stop
    var holdings: seq<set<EntryId>> // what the running loops held then
    var mine: set<EntryId>          // entries delivered to this consumer
    var others: set<EntryId>        // entries that other loops hold

    ghost predicate Valid()
      reads this
    {
      && NoLoss(broker, config)
      && History(config, history, holdings)
      && history[|history| - 1] == broker && holdings[|holdings| - 1] == mine + others
      && mine !! others && (forall id :: id in others ==> id < broker.cursor)
      && (forall id :: id in mine ==> id in broker.published && id < broker.cursor)
    }

    function View(): Sight
      reads this
    {
      Sight(broker, history, mine, others)
    }

    // What happened since left delivered entries alone, but for those touched and those
    // that other loops hold.
    twostate predicate Advanced(touched: set<EntryId>)
      reads this
    {
      Moved(old(View()), View(), touched)
    }

    // A consumer may start on whatever broker earlier ones left behind, while other loops
    // are at work.
    constructor (config: Config, broker: Broker, others: set<EntryId>)
      requires NoLoss(broker, config) && forall id :: id in others ==> id < broker.cursor
      ensures Valid() && this.config == config && this.broker == broker && this.others == others
      ensures mine == {} && history == [broker] && holdings == [others]
    {
      this.config, this.broker, this.others := config, broker, others;
      mine, history, holdings := {}, [broker], [others];
    }

    // A step of this consumer, of a producer or of another loop.
    method Commit(
      b: Broker, taken: set<EntryId>, theirs: set<EntryId>, ghost held: set<EntryId>, ghost held': set<EntryId>)
      requires Valid() && Step(config, broker, held, b, held') && held <= mine + others
      requires mine + others + held' == mine + taken + theirs && others <= theirs && mine + taken !! theirs
      requires forall id :: id in taken ==> id in b.published && broker.cursor <= id < b.cursor
      modifies this
      ensures Valid() && broker == b && mine == old(mine) + taken && others == theirs
      ensures history == old(history) + [b]
    {
      StepOfMore(config, broker, held, b, held', mine + others);
      HistoryAppend(config, history, holdings, b, mine + others + held');
      broker, mine, others := b, mine + taken, theirs;
      history, holdings := history + [b], holdings + [mine + others];
    }

    // Producers and other loops may act whenever this one waits for a reply.
    method Yield()
      requires Valid()
      modifies this
      ensures Valid() && Advanced({}) && mine == old(mine)
      ensures forall id :: id in mine ==> Same(old(broker), broker, id)
    {
      var published: bool := *;
      if published {
        var payload: Payload := *;
        AddStep(broker, config, payload);
        Commit(Add(broker, payload), {}, others, {}, {});
      } else {
        var b: Broker, held: set<EntryId> := *, *;
        if Step(config, broker, others, b, held) && mine !! held {
          Commit(b, {}, held, others, held);
        }
      }
    }

    // One broker call with effect b on an entry of this consumer; others may act before
    // the consumer goes on.
    method Call(id: EntryId, b: Broker, reply: Reply) returns (ok: bool)
      requires Valid() && id in mine && Step(config, broker, {id}, b, {id})
      modifies this
      ensures Valid() && Advanced({id}) && mine == old(mine)
      ensures ok == reply.Answered? && Same(if reply.Refused? then old(broker) else b, broker, id)
    {
      ghost var before := View();
      if !reply.Refused? {
        Commit(b, {}, others, {id}, {id});
      }
      ghost var called := View();
      Yield();
      MovedTwice(before, called, View(), {id}, {}, {id});
      ok := reply.Answered?;
    }

    // The calls that the consumer makes.

    method AckCall(id: EntryId, reply: Reply) returns (ok: bool)
      requires Valid() && id in mine && Accounted(broker, config, id)
      modifies this
      ensures Valid() && Advanced({id}) && mine == old(mine) && ok == reply.Answered?
      ensures var was := old(StatusOf(broker, id));
              StatusOf(broker, id) == was.(pending := was.pending && reply.Refused?)
    {
      AcknowledgeStep(broker, config, id);
      ok := Call(id, Acknowledge(broker, id), reply);
    }

    method DeleteCall(id: EntryId, reply: Reply) returns (ok: bool)
      requires Valid() && id in mine && Accounted(broker, config, id) && id !in broker.unacked
      modifies this
      ensures Valid() && Advanced({id}) && mine == old(mine) && ok == reply.Answered?
      ensures var was := old(StatusOf(broker, id));
              StatusOf(broker, id) == was.(kept := was.kept && reply.Refused?)
    {
      DeleteStep(broker, config, id);
      ok := Call(id, Delete(broker, id), reply);
    }

    method RequeueCall(id: EntryId, reply: Reply) returns (ok: bool)
      requires Valid() && id in mine
      modifies this
      ensures Valid() && Advanced({id}) && mine == old(mine) && ok == reply.Answered?
      ensures var was := old(StatusOf(broker, id));
              StatusOf(broker, id) == was.(requeued := was.requeued || !reply.Refused?)
    {
      RequeueStep(broker, config, id);
      ok := Call(id, Requeue(broker, id), reply);
    }

    method DeadLetterCall(id: EntryId, reply: Reply) returns (ok: bool)
      requires Valid() && id in mine
      modifies this
      ensures Valid() && Advanced({id}) && mine == old(mine) && ok == reply.Answered?
      ensures var was := old(StatusOf(broker, id));
              StatusOf(broker, id) == was.(dead := was.dead || !reply.Refused?)
    {
      DeadLetterStep(broker, config, id);
      ok := Call(id, DeadLetter(broker, id), reply);
    }

    // processEvent resolves or rejects.
    method Process(id: EntryId, resolves: bool)
      requires Valid() && id in mine
      modifies this
      ensures Valid() && Advanced({id}) && mine == old(mine)
      ensures var was := old(StatusOf(broker, id));
              StatusOf(broker, id) == if resolves then was.(processed := true) else was.(rejected := true)
    {
      var done;
      if resolves {
        ResolveStep(broker, config, id);
        done := Call(id, Resolve(broker, id), Answered);
      } else {
        RejectStep(broker, config, id);
        done := Call(id, Reject(broker, id), Answered);
      }
    }

    method AcknowledgeAndDelete(id: EntryId, acknowledge: Reply, delete: Reply) returns (ok: bool)
      requires Valid() && id in mine && Accounted(broker, config, id)
      modifies this
      ensures Valid() && Advanced({id}) && mine == old(mine)
      ensures ok == (acknowledge.Answered? && delete.Answered?)
      ensures var was := old(StatusOf(broker, id));
              StatusOf(broker, id) == was.(pending := was.pending && acknowledge.Refused?,
                                           kept := was.kept && !(acknowledge.Answered? && !delete.Refused?))
    {
      ghost var before := View();
      ok := AckCall(id, acknowledge);
      if ok {
        ghost var acked := View();
        ok := DeleteCall(id, delete);
        MovedTwice(before, acked, View(), {id}, {id}, {id});
      }
    }

    // Publishes a copy: in the source stream if the entry is to be requeued, otherwise in
    // the dead-letter stream, if there is one.
    method Publish(id: EntryId, requeue: bool, reply: Reply) returns (ok: bool)
      requires Valid() && id in mine && requeue == config.requeueOnFailure
      modifies this
      ensures Valid() && Advanced({id}) && mine == old(mine)
      ensures ok == (config.Drops() || reply.Answered?)
      ensures var was := old(StatusOf(broker, id));
              StatusOf(broker, id)
              == was.(requeued := was.requeued || (config.requeueOnFailure && !reply.Refused?),
                      dead := was.dead || (!config.requeueOnFailure && config.deadLetters && !reply.Refused?))
    {
      if requeue {
        ok := RequeueCall(id, reply);
      } else if config.deadLetters {
        ok := DeadLetterCall(id, reply);
      } else {
        ok := true;
      }
    }

    method Nack(id: EntryId, requeue: bool, t: Try) returns (ok: bool)
      requires Valid() && id in mine && requeue == config.requeueOnFailure
      requires id in broker.processed || id in broker.rejected
      modifies this
      ensures Valid() && Advanced({id}) && mine == old(mine)
      ensures ok == Settles(config, true, t)
      ensures StatusOf(broker, id) == AfterNack(config, old(StatusOf(broker, id)), t)
    {
      ghost var before := View();
      ok := Publish(id, requeue, t.publish);
      if ok {
        ghost var published := View();
        ok := AcknowledgeAndDelete(id, t.acknowledge, t.delete);
        MovedTwice(before, published, View(), {id}, {id}, {id});
      }
    }

    // The message handler of QueueConnector.start: as if there were no second nack.
    method OnMessage(id: EntryId, f: Fate) returns (ok: bool)
      requires Valid() && id in mine && New(broker, id) && f.parses && f.secondNack == NEVER
      modifies this
      ensures Valid() && Advanced({id}) && mine == old(mine)
      ensures ok == Handled(config, f) && StatusOf(broker, id) == Expected(config, f)
    {
      ghost var before := View();
      StepsAsExpected(config, f);
      Process(id, f.resolves);
      ghost var marked := View();
      if f.resolves {
        ok := AcknowledgeAndDelete(id, f.ack.acknowledge, f.ack.delete);
        MovedTwice(before, marked, View(), {id}, {id}, {id});
        if ok {
          return;
        }
        marked := View();
      }
      ok := Nack(id, config.requeueOnFailure, f.nack);
      MovedTwice(before, marked, View(), {id}, {id}, {id});
    }

    // One entry in the loop of consumeLoop: it is handled exactly when its payload parses
    // and some attempt to settle it succeeds.
    method ConsumeEntry(id: EntryId, f: Fate) returns (ok: bool)
      requires Valid() && id in mine && New(broker, id)
      modifies this
      ensures Valid() && Advanced({id}) && mine == old(mine)
      ensures ok == Handled(config, f) && StatusOf(broker, id) == Expected(config, f)
    {
      if !f.parses {
        return false;
      }
      ghost var before := View();
      SecondNackAsExpected(config, f);
      ok := OnMessage(id, f.(secondNack := NEVER));
      if !ok {
        ghost var handled := View();
        ok := Nack(id, config.requeueOnFailure, f.secondNack);
        MovedTwice(before, handled, View(), {id}, {id}, {id});
      }
    }

    // The entries of the stream from the cursor on, in order, at most a batch of them.
    method NewEntries(batchSize: nat) returns (entries: seq<EntryId>, cursor: EntryId)
      requires Valid()
      ensures broker.cursor <= cursor <= broker.next && |entries| <= batchSize
      ensures forall id :: id in entries <==> id in broker.stream && broker.cursor <= id < cursor
      ensures Rising(entries)
    {
      entries, cursor := [], broker.cursor;
      while cursor < broker.next && |entries| < batchSize
        invariant broker.cursor <= cursor <= broker.next && |entries| <= batchSize
        invariant forall id :: id in entries <==> id in broker.stream && broker.cursor <= id < cursor
        invariant Rising(entries) && forall i :: 0 <= i < |entries| ==> entries[i] < cursor
      {
        if cursor in broker.stream {
          entries := entries + [cursor];
        }
        cursor := cursor + 1;
      }
    }

    // The delivery of new entries takes effect unless the call is refused.
    method DeliverCall(batchSize: nat, reply: Reply) returns (ghost taken: seq<EntryId>, entries: seq<EntryId>)
      requires Valid()
      modifies this
      ensures Valid() && Advanced({}) && mine == old(mine) + Ids(taken)
      ensures |taken| <= batchSize && Rising(taken) && entries == if reply.Answered? then taken else []
      ensures reply.Refused? ==> taken == [] && broker == old(broker)
      ensures !reply.Refused? ==>
                forall id :: id in taken <==> id in broker.stream && old(broker.cursor) <= id < broker.cursor
      ensures forall id :: id in taken ==> old(broker.cursor) <= id && New(broker, id)
    {
      var cursor;
      entries, cursor := NewEntries(batchSize);
      DeliverStep(broker, config, cursor);
      taken := [];
      if !reply.Refused? {
        taken := entries;
        Commit(Deliver(broker, cursor), Ids(entries), others, {}, Ids(entries));
      }
      if !reply.Answered? {
        entries := [];
      }
    }

    // readGroup hands out exactly the new entries, in stream order and at most a batch;
    // when its reply is lost they are pending all the same, and nobody learns of them.
    method ReadGroup(batchSize: nat, reply: Reply)
      returns (ok: bool, entries: seq<EntryId>, ghost taken: seq<EntryId>, ghost from: EntryId)
      requires Valid()
      modifies this
      ensures Valid() && Took(old(View()), View(), taken)
      ensures ok == reply.Answered? && entries == if ok then taken else []
      ensures |taken| <= batchSize && old(broker.cursor) <= from
      ensures if reply.Refused? then taken == [] && from == broker.cursor
              else forall id :: id in taken <==> id in broker.stream && from <= id < broker.cursor
      ensures forall id :: id in taken ==> from <= id && New(broker, id)
      ensures reply.Lost? ==> forall id :: id in taken ==> Stranded(broker, others, id)
    {
      ghost var before := View();
      Yield();
      ghost var yielded := View();
      from := broker.cursor;
      taken, entries := DeliverCall(batchSize, reply);
      MovedTwice(before, yielded, View(), {}, {}, {});
      ok := reply.Answered?;
    }

    // Where a batch stands: the first i entries were handed to the handler.
    ghost predicate Underway(entries: seq<EntryId>, i: nat, fate: EntryId -> Fate)
      reads this
    {
      && i <= |entries| && Rising(entries) && Outcome(config, broker, entries, i, fate)
      && (forall k :: 0 <= k < |entries| ==> entries[k] in mine)
      && (forall k :: i <= k < |entries| ==> New(broker, entries[k]))
    }

    method ConsumeNext(entries: seq<EntryId>, i: nat, fate: EntryId -> Fate) returns (ok: bool)
      requires Valid() && i < |entries| && Underway(entries, i, fate)
      modifies this
      ensures Valid() && Advanced({entries[i]}) && mine == old(mine)
      ensures ok == Handled(config, fate(entries[i])) && Underway(entries, i + 1, fate)
    {
      ghost var before := View();
      assert forall k :: 0 <= k < |entries| ==> Owned(before, entries[k]);
      ok := ConsumeEntry(entries[i], fate(entries[i]));
      EntryConsumed(before, View(), config, entries, i, fate);
    }

    // The batch that was read, entry by entry until one fails.
    method ConsumeBatch(entries: seq<EntryId>, fate: EntryId -> Fate) returns (open: bool, ghost reached: nat)
      requires Valid() && Underway(entries, 0, fate)
      modifies this
      ensures Valid() && Advanced(Ids(entries)) && mine == old(mine)
      ensures Outcome(config, broker, entries, reached, fate)
      ensures EndsAt(config, entries, reached, open, fate)
    {
      ghost var start := View();
      var i := 0;
      open, reached := true, 0;
      while open && i < |entries|
        invariant Valid() && Advanced(Ids(entries)) && mine == old(mine)
        invariant reached == i <= |entries| && Underway(entries, i, fate)
        invariant if open then AllHandled(config, entries, i, fate) else EndsAt(config, entries, i, open, fate)
      {
        ghost var before := View();
        open := ConsumeNext(entries, i, fate);
        TouchedMore(start, before, View(), entries, i);
        i, reached := i + 1, i + 1;
      }
    }

    // One round of the loop.
    method ConsumeRound(batchSize: nat, reply: Reply, fate: EntryId -> Fate) returns (open: bool, ghost round: Session)
      requires Valid()
      modifies this
      ensures Valid() && round.open == open
      ensures Took(old(View()), View(), round.taken) && RoundOk(config, broker, reply, batchSize, fate, round)
    {
      ghost var before := View();
      var entries;
      ghost var batch, from;
      ghost var part := 0;
      open, entries, batch, from := ReadGroup(batchSize, reply);
      NothingReached(config, broker, batch, fate);
      if open {
        ghost var given := View();
        assert Underway(entries, 0, fate);
        open, part := ConsumeBatch(entries, fate);
        TookThen(before, given, View(), batch, Ids(entries));
      }
      round := Session(1, batch, part, open);
    }

    // consumeLoop: reads and handles batches until a call fails. Of the entries delivered
    // to it, exactly those stay in the pending list that it did not reach or that were
    // not acknowledged; they are among the last batch, and stranded for the other loops.
    method ConsumeLoop(replies: seq<Reply>, batchSize: nat, fate: EntryId -> Fate) returns (ghost at: Session)
      requires Valid()
      modifies this
      ensures Valid() && Advanced({}) && mine == old(mine) + Ids(at.taken)
      ensures Rising(at.taken) && forall id :: id in at.taken ==> old(broker.cursor) <= id
      ensures Outcome(config, broker, at.taken, at.reached, fate)
      ensures Stops(config, replies, at.rounds, at.taken, at.reached, fate)
      ensures PendingLast(broker, at.taken, batchSize)
      ensures forall id :: id in at.taken && id in broker.unacked ==> Stranded(broker, others, id)
    {
      ghost var start := View();
      var n, open := 0, true;
      at := Session(0, [], 0, true);
      SessionStart(config, start, replies, batchSize, fate);
      while open && n < |replies|
        invariant Valid() && at.rounds == n <= |replies| && at.open == open
        invariant Took(start, View(), at.taken) && SessionOk(config, broker, replies, batchSize, fate, at)
      {
        ghost var before := View();
        ghost var round;
        open, round := ConsumeRound(batchSize, replies[n], fate);
        TookTwice(start, before, View(), at.taken, round.taken);
        SessionRound(config, before, View(), replies, batchSize, fate, at, round);
        n := n + 1;
        at := Session(n, at.taken + round.taken, at.reached + round.reached, open);
      }
    }
  }

  // What an earlier loop left stranded stays so during all that a consumer and whatever
  // interleaves with it do, and is not processed.
  lemma LeftForGood(consumer: Consumer, id: EntryId)
    requires consumer.Valid() && Stranded(consumer.history[0], consumer.holdings[0], id)
    ensures Stranded(consumer.broker, consumer.mine + consumer.others, id)
    ensures id in consumer.broker.processed <==> id in consumer.history[0].processed
  {
    StrandedForever(consumer.config, consumer.history, consumer.holdings, |consumer.history| - 1, id);
  }
}

/** The change-data-capture consumer (src/connectors/salesforce/cdcWorker.ts): each envelope is
    enqueued before its replay id is committed. */
module CdcWorker {
  import opened Canonical
  import opened EventStore

  datatype Envelope = Envelope(replayId: string, event: Event)

  function CdcPrefix(topic: string): string { "sf-cdc:" + topic + ":" }

  function CdcEvent(topic: string, e: Envelope): Event {
    e.event.(eventId := Some(CdcPrefix(topic) + e.replayId))
  }

  function CdcIdentity(sha: string -> string, topic: string, e: Envelope): string { Identity(sha, CdcEvent(topic, e)) }

  /** Different envelopes of a topic are different events to the queue. */
  lemma EnvelopesDiffer(sha: string -> string, topic: string, a: Envelope, b: Envelope)
    requires a.event.system == b.event.system && a.replayId != b.replayId
    ensures CdcIdentity(sha, topic, a) != CdcIdentity(sha, topic, b)
  {
    var p := SystemName(a.event.system) + ":" + CdcPrefix(topic);
    IdentityText(sha, topic, a);
    IdentityText(sha, topic, b);
    assert (p + a.replayId)[|p|..] == a.replayId && (p + b.replayId)[|p|..] == b.replayId;
  }

  lemma IdentityText(sha: string -> string, topic: string, e: Envelope)
    ensures CdcIdentity(sha, topic, e) == SystemName(e.event.system) + ":" + CdcPrefix(topic) + e.replayId
  {
    assert CdcPrefix(topic)[0] == 's';
    assert CdcPrefix(topic) + e.replayId != "";
    assert SystemName(e.event.system) + ":" + (CdcPrefix(topic) + e.replayId)
           == SystemName(e.event.system) + ":" + CdcPrefix(topic) + e.replayId;
  }

  /** The stored event says what the envelope's event says. */
  predicate Relays(stored: Event, e: Envelope) {
    && stored.system == e.event.system && stored.objectType == e.event.objectType && stored.sourceId == e.event.sourceId
    && stored.change == e.event.change && stored.occurredAt == e.event.occurredAt
  }

  /** The identities that envelopes of a topic can have. */
  predicate TopicName(topic: string, v: string) {
    SystemName(Salesforce) + ":" + CdcPrefix(topic) <= v || SystemName(Hubspot) + ":" + CdcPrefix(topic) <= v
  }

  lemma NamedByTopic(sha: string -> string, topic: string, e: Envelope)
    ensures TopicName(topic, CdcIdentity(sha, topic, e))
  {
    IdentityText(sha, topic, e);
    var head := SystemName(e.event.system) + ":" + CdcPrefix(topic);
    assert head <= head + e.replayId;
  }

  /** One identity means one system and one replay id. */
  lemma SameEnvelope(sha: string -> string, topic: string, a: Envelope, b: Envelope)
    requires CdcIdentity(sha, topic, a) == CdcIdentity(sha, topic, b)
    ensures a.event.system == b.event.system && a.replayId == b.replayId
  {
    IdentityText(sha, topic, a);
    IdentityText(sha, topic, b);
    assert CdcIdentity(sha, topic, a)[0] == SystemName(a.event.system)[0];
    assert CdcIdentity(sha, topic, b)[0] == SystemName(b.event.system)[0];
    if a.replayId != b.replayId { EnvelopesDiffer(sha, topic, a, b); }
  }

  // ----- the protocol -----

  /** What survives a crash -- the topic's log, the queue, the committed replay id -- and the live
      subscription, if there is one: the next envelope and whether it has been enqueued already. */
  datatype CdcState = CdcState(log: seq<Envelope>, store: Store, committed: Option<string>, live: Option<nat>, held: bool)

  datatype CdcStep =
    | Publish(envelopes: seq<Envelope>)
    | Connect
    | Receive(born: Fresh)
    | Commit
    | Disconnect
    | Elsewhere(events: seq<Event>, supply: seq<Fresh>)
    | QueueMoves(jobs: map<JobId, Job>)

  function IndexOf(log: seq<Envelope>, replayId: string): (i: nat)
    ensures i <= |log| && (i < |log| ==> log[i].replayId == replayId)
    ensures forall j :: 0 <= j < i ==> log[j].replayId != replayId
  {
    if log == [] || log[0].replayId == replayId then 0 else 1 + IndexOf(log[1..], replayId)
  }

  /** Where a subscription resumes: after the committed replay id. */
  function ResumeAt(log: seq<Envelope>, committed: Option<string>): nat {
    match committed
    case None => 0
    case Some(replayId) => if IndexOf(log, replayId) < |log| then IndexOf(log, replayId) + 1 else |log|
  }

  function CdcNext(sha: string -> string, topic: string, st: CdcState, step: CdcStep): CdcState {
    match step
    case Publish(envelopes) => st.(log := st.log + envelopes)
    case Connect => st.(live := Some(ResumeAt(st.log, st.committed)), held := false)
    case Receive(born) =>
      if st.live.Some? && st.live.value < |st.log| && !st.held then
        var e := st.log[st.live.value];
        st.(store := EnqueueOne(st.store, CdcIdentity(sha, topic, e), CdcEvent(topic, e), born), held := true)
      else st
    case Commit =>
      if st.live.Some? && st.live.value < |st.log| && st.held
      then st.(committed := Some(st.log[st.live.value].replayId), live := Some(st.live.value + 1), held := false)
      else st
    case Disconnect => st.(live := None, held := false)
    case Elsewhere(events, supply) =>
      if |events| == |supply| then st.(store := EnqueueAll(sha, st.store, events, supply)) else st
    case QueueMoves(jobs) => st.(store := st.store.(jobs := jobs))
  }

  ghost predicate DistinctIds(log: seq<Envelope>) {
    forall i, j :: 0 <= i < j < |log| ==> log[i].replayId != log[j].replayId
  }

  /** Replay ids are not used twice, and nobody else enqueues events under the topic's identities. */
  ghost predicate CdcLegal(sha: string -> string, topic: string, st: CdcState, step: CdcStep) {
    match step
    case Publish(envelopes) => DistinctIds(st.log + envelopes)
    case Receive(born) => born.id !in st.store.jobs
    case Elsewhere(events, supply) =>
      |events| == |supply| && Unused(st.store, supply)
      && forall i :: 0 <= i < |events| ==> !TopicName(topic, Identity(sha, events[i]))
    case QueueMoves(jobs) =>
      jobs.Keys == st.store.jobs.Keys && forall id :: id in jobs ==> jobs[id].event == st.store.jobs[id].event
    case _ => true
  }

  function CdcRun(sha: string -> string, topic: string, st: CdcState, steps: seq<CdcStep>): CdcState
    decreases |steps|
  {
    if steps == [] then st else CdcRun(sha, topic, CdcNext(sha, topic, st, steps[0]), steps[1..])
  }

  ghost predicate CdcLegalRun(sha: string -> string, topic: string, st: CdcState, steps: seq<CdcStep>)
    decreases |steps|
  {
    steps == [] || (CdcLegal(sha, topic, st, steps[0]) && CdcLegalRun(sha, topic, CdcNext(sha, topic, st, steps[0]), steps[1..]))
  }

  /** Every envelope before position `n` has a job. */
  ghost predicate EnqueuedUpTo(sha: string -> string, topic: string, st: CdcState, n: nat) {
    n <= |st.log| && forall i :: 0 <= i < n ==> CdcIdentity(sha, topic, st.log[i]) in st.store.index
  }

  /** Under an identity of the topic the queue holds what an envelope of the log says. */
  ghost predicate Relayed(sha: string -> string, topic: string, log: seq<Envelope>, store: Store) {
    forall v :: v in store.index && TopicName(topic, v) ==> RelaysOne(sha, topic, log, store, v)
  }

  predicate RelaysOne(sha: string -> string, topic: string, log: seq<Envelope>, store: Store, v: string)
    requires v in store.index
  {
    store.index[v] in store.jobs
    && exists i :: 0 <= i < |log| && CdcIdentity(sha, topic, log[i]) == v && Relays(store.jobs[store.index[v]].event, log[i])
  }

  ghost predicate CdcInv(sha: string -> string, topic: string, st: CdcState) {
    && Valid(st.store) && DistinctIds(st.log) && Relayed(sha, topic, st.log, st.store)
    && (st.committed.Some? ==> IndexOf(st.log, st.committed.value) < |st.log|)
    && EnqueuedUpTo(sha, topic, st, ResumeAt(st.log, st.committed))
    && (st.live.Some? ==> st.live.value == ResumeAt(st.log, st.committed))
    && (st.held ==> st.live.Some? && EnqueuedUpTo(sha, topic, st, st.live.value + 1))
  }

  lemma {:induction false} IndexStays(log: seq<Envelope>, more: seq<Envelope>, replayId: string)
    requires IndexOf(log, replayId) < |log|
    ensures IndexOf(log + more, replayId) == IndexOf(log, replayId)
  {
    assert (log + more)[0] == log[0];
    if log[0].replayId != replayId {
      assert (log + more)[1..] == log[1..] + more;
      IndexStays(log[1..], more, replayId);
    }
  }

  lemma StoreGrows(sha: string -> string, topic: string, st: CdcState, after: CdcState, n: nat)
    requires EnqueuedUpTo(sha, topic, st, n) && st.log <= after.log
    requires forall v :: v in st.store.index ==> v in after.store.index
    ensures EnqueuedUpTo(sha, topic, after, n)
  {
  }

  lemma PublishKeeps(sha: string -> string, topic: string, st: CdcState, envelopes: seq<Envelope>)
    requires CdcInv(sha, topic, st) && DistinctIds(st.log + envelopes)
    ensures CdcInv(sha, topic, st.(log := st.log + envelopes))
  {
    if st.committed.Some? { IndexStays(st.log, envelopes, st.committed.value); }
    forall v | v in st.store.index && TopicName(topic, v) ensures RelaysOne(sha, topic, st.log + envelopes, st.store, v) {
      var i :| 0 <= i < |st.log| && CdcIdentity(sha, topic, st.log[i]) == v && Relays(st.store.jobs[st.store.index[v]].event, st.log[i]);
      assert (st.log + envelopes)[i] == st.log[i];
    }
  }

  lemma CommitKeeps(sha: string -> string, topic: string, st: CdcState)
    requires CdcInv(sha, topic, st)
    ensures CdcInv(sha, topic, CdcNext(sha, topic, st, Commit))
  {
    if st.live.Some? && st.live.value < |st.log| && st.held {
      var at := IndexOf(st.log, st.log[st.live.value].replayId);
      assert at == st.live.value;
    }
  }

  lemma ReceiveKeeps(sha: string -> string, topic: string, st: CdcState, born: Fresh)
    requires CdcInv(sha, topic, st) && born.id !in st.store.jobs
    ensures CdcInv(sha, topic, CdcNext(sha, topic, st, Receive(born)))
  {
    if st.live.Some? && st.live.value < |st.log| && !st.held {
      var e := st.log[st.live.value];
      EnqueueOneValid(st.store, CdcIdentity(sha, topic, e), CdcEvent(topic, e), born);
      ReceivedCovered(sha, topic, st, CdcNext(sha, topic, st, Receive(born)), st.live.value);
      ReceivedRelayed(sha, topic, st.log, st.store, st.live.value, born);
    }
  }

  lemma ReceivedRelayed(sha: string -> string, topic: string, log: seq<Envelope>, store: Store, n: nat, born: Fresh)
    requires n < |log| && Valid(store) && born.id !in store.jobs && Relayed(sha, topic, log, store)
    ensures Relayed(sha, topic, log, EnqueueOne(store, CdcIdentity(sha, topic, log[n]), CdcEvent(topic, log[n]), born))
  {
    var after := EnqueueOne(store, CdcIdentity(sha, topic, log[n]), CdcEvent(topic, log[n]), born);
    forall v | v in after.index && TopicName(topic, v) ensures RelaysOne(sha, topic, log, after, v) {
      if v in store.index { assert RelaysOne(sha, topic, log, store, v); }
    }
  }

  /** Events from elsewhere leave the topic's identities alone. */
  lemma ElsewhereRelayed(sha: string -> string, topic: string, log: seq<Envelope>, store: Store, events: seq<Event>, supply: seq<Fresh>)
    requires |events| == |supply| && Valid(store) && Unused(store, supply) && Relayed(sha, topic, log, store)
    requires forall i :: 0 <= i < |events| ==> !TopicName(topic, Identity(sha, events[i]))
    ensures Relayed(sha, topic, log, EnqueueAll(sha, store, events, supply))
  {
    var after := EnqueueAll(sha, store, events, supply);
    EnqueueKeeps(sha, store, events, supply);
    forall v | v in after.index && TopicName(topic, v) ensures RelaysOne(sha, topic, log, after, v) {
      if v !in store.index { NotYetKnown(sha, store, events, supply, v); }
      assert RelaysOne(sha, topic, log, store, v);
    }
  }

  lemma MovedRelayed(sha: string -> string, topic: string, log: seq<Envelope>, store: Store, jobs: map<JobId, Job>)
    requires Relayed(sha, topic, log, store)
    requires jobs.Keys == store.jobs.Keys && forall id :: id in jobs ==> jobs[id].event == store.jobs[id].event
    ensures Relayed(sha, topic, log, store.(jobs := jobs))
  {
    forall v | v in store.index && TopicName(topic, v) ensures RelaysOne(sha, topic, log, store.(jobs := jobs), v) {
      assert RelaysOne(sha, topic, log, store, v);
    }
  }

  /** So an enqueued envelope has a job that says what it says. */
  lemma EnvelopeRelayed(sha: string -> string, topic: string, st: CdcState, i: nat)
    requires CdcInv(sha, topic, st) && i < |st.log| && CdcIdentity(sha, topic, st.log[i]) in st.store.index
    ensures HasRelay(st.store, st.log[i])
  {
    var v := CdcIdentity(sha, topic, st.log[i]);
    NamedByTopic(sha, topic, st.log[i]);
    assert RelaysOne(sha, topic, st.log, st.store, v);
    var j :| 0 <= j < |st.log| && CdcIdentity(sha, topic, st.log[j]) == v && Relays(st.store.jobs[st.store.index[v]].event, st.log[j]);
    SameEnvelope(sha, topic, st.log[i], st.log[j]);
  }

  /** Some job says what the envelope says. */
  predicate HasRelay(store: Store, e: Envelope) {
    exists id :: id in store.jobs && Relays(store.jobs[id].event, e)
  }

  /** Once the envelope in hand is enqueued, so is everything up to it. */
  lemma ReceivedCovered(sha: string -> string, topic: string, st: CdcState, after: CdcState, n: nat)
    requires EnqueuedUpTo(sha, topic, st, n) && n < |st.log| && after.log == st.log
    requires (forall v :: v in st.store.index ==> v in after.store.index) && CdcIdentity(sha, topic, st.log[n]) in after.store.index
    ensures EnqueuedUpTo(sha, topic, after, n) && EnqueuedUpTo(sha, topic, after, n + 1)
  {
  }

  lemma CdcStepKeeps(sha: string -> string, topic: string, st: CdcState, step: CdcStep)
    requires CdcInv(sha, topic, st) && CdcLegal(sha, topic, st, step)
    ensures CdcInv(sha, topic, CdcNext(sha, topic, st, step))
  {
    match step
    case Publish(envelopes) => PublishKeeps(sha, topic, st, envelopes);
    case Receive(born) => ReceiveKeeps(sha, topic, st, born);
    case Commit => CommitKeeps(sha, topic, st);
    case Elsewhere(events, supply) =>
      EnqueueKeeps(sha, st.store, events, supply);
      ElsewhereRelayed(sha, topic, st.log, st.store, events, supply);
      StoreGrows(sha, topic, st, CdcNext(sha, topic, st, step), ResumeAt(st.log, st.committed));
    case QueueMoves(jobs) =>
      SameEventsValid(st.store, jobs);
      MovedRelayed(sha, topic, st.log, st.store, jobs);
    case _ =>
  }

  lemma SameEventsValid(st: Store, jobs: map<JobId, Job>)
    requires Valid(st) && jobs.Keys == st.jobs.Keys && forall id :: id in jobs ==> jobs[id].event == st.jobs[id].event
    ensures Valid(st.(jobs := jobs))
  {
  }

  /** At most one job has the identity. */
  ghost predicate NotTwice(st: Store, v: string) {
    forall a, b :: a in st.jobs && b in st.jobs && st.jobs[a].event.eventId == Some(v) && st.jobs[b].event.eventId == Some(v) ==> a == b
  }

  /** Over any run of publications, crashes and reconnections, every envelope up to the committed
      replay id has a job that says what it says, and no envelope ever has two. */
  lemma {:induction false} PersistBeforeCommit(sha: string -> string, topic: string, st: CdcState, steps: seq<CdcStep>)
    requires CdcInv(sha, topic, st) && CdcLegalRun(sha, topic, st, steps)
    ensures var end := CdcRun(sha, topic, st, steps);
            && CdcInv(sha, topic, end)
            && (forall i, j :: 0 <= i <= j < |end.log| && end.committed == Some(end.log[j].replayId) ==> HasRelay(end.store, end.log[i]))
            && (forall i :: 0 <= i < |end.log| ==> NotTwice(end.store, CdcIdentity(sha, topic, end.log[i])))
    decreases |steps|
  {
    if steps != [] {
      CdcStepKeeps(sha, topic, st, steps[0]);
      PersistBeforeCommit(sha, topic, CdcNext(sha, topic, st, steps[0]), steps[1..]);
    } else {
      forall i, j | 0 <= i <= j < |st.log| && st.committed == Some(st.log[j].replayId) ensures HasRelay(st.store, st.log[i]) {
        assert IndexOf(st.log, st.log[j].replayId) == j;
        EnvelopeRelayed(sha, topic, st, i);
      }
    }
  }

  // ----- the classes -----

  class InMemoryReplayCursorStore {
    var cursors: map<string, string>

    constructor ()
      ensures cursors == map[]
    {
      cursors := map[];
    }

    method Get(system: SystemId, stream: string) returns (replayId: Option<string>)
      ensures replayId == Cursor(cursors, system, stream)
    {
      var key := SystemName(system) + ":" + stream;
      replayId := if key in cursors then Some(cursors[key]) else None;
    }

    method CommitCursor(system: SystemId, stream: string, replayId: string)
      modifies this
      ensures cursors == old(cursors)[SystemName(system) + ":" + stream := replayId]
    {
      cursors := cursors[SystemName(system) + ":" + stream := replayId];
    }
  }

  function Cursor(cursors: map<string, string>, system: SystemId, stream: string): Option<string> {
    if SystemName(system) + ":" + stream in cursors then Some(cursors[SystemName(system) + ":" + stream]) else None
  }

  function CdcEvents(topic: string, envelopes: seq<Envelope>): seq<Event> {
    seq(|envelopes|, i requires 0 <= i < |envelopes| => CdcEvent(topic, envelopes[i]))
  }

  class SalesforceCdcWorker {
    const cursors: InMemoryReplayCursorStore
    const store: InMemorySyncEventStore

    constructor (cursors: InMemoryReplayCursorStore, store: InMemorySyncEventStore)
      ensures this.cursors == cursors && this.store == store
    {
      this.cursors, this.store := cursors, store;
    }

    /** One envelope: it is enqueued, and then its replay id is committed. */
    method ConsumeOne(sha: string -> string, topic: string, e: Envelope, born: Fresh)
      requires Valid(store.State()) && Unused(store.State(), [born])
      modifies cursors, store
      ensures Valid(store.State())
      ensures store.State() == EnqueueAll(sha, old(store.State()), [CdcEvent(topic, e)], [born])
      ensures Cursor(cursors.cursors, Salesforce, topic) == Some(e.replayId)
    {
      var _ := store.Enqueue(sha, [CdcEvent(topic, e)], [born]);
      cursors.CommitCursor(Salesforce, topic, e.replayId);
    }

    /** The inner loop of `consume`, for what one subscription delivers before it ends: every
        envelope has been enqueued and the last one's replay id committed. */
    method Consume(sha: string -> string, topic: string, envelopes: seq<Envelope>, supply: seq<Fresh>)
      requires |envelopes| == |supply| && Valid(store.State()) && Unused(store.State(), supply)
      modifies cursors, store
      ensures Valid(store.State())
      ensures store.State() == EnqueueAll(sha, old(store.State()), CdcEvents(topic, envelopes), supply)
      ensures forall id :: id in store.jobs ==>
                (id in old(store.jobs) && store.jobs[id] == old(store.jobs)[id]) || RelayedAnew(envelopes, store.jobs[id])
      ensures envelopes != [] ==> Cursor(cursors.cursors, Salesforce, topic) == Some(envelopes[|envelopes| - 1].replayId)
      ensures envelopes == [] ==> cursors.cursors == old(cursors.cursors)
    {
      for i := 0 to |envelopes|
        invariant Valid(store.State())
        invariant store.State() == EnqueueAll(sha, old(store.State()), CdcEvents(topic, envelopes[..i]), supply[..i])
        invariant i > 0 ==> Cursor(cursors.cursors, Salesforce, topic) == Some(envelopes[i - 1].replayId)
        invariant i == 0 ==> cursors.cursors == old(cursors.cursors)
      {
        NextUnused(sha, old(store.State()), CdcEvents(topic, envelopes[..i]), supply, i);
        OneMoreEvent(sha, topic, old(store.State()), envelopes, supply, i);
        ConsumeOne(sha, topic, envelopes[i], supply[i]);
      }
      assert envelopes[..|envelopes|] == envelopes && supply[..|supply|] == supply;
      forall id | id in store.jobs
        ensures (id in old(store.jobs) && store.jobs[id] == old(store.jobs)[id]) || RelayedAnew(envelopes, store.jobs[id])
      {
        EnvelopesMake(sha, topic, old(store.State()), envelopes, supply, id);
      }
    }
  }

  /** A new job, waiting for its first attempt, says what one of the envelopes says. */
  predicate RelayedAnew(envelopes: seq<Envelope>, job: Job) {
    job.status == Queued && job.attempts == 0 && exists e :: e in envelopes && Relays(job.event, e)
  }

  lemma EnvelopesMake(sha: string -> string, topic: string, st: Store, envelopes: seq<Envelope>, supply: seq<Fresh>, id: JobId)
    requires |envelopes| == |supply| && id in EnqueueAll(sha, st, CdcEvents(topic, envelopes), supply).jobs
    ensures var job := EnqueueAll(sha, st, CdcEvents(topic, envelopes), supply).jobs[id];
            (id in st.jobs && job == st.jobs[id]) || RelayedAnew(envelopes, job)
  {
    EnqueueMakes(sha, st, CdcEvents(topic, envelopes), supply, id);
    var job := EnqueueAll(sha, st, CdcEvents(topic, envelopes), supply).jobs[id];
    if !(id in st.jobs && job == st.jobs[id]) { EnvelopeMakes(sha, topic, envelopes, supply, id, job); }
  }

  lemma EnvelopeMakes(sha: string -> string, topic: string, envelopes: seq<Envelope>, supply: seq<Fresh>, id: JobId, job: Job)
    requires |envelopes| == |supply| && MadeForOne(sha, CdcEvents(topic, envelopes), supply, id, job)
    ensures RelayedAnew(envelopes, job)
  {
    var events := CdcEvents(topic, envelopes);
    var i :| 0 <= i < |events| && MadeFor(job, events[i], Identity(sha, events[i]), supply[i].now);
    assert events[i] == CdcEvent(topic, envelopes[i]);
    MadeRelays(topic, envelopes[i], job, Identity(sha, events[i]), supply[i].now);
  }

  lemma MadeRelays(topic: string, e: Envelope, job: Job, v: string, now: Time)
    requires MadeFor(job, CdcEvent(topic, e), v, now)
    ensures job.status == Queued && job.attempts == 0 && Relays(job.event, e)
  {
  }

  lemma NextUnused(sha: string -> string, st: Store, events: seq<Event>, supply: seq<Fresh>, i: nat)
    requires i < |supply| && |events| == i && Valid(st) && Unused(st, supply)
    ensures Unused(EnqueueAll(sha, st, events, supply[..i]), [supply[i]])
  {
    assert Unused(st, supply[..i]);
    EnqueueKeeps(sha, st, events, supply[..i]);
    assert supply[i].id !in Supplied(supply[..i]);
  }

  lemma OneMoreEvent(sha: string -> string, topic: string, st: Store, envelopes: seq<Envelope>, supply: seq<Fresh>, i: nat)
    requires |envelopes| == |supply| && i < |envelopes|
    ensures EnqueueAll(sha, st, CdcEvents(topic, envelopes[..i + 1]), supply[..i + 1])
            == EnqueueAll(sha, EnqueueAll(sha, st, CdcEvents(topic, envelopes[..i]), supply[..i]),
                          [CdcEvent(topic, envelopes[i])], [supply[i]])
  {
    assert CdcEvents(topic, envelopes[..i + 1]) == CdcEvents(topic, envelopes[..i]) + [CdcEvent(topic, envelopes[i])];
    assert supply[..i + 1] == supply[..i] + [supply[i]];
    BatchesCompose(sha, st, CdcEvents(topic, envelopes[..i]), [CdcEvent(topic, envelopes[i])], supply[..i], [supply[i]]);
  }
}

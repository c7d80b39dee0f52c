/** The durable job queue behind the sync engine (src/engine/syncEventStore.ts). */
module EventStore {
  import opened Canonical

  type JobId = string

  datatype Change = Created | Updated | Deleted

  /** A vendor's change event. Stored events carry their identity as `eventId`. */
  datatype Event = Event(
    system: SystemId,
    objectType: string,
    sourceId: Id,
    change: Change,
    occurredAt: string,
    eventId: Option<string>)

  datatype Status = Queued | Processing | Retry | Completed | DeadLetter | ManualReview | Dismissed

  datatype Job = Job(
    event: Event,
    status: Status,
    attempts: nat,
    nextAttemptAt: Time,
    lastError: Option<string>,
    createdAt: Time)

  /** The jobs in insertion order, and the job each event identity belongs to. */
  datatype Store = Store(order: seq<JobId>, jobs: map<JobId, Job>, index: map<string, JobId>)

  const EMPTY_STORE := Store([], map[], map[])

  // ----- identities -----

  function SystemName(s: SystemId): string { if s == Salesforce then "salesforce" else "hubspot" }

  function ChangeName(c: Change): string {
    match c case Created => "created" case Updated => "updated" case Deleted => "deleted"
  }

  /** The vendor's own event id within its system, or a digest of what the event says. */
  function Identity(sha: string -> string, e: Event): string {
    if e.eventId.Some? && e.eventId.value != "" then SystemName(e.system) + ":" + e.eventId.value
    else sha(SystemName(e.system) + ":" + e.objectType + ":" + e.sourceId + ":" + ChangeName(e.change) + ":" + e.occurredAt)
  }

  predicate HasVendorId(e: Event) { e.eventId.Some? && e.eventId.value != "" }

  /** Events that carry the vendor's id are told apart by system and id. */
  lemma VendorIdsTell(sha: string -> string, e: Event, f: Event)
    requires HasVendorId(e) && HasVendorId(f)
    ensures Identity(sha, e) == Identity(sha, f) <==> e.system == f.system && e.eventId == f.eventId
  {
    var a, b := SystemName(e.system) + ":", SystemName(f.system) + ":";
    assert (a + e.eventId.value)[0] == a[0] && (b + f.eventId.value)[0] == b[0];
    if Identity(sha, e) == Identity(sha, f) {
      assert e.eventId.value == (a + e.eventId.value)[|a|..] && f.eventId.value == (b + f.eventId.value)[|b|..];
    }
  }

  /** The two events agree on everything but one thing they say. */
  predicate AlikeButOne(e: Event, f: Event) {
    || e == f.(system := e.system) || e == f.(objectType := e.objectType) || e == f.(sourceId := e.sourceId)
    || e == f.(change := e.change) || e == f.(occurredAt := e.occurredAt)
  }

  function EventText(e: Event): string {
    SystemName(e.system) + ":" + e.objectType + ":" + e.sourceId + ":" + ChangeName(e.change) + ":" + e.occurredAt
  }

  /** The others are told apart by each thing they say, unless the digest collides on them. */
  lemma DigestsTell(sha: string -> string, e: Event, f: Event)
    requires !HasVendorId(e) && !HasVendorId(f) && AlikeButOne(e, f)
    requires sha(EventText(e)) == sha(EventText(f)) ==> EventText(e) == EventText(f)
    ensures Identity(sha, e) == Identity(sha, f) <==> e == f
  {
    if EventText(e) == EventText(f) { EventTextTells(e, f); }
  }

  lemma EventTextTells(e: Event, f: Event)
    requires AlikeButOne(e, f) && EventText(e) == EventText(f)
    ensures e == f
  {
    if e == f.(system := e.system) {
      assert EventText(e)[0] == SystemName(e.system)[0] && EventText(f)[0] == SystemName(f.system)[0];
    } else {
      TextParts(e, f);
    }
  }

  lemma TextParts(e: Event, f: Event)
    requires EventText(e) == EventText(f) && e.system == f.system
    ensures e == f.(objectType := e.objectType) ==> e == f
    ensures e == f.(sourceId := e.sourceId) ==> e == f
    ensures e == f.(change := e.change) ==> e == f
    ensures e == f.(occurredAt := e.occurredAt) ==> e == f
  {
    var p := SystemName(e.system) + ":";
    if e == f.(objectType := e.objectType) {
      TypeTold(p, e.objectType, f.objectType, e.sourceId, ChangeName(e.change), e.occurredAt);
    } else if e == f.(sourceId := e.sourceId) {
      IdTold(p + e.objectType + ":", e.sourceId, f.sourceId, ChangeName(e.change), e.occurredAt);
    } else if e == f.(change := e.change) {
      ChangeTold(p + e.objectType + ":" + e.sourceId + ":", ChangeName(e.change), ChangeName(f.change), e.occurredAt);
      ChangeNamesTell(e.change, f.change);
    } else if e == f.(occurredAt := e.occurredAt) {
      SameAfter(p + e.objectType + ":" + e.sourceId + ":" + ChangeName(e.change) + ":", e.occurredAt, f.occurredAt);
    }
  }

  lemma ChangeNamesTell(a: Change, b: Change)
    requires ChangeName(a) == ChangeName(b)
    ensures a == b
  {
    assert ChangeName(a)[0] == ChangeName(b)[0];
  }

  lemma SameAfter(p: string, a: string, b: string)
    requires p + a == p + b
    ensures a == b
  {
    assert a == (p + a)[|p|..] && b == (p + b)[|p|..];
  }

  lemma SameBefore(a: string, b: string, q: string)
    requires a + q == b + q
    ensures a == b
  {
    assert a == (a + q)[..|a + q| - |q|] && b == (b + q)[..|b + q| - |q|];
  }

  lemma ChangeTold(p: string, a: string, b: string, q: string)
    requires p + a + ":" + q == p + b + ":" + q
    ensures a == b
  {
    SameBefore(p + a + ":", p + b + ":", q);
    SameBefore(p + a, p + b, ":");
    SameAfter(p, a, b);
  }

  lemma IdTold(p: string, a: string, b: string, c: string, q: string)
    requires p + a + ":" + c + ":" + q == p + b + ":" + c + ":" + q
    ensures a == b
  {
    SameBefore(p + a + ":" + c + ":", p + b + ":" + c + ":", q);
    SameBefore(p + a + ":" + c, p + b + ":" + c, ":");
    ChangeTold(p, a, b, c);
  }

  lemma TypeTold(p: string, a: string, b: string, i: string, c: string, q: string)
    requires p + a + ":" + i + ":" + c + ":" + q == p + b + ":" + i + ":" + c + ":" + q
    ensures a == b
  {
    SameBefore(p + a + ":" + i + ":" + c + ":", p + b + ":" + i + ":" + c + ":", q);
    SameBefore(p + a + ":" + i + ":" + c, p + b + ":" + i + ":" + c, ":");
    IdTold(p, a, b, i, c);
  }

  // ----- what every store keeps -----

  ghost predicate NoRepeats(ids: seq<JobId>) {
    forall i, j :: 0 <= i < j < |ids| ==> ids[i] != ids[j]
  }

  /** The order lists every job once, and identities and jobs are in bijection. */
  ghost predicate Valid(st: Store) {
    && NoRepeats(st.order)
    && (forall id :: id in st.order <==> id in st.jobs)
    && (forall v :: v in st.index ==> st.index[v] in st.jobs && st.jobs[st.index[v]].event.eventId == Some(v))
    && (forall id :: id in st.jobs ==>
          && st.jobs[id].event.eventId.Some?
          && st.jobs[id].event.eventId.value in st.index && st.index[st.jobs[id].event.eventId.value] == id)
  }

  /** The bijection, both ways. */
  lemma OneJobPerIdentity(st: Store, v: string, id: JobId)
    requires Valid(st)
    ensures v in st.index && st.index[v] == id <==> id in st.jobs && st.jobs[id].event.eventId == Some(v)
  {
  }

  // ----- enqueueing -----

  /** A new job id and the time it is created. */
  datatype Fresh = Fresh(id: JobId, now: Time)

  function NewJob(e: Event, v: string, now: Time): Job {
    Job(e.(eventId := Some(v)), Queued, 0, now, None, now)
  }

  function EnqueueOne(st: Store, v: string, e: Event, born: Fresh): Store {
    if v in st.index then st
    else Store(st.order + [born.id], st.jobs[born.id := NewJob(e, v, born.now)], st.index[v := born.id])
  }

  function EnqueueAll(sha: string -> string, st: Store, events: seq<Event>, supply: seq<Fresh>): Store
    requires |events| == |supply|
  {
    if events == [] then st
    else
      var n := |events| - 1;
      EnqueueOne(EnqueueAll(sha, st, events[..n], supply[..n]), Identity(sha, events[n]), events[n], supply[n])
  }

  /** The supplied ids are new and all different. */
  ghost predicate Unused(st: Store, supply: seq<Fresh>) {
    && (forall i :: 0 <= i < |supply| ==> supply[i].id !in st.jobs)
    && (forall i, j :: 0 <= i < j < |supply| ==> supply[i].id != supply[j].id)
  }

  function Supplied(supply: seq<Fresh>): set<JobId> { set f | f in supply :: f.id }

  /** Nothing is forgotten, and only the supplied ids are new. */
  ghost predicate GrownBy(before: Store, after: Store, ids: set<JobId>) {
    && (forall id :: id in before.jobs ==> id in after.jobs && after.jobs[id] == before.jobs[id])
    && (forall v :: v in before.index ==> v in after.index && after.index[v] == before.index[v])
    && after.jobs.Keys <= before.jobs.Keys + ids
  }

  lemma AddKeepsValid(st: Store, v: string, id: JobId, job: Job)
    requires Valid(st) && id !in st.jobs && v !in st.index && job.event.eventId == Some(v)
    ensures Valid(Store(st.order + [id], st.jobs[id := job], st.index[v := id]))
  {
    assert id !in st.order;
  }

  lemma EnqueueOneValid(st: Store, v: string, e: Event, born: Fresh)
    requires Valid(st) && born.id !in st.jobs
    ensures Valid(EnqueueOne(st, v, e, born))
    ensures GrownBy(st, EnqueueOne(st, v, e, born), {born.id})
  {
    if v !in st.index {
      AddKeepsValid(st, v, born.id, NewJob(e, v, born.now));
    }
  }

  lemma Shorter(st: Store, supply: seq<Fresh>)
    requires supply != [] && Unused(st, supply)
    ensures Unused(st, supply[..|supply| - 1])
    ensures Supplied(supply) == Supplied(supply[..|supply| - 1]) + {supply[|supply| - 1].id}
    ensures supply[|supply| - 1].id !in Supplied(supply[..|supply| - 1])
  {
    var n := |supply| - 1;
    assert supply == supply[..n] + [supply[n]];
  }

  /** A batch keeps the bijection and forgets nothing. */
  lemma {:induction false} EnqueueKeeps(sha: string -> string, st: Store, events: seq<Event>, supply: seq<Fresh>)
    requires |events| == |supply| && Valid(st) && Unused(st, supply)
    ensures Valid(EnqueueAll(sha, st, events, supply))
    ensures GrownBy(st, EnqueueAll(sha, st, events, supply), Supplied(supply))
  {
    if events != [] {
      var n := |events| - 1;
      var before := EnqueueAll(sha, st, events[..n], supply[..n]);
      Shorter(st, supply);
      EnqueueKeeps(sha, st, events[..n], supply[..n]);
      EnqueueOneValid(before, Identity(sha, events[n]), events[n], supply[n]);
    }
  }

  /** The job an event ends up with. */
  function JobFor(st: Store, v: string, born: Fresh): JobId {
    if v in st.index then st.index[v] else born.id
  }

  /** What enqueueing answers: one job id for each event. */
  function Answers(sha: string -> string, st: Store, events: seq<Event>, supply: seq<Fresh>): (r: seq<JobId>)
    requires |events| == |supply|
    ensures |r| == |events|
  {
    if events == [] then []
    else
      var n := |events| - 1;
      Answers(sha, st, events[..n], supply[..n])
        + [JobFor(EnqueueAll(sha, st, events[..n], supply[..n]), Identity(sha, events[n]), supply[n])]
  }

  /** Every event has a job afterwards, and it is the one that was answered. */
  lemma {:induction false} EnqueueCovers(sha: string -> string, st: Store, events: seq<Event>, supply: seq<Fresh>, i: nat)
    requires |events| == |supply| && i < |events|
    ensures var after := EnqueueAll(sha, st, events, supply);
            Identity(sha, events[i]) in after.index
            && after.index[Identity(sha, events[i])] == Answers(sha, st, events, supply)[i]
  {
    if i < |events| - 1 {
      EnqueueCovers(sha, st, events[..|events| - 1], supply[..|events| - 1], i);
    }
  }

  /** A job that has just been made for an event: it says what the event says, under the event's
      identity, and is due at once. */
  predicate MadeFor(job: Job, e: Event, v: string, now: Time) {
    && job.event.system == e.system && job.event.objectType == e.objectType && job.event.sourceId == e.sourceId
    && job.event.change == e.change && job.event.occurredAt == e.occurredAt && job.event.eventId == Some(v)
    && job.status == Queued && job.attempts == 0 && job.lastError == None
    && job.nextAttemptAt == now && job.createdAt == now
  }

  /** Every job is one that was there before, as it was, or has just been made for one of the events. */
  lemma {:induction false} EnqueueMakes(sha: string -> string, st: Store, events: seq<Event>, supply: seq<Fresh>, id: JobId)
    requires |events| == |supply| && id in EnqueueAll(sha, st, events, supply).jobs
    ensures var job := EnqueueAll(sha, st, events, supply).jobs[id];
            (id in st.jobs && job == st.jobs[id]) || MadeForOne(sha, events, supply, id, job)
  {
    if events != [] {
      var n := |events| - 1;
      var before, job := EnqueueAll(sha, st, events[..n], supply[..n]), EnqueueAll(sha, st, events, supply).jobs[id];
      if id in before.jobs && job == before.jobs[id] {
        EnqueueMakes(sha, st, events[..n], supply[..n], id);
        if !(id in st.jobs && job == st.jobs[id]) { MadeInLonger(sha, events, supply, n, id, job); }
      } else {
        assert supply[n].id == id && MadeFor(job, events[n], Identity(sha, events[n]), supply[n].now);
      }
    }
  }

  predicate MadeForOne(sha: string -> string, events: seq<Event>, supply: seq<Fresh>, id: JobId, job: Job)
    requires |events| == |supply|
  {
    exists i :: 0 <= i < |events| && supply[i].id == id && MadeFor(job, events[i], Identity(sha, events[i]), supply[i].now)
  }

  lemma MadeInLonger(sha: string -> string, events: seq<Event>, supply: seq<Fresh>, n: nat, id: JobId, job: Job)
    requires |events| == |supply| && n <= |events| && MadeForOne(sha, events[..n], supply[..n], id, job)
    ensures MadeForOne(sha, events, supply, id, job)
  {
    var i :| 0 <= i < n && supply[..n][i].id == id && MadeFor(job, events[..n][i], Identity(sha, events[..n][i]), supply[..n][i].now);
    assert events[..n][i] == events[i] && supply[..n][i] == supply[i];
  }

  /** An event whose identity is new to the queue and to the batch before it gets its own job. */
  lemma {:induction false} NewEventsGetJobs(sha: string -> string, st: Store, events: seq<Event>, supply: seq<Fresh>, i: nat)
    requires |events| == |supply| && i < |events| && Valid(st) && Unused(st, supply)
    requires Identity(sha, events[i]) !in st.index
    requires forall j :: 0 <= j < i ==> Identity(sha, events[j]) != Identity(sha, events[i])
    ensures var after := EnqueueAll(sha, st, events, supply);
            && supply[i].id in after.jobs
            && MadeFor(after.jobs[supply[i].id], events[i], Identity(sha, events[i]), supply[i].now)
  {
    var n := |events| - 1;
    var before := EnqueueAll(sha, st, events[..n], supply[..n]);
    if i < n {
      assert supply[n].id !in before.jobs by { LastUnused(sha, st, events[..n], supply); }
      assert supply[i].id in before.jobs && MadeFor(before.jobs[supply[i].id], events[i], Identity(sha, events[i]), supply[i].now) by {
        Shorter(st, supply);
        assert forall j :: 0 <= j <= i ==> events[..n][j] == events[j];
        NewEventsGetJobs(sha, st, events[..n], supply[..n], i);
      }
      JobKept(before, Identity(sha, events[n]), events[n], supply[n], supply[i].id);
    } else {
      NotYetKnown(sha, st, events[..n], supply[..n], Identity(sha, events[n]));
    }
  }

  lemma LastUnused(sha: string -> string, st: Store, events: seq<Event>, supply: seq<Fresh>)
    requires |supply| == |events| + 1 && Valid(st) && Unused(st, supply)
    ensures supply[|events|].id !in EnqueueAll(sha, st, events, supply[..|events|]).jobs
  {
    Shorter(st, supply);
    EnqueueKeeps(sha, st, events, supply[..|events|]);
  }

  lemma JobKept(st: Store, v: string, e: Event, born: Fresh, id: JobId)
    requires id in st.jobs && born.id !in st.jobs
    ensures id in EnqueueOne(st, v, e, born).jobs && EnqueueOne(st, v, e, born).jobs[id] == st.jobs[id]
  {
  }

  lemma {:induction false} NotYetKnown(sha: string -> string, st: Store, events: seq<Event>, supply: seq<Fresh>, v: string)
    requires |events| == |supply| && v !in st.index && forall j :: 0 <= j < |events| ==> Identity(sha, events[j]) != v
    ensures v !in EnqueueAll(sha, st, events, supply).index
  {
    if events != [] {
      var n := |events| - 1;
      assert forall j :: 0 <= j < n ==> events[..n][j] == events[j];
      NotYetKnown(sha, st, events[..n], supply[..n], v);
    }
  }

  /** What the queue says is kept, whatever becomes of the jobs. */
  ghost predicate KeepsEvents(before: Store, after: Store) {
    forall id :: id in before.jobs ==> id in after.jobs && after.jobs[id].event == before.jobs[id].event
  }

  /** Batches compose by concatenation. */
  lemma {:induction false} BatchesCompose(sha: string -> string, st: Store, a: seq<Event>, b: seq<Event>, fa: seq<Fresh>, fb: seq<Fresh>)
    requires |a| == |fa| && |b| == |fb|
    ensures EnqueueAll(sha, st, a + b, fa + fb) == EnqueueAll(sha, EnqueueAll(sha, st, a, fa), b, fb)
  {
    if b == [] {
      assert a + b == a && fa + fb == fa;
    } else {
      var n := |b| - 1;
      assert (a + b)[..|a + b| - 1] == a + b[..n] && (fa + fb)[..|a + b| - 1] == fa + fb[..n];
      BatchesCompose(sha, st, a, b[..n], fa, fb[..n]);
    }
  }

  /** Enqueueing events that all have a job changes nothing: duplicates are absorbed. */
  lemma {:induction false} EnqueueIdempotent(sha: string -> string, st: Store, events: seq<Event>, supply: seq<Fresh>)
    requires |events| == |supply|
    requires forall i :: 0 <= i < |events| ==> Identity(sha, events[i]) in st.index
    ensures EnqueueAll(sha, st, events, supply) == st
  {
    if events != [] {
      var n := |events| - 1;
      forall i | 0 <= i < n ensures Identity(sha, events[..n][i]) in st.index { assert events[..n][i] == events[i]; }
      EnqueueIdempotent(sha, st, events[..n], supply[..n]);
    }
  }

  // ----- claiming -----

  predicate Claimable(job: Job, now: Time) {
    (job.status == Queued || job.status == Retry) && job.nextAttemptAt <= now
  }

  function Eligible(st: Store, order: seq<JobId>, now: Time): (r: seq<JobId>)
    ensures forall id :: id in r <==> id in order && id in st.jobs && Claimable(st.jobs[id], now)
  {
    if order == [] then []
    else
      var n := |order| - 1;
      assert order == order[..n] + [order[n]];
      Eligible(st, order[..n], now) + (if order[n] in st.jobs && Claimable(st.jobs[order[n]], now) then [order[n]] else [])
  }

  /** Where a job goes among older ones: after every job that is not younger. */
  function Insert(st: Store, sorted: seq<JobId>, id: JobId): seq<JobId> {
    if sorted == [] then [id]
    else
      var n := |sorted| - 1;
      if sorted[n] in st.jobs && id in st.jobs && st.jobs[sorted[n]].createdAt > st.jobs[id].createdAt
      then Insert(st, sorted[..n], id) + [sorted[n]]
      else sorted + [id]
  }

  lemma {:induction false} InsertPermutes(st: Store, sorted: seq<JobId>, id: JobId)
    ensures multiset(Insert(st, sorted, id)) == multiset(sorted) + multiset{id}
  {
    if sorted != [] {
      var n := |sorted| - 1;
      assert sorted == sorted[..n] + [sorted[n]];
      InsertPermutes(st, sorted[..n], id);
    }
  }

  /** The stable sort by creation time. */
  function Oldest(st: Store, ids: seq<JobId>): seq<JobId> {
    if ids == [] then [] else Insert(st, Oldest(st, ids[..|ids| - 1]), ids[|ids| - 1])
  }

  lemma {:induction false} OldestPermutes(st: Store, ids: seq<JobId>)
    ensures multiset(Oldest(st, ids)) == multiset(ids)
  {
    if ids != [] {
      var n := |ids| - 1;
      assert ids == ids[..n] + [ids[n]];
      OldestPermutes(st, ids[..n]);
      InsertPermutes(st, Oldest(st, ids[..n]), ids[n]);
    }
  }

  function Take(ids: seq<JobId>, limit: nat): seq<JobId> { if |ids| <= limit then ids else ids[..limit] }

  function ClaimIds(st: Store, limit: nat, now: Time): seq<JobId> {
    Take(Oldest(st, Eligible(st, st.order, now)), limit)
  }

  function Claimed(job: Job): Job { job.(status := Processing, attempts := job.attempts + 1) }

  function MarkClaimed(st: Store, ids: seq<JobId>): Store {
    st.(jobs := map id | id in st.jobs :: if id in ids then Claimed(st.jobs[id]) else st.jobs[id])
  }

  function Claim(st: Store, limit: nat, now: Time): Store { MarkClaimed(st, ClaimIds(st, limit, now)) }

  predicate Precedes(order: seq<JobId>, a: JobId, b: JobId) {
    exists p, q :: 0 <= p < q < |order| && order[p] == a && order[q] == b
  }

  ghost predicate Subsequence(order: seq<JobId>, ids: seq<JobId>) {
    forall i, j :: 0 <= i < j < |ids| ==> Precedes(order, ids[i], ids[j])
  }

  /** Which of two jobs is served first: the older one, and of two equally old the one enqueued
      first. */
  predicate Before(st: Store, order: seq<JobId>, a: JobId, b: JobId) {
    && a in st.jobs && b in st.jobs
    && (st.jobs[a].createdAt < st.jobs[b].createdAt
        || (st.jobs[a].createdAt == st.jobs[b].createdAt && Precedes(order, a, b)))
  }

  ghost predicate InTurn(st: Store, order: seq<JobId>, ids: seq<JobId>) {
    forall i, j :: 0 <= i < j < |ids| ==> Before(st, order, ids[i], ids[j])
  }

  /** Inserting the latest arrival keeps the turn order. */
  lemma {:induction false} InsertInTurn(st: Store, order: seq<JobId>, sorted: seq<JobId>, id: JobId)
    requires InTurn(st, order, sorted) && id in st.jobs
    requires forall x :: x in sorted ==> x in st.jobs && Precedes(order, x, id)
    ensures InTurn(st, order, Insert(st, sorted, id))
  {
    if sorted != [] {
      var n := |sorted| - 1;
      var r := Insert(st, sorted, id);
      assert sorted[n] in sorted;
      if st.jobs[sorted[n]].createdAt > st.jobs[id].createdAt {
        var inner := Insert(st, sorted[..n], id);
        InsertInTurn(st, order, sorted[..n], id);
        InsertPermutes(st, sorted[..n], id);
        forall x | x in inner ensures Before(st, order, x, sorted[n]) {
          assert x in multiset(inner);
        }
      } else {
        forall i | 0 <= i < |sorted| ensures Before(st, order, sorted[i], id) {
          assert sorted[i] in sorted;
          if i < n { assert Before(st, order, sorted[i], sorted[n]); }
        }
      }
    }
  }

  lemma {:induction false} OldestInTurn(st: Store, order: seq<JobId>, ids: seq<JobId>)
    requires forall x :: x in ids ==> x in st.jobs
    requires Subsequence(order, ids)
    ensures InTurn(st, order, Oldest(st, ids))
  {
    if ids != [] {
      var n := |ids| - 1;
      assert ids == ids[..n] + [ids[n]];
      OldestInTurn(st, order, ids[..n]);
      OldestPermutes(st, ids[..n]);
      forall x | x in Oldest(st, ids[..n]) ensures x in st.jobs && Precedes(order, x, ids[n]) {
        assert x in multiset(ids[..n]);
      }
      InsertInTurn(st, order, Oldest(st, ids[..n]), ids[n]);
    }
  }

  lemma {:induction false} EligibleInOrder(st: Store, order: seq<JobId>, k: nat, now: Time)
    requires NoRepeats(order) && k <= |order|
    ensures Subsequence(order, Eligible(st, order[..k], now))
  {
    if k > 0 {
      EligibleInOrder(st, order, k - 1, now);
      assert order[..k][..k - 1] == order[..k - 1];
      var before, r := Eligible(st, order[..k - 1], now), Eligible(st, order[..k], now);
      if r != before {
        assert r == before + [order[k - 1]];
        forall i | 0 <= i < |before| ensures Precedes(order, before[i], order[k - 1]) {
          assert before[i] in before;
          EarlierPrecedes(order, k - 1, before[i]);
        }
        AppendSubsequence(order, before, order[k - 1]);
      }
    }
  }

  lemma AppendSubsequence(order: seq<JobId>, ids: seq<JobId>, last: JobId)
    requires Subsequence(order, ids) && forall i :: 0 <= i < |ids| ==> Precedes(order, ids[i], last)
    ensures Subsequence(order, ids + [last])
  {
    forall i, j | 0 <= i < j < |ids + [last]| ensures Precedes(order, (ids + [last])[i], (ids + [last])[j]) {
      if j < |ids| { assert Precedes(order, ids[i], ids[j]); }
    }
  }

  lemma EarlierPrecedes(order: seq<JobId>, k: nat, x: JobId)
    requires k < |order| && x in order[..k]
    ensures Precedes(order, x, order[k])
  {
    var p :| 0 <= p < k && order[..k][p] == x;
    assert order[p] == x;
  }

  /** The due jobs, each once, in turn order. */
  lemma DueInTurn(st: Store, now: Time)
    requires Valid(st)
    ensures var due, all := Eligible(st, st.order, now), Oldest(st, Eligible(st, st.order, now));
            && InTurn(st, st.order, all) && |all| == |due| && forall id :: id in all <==> id in due
  {
    var due := Eligible(st, st.order, now);
    EligibleInOrder(st, st.order, |st.order|, now);
    assert st.order[..|st.order|] == st.order;
    OldestInTurn(st, st.order, due);
    OldestPermutes(st, due);
    SameLength(Oldest(st, due), due);
    assert forall id :: id in Oldest(st, due) <==> id in multiset(due);
  }

  /** A claim takes as many jobs as are due, up to the limit, and always those whose turn is
      first: no job it leaves behind comes before one it takes. */
  lemma ClaimTakesTurns(st: Store, limit: nat, now: Time)
    requires Valid(st)
    ensures var due, taken := Eligible(st, st.order, now), ClaimIds(st, limit, now);
            && |taken| == (if |due| <= limit then |due| else limit)
            && (forall id :: id in taken ==> id in due)
            && InTurn(st, st.order, taken)
            && (forall a, b :: a in taken && b in due && b !in taken ==> Before(st, st.order, a, b))
  {
    DueInTurn(st, now);
    TakenFirst(st, st.order, Oldest(st, Eligible(st, st.order, now)), limit);
  }

  /** A claim takes only jobs that wait for an attempt whose time has come. */
  lemma ClaimedWereDue(st: Store, limit: nat, now: Time)
    requires Valid(st)
    ensures forall id :: id in ClaimIds(st, limit, now) ==>
              id in st.jobs && st.jobs[id].status in {Queued, Retry} && st.jobs[id].nextAttemptAt <= now
  {
    ClaimTakesTurns(st, limit, now);
  }

  lemma TakenFirst(st: Store, order: seq<JobId>, all: seq<JobId>, limit: nat)
    requires InTurn(st, order, all)
    ensures var taken := Take(all, limit);
            && InTurn(st, order, taken)
            && (forall a, b :: a in taken && b in all && b !in taken ==> Before(st, order, a, b))
  {
    var taken := Take(all, limit);
    forall a, b | a in taken && b in all && b !in taken ensures Before(st, order, a, b) {
      var i :| 0 <= i < |taken| && taken[i] == a;
      var j :| 0 <= j < |all| && all[j] == b;
      assert taken == all[..|taken|];
    }
  }

  lemma SameLength(a: seq<JobId>, b: seq<JobId>)
    requires multiset(a) == multiset(b)
    ensures |a| == |b|
  {
    assert |multiset(a)| == |a| && |multiset(b)| == |b|;
  }

  // ----- transitions -----

  function Set(st: Store, id: JobId, job: Job): Store
    requires id in st.jobs
  {
    st.(jobs := st.jobs[id := job])
  }

  function Replayed(job: Job, now: Time): Job {
    job.(status := Queued, attempts := 0, lastError := None, nextAttemptAt := now)
  }

  /** A transition of one job keeps the store in order. */
  lemma SetKeepsValid(st: Store, id: JobId, job: Job)
    requires Valid(st) && id in st.jobs && job.event == st.jobs[id].event
    ensures Valid(Set(st, id, job))
  {
  }

  lemma ClaimKeepsValid(st: Store, limit: nat, now: Time)
    requires Valid(st)
    ensures Valid(Claim(st, limit, now))
  {
  }

  // ----- statistics -----

  /** How many jobs are in each status. */
  type Stats = map<Status, nat>

  /** The ids, among some, of the jobs in one status. */
  function InStatus(st: Store, ids: seq<JobId>, s: Status): set<JobId> {
    set id | id in ids && id in st.jobs && st.jobs[id].status == s
  }

  lemma InStatusGrows(st: Store, ids: seq<JobId>, k: nat, s: Status)
    requires NoRepeats(ids) && k < |ids| && ids[k] in st.jobs
    ensures |InStatus(st, ids[..k + 1], s)| == |InStatus(st, ids[..k], s)| + if st.jobs[ids[k]].status == s then 1 else 0
  {
    assert ids[..k + 1] == ids[..k] + [ids[k]];
    assert ids[k] !in ids[..k];
    if st.jobs[ids[k]].status == s {
      assert InStatus(st, ids[..k + 1], s) == InStatus(st, ids[..k], s) + {ids[k]};
    } else {
      assert InStatus(st, ids[..k + 1], s) == InStatus(st, ids[..k], s);
    }
  }

  // ----- the store -----

  class InMemorySyncEventStore {
    var order: seq<JobId>
    var jobs: map<JobId, Job>
    var eventIndex: map<string, JobId>

    ghost function State(): Store
      reads this
    {
      Store(order, jobs, eventIndex)
    }

    constructor ()
      ensures State() == EMPTY_STORE && Valid(State())
    {
      order, jobs, eventIndex := [], map[], map[];
    }

    method Enqueue(sha: string -> string, events: seq<Event>, supply: seq<Fresh>) returns (ids: seq<JobId>)
      requires |events| == |supply| && Valid(State()) && Unused(State(), supply)
      modifies this
      ensures State() == EnqueueAll(sha, old(State()), events, supply) && Valid(State())
      ensures ids == Answers(sha, old(State()), events, supply)
    {
      ids := [];
      for i := 0 to |events|
        invariant State() == EnqueueAll(sha, old(State()), events[..i], supply[..i])
        invariant ids == Answers(sha, old(State()), events[..i], supply[..i])
      {
        assert events[..i + 1][..i] == events[..i] && supply[..i + 1][..i] == supply[..i];
        var id := EnqueueEvent(sha, events[i], supply[i]);
        ids := ids + [id];
      }
      assert events[..|events|] == events && supply[..|supply|] == supply;
      EnqueueKeeps(sha, old(State()), events, supply);
    }

    /** One round of the enqueue loop. */
    method EnqueueEvent(sha: string -> string, event: Event, born: Fresh) returns (id: JobId)
      modifies this
      ensures State() == EnqueueOne(old(State()), Identity(sha, event), event, born)
      ensures id == JobFor(old(State()), Identity(sha, event), born)
    {
      var vendorId := Identity(sha, event);
      if vendorId in eventIndex {
        return eventIndex[vendorId];
      }
      order := order + [born.id];
      jobs := jobs[born.id := NewJob(event, vendorId, born.now)];
      eventIndex := eventIndex[vendorId := born.id];
      return born.id;
    }

    /** The claimed jobs are marked in place and returned as copies. */
    method ClaimJobs(limit: nat, now: Time) returns (ids: seq<JobId>)
      requires Valid(State())
      modifies this`jobs
      ensures ids == ClaimIds(old(State()), limit, now)
      ensures State() == Claim(old(State()), limit, now) && Valid(State())
    {
      var due: seq<JobId> := [];
      for i := 0 to |order|
        invariant due == Eligible(State(), order[..i], now)
      {
        assert order[..i + 1][..i] == order[..i] && order[i] in order;
        if Claimable(jobs[order[i]], now) {
          due := due + [order[i]];
        }
      }
      assert order[..|order|] == order;
      ClaimTakesTurns(State(), limit, now);
      ids := Take(Oldest(Store(order, jobs, eventIndex), due), limit);
      MarkJobs(ids);
      ClaimKeepsValid(old(State()), limit, now);
    }

    method MarkJobs(ids: seq<JobId>)
      requires forall i, j :: 0 <= i < j < |ids| ==> ids[i] != ids[j]
      requires forall id :: id in ids ==> id in jobs
      modifies this`jobs
      ensures State() == MarkClaimed(old(State()), ids)
    {
      ghost var before := jobs;
      for i := 0 to |ids|
        invariant jobs.Keys == before.Keys
        invariant forall id :: id in jobs ==> jobs[id] == if id in ids[..i] then Claimed(before[id]) else before[id]
      {
        assert ids[i] in ids && ids[i] !in ids[..i];
        var job := jobs[ids[i]];
        jobs := jobs[ids[i] := job.(status := Processing, attempts := job.attempts + 1)];
      }
      assert ids[..|ids|] == ids;
    }

    method Complete(id: JobId)
      requires Valid(State())
      modifies this`jobs
      ensures Valid(State())
      ensures State() == if id in old(jobs) then Set(old(State()), id, old(jobs)[id].(status := Completed)) else old(State())
    {
      if id in jobs {
        jobs := jobs[id := jobs[id].(status := Completed)];
      }
    }

    method RetryLater(id: JobId, error: string, at: Time)
      requires Valid(State())
      modifies this`jobs
      ensures Valid(State())
      ensures State() == if id in old(jobs)
                         then Set(old(State()), id, old(jobs)[id].(status := Retry, lastError := Some(error), nextAttemptAt := at))
                         else old(State())
    {
      if id in jobs {
        jobs := jobs[id := jobs[id].(status := Retry, lastError := Some(error), nextAttemptAt := at)];
      }
    }

    /** `deadLetter` and `manualReview`: park the job in a status, with the reason. */
    method Park(id: JobId, status: Status, error: string)
      requires Valid(State())
      modifies this`jobs
      ensures Valid(State())
      ensures State() == if id in old(jobs)
                         then Set(old(State()), id, old(jobs)[id].(status := status, lastError := Some(error)))
                         else old(State())
    {
      if id in jobs {
        jobs := jobs[id := jobs[id].(status := status, lastError := Some(error))];
      }
    }

    method ReplayJob(id: JobId, now: Time)
      requires Valid(State())
      modifies this`jobs
      ensures Valid(State())
      ensures State() == if id in old(jobs) then Set(old(State()), id, Replayed(old(jobs)[id], now)) else old(State())
    {
      if id in jobs {
        jobs := jobs[id := jobs[id].(status := Queued, attempts := 0, lastError := None, nextAttemptAt := now)];
      }
    }

    method Dismiss(id: JobId)
      requires Valid(State())
      modifies this`jobs
      ensures Valid(State())
      ensures State() == if id in old(jobs) then Set(old(State()), id, old(jobs)[id].(status := Dismissed)) else old(State())
    {
      if id in jobs {
        jobs := jobs[id := jobs[id].(status := Dismissed)];
      }
    }

    /** The counts per status. */
    method CountJobs() returns (stats: Stats)
      requires Valid(State())
      ensures forall s :: s in stats && stats[s] == |InStatus(State(), order, s)|
    {
      stats := map[Queued := 0, Processing := 0, Retry := 0, Completed := 0, DeadLetter := 0, ManualReview := 0, Dismissed := 0];
      forall s: Status ensures s in stats && stats[s] == 0 && InStatus(State(), order[..0], s) == {} {
        assert s.Queued? || s.Processing? || s.Retry? || s.Completed? || s.DeadLetter? || s.ManualReview? || s.Dismissed?;
      }
      for i := 0 to |order|
        invariant forall s :: s in stats && stats[s] == |InStatus(State(), order[..i], s)|
      {
        assert order[i] in order;
        forall s ensures |InStatus(State(), order[..i + 1], s)|
                         == |InStatus(State(), order[..i], s)| + if jobs[order[i]].status == s then 1 else 0 {
          InStatusGrows(State(), order, i, s);
        }
        var status := jobs[order[i]].status;
        stats := stats[status := stats[status] + 1];
      }
      assert order[..|order|] == order;
    }
  }
}

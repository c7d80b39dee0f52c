/** Deletions over whole runs of the sync engine: what may remove a record, and which record. */
module DeleteSafety {
  import opened Canonical
  import opened Reconciler
  import opened EventStore
  import opened SyncEngine

  /** What can happen to the engine: its own work and an operator's, replays included. */
  datatype EngineStep =
    | Arrive(sha: string -> string, events: seq<Event>, supply: seq<Fresh>)
    | Take(now: Time)
    | Work(id: JobId, env: Env)
    | Approve(id: JobId, unreachable: bool)
    | Replay(id: JobId, at: Time)
    | Dismiss(id: JobId)
    | Recover(id: JobId, at: Time)

  /** The approval goes through: the job is a delete awaiting review and the record can be reached. */
  predicate Approves(e: Engine, id: JobId, unreachable: bool) {
    && PendingDelete(e.store, id)
    && !(unreachable && Counterpart(e.world, e.store.jobs[id].event.system, e.store.jobs[id].event.sourceId).Some?)
  }

  function WithJob(e: Engine, id: JobId, job: Job): Engine
    requires id in e.store.jobs
  {
    e.(store := Set(e.store, id, job))
  }

  function EngineNext(cfg: Config, opts: Options, e: Engine, step: EngineStep): Engine {
    match step
    case Arrive(sha, events, supply) =>
      if |events| == |supply| then e.(store := EnqueueAll(sha, e.store, events, supply)) else e
    case Take(now) => e.(store := Claim(e.store, opts.concurrency, now))
    case Work(id, env) =>
      if id in e.store.jobs && e.store.jobs[id].status == Processing
      then ProcessOne(opts, HandlerOf(cfg, opts), e, id, env) else e
    case Approve(id, unreachable) => if Approves(e, id, unreachable) then Approved(e, id) else e
    case Replay(id, at) => if id in e.store.jobs then WithJob(e, id, Replayed(e.store.jobs[id], at)) else e
    case Dismiss(id) =>
      if id in e.store.jobs && e.store.jobs[id].status in {DeadLetter, ManualReview, Status.Retry}
      then WithJob(e, id, e.store.jobs[id].(status := Dismissed)) else e
    case Recover(id, at) =>
      if id in e.store.jobs && e.store.jobs[id].status == Processing
      then WithJob(e, id, e.store.jobs[id].(status := Status.Retry, nextAttemptAt := at)) else e
  }

  function EngineRun(cfg: Config, opts: Options, e: Engine, steps: seq<EngineStep>): Engine
    decreases |steps|
  {
    if steps == [] then e else EngineRun(cfg, opts, EngineNext(cfg, opts, e, steps[0]), steps[1..])
  }

  // ----- which record a deletion removes -----

  function RemovedFrom(w: World, s: SystemId): seq<Id> { w.Side(s).removed }

  /** A propagated delete removes the linked counterpart and nothing else; with no counterpart it
      removes nothing. */
  lemma DeleteHitsCounterpart(w: World, s: SystemId, id: Id)
    ensures var after := PropagateDelete(w, s, id);
            && after.table == w.table && after.Side(s) == w.Side(s)
            && match Counterpart(w, s, id)
               case None => after == w
               case Some(target) =>
                 && after.Side(Other(s)).records == w.Side(Other(s)).records - {target}
                 && RemovedFrom(after, Other(s)) == RemovedFrom(w, Other(s)) + [target]
  {
  }

  lemma ReconcileRemovesNothing(cfg: Config, w: World, source: Record, amb: Ambient, s: SystemId)
    ensures RemovedFrom(Reconcile(cfg, w, source, amb).0, s) == RemovedFrom(w, s)
  {
    if s != source.source { assert s == Other(source.source); }
  }

  lemma HandlingRemovesNothing(cfg: Config, opts: Options, w: World, event: Event, env: Env, s: SystemId)
    requires opts.deletePolicy != CascadeDeletes
    ensures RemovedFrom(Handle(cfg, opts, w, event, env).0, s) == RemovedFrom(w, s)
  {
    var record := Peek(cfg, w, event.system, event.sourceId);
    if record.Some? { ReconcileRemovesNothing(cfg, w, record.value, env.amb, s); }
  }

  // ----- every removal is an approval -----

  /** The removal an approval step makes on side `s`, if any. */
  function ApprovalRemoves(e: Engine, step: EngineStep, s: SystemId): seq<Id> {
    if step.Approve? && Approves(e, step.id, step.unreachable) then
      var event := e.store.jobs[step.id].event;
      var target := Counterpart(e.world, event.system, event.sourceId);
      if Other(event.system) == s && target.Some? then [target.value] else []
    else []
  }

  /** The removals on side `s` that the approvals of a run make, in order. */
  function ApprovalTargets(cfg: Config, opts: Options, e: Engine, steps: seq<EngineStep>, s: SystemId): seq<Id>
    decreases |steps|
  {
    if steps == [] then []
    else ApprovalRemoves(e, steps[0], s) + ApprovalTargets(cfg, opts, EngineNext(cfg, opts, e, steps[0]), steps[1..], s)
  }

  lemma ApprovedRemoves(e: Engine, id: JobId, s: SystemId)
    requires Approves(e, id, false)
    ensures RemovedFrom(Approved(e, id).world, s) == RemovedFrom(e.world, s) + ApprovalRemoves(e, Approve(id, false), s)
  {
    var event := e.store.jobs[id].event;
    DeleteHitsCounterpart(e.world, event.system, event.sourceId);
    if s != event.system { assert s == Other(event.system); }
  }

  lemma StepRemovals(cfg: Config, opts: Options, e: Engine, step: EngineStep, s: SystemId)
    requires opts.deletePolicy != CascadeDeletes
    ensures RemovedFrom(EngineNext(cfg, opts, e, step).world, s) == RemovedFrom(e.world, s) + ApprovalRemoves(e, step, s)
  {
    match step
    case Work(id, env) =>
      if id in e.store.jobs { HandlingRemovesNothing(cfg, opts, e.world, e.store.jobs[id].event, env, s); }
    case Approve(id, unreachable) =>
      if Approves(e, id, unreachable) { ApprovedRemoves(e, id, s); }
    case _ =>
  }

  lemma InARow(a: seq<Id>, b: seq<Id>, c: seq<Id>)
    ensures (a + b) + c == a + (b + c)
  {
  }

  /** Unless deletes cascade, the records removed on each side during any run are exactly, and in
      order, the counterparts named by the approvals of that run: one removal for one approval of
      a job that was a delete awaiting review at that moment. */
  lemma {:induction false} RemovalsAreApprovals(cfg: Config, opts: Options, e: Engine, steps: seq<EngineStep>, s: SystemId)
    requires opts.deletePolicy != CascadeDeletes
    ensures RemovedFrom(EngineRun(cfg, opts, e, steps).world, s)
            == RemovedFrom(e.world, s) + ApprovalTargets(cfg, opts, e, steps, s)
    decreases |steps|
  {
    if steps != [] {
      var next := EngineNext(cfg, opts, e, steps[0]);
      StepRemovals(cfg, opts, e, steps[0], s);
      RemovalsAreApprovals(cfg, opts, next, steps[1..], s);
      InARow(RemovedFrom(e.world, s), ApprovalRemoves(e, steps[0], s), ApprovalTargets(cfg, opts, next, steps[1..], s));
    }
  }

  // ----- ignored deletes -----

  ghost predicate NonePending(st: Store) {
    forall id :: id in st.jobs ==> !PendingDelete(st, id)
  }

  /** Only the review policy parks a delete. */
  lemma OnlyReviewParks(cfg: Config, opts: Options, w: World, job: Job, env: Env)
    requires opts.deletePolicy == IgnoreDeletes && job.event.change == Deleted
    ensures Handle(cfg, opts, w, job.event, env) == (w, Handled)
  {
  }

  lemma {:induction false} ArrivalsNotPending(sha: string -> string, st: Store, events: seq<Event>, supply: seq<Fresh>)
    requires |events| == |supply| && NonePending(st)
    ensures NonePending(EnqueueAll(sha, st, events, supply))
  {
    if events != [] { ArrivalsNotPending(sha, st, events[..|events| - 1], supply[..|supply| - 1]); }
  }

  lemma StepKeepsNonePending(cfg: Config, opts: Options, e: Engine, step: EngineStep)
    requires opts.deletePolicy == IgnoreDeletes && NonePending(e.store)
    ensures NonePending(EngineNext(cfg, opts, e, step).store)
  {
    match step
    case Arrive(sha, events, supply) => if |events| == |supply| { ArrivalsNotPending(sha, e.store, events, supply); }
    case Work(id, env) => WorkNotPending(cfg, opts, e, id, env);
    case _ =>
  }

  lemma SetNotPending(st: Store, id: JobId, job: Job)
    requires NonePending(st) && id in st.jobs && !(job.event.change == Deleted && job.status == ManualReview)
    ensures NonePending(Set(st, id, job))
  {
  }

  lemma WorkNotPending(cfg: Config, opts: Options, e: Engine, id: JobId, env: Env)
    requires opts.deletePolicy == IgnoreDeletes && NonePending(e.store)
    ensures NonePending(ProcessOne(opts, HandlerOf(cfg, opts), e, id, env).store)
  {
    if id in e.store.jobs {
      var job := e.store.jobs[id];
      var v := Handle(cfg, opts, e.world, job.event, env).1;
      if job.event.change == Deleted { OnlyReviewParks(cfg, opts, e.world, job, env); }
      SetNotPending(e.store, id, SettleJob(opts, job, v, env.now));
    }
  }

  /** When deletes are ignored, no run ever removes a record, whatever operators do. */
  lemma {:induction false} IgnoredNeverRemoved(cfg: Config, opts: Options, e: Engine, steps: seq<EngineStep>, s: SystemId)
    requires opts.deletePolicy == IgnoreDeletes && NonePending(e.store)
    ensures RemovedFrom(EngineRun(cfg, opts, e, steps).world, s) == RemovedFrom(e.world, s)
    decreases |steps|
  {
    if steps != [] {
      StepRemovals(cfg, opts, e, steps[0], s);
      StepKeepsNonePending(cfg, opts, e, steps[0]);
      IgnoredNeverRemoved(cfg, opts, EngineNext(cfg, opts, e, steps[0]), steps[1..], s);
    }
  }
}

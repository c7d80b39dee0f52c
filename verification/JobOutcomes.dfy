/** What handling one job does to the record its event names (src/engine/syncEngine.ts). */
module JobOutcomes {
  import opened Canonical
  import opened Mapping
  import opened IdMap
  import opened Connector
  import opened Reconciler
  import opened Protocol
  import opened EventStore
  import opened SyncEngine
  import SyncRuns

  /** The engine after handling one job in hand. */
  function AfterJob(cfg: Config, opts: Options, e: Engine, id: JobId, env: Env): Engine {
    ProcessOne(opts, HandlerOf(cfg, opts), e, id, env)
  }

  /** The job's event is a change of a record that is to be synced. */
  predicate IsChange(opts: Options, st: Store, id: JobId) {
    id in st.jobs && opts.shouldProcess(st.jobs[id].event) && st.jobs[id].event.change != Deleted
  }

  /** The record cannot be read: its system is out of reach, or it is gone. */
  predicate OutOfSight(w: World, event: Event, env: Env) {
    env.unreachable || event.sourceId !in w.Side(event.system).records
  }

  /** No link knows the record, and several records of the other system have its key. */
  ghost predicate SeveralMatch(cfg: Config, w: World, source: Record) {
    && FindBySource(w.table, source.source, source.sourceId) == None
    && exists key :: KeyFor(cfg, source.fields) == Some(key) && FindByKey(w.table, key) == None
                     && |Matches(cfg, w, Other(source.source), key)| > 1
  }

  /** The job has failed: it is retried after its wait, or parked once its attempts are used up. */
  predicate HasFailed(opts: Options, before: Job, after: Job, now: Time) {
    if before.attempts >= opts.maxAttempts then after.status == DeadLetter && after.lastError.Some?
    else after.status == Retry && after.lastError.Some? && after.nextAttemptAt == now + Backoff(before.attempts)
  }

  // ----- what a reconciliation comes to -----

  /** A refused run changes nothing, and it is refused for ambiguity exactly when several match. */
  lemma RefusedRun(cfg: Config, w: World, source: Record, amb: Ambient)
    ensures var (after, outcome) := Reconcile(cfg, w, source, amb);
            && (outcome.Refused? ==> after == w)
            && (outcome.Refused? && outcome.reason.AmbiguousKey? <==> SeveralMatch(cfg, w, source))
  {
  }

  lemma JobIsSettled(opts: Options, handle: Handler, e: Engine, id: JobId, env: Env, world: World, v: Verdict)
    requires id in e.store.jobs && handle(e.world, e.store.jobs[id].event, env) == (world, v)
    ensures ProcessOne(opts, handle, e, id, env) == Engine(world, Set(e.store, id, SettleJob(opts, e.store.jobs[id], v, env.now)))
  {
  }

  /** What handling a change answers: the verdict, and the world it leaves. */
  ghost predicate ChangeHandled(cfg: Config, w: World, event: Event, env: Env, after: World, v: Verdict) {
    if OutOfSight(w, event, env) then
      after == w && v.Error? && (!env.unreachable ==> v.why == "record vanished before fetch")
    else
      var source := Snapshot(cfg.tables, event.system, w.Side(event.system), event.sourceId);
      var (world, outcome) := Reconcile(cfg, w, source, env.amb);
      && after == world
      && (v.Review? <==> SeveralMatch(cfg, w, source))
      && (v == Handled <==> !outcome.Refused? && !env.late)
      && (outcome.Refused? ==> after == w)
  }

  lemma ChangeIsHandled(cfg: Config, w: World, event: Event, env: Env)
    ensures var (after, v) := HandleChange(cfg, w, event, env); ChangeHandled(cfg, w, event, env, after, v)
  {
    if !OutOfSight(w, event, env) {
      RefusedRun(cfg, w, Snapshot(cfg.tables, event.system, w.Side(event.system), event.sourceId), env.amb);
    }
  }

  lemma ChangeByHandler(cfg: Config, opts: Options, e: Engine, id: JobId, env: Env)
    requires IsChange(opts, e.store, id)
    ensures var event, after := e.store.jobs[id].event, AfterJob(cfg, opts, e, id, env);
            exists v :: ChangeHandled(cfg, e.world, event, env, after.world, v)
                     && after.store == Set(e.store, id, SettleJob(opts, e.store.jobs[id], v, env.now))
  {
    var event := e.store.jobs[id].event;
    var (world, v) := HandleChange(cfg, e.world, event, env);
    ChangeIsHandled(cfg, e.world, event, env);
    JobIsSettled(opts, HandlerOf(cfg, opts), e, id, env, world, v);
  }

  // ----- what becomes of the job, and of its record -----

  /** The job moves on, and nothing else in the queue does. */
  ghost predicate OnlyJob(before: Store, after: Store, id: JobId) {
    && id in before.jobs && id in after.jobs && after.jobs[id].event == before.jobs[id].event
    && after == before.(jobs := before.jobs[id := after.jobs[id]])
  }

  /** A record that cannot be read leaves both systems alone, and the job has failed. Otherwise the job
      goes to review exactly when several records match, is completed exactly when the run is not
      refused and nothing after it fails, and has failed in every other case; a refused run leaves
      both systems alone. */
  lemma ChangeOutcome(cfg: Config, opts: Options, e: Engine, id: JobId, env: Env)
    requires IsChange(opts, e.store, id)
    ensures var event, was, after := e.store.jobs[id].event, e.store.jobs[id], AfterJob(cfg, opts, e, id, env);
            && OnlyJob(e.store, after.store, id)
            && var job := after.store.jobs[id];
               if OutOfSight(e.world, event, env) then
                 && after.world == e.world && HasFailed(opts, was, job, env.now)
                 && (!env.unreachable ==> job.lastError == Some("record vanished before fetch"))
               else
                 var source := Snapshot(cfg.tables, event.system, e.world.Side(event.system), event.sourceId);
                 var (world, outcome) := Reconcile(cfg, e.world, source, env.amb);
                 && after.world == world && (outcome.Refused? ==> world == e.world)
                 && (job.status == ManualReview <==> SeveralMatch(cfg, e.world, source))
                 && (job.status == ManualReview ==> world == e.world)
                 && (job.status == Completed <==> !outcome.Refused? && !env.late)
                 && (job.status == ManualReview || job.status == Completed || HasFailed(opts, was, job, env.now))
  {
    ChangeByHandler(cfg, opts, e, id, env);
    var after, event := AfterJob(cfg, opts, e, id, env), e.store.jobs[id].event;
    if !OutOfSight(e.world, event, env) {
      RefusedRun(cfg, e.world, Snapshot(cfg.tables, event.system, e.world.Side(event.system), event.sourceId), env.amb);
    }
  }

  /** No reconciliation loses a record. */
  lemma RecordsStay(cfg: Config, w: World, source: Record, amb: Ambient, s: SystemId)
    ensures w.Side(s).records.Keys <= Reconcile(cfg, w, source, amb).0.Side(s).records.Keys
  {
    if s != source.source { assert s == Other(source.source); }
  }

  /** The record is in step with its link, and the record it is linked to is there. */
  ghost predicate InStep(cfg: Config, w: World, s: SystemId, id: Id) {
    && id in w.Side(s).records && Synced(cfg, w, s, id)
    && Counterpart(w, s, id).Some? && Counterpart(w, s, id).value in w.Side(Other(s)).records
  }

  lemma SyncedIsInStep(cfg: Config, w: World, s: SystemId, id: Id)
    requires TableOk(w) && id in w.Side(s).records && id !in Unsynced(cfg, w, s)
    ensures InStep(cfg, w, s, id)
  {
  }

  lemma RunPutsInStep(cfg: Config, w: World, source: Record, amb: Ambient)
    requires Settled(cfg.tables) && SyncRuns.Deliverable(cfg, w, source, amb)
    requires !Reconcile(cfg, w, source, amb).1.Refused?
    ensures InStep(cfg, Reconcile(cfg, w, source, amb).0, source.source, source.sourceId)
  {
    SyncRuns.DeliverySettles(cfg, w, source, amb);
    RecordsStay(cfg, w, source, amb, source.source);
    SyncedIsInStep(cfg, Reconcile(cfg, w, source, amb).0, source.source, source.sourceId);
  }

  /** A completed job leaves the record that its event names in step with a live counterpart. */
  lemma CompletedIsInStep(cfg: Config, opts: Options, e: Engine, id: JobId, env: Env)
    requires Settled(cfg.tables) && IsChange(opts, e.store, id)
    requires var event := e.store.jobs[id].event;
             !OutOfSight(e.world, event, env) ==>
               SyncRuns.Deliverable(cfg, e.world, Snapshot(cfg.tables, event.system, e.world.Side(event.system), event.sourceId), env.amb)
    ensures var event, after := e.store.jobs[id].event, AfterJob(cfg, opts, e, id, env);
            id in after.store.jobs
            && (after.store.jobs[id].status == Completed ==> InStep(cfg, after.world, event.system, event.sourceId))
  {
    ChangeOutcome(cfg, opts, e, id, env);
    var event := e.store.jobs[id].event;
    if AfterJob(cfg, opts, e, id, env).store.jobs[id].status == Completed {
      RunPutsInStep(cfg, e.world, Snapshot(cfg.tables, event.system, e.world.Side(event.system), event.sourceId), env.amb);
    }
  }

  /** What has been put in step stays so while other records are settled. */
  lemma StaysInStep(cfg: Config, w: World, after: World, s: SystemId, id: Id, r: SystemId, x: Id)
    requires InStep(cfg, w, s, id) && SyncRuns.SettledOne(cfg, w, after, r, x)
    requires w.Side(s).records.Keys <= after.Side(s).records.Keys
    ensures InStep(cfg, after, s, id)
  {
    if s != r { assert s == Other(r); }
    assert id !in Unsynced(cfg, w, s);
    SyncedIsInStep(cfg, after, s, id);
  }

  // ----- deletes, and events that are not synced -----

  /** The linked counterpart is gone, and nothing else is. */
  ghost predicate CounterpartGone(w: World, after: World, event: Event) {
    var to, target := Other(event.system), Counterpart(w, event.system, event.sourceId);
    && after.table == w.table && after.Side(event.system) == w.Side(event.system)
    && (target == None ==> after == w)
    && (target.Some? ==> target.value !in after.Side(to).records && after.Side(to).records == w.Side(to).records - {target.value})
  }

  /** A delete waits for an operator, is ignored, or removes the linked counterpart before it is
      completed; while the counterpart's system is out of reach the job fails. */
  lemma DeleteOutcome(cfg: Config, opts: Options, e: Engine, id: JobId, env: Env)
    requires id in e.store.jobs && opts.shouldProcess(e.store.jobs[id].event) && e.store.jobs[id].event.change == Deleted
    ensures var event, was, after := e.store.jobs[id].event, e.store.jobs[id], AfterJob(cfg, opts, e, id, env);
            && OnlyJob(e.store, after.store, id)
            && var job := after.store.jobs[id];
               match opts.deletePolicy
               case ReviewDeletes =>
                 after.world == e.world && job.status == ManualReview && job.lastError == Some("delete requires operator approval")
               case IgnoreDeletes => after.world == e.world && job.status == Completed
               case CascadeDeletes =>
                 if env.unreachable && Counterpart(e.world, event.system, event.sourceId).Some?
                 then after.world == e.world && HasFailed(opts, was, job, env.now)
                 else CounterpartGone(e.world, after.world, event) && job.status == Completed
  {
    var event := e.store.jobs[id].event;
    var (world, v) := HandleDelete(opts, e.world, event, env);
    JobIsSettled(opts, HandlerOf(cfg, opts), e, id, env, world, v);
  }

  /** Approving a delete that awaits review removes the linked counterpart, and completes the job. */
  lemma ApprovalOutcome(e: Engine, id: JobId)
    requires PendingDelete(e.store, id)
    ensures var after := Approved(e, id);
            && CounterpartGone(e.world, after.world, e.store.jobs[id].event)
            && OnlyJob(e.store, after.store, id) && after.store.jobs[id] == e.store.jobs[id].(status := Completed)
  {
  }

  /** An event that the settings leave out is completed without a look at either system. */
  lemma SkippedOutcome(cfg: Config, opts: Options, e: Engine, id: JobId, env: Env)
    requires id in e.store.jobs && !opts.shouldProcess(e.store.jobs[id].event)
    ensures var after := AfterJob(cfg, opts, e, id, env);
            after.world == e.world && OnlyJob(e.store, after.store, id) && after.store.jobs[id].status == Completed
  {
    JobIsSettled(opts, HandlerOf(cfg, opts), e, id, env, e.world, Handled);
  }
}

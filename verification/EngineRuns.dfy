/** Whole runs of the sync engine together with the two systems: users edit, change events arrive and
    become jobs, jobs are claimed, handled, retried, replayed or dismissed. */
module EngineRuns {
  import opened Canonical
  import opened Mapping
  import opened Connector
  import opened Reconciler
  import opened Protocol
  import opened EventStore
  import opened SyncEngine
  import opened DeleteSafety
  import opened JobOutcomes
  import SyncRuns

  /** The engine, the changes on each side whose events have not reached it yet, and how often a user
      has created or edited a record. */
  datatype Site = Site(engine: Engine, sfFeed: multiset<Id>, hsFeed: multiset<Id>, userWrites: nat)
  {
    function Feed(s: SystemId): multiset<Id> { if s == Salesforce then sfFeed else hsFeed }

    function WithFeed(s: SystemId, f: multiset<Id>): Site {
      if s == Salesforce then this.(sfFeed := f) else this.(hsFeed := f)
    }

    predicate AllHeard() { sfFeed == multiset{} && hsFeed == multiset{} }
  }

  /** A user creates or edits a record; the event of a change reaches the engine; or the engine, or an
      operator, does something. Events that come again, or that nothing stands behind, arrive as a
      step of the engine. */
  datatype SiteStep =
    | UserEdits(system: SystemId, id: Id, values: Fields, at: Time)
    | Hears(sha: string -> string, event: Event, born: Fresh)
    | Engages(step: EngineStep)

  function StoredAs(sha: string -> string, e: Event): Event { e.(eventId := Some(EventStore.Identity(sha, e))) }

  /** The systems emit one event for every write of the engine. */
  function Engaged(st: Site, after: Engine): Site {
    st.(engine := after,
        sfFeed := st.sfFeed + SyncRuns.Emitted(st.engine.world.sf, after.world.sf),
        hsFeed := st.hsFeed + SyncRuns.Emitted(st.engine.world.hs, after.world.hs))
  }

  function Edited(w: World, s: SystemId, id: Id, values: Fields, at: Time): World {
    w.With(s, SyncRuns.UserStores(w.Side(s), id, values, at))
  }

  function SiteNext(cfg: Config, opts: Options, st: Site, step: SiteStep): Site {
    match step
    case UserEdits(s, id, values, at) =>
      st.(engine := st.engine.(world := Edited(st.engine.world, s, id, values, at)), userWrites := st.userWrites + 1)
        .WithFeed(s, st.Feed(s) + multiset{id})
    case Hears(sha, event, born) =>
      st.(engine := st.engine.(store := EnqueueOne(st.engine.store, EventStore.Identity(sha, event), event, born)))
        .WithFeed(event.system, st.Feed(event.system) - multiset{event.sourceId})
    case Engages(engineStep) => Engaged(st, EngineNext(cfg, opts, st.engine, engineStep))
  }

  /** The handling of a job stays within the protocol: no counterpart is removed, and a record that can
      be read is delivered with new identifiers or a target that rejects the write, and passes the
      match check. */
  ghost predicate WorkLegal(cfg: Config, opts: Options, e: Engine, id: JobId, env: Env) {
    id in e.store.jobs ==>
      var event := e.store.jobs[id].event;
      if event.change == Deleted then opts.deletePolicy != CascadeDeletes
      else !OutOfSight(e.world, event, env) ==>
        && Protocol.Supplied(e.world, Other(event.system), env.amb)
        && MatchOk(cfg, e.world, Snapshot(cfg.tables, event.system, e.world.Side(event.system), event.sourceId))
  }

  /** Users store values that both systems carry; an event that announces a change is new to the
      queue and is to be synced; nothing is deleted. */
  ghost predicate SiteLegal(cfg: Config, opts: Options, st: Site, step: SiteStep) {
    match step
    case UserEdits(s, _, values, _) => Admissible(cfg.tables, ToCanonical(cfg.tables, s, values))
    case Hears(sha, event, born) =>
      && EventStore.Identity(sha, event) !in st.engine.store.index && born.id !in st.engine.store.jobs
      && event.change != Deleted && opts.shouldProcess(StoredAs(sha, event))
    case Engages(engineStep) =>
      match engineStep
      case Arrive(_, events, supply) => |events| == |supply| && Unused(st.engine.store, supply)
      case Work(id, env) => WorkLegal(cfg, opts, st.engine, id, env)
      case Approve(_, _) => false
      case _ => true
  }

  function SiteRun(cfg: Config, opts: Options, st: Site, steps: seq<SiteStep>): Site
    decreases |steps|
  {
    if steps == [] then st else SiteRun(cfg, opts, SiteNext(cfg, opts, st, steps[0]), steps[1..])
  }

  ghost predicate SiteLegalRun(cfg: Config, opts: Options, st: Site, steps: seq<SiteStep>)
    decreases |steps|
  {
    steps == [] || (SiteLegal(cfg, opts, st, steps[0]) && SiteLegalRun(cfg, opts, SiteNext(cfg, opts, st, steps[0]), steps[1..]))
  }

  // ----- the invariant -----

  /** The job is to sync this record and has not been completed. */
  predicate OpenFor(opts: Options, store: Store, id: JobId, s: SystemId, x: Id) {
    && IsChange(opts, store, id) && store.jobs[id].event.system == s && store.jobs[id].event.sourceId == x
    && store.jobs[id].status != Completed
  }

  predicate HasOpenJob(opts: Options, store: Store, s: SystemId, x: Id) {
    exists id :: id in store.jobs && OpenFor(opts, store, id, s, x)
  }

  /** Every record that owes the other side something has an event on its way or an open job. */
  ghost predicate Covers(cfg: Config, opts: Options, st: Site) {
    forall s, x :: x in Unsynced(cfg, st.engine.world, s) ==> x in st.Feed(s) || HasOpenJob(opts, st.engine.store, s, x)
  }

  ghost predicate SiteInv(cfg: Config, opts: Options, st: Site) {
    TableOk(st.engine.world) && AllCarried(cfg.tables, st.engine.world) && Valid(st.engine.store) && Covers(cfg, opts, st)
  }

  /** No job is lost, none changes its event and none is completed. */
  ghost predicate NoneCompleted(before: Store, after: Store) {
    forall id :: id in before.jobs ==>
      && id in after.jobs && after.jobs[id].event == before.jobs[id].event
      && (after.jobs[id].status == Completed ==> before.jobs[id].status == Completed)
  }

  /** Then open jobs stay open. */
  lemma OpenStays(opts: Options, before: Store, after: Store, s: SystemId, x: Id)
    requires HasOpenJob(opts, before, s, x) && NoneCompleted(before, after)
    ensures HasOpenJob(opts, after, s, x)
  {
    var id :| id in before.jobs && OpenFor(opts, before, id, s, x);
    assert OpenFor(opts, after, id, s, x);
  }

  /** When one job moves on, the records that have another open job keep it. */
  lemma OpenStaysBut(opts: Options, before: Store, after: Store, moved: JobId, s: SystemId, x: Id)
    requires OnlyJob(before, after, moved) && HasOpenJob(opts, before, s, x)
    ensures HasOpenJob(opts, after, s, x)
            || (after.jobs[moved].status == Completed && OpenFor(opts, before, moved, s, x))
  {
    var id :| id in before.jobs && OpenFor(opts, before, id, s, x);
    if id != moved || after.jobs[moved].status != Completed { assert OpenFor(opts, after, id, s, x); }
  }

  // ----- each step keeps it -----

  lemma EditKeeps(cfg: Config, opts: Options, st: Site, step: SiteStep)
    requires SiteInv(cfg, opts, st) && SiteLegal(cfg, opts, st, step) && step.UserEdits?
    ensures SiteInv(cfg, opts, SiteNext(cfg, opts, st, step))
  {
    var s, id, after := step.system, step.id, SiteNext(cfg, opts, st, step);
    assert TableOk(after.engine.world) && AllCarried(cfg.tables, after.engine.world)
           && UnsettledBy(cfg, st.engine.world, after.engine.world, s, id) by {
      EditUnsettles(cfg, st.engine.world, s, id, step.values, step.at);
    }
    EditHeard(cfg, opts, st, step);
    forall r, x | x in Unsynced(cfg, after.engine.world, r)
      ensures x in after.Feed(r) || HasOpenJob(opts, after.engine.store, r, x)
    {
      assert x in Unsynced(cfg, st.engine.world, r) || (r == s && x == id);
    }
  }

  /** At most record `id` of side `s` has become unsynced. */
  ghost predicate UnsettledBy(cfg: Config, w: World, after: World, s: SystemId, id: Id) {
    forall r, x :: x in Unsynced(cfg, after, r) ==> x in Unsynced(cfg, w, r) || (r == s && x == id)
  }

  lemma EditUnsettles(cfg: Config, w: World, s: SystemId, id: Id, values: Fields, at: Time)
    requires TableOk(w) && AllCarried(cfg.tables, w) && Admissible(cfg.tables, ToCanonical(cfg.tables, s, values))
    ensures var after := Edited(w, s, id, values, at);
            TableOk(after) && AllCarried(cfg.tables, after) && UnsettledBy(cfg, w, after, s, id)
  {
    var was := SyncRuns.State(w, multiset{}, multiset{}, 0);
    SyncRuns.UserUnsettlesOne(cfg, was, s, id, values, at);
    SyncRuns.UserCarries(cfg.tables, was, s, id, values, at);
    var after := Edited(w, s, id, values, at);
    assert after == SyncRuns.ApplyUser(was, s, id, values, at).world;
    forall r, x | x in Unsynced(cfg, after, r) ensures x in Unsynced(cfg, w, r) || (r == s && x == id) {
      if r != s { assert r == Other(s); }
    }
  }

  lemma EditHeard(cfg: Config, opts: Options, st: Site, step: SiteStep)
    requires step.UserEdits?
    ensures var after := SiteNext(cfg, opts, st, step);
            && after.engine == st.engine.(world := Edited(st.engine.world, step.system, step.id, step.values, step.at))
            && step.id in after.Feed(step.system) && forall r, x :: x in st.Feed(r) ==> x in after.Feed(r)
  {
  }

  /** Nothing but the queue and the feeds changes, and no record loses its cover. */
  lemma QueueKeeps(cfg: Config, opts: Options, st: Site, after: Site)
    requires SiteInv(cfg, opts, st) && after.engine.world == st.engine.world && Valid(after.engine.store)
    requires forall s, x :: x in st.Feed(s) || HasOpenJob(opts, st.engine.store, s, x) ==>
               x in after.Feed(s) || HasOpenJob(opts, after.engine.store, s, x)
    ensures SiteInv(cfg, opts, after)
  {
  }

  lemma HearKeeps(cfg: Config, opts: Options, st: Site, step: SiteStep)
    requires SiteInv(cfg, opts, st) && SiteLegal(cfg, opts, st, step) && step.Hears?
    ensures SiteInv(cfg, opts, SiteNext(cfg, opts, st, step))
  {
    HeardOpens(opts, st.engine.store, EventStore.Identity(step.sha, step.event), step.event, step.born);
    HeardLeaves(cfg, opts, st, step);
    HeardCovers(cfg, opts, st, SiteNext(cfg, opts, st, step), step.event);
  }

  lemma HeardLeaves(cfg: Config, opts: Options, st: Site, step: SiteStep)
    requires step.Hears?
    ensures var after, event := SiteNext(cfg, opts, st, step), step.event;
            && after.engine == st.engine.(store := EnqueueOne(st.engine.store, EventStore.Identity(step.sha, event), event, step.born))
            && forall s, x :: x in st.Feed(s) && !(s == event.system && x == event.sourceId) ==> x in after.Feed(s)
  {
  }

  lemma HeardCovers(cfg: Config, opts: Options, st: Site, after: Site, event: Event)
    requires SiteInv(cfg, opts, st) && after.engine.world == st.engine.world && Valid(after.engine.store)
    requires NoneCompleted(st.engine.store, after.engine.store) && HasOpenJob(opts, after.engine.store, event.system, event.sourceId)
    requires forall s, x :: x in st.Feed(s) && !(s == event.system && x == event.sourceId) ==> x in after.Feed(s)
    ensures SiteInv(cfg, opts, after)
  {
    forall s, x | x in st.Feed(s) || HasOpenJob(opts, st.engine.store, s, x)
      ensures x in after.Feed(s) || HasOpenJob(opts, after.engine.store, s, x)
    {
      if HasOpenJob(opts, st.engine.store, s, x) { OpenStays(opts, st.engine.store, after.engine.store, s, x); }
    }
    QueueKeeps(cfg, opts, st, after);
  }

  lemma HeardOpens(opts: Options, store: Store, v: string, event: Event, born: Fresh)
    requires Valid(store) && v !in store.index && born.id !in store.jobs
    requires event.change != Deleted && opts.shouldProcess(event.(eventId := Some(v)))
    ensures var after := EnqueueOne(store, v, event, born);
            Valid(after) && NoneCompleted(store, after) && HasOpenJob(opts, after, event.system, event.sourceId)
  {
    EnqueueOneValid(store, v, event, born);
    assert OpenFor(opts, EnqueueOne(store, v, event, born), born.id, event.system, event.sourceId);
  }

  /** Steps of the engine that touch the queue alone. */
  lemma StoreStepKeeps(cfg: Config, opts: Options, st: Site, after: Site)
    requires SiteInv(cfg, opts, st) && Valid(after.engine.store)
    requires after.engine.world == st.engine.world && after.sfFeed == st.sfFeed && after.hsFeed == st.hsFeed
    requires NoneCompleted(st.engine.store, after.engine.store)
    ensures SiteInv(cfg, opts, after)
  {
    forall s, x | x in st.Feed(s) || HasOpenJob(opts, st.engine.store, s, x)
      ensures x in after.Feed(s) || HasOpenJob(opts, after.engine.store, s, x)
    {
      if HasOpenJob(opts, st.engine.store, s, x) { OpenStays(opts, st.engine.store, after.engine.store, s, x); }
    }
    QueueKeeps(cfg, opts, st, after);
  }

  lemma NothingEmitted(st: Site, after: Engine)
    requires after.world == st.engine.world
    ensures Engaged(st, after) == st.(engine := after)
  {
    assert st.engine.world.sf.written[|st.engine.world.sf.written|..] == [];
    assert st.engine.world.hs.written[|st.engine.world.hs.written|..] == [];
  }

  lemma EngineStoreStep(cfg: Config, opts: Options, st: Site, step: EngineStep)
    requires SiteInv(cfg, opts, st) && SiteLegal(cfg, opts, st, Engages(step)) && !step.Work?
    ensures SiteInv(cfg, opts, SiteNext(cfg, opts, st, Engages(step)))
  {
    var after := EngineNext(cfg, opts, st.engine, step);
    assert after.world == st.engine.world && Valid(after.store) && NoneCompleted(st.engine.store, after.store) by {
      if step.Arrive? {
        EnqueueKeeps(step.sha, st.engine.store, step.events, step.supply);
      } else if step.Take? {
        ClaimKeepsValid(st.engine.store, opts.concurrency, step.now);
      } else {
        OneJobStep(cfg, opts, st.engine, step);
      }
    }
    NothingEmitted(st, after);
    StoreStepKeeps(cfg, opts, st, Engaged(st, after));
  }

  /** A step of an operator, or the recovery of a lease. */
  lemma OneJobStep(cfg: Config, opts: Options, e: Engine, step: EngineStep)
    requires Valid(e.store) && (step.Replay? || step.Dismiss? || step.Recover?)
    ensures var after := EngineNext(cfg, opts, e, step);
            after.world == e.world && Valid(after.store) && NoneCompleted(e.store, after.store)
  {
    OneJobMoves(cfg, opts, e, step);
    if EngineNext(cfg, opts, e, step) != e { MovedKeeps(e.store, EngineNext(cfg, opts, e, step).store, step.id); }
  }

  lemma OneJobMoves(cfg: Config, opts: Options, e: Engine, step: EngineStep)
    requires step.Replay? || step.Dismiss? || step.Recover?
    ensures var after := EngineNext(cfg, opts, e, step);
            after == e || (after.world == e.world && OnlyJob(e.store, after.store, step.id) && after.store.jobs[step.id].status != Completed)
  {
  }

  lemma MovedKeeps(before: Store, after: Store, id: JobId)
    requires Valid(before) && OnlyJob(before, after, id)
    ensures Valid(after)
    ensures after.jobs[id].status != Completed ==> NoneCompleted(before, after)
  {
    SetKeepsValid(before, id, after.jobs[id]);
  }

  /** Handling a job has left both systems alone and synced no record. */
  ghost predicate Idle(opts: Options, e: Engine, after: Engine, id: JobId) {
    && after.world == e.world && OnlyJob(e.store, after.store, id)
    && (after.store.jobs[id].status == Completed ==> !IsChange(opts, e.store, id))
  }

  /** Or it has put the record that its event names in step, and no other out of it. */
  ghost predicate Settles(cfg: Config, opts: Options, e: Engine, after: Engine, id: JobId) {
    && IsChange(opts, e.store, id) && OnlyJob(e.store, after.store, id) && AllCarried(cfg.tables, after.world)
    && SyncRuns.SettledOne(cfg, e.world, after.world, e.store.jobs[id].event.system, e.store.jobs[id].event.sourceId)
  }

  lemma IdleKeeps(cfg: Config, opts: Options, st: Site, after: Engine, id: JobId)
    requires SiteInv(cfg, opts, st) && Idle(opts, st.engine, after, id)
    ensures SiteInv(cfg, opts, Engaged(st, after))
  {
    NothingEmitted(st, after);
    MovedKeeps(st.engine.store, after.store, id);
    forall s, x | x in st.Feed(s) || HasOpenJob(opts, st.engine.store, s, x)
      ensures x in Engaged(st, after).Feed(s) || HasOpenJob(opts, after.store, s, x)
    {
      if HasOpenJob(opts, st.engine.store, s, x) { OpenStaysBut(opts, st.engine.store, after.store, id, s, x); }
    }
    QueueKeeps(cfg, opts, st, Engaged(st, after));
  }

  lemma SettlesKeeps(cfg: Config, opts: Options, st: Site, after: Engine, id: JobId)
    requires SiteInv(cfg, opts, st) && Settles(cfg, opts, st.engine, after, id)
    ensures SiteInv(cfg, opts, Engaged(st, after))
  {
    MovedKeeps(st.engine.store, after.store, id);
    forall s, x | x in Unsynced(cfg, after.world, s)
      ensures x in Engaged(st, after).Feed(s) || HasOpenJob(opts, after.store, s, x)
    {
      StillOwed(cfg, opts, st.engine, after, id, s, x);
      if HasOpenJob(opts, st.engine.store, s, x) { OpenStaysBut(opts, st.engine.store, after.store, id, s, x); }
    }
  }

  /** What is out of step afterwards was so before, and is not the record that was handled. */
  lemma StillOwed(cfg: Config, opts: Options, e: Engine, after: Engine, id: JobId, s: SystemId, x: Id)
    requires Settles(cfg, opts, e, after, id) && x in Unsynced(cfg, after.world, s)
    ensures x in Unsynced(cfg, e.world, s) && !OpenFor(opts, e.store, id, s, x)
  {
    var event := e.store.jobs[id].event;
    if s != event.system { assert s == Other(event.system); }
  }

  lemma WorkIdlesOrSettles(cfg: Config, opts: Options, e: Engine, id: JobId, env: Env)
    requires Settled(cfg.tables) && TableOk(e.world) && AllCarried(cfg.tables, e.world)
    requires id in e.store.jobs && WorkLegal(cfg, opts, e, id, env)
    ensures var after := AfterJob(cfg, opts, e, id, env);
            Idle(opts, e, after, id) || Settles(cfg, opts, e, after, id)
  {
    var event := e.store.jobs[id].event;
    if !opts.shouldProcess(event) {
      SkippedOutcome(cfg, opts, e, id, env);
    } else if event.change == Deleted {
      DeleteOutcome(cfg, opts, e, id, env);
    } else {
      ChangeOutcome(cfg, opts, e, id, env);
      if !OutOfSight(e.world, event, env) { ReadableSettles(cfg, opts, e, id, env); }
    }
  }

  lemma ReadableSettles(cfg: Config, opts: Options, e: Engine, id: JobId, env: Env)
    requires Settled(cfg.tables) && TableOk(e.world) && AllCarried(cfg.tables, e.world)
    requires IsChange(opts, e.store, id) && !OutOfSight(e.world, e.store.jobs[id].event, env) && WorkLegal(cfg, opts, e, id, env)
    ensures var after := AfterJob(cfg, opts, e, id, env);
            Idle(opts, e, after, id) || Settles(cfg, opts, e, after, id)
  {
    var event := e.store.jobs[id].event;
    var source := Snapshot(cfg.tables, event.system, e.world.Side(event.system), event.sourceId);
    ChangeOutcome(cfg, opts, e, id, env);
    if !Reconcile(cfg, e.world, source, env.amb).1.Refused? { SyncRuns.DeliverySettles(cfg, e.world, source, env.amb); }
  }

  lemma SiteStepKeeps(cfg: Config, opts: Options, st: Site, step: SiteStep)
    requires Settled(cfg.tables) && SiteInv(cfg, opts, st) && SiteLegal(cfg, opts, st, step)
    ensures SiteInv(cfg, opts, SiteNext(cfg, opts, st, step))
  {
    if step.UserEdits? {
      EditKeeps(cfg, opts, st, step);
    } else if step.Hears? {
      HearKeeps(cfg, opts, st, step);
    } else if !step.step.Work? {
      EngineStoreStep(cfg, opts, st, step.step);
    } else {
      WorkStepKeeps(cfg, opts, st, step.step.id, step.step.env);
    }
  }

  lemma WorkStepKeeps(cfg: Config, opts: Options, st: Site, id: JobId, env: Env)
    requires Settled(cfg.tables) && SiteInv(cfg, opts, st) && WorkLegal(cfg, opts, st.engine, id, env)
    ensures SiteInv(cfg, opts, Engaged(st, EngineNext(cfg, opts, st.engine, Work(id, env))))
  {
    var e, after := st.engine, EngineNext(cfg, opts, st.engine, Work(id, env));
    if id in e.store.jobs && e.store.jobs[id].status == Processing {
      assert after == AfterJob(cfg, opts, e, id, env);
      WorkIdlesOrSettles(cfg, opts, e, id, env);
      if Idle(opts, e, after, id) { IdleKeeps(cfg, opts, st, after, id); } else { SettlesKeeps(cfg, opts, st, after, id); }
    } else {
      NothingEmitted(st, e);
    }
  }

  // ----- when every job has been completed -----

  ghost predicate AllCompleted(st: Store) { forall id :: id in st.jobs ==> st.jobs[id].status == Completed }

  lemma {:induction false} SiteRunKeeps(cfg: Config, opts: Options, st: Site, steps: seq<SiteStep>)
    requires Settled(cfg.tables) && SiteInv(cfg, opts, st) && SiteLegalRun(cfg, opts, st, steps)
    ensures SiteInv(cfg, opts, SiteRun(cfg, opts, st, steps))
    decreases |steps|
  {
    if steps != [] {
      SiteStepKeeps(cfg, opts, st, steps[0]);
      SiteRunKeeps(cfg, opts, SiteNext(cfg, opts, st, steps[0]), steps[1..]);
    }
  }

  /** Over any run in which every change is heard of sooner or later -- whatever is retried, replayed,
      reordered or repeated -- once all changes have been heard of and every job has been completed,
      every record has a counterpart with the same digest. */
  lemma CompletedMeansConverged(cfg: Config, opts: Options, st: Site, steps: seq<SiteStep>)
    requires Settled(cfg.tables) && SiteInv(cfg, opts, st) && SiteLegalRun(cfg, opts, st, steps)
    ensures var end := SiteRun(cfg, opts, st, steps);
            end.AllHeard() && AllCompleted(end.engine.store) ==> SyncRuns.Converged(cfg, end.engine.world)
  {
    SiteRunKeeps(cfg, opts, st, steps);
    var end := SiteRun(cfg, opts, st, steps);
    if end.AllHeard() && AllCompleted(end.engine.store) {
      forall s ensures Unsynced(cfg, end.engine.world, s) == {} { NothingOwed(cfg, opts, end, s); }
      SyncRuns.SyncedPairsAgree(cfg, end.engine.world);
    }
  }

  lemma NothingOwed(cfg: Config, opts: Options, st: Site, s: SystemId)
    requires SiteInv(cfg, opts, st) && st.AllHeard() && AllCompleted(st.engine.store)
    ensures Unsynced(cfg, st.engine.world, s) == {}
  {
    forall x ensures !HasOpenJob(opts, st.engine.store, s, x) && x !in st.Feed(s) { }
  }

  // ----- runs of the engine are runs of the protocol -----

  /** What a step is to the protocol: a user write, a delivery, or nothing. */
  function AsSteps(cfg: Config, opts: Options, st: Site, step: SiteStep): seq<SyncRuns.Step> {
    match step
    case UserEdits(s, id, values, at) => [SyncRuns.UserWrite(s, id, values, at)]
    case Hears(_, _, _) => []
    case Engages(engineStep) =>
      if engineStep.Work? && Delivers(opts, st.engine, engineStep.id, engineStep.env) then
        var event := st.engine.store.jobs[engineStep.id].event;
        [SyncRuns.Deliver(event.system, event.sourceId, false, engineStep.env.amb)]
      else []
  }

  /** Handling the job reconciles a record. */
  predicate Delivers(opts: Options, e: Engine, id: JobId, env: Env) {
    IsChange(opts, e.store, id) && e.store.jobs[id].status == Processing && !OutOfSight(e.world, e.store.jobs[id].event, env)
  }

  function ProtocolSteps(cfg: Config, opts: Options, st: Site, steps: seq<SiteStep>): seq<SyncRuns.Step>
    decreases |steps|
  {
    if steps == [] then [] else AsSteps(cfg, opts, st, steps[0]) + ProtocolSteps(cfg, opts, SiteNext(cfg, opts, st, steps[0]), steps[1..])
  }

  /** The protocol is where the engine is. */
  ghost predicate Mirrors(p: SyncRuns.State, st: Site) { p.world == st.engine.world && p.userWrites == st.userWrites }

  lemma StepMirrors(cfg: Config, opts: Options, st: Site, step: SiteStep, p: SyncRuns.State)
    requires SiteLegal(cfg, opts, st, step) && Mirrors(p, st)
    ensures var steps := AsSteps(cfg, opts, st, step);
            SyncRuns.LegalRun(cfg, p, steps) && Mirrors(SyncRuns.Run(cfg, p, steps), SiteNext(cfg, opts, st, step))
  {
    var steps, after := AsSteps(cfg, opts, st, step), SiteNext(cfg, opts, st, step);
    if steps == [] {
      QuietStep(cfg, opts, st, step);
    } else {
      assert steps[1..] == [];
      assert SyncRuns.Run(cfg, p, steps) == SyncRuns.Next(cfg, p, steps[0]);
      if step.Engages? { DeliveryMirrors(cfg, opts, st, step.step.id, step.step.env, p); }
    }
  }

  /** A step that is nothing to the protocol leaves both systems alone. */
  lemma QuietStep(cfg: Config, opts: Options, st: Site, step: SiteStep)
    requires SiteLegal(cfg, opts, st, step) && AsSteps(cfg, opts, st, step) == []
    ensures SiteNext(cfg, opts, st, step).engine.world == st.engine.world && SiteNext(cfg, opts, st, step).userWrites == st.userWrites
  {
    if step.Engages? && step.step.Work? {
      var id, e := step.step.id, st.engine;
      if id in e.store.jobs && e.store.jobs[id].status == Processing { QuietWork(cfg, opts, e, id, step.step.env); }
    }
  }

  lemma QuietWork(cfg: Config, opts: Options, e: Engine, id: JobId, env: Env)
    requires WorkLegal(cfg, opts, e, id, env) && id in e.store.jobs && e.store.jobs[id].status == Processing
    requires !Delivers(opts, e, id, env)
    ensures AfterJob(cfg, opts, e, id, env).world == e.world
  {
    if !opts.shouldProcess(e.store.jobs[id].event) {
      SkippedOutcome(cfg, opts, e, id, env);
    } else if e.store.jobs[id].event.change == Deleted {
      DeleteOutcome(cfg, opts, e, id, env);
    } else {
      ChangeOutcome(cfg, opts, e, id, env);
    }
  }

  lemma DeliveryMirrors(cfg: Config, opts: Options, st: Site, id: JobId, env: Env, p: SyncRuns.State)
    requires Delivers(opts, st.engine, id, env) && WorkLegal(cfg, opts, st.engine, id, env) && Mirrors(p, st)
    ensures var event := st.engine.store.jobs[id].event;
            var step := SyncRuns.Deliver(event.system, event.sourceId, false, env.amb);
            && SyncRuns.Legal(cfg, p, step)
            && SyncRuns.Next(cfg, p, step).world == AfterJob(cfg, opts, st.engine, id, env).world
            && SyncRuns.Next(cfg, p, step).userWrites == p.userWrites
  {
    ChangeOutcome(cfg, opts, st.engine, id, env);
  }

  lemma {:induction false} RunMirrors(cfg: Config, opts: Options, st: Site, steps: seq<SiteStep>, p: SyncRuns.State)
    requires SiteLegalRun(cfg, opts, st, steps) && Mirrors(p, st)
    ensures var all := ProtocolSteps(cfg, opts, st, steps);
            SyncRuns.LegalRun(cfg, p, all) && Mirrors(SyncRuns.Run(cfg, p, all), SiteRun(cfg, opts, st, steps))
    decreases |steps|
  {
    if steps != [] {
      var next, first := SiteNext(cfg, opts, st, steps[0]), AsSteps(cfg, opts, st, steps[0]);
      StepMirrors(cfg, opts, st, steps[0], p);
      RunMirrors(cfg, opts, next, steps[1..], SyncRuns.Run(cfg, p, first));
      ProtocolAppend(cfg, p, first, ProtocolSteps(cfg, opts, next, steps[1..]));
    }
  }

  lemma {:induction false} ProtocolAppend(cfg: Config, p: SyncRuns.State, a: seq<SyncRuns.Step>, b: seq<SyncRuns.Step>)
    requires SyncRuns.LegalRun(cfg, p, a) && SyncRuns.LegalRun(cfg, SyncRuns.Run(cfg, p, a), b)
    ensures SyncRuns.LegalRun(cfg, p, a + b) && SyncRuns.Run(cfg, p, a + b) == SyncRuns.Run(cfg, SyncRuns.Run(cfg, p, a), b)
    decreases |a|
  {
    if a == [] {
      assert a + b == b;
    } else {
      assert (a + b)[0] == a[0] && (a + b)[1..] == a[1..] + b;
      ProtocolAppend(cfg, SyncRuns.Next(cfg, p, a[0]), a[1..], b);
    }
  }

  const OPENING := Site(Engine(SyncRuns.INITIAL.world, EMPTY_STORE), multiset{}, multiset{}, 0)

  /** Runs may begin with empty systems and an empty queue. */
  lemma OpeningInv(cfg: Config, opts: Options)
    ensures SiteInv(cfg, opts, OPENING)
  {
    SyncRuns.EmptyInv(cfg);
    assert forall s, id :: id !in Unsynced(cfg, OPENING.engine.world, s);
  }

  /** So, from empty systems, the engine never writes more often than users do, however often its jobs
      are retried or replayed, and with all jobs completed it has put everything in step. */
  lemma EngineWritesBounded(cfg: Config, opts: Options, steps: seq<SiteStep>)
    requires Settled(cfg.tables) && SiteLegalRun(cfg, opts, OPENING, steps)
    ensures var end := SiteRun(cfg, opts, OPENING, steps);
            && Writes(end.engine.world) <= end.userWrites
            && (end.AllHeard() && AllCompleted(end.engine.store) ==> SyncRuns.Converged(cfg, end.engine.world))
  {
    OpeningInv(cfg, opts);
    CompletedMeansConverged(cfg, opts, OPENING, steps);
    RunMirrors(cfg, opts, OPENING, steps, SyncRuns.INITIAL);
    SyncRuns.LoopFreedom(cfg, ProtocolSteps(cfg, opts, OPENING, steps));
  }
}

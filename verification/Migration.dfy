/** Bulk migration: previewing or executing every record of a source (src/engine/migrationEngine.ts)
    and the runs and plans it records (src/engine/migrationStore.ts). */
module Migration {
  import opened Canonical
  import opened Connector
  import opened Reconciler
  import IdMap
  import Mapping

  // ----- accounting -----

  datatype Tally = Tally(read: nat, reconciled: nat, errors: nat, actions: map<Action, nat>)

  const NOTHING_READ := Tally(0, 0, 0, map[])

  function CountOf(actions: map<Action, nat>, a: Action): nat { if a in actions then actions[a] else 0 }

  function ActionTotal(actions: map<Action, nat>): nat {
    CountOf(actions, Create) + CountOf(actions, Update) + CountOf(actions, Match) + CountOf(actions, Skip)
    + CountOf(actions, Action.Conflict) + CountOf(actions, AmbiguousMatch) + CountOf(actions, Failed)
  }

  /** What handling one record came to: the plan to report, and whether it went through. */
  datatype RecordResult = RecordResult(plan: Plan, ok: bool)

  /** Previewing or migrating one record; the last argument numbers the records of a run. */
  type RecordHandler = (World, Record, nat) -> (World, RecordResult)

  /** The world, the figures and the reported plans of a run so far. */
  datatype RunState = RunState(world: World, tally: Tally, plans: seq<Plan>)

  function Count(t: Tally, result: RecordResult): Tally {
    if result.ok then
      Tally(t.read + 1, t.reconciled + 1, t.errors, t.actions[result.plan.action := CountOf(t.actions, result.plan.action) + 1])
    else Tally(t.read + 1, t.reconciled, t.errors + 1, t.actions)
  }

  function HandleRecord(handle: RecordHandler, st: RunState, r: Record): RunState {
    var (world, result) := handle(st.world, r, st.tally.read);
    RunState(world, Count(st.tally, result), st.plans + [result.plan])
  }

  function HandleAll(handle: RecordHandler, st: RunState, records: seq<Record>): RunState {
    if records == [] then st
    else HandleRecord(handle, HandleAll(handle, st, records[..|records| - 1]), records[|records| - 1])
  }

  function PlanCount(plans: seq<Plan>, a: Action): nat {
    if plans == [] then 0
    else PlanCount(plans[..|plans| - 1], a) + if plans[|plans| - 1].action == a then 1 else 0
  }

  /** A failed record, and only that, is reported with the action `Failed`. */
  ghost predicate ReportsFailures(handle: RecordHandler) {
    forall w: World, r: Record, n: nat :: handle(w, r, n).1.ok <==> handle(w, r, n).1.plan.action != Failed
  }

  /** The books balance: every record read was reconciled or failed, the action figures add up to
      the reconciled ones, and each figure is the number of reported plans with that action. */
  ghost predicate Balanced(st: RunState) {
    && st.tally.read == st.tally.reconciled + st.tally.errors == |st.plans|
    && ActionTotal(st.tally.actions) == st.tally.reconciled
    && st.tally.errors == PlanCount(st.plans, Failed)
    && forall a :: a != Failed ==> CountOf(st.tally.actions, a) == PlanCount(st.plans, a)
  }

  lemma OneMorePlan(plans: seq<Plan>, p: Plan, a: Action)
    ensures PlanCount(plans + [p], a) == PlanCount(plans, a) + if p.action == a then 1 else 0
  {
    assert (plans + [p])[..|plans|] == plans;
  }

  lemma Bump(actions: map<Action, nat>, a: Action)
    ensures var after := actions[a := CountOf(actions, a) + 1];
            && ActionTotal(after) == ActionTotal(actions) + 1
            && forall b :: CountOf(after, b) == CountOf(actions, b) + if a == b then 1 else 0
  {
    assert forall b :: CountOf(actions[a := CountOf(actions, a) + 1], b) == CountOf(actions, b) + if a == b then 1 else 0;
  }

  lemma CountBalances(st: RunState, world: World, result: RecordResult)
    requires Balanced(st) && (result.ok <==> result.plan.action != Failed)
    ensures Balanced(RunState(world, Count(st.tally, result), st.plans + [result.plan]))
  {
    if result.ok { Bump(st.tally.actions, result.plan.action); }
    forall a ensures PlanCount(st.plans + [result.plan], a) == PlanCount(st.plans, a) + if result.plan.action == a then 1 else 0 {
      OneMorePlan(st.plans, result.plan, a);
    }
  }

  /** Any run keeps its books balanced, whatever happens to the records. */
  lemma {:induction false} RunBalances(handle: RecordHandler, st: RunState, records: seq<Record>)
    requires ReportsFailures(handle) && Balanced(st)
    ensures Balanced(HandleAll(handle, st, records))
  {
    if records != [] {
      var before, last := HandleAll(handle, st, records[..|records| - 1]), records[|records| - 1];
      RunBalances(handle, st, records[..|records| - 1]);
      var (world, result) := handle(before.world, last, before.tally.read);
      CountBalances(before, world, result);
    }
  }

  lemma {:induction false} HandleAppend(handle: RecordHandler, st: RunState, a: seq<Record>, b: seq<Record>)
    ensures HandleAll(handle, st, a + b) == HandleAll(handle, HandleAll(handle, st, a), b)
  {
    if b == [] {
      assert a + b == a;
    } else {
      assert (a + b)[..|a + b| - 1] == a + b[..|b| - 1];
      HandleAppend(handle, st, a, b[..|b| - 1]);
    }
  }

  // ----- one record -----

  /** What the surroundings supply to one record: identifiers and clocks, and whether the target
      cannot be reached at all. */
  datatype RecordEnv = RecordEnv(amb: Ambient, down: bool)

  function FailedPlan(p: Plan, why: Refusal): Plan {
    p.(action := Failed, warnings := p.warnings + [Failure(why)])
  }

  /** How many records an ambiguous plan reports. */
  function SharedCount(p: Plan): nat {
    if p.warnings != [] && p.warnings[0].SharedKey? then p.warnings[0].count else 0
  }

  function BarePlan(r: Record): Plan {
    Plan(None, r.source, r.sourceId, None, None, Failed, map[], [Failure(WriteFailed)])
  }

  /** A dry run previews; a real run refuses ambiguous previews and reconciles the rest. */
  function MigrateRecord(cfg: Config, dry: bool, w: World, r: Record, env: RecordEnv): (World, RecordResult) {
    if env.down then (w, RecordResult(BarePlan(r), false))
    else
      var plan := Preview(cfg, w, r);
      if dry then (w, RecordResult(plan, true))
      else if plan.action == AmbiguousMatch then (w, RecordResult(FailedPlan(plan, AmbiguousKey(SharedCount(plan))), false))
      else
        var (after, outcome) := Reconcile(cfg, w, r, env.amb);
        if outcome.Refused? then (after, RecordResult(FailedPlan(plan, outcome.reason), false))
        else (after, RecordResult(plan, true))
  }

  function HandlerFor(cfg: Config, dry: bool, envs: nat -> RecordEnv): RecordHandler {
    (w: World, r: Record, n: nat) => MigrateRecord(cfg, dry, w, r, envs(n))
  }

  lemma ComparisonNeverFails(cfg: Config, source: Record, cid: Option<IdMap.Cid>, link: Option<IdMap.Link>, target: Record, matched: bool)
    ensures ComparePlan(cfg, source, cid, link, target, matched).action !in {Failed, AmbiguousMatch}
  {
  }

  lemma PreviewNeverFails(cfg: Config, w: World, r: Record)
    ensures Preview(cfg, w, r).action != Failed
  {
    forall cid, link, target, matched ensures ComparePlan(cfg, r, cid, link, target, matched).action != Failed {
      ComparisonNeverFails(cfg, r, cid, link, target, matched);
    }
  }

  lemma RecordReportsFailure(cfg: Config, dry: bool, w: World, r: Record, env: RecordEnv)
    ensures var result := MigrateRecord(cfg, dry, w, r, env).1; result.ok <==> result.plan.action != Failed
  {
    PreviewNeverFails(cfg, w, r);
  }

  lemma MigrateReportsFailures(cfg: Config, dry: bool, envs: nat -> RecordEnv)
    ensures ReportsFailures(HandlerFor(cfg, dry, envs))
  {
    forall w: World, r: Record, n: nat
      ensures HandlerFor(cfg, dry, envs)(w, r, n).1.ok <==> HandlerFor(cfg, dry, envs)(w, r, n).1.plan.action != Failed
    {
      RecordReportsFailure(cfg, dry, w, r, envs(n));
    }
  }

  /** So a type whose links are live is ready to be run with the handler it is run with. */
  lemma TypesReady(cfgs: string -> Config, dry: bool, envs: string -> nat -> RecordEnv, worlds: map<string, World>, from: SystemId, t: string)
    requires t in worlds && ListingInv(worlds[t], from)
    ensures TypeReady(worlds, from, (u: string) => HandlerFor(cfgs(u), dry, envs(u)), t)
  {
    MigrationKeepsListing(cfgs(t), dry, from, envs(t));
    MigrateReportsFailures(cfgs(t), dry, envs(t));
  }

  /** With the target out of reach a record fails, and nothing changes. */
  lemma DownOutcome(cfg: Config, dry: bool, w: World, r: Record, env: RecordEnv)
    requires env.down
    ensures var (after, result) := MigrateRecord(cfg, dry, w, r, env);
            after == w && !result.ok && result.plan.action == Failed && result.plan.sourceId == r.sourceId
  {
  }

  /** A dry run reports the preview and changes nothing. */
  lemma DryOutcome(cfg: Config, w: World, r: Record, env: RecordEnv)
    requires !env.down
    ensures MigrateRecord(cfg, true, w, r, env) == (w, RecordResult(Preview(cfg, w, r), true))
  {
  }

  /** A real run refuses a record that several match, and says how many. */
  lemma AmbiguousOutcome(cfg: Config, w: World, r: Record, env: RecordEnv)
    requires !env.down && Preview(cfg, w, r).action == AmbiguousMatch
    ensures var (after, result) := MigrateRecord(cfg, false, w, r, env);
            && after == w && !result.ok && KeyFor(cfg, r.fields).Some?
            && FailsWith(result.plan, Preview(cfg, w, r), AmbiguousKey(|Matches(cfg, w, Other(r.source), KeyFor(cfg, r.fields).value)|))
  {
    AmbiguousSays(cfg, w, r);
  }

  lemma AmbiguousSays(cfg: Config, w: World, r: Record)
    requires Preview(cfg, w, r).action == AmbiguousMatch
    ensures KeyFor(cfg, r.fields).Some?
    ensures Preview(cfg, w, r).warnings == [SharedKey(|Matches(cfg, w, Other(r.source), KeyFor(cfg, r.fields).value)|)]
  {
    forall cid, link, target, matched ensures ComparePlan(cfg, r, cid, link, target, matched).action != AmbiguousMatch {
      ComparisonNeverFails(cfg, r, cid, link, target, matched);
    }
  }

  /** Every other record it reconciles: it reports the preview when the run goes through, and the
      refusal when not. */
  lemma ReconciledOutcome(cfg: Config, w: World, r: Record, env: RecordEnv)
    requires !env.down && Preview(cfg, w, r).action != AmbiguousMatch
    ensures var (after, result) := MigrateRecord(cfg, false, w, r, env);
            var (world, outcome) := Reconcile(cfg, w, r, env.amb);
            && after == world && (result.ok <==> !outcome.Refused?)
            && (result.ok ==> result.plan == Preview(cfg, w, r))
            && (!result.ok ==> FailsWith(result.plan, Preview(cfg, w, r), outcome.reason))
  {
  }

  /** The plan has failed, for this reason, and says so after everything else it says. */
  predicate FailsWith(p: Plan, plan: Plan, why: Refusal) {
    p == plan.(action := Failed, warnings := p.warnings) && p.warnings == plan.warnings + [Failure(why)]
  }

  /** A record leaves the world alone or reconciles it. */
  lemma MigratedWorld(cfg: Config, dry: bool, w: World, r: Record, env: RecordEnv)
    ensures var after := MigrateRecord(cfg, dry, w, r, env).0; after == w || after == Reconcile(cfg, w, r, env.amb).0
  {
  }

  lemma DryRecord(cfg: Config, w: World, r: Record, env: RecordEnv)
    ensures MigrateRecord(cfg, true, w, r, env).0 == w
  {
  }

  /** A dry run writes nothing. */
  lemma {:induction false} DryRunWritesNothing(cfg: Config, envs: nat -> RecordEnv, st: RunState, records: seq<Record>)
    ensures HandleAll(HandlerFor(cfg, true, envs), st, records).world == st.world
  {
    if records != [] {
      var before := HandleAll(HandlerFor(cfg, true, envs), st, records[..|records| - 1]);
      DryRunWritesNothing(cfg, envs, st, records[..|records| - 1]);
      DryRecord(cfg, before.world, records[|records| - 1], envs(before.tally.read));
    }
  }

  // ----- paging -----

  const EVERYTHING: Native -> bool := (n: Native) => true

  lemma {:induction false} UnfilteredOrder(crm: Crm, order: seq<Id>)
    requires forall id :: id in order ==> id in crm.records
    ensures Filter(crm, None, EVERYTHING, order) == order
  {
    if order != [] {
      assert order == order[..|order| - 1] + [order[|order| - 1]];
      UnfilteredOrder(crm, order[..|order| - 1]);
    }
  }

  /** How many records a limit lets a run of one type read: zero and no limit mean all, a negative
      limit means none. */
  function Cap(limit: Option<int>, total: nat): (n: nat)
    ensures WithinLimit(limit, total, n)
  {
    if limit == None || limit.value == 0 then total
    else if limit.value < 0 then 0
    else Min(limit.value, total)
  }

  /** Everything without a limit, or with zero; nothing with a negative one; otherwise as many records as
      the limit says, or all there are. */
  predicate WithinLimit(limit: Option<int>, total: nat, n: nat) {
    && n <= total
    && (limit == None || limit == Some(0) ==> n == total)
    && (limit.Some? && limit.value < 0 ==> n == 0)
    && (limit.Some? && limit.value > 0 ==> n <= limit.value && (n == limit.value || n == total))
  }

  predicate Reached(limit: Option<int>, read: nat) {
    limit.Some? && limit.value != 0 && read >= limit.value
  }

  /** How many more records of a page the limit lets through. */
  function Room(limit: Option<int>, read: nat, page: nat): nat {
    if limit == None || limit.value == 0 then page
    else if limit.value <= read then 0
    else Min(limit.value - read, page)
  }

  // ----- the listing holds still -----

  /** The source lists its records in order, and every link's record on that side exists. */
  ghost predicate ListingInv(w: World, from: SystemId) {
    && WellFormed(w.Side(from))
    && forall c :: c in w.table.links && from in w.table.links[c].ids ==> w.table.links[c].ids[from] in w.Side(from).records
  }

  /** Handling a record of the source leaves the source's listing as it is. */
  ghost predicate KeepsListing(from: SystemId, handle: RecordHandler) {
    forall w: World, r: Record, n: nat ::
      ListingInv(w, from) && r.source == from && r.sourceId in w.Side(from).records ==>
      ListingInv(handle(w, r, n).0, from) && handle(w, r, n).0.Side(from).order == w.Side(from).order
  }

  lemma DecidedLinkLive(cfg: Config, w: World, source: Record, newCid: IdMap.Cid)
    requires ListingInv(w, source.source) && source.sourceId in w.Side(source.source).records
    requires Decide(cfg, w, source, newCid).Write?
    ensures var d, from := Decide(cfg, w, source, newCid), source.source;
            from in d.link.ids ==> d.link.ids[from] in w.Side(from).records
  {
  }

  lemma UpsertKeepsOrder(tb: Mapping.Tables, s: SystemId, crm: Crm, id: Id, fields: Fields, now: Time)
    requires WellFormed(crm) && id in crm.records
    ensures var after := Upsert(tb, s, crm, id, fields, now);
            WellFormed(after) && after.order == crm.order && after.records.Keys == crm.records.Keys
  {
  }

  lemma AfterLinkKeepsListing(cfg: Config, w: World, source: Record, d: Decision, id: Id, amb: Ambient)
    requires ListingInv(w, source.source) && source.sourceId in w.Side(source.source).records && d.Write?
    requires source.source in d.link.ids ==> d.link.ids[source.source] in w.Side(source.source).records
    ensures var after, from := AfterLink(cfg, w, source, d, id, amb), source.source;
            ListingInv(after, from) && after.Side(from).order == w.Side(from).order
  {
    var after, from := AfterLink(cfg, w, source, d, id, amb), source.source;
    if WritesBack(cfg, source, d) {
      UpsertKeepsOrder(cfg.tables, from, w.Side(from), d.link.ids[from], d.winner.fields, amb.later);
    }
    StoredLinksLive(w, after, source, d.cid, FinalLink(cfg, source, d, id, amb));
  }

  lemma StoredLinksLive(w: World, after: World, source: Record, cid: IdMap.Cid, link: IdMap.Link)
    requires ListingInv(w, source.source) && source.sourceId in w.Side(source.source).records
    requires WellFormed(after.Side(source.source)) && after.Side(source.source).records.Keys == w.Side(source.source).records.Keys
    requires after.table == IdMap.Index(w.table, cid, link)
    requires source.source in link.ids && link.ids[source.source] == source.sourceId
    ensures ListingInv(after, source.source)
  {
  }

  lemma ReconcileKeepsListing(cfg: Config, w: World, source: Record, amb: Ambient)
    requires ListingInv(w, source.source) && source.sourceId in w.Side(source.source).records
    ensures var after, from := Reconcile(cfg, w, source, amb).0, source.source;
            ListingInv(after, from) && after.Side(from).order == w.Side(from).order
  {
    var d := Decide(cfg, w, source, amb.newCid);
    if d.Write? {
      DecidedLinkLive(cfg, w, source, amb.newCid);
      var id := WrittenId(cfg, Other(source.source), d.target, amb);
      if id.Some? { AfterLinkKeepsListing(cfg, w, source, d, id.value, amb); }
    }
  }

  /** Neither previewing nor migrating a record changes which records the source lists, or in what
      order: paging by offset is safe. */
  lemma MigrationKeepsListing(cfg: Config, dry: bool, from: SystemId, envs: nat -> RecordEnv)
    ensures KeepsListing(from, HandlerFor(cfg, dry, envs))
  {
    var handle := HandlerFor(cfg, dry, envs);
    forall w: World, r: Record, n: nat | ListingInv(w, from) && r.source == from && r.sourceId in w.Side(from).records
      ensures ListingInv(handle(w, r, n).0, from) && handle(w, r, n).0.Side(from).order == w.Side(from).order
    {
      OneRecordKeepsListing(cfg, dry, w, r, envs(n));
    }
  }

  lemma OneRecordKeepsListing(cfg: Config, dry: bool, w: World, r: Record, env: RecordEnv)
    requires ListingInv(w, r.source) && r.sourceId in w.Side(r.source).records
    ensures var after := MigrateRecord(cfg, dry, w, r, env).0;
            ListingInv(after, r.source) && after.Side(r.source).order == w.Side(r.source).order
  {
    assert ListingInv(Reconcile(cfg, w, r, env.amb).0, r.source)
           && Reconcile(cfg, w, r, env.amb).0.Side(r.source).order == w.Side(r.source).order by {
      ReconcileKeepsListing(cfg, w, r, env.amb);
    }
    MigratedWorld(cfg, dry, w, r, env);
  }

  /** Snapshots of listed records. */
  ghost predicate FromListing(records: seq<Record>, from: SystemId, order: seq<Id>) {
    forall i :: 0 <= i < |records| ==> records[i].source == from && records[i].sourceId in order
  }

  lemma {:induction false} ListingKept(from: SystemId, handle: RecordHandler, st: RunState, records: seq<Record>)
    requires KeepsListing(from, handle) && ListingInv(st.world, from)
    requires FromListing(records, from, st.world.Side(from).order)
    ensures var after := HandleAll(handle, st, records).world;
            ListingInv(after, from) && after.Side(from).order == st.world.Side(from).order
  {
    if records != [] {
      ListingKept(from, handle, st, records[..|records| - 1]);
      assert records[|records| - 1].sourceId in st.world.Side(from).order;
    }
  }

  lemma {:induction false} SnapshotsAt(tb: Mapping.Tables, s: SystemId, crm: Crm, ids: seq<Id>, i: nat)
    requires (forall id :: id in ids ==> id in crm.records) && i < |ids|
    ensures ids[i] in crm.records && Snapshots(tb, s, crm, ids)[i] == Snapshot(tb, s, crm, ids[i])
  {
    if i < |ids| - 1 {
      assert forall id :: id in ids[..|ids| - 1] ==> id in ids;
      SnapshotsAt(tb, s, crm, ids[..|ids| - 1], i);
    }
  }

  lemma {:induction false} ReadsAll(handle: RecordHandler, st: RunState, records: seq<Record>)
    ensures HandleAll(handle, st, records).tally.read == st.tally.read + |records|
    ensures st.plans <= HandleAll(handle, st, records).plans
  {
    if records != [] { ReadsAll(handle, st, records[..|records| - 1]); }
  }

  // ----- recorded runs -----

  datatype Mode = Previewing | Executing

  datatype RunStatus = Running | Completed | Broken(error: string)

  datatype RunSummary = RunSummary(source: SystemId, mode: Mode, status: RunStatus)

  class InMemoryMigrationStore {
    var runs: map<string, RunSummary>
    var items: map<string, seq<Plan>>

    constructor ()
      ensures runs == map[] && items == map[]
    {
      runs, items := map[], map[];
    }

    method Begin(id: string, source: SystemId, mode: Mode)
      modifies this
      ensures runs == old(runs)[id := RunSummary(source, mode, Running)] && items == old(items)[id := []]
    {
      runs := runs[id := RunSummary(source, mode, Running)];
      items := items[id := []];
    }

    method RecordPlan(id: string, plan: Plan)
      modifies this`items
      ensures items == if id in old(items) then old(items)[id := old(items)[id] + [plan]] else old(items)
    {
      if id in items {
        items := items[id := items[id] + [plan]];
      }
    }

    method Close(id: string, status: RunStatus)
      modifies this`runs
      ensures runs == if id in old(runs) then old(runs)[id := old(runs)[id].(status := status)] else old(runs)
    {
      if id in runs {
        runs := runs[id := runs[id].(status := status)];
      }
    }

    method Plans(id: string, limit: nat) returns (plans: seq<Plan>)
      ensures plans == FirstPlans(items, id, limit)
    {
      if id !in items {
        return [];
      }
      return if |items[id]| <= limit then items[id] else items[id][..limit];
    }
  }

  function FirstPlans(items: map<string, seq<Plan>>, id: string, limit: nat): (plans: seq<Plan>)
    ensures id in items ==> plans <= items[id] && |plans| == Min(|items[id]|, limit)
    ensures id !in items ==> plans == []
  {
    if id !in items then [] else if |items[id]| <= limit then items[id] else items[id][..limit]
  }

  // ----- the engine -----

  class MigrationEngine {
    const cfg: Config
    const store: InMemoryMigrationStore

    constructor (cfg: Config, store: InMemoryMigrationStore)
      ensures this.cfg == cfg && this.store == store
    {
      this.cfg, this.store := cfg, store;
    }

    /** Handling one record and recording its plan, in the report and in the store. */
    method RunRecord(runId: string, handle: RecordHandler, st: RunState, r: Record) returns (after: RunState)
      requires runId in store.items
      modifies store`items
      ensures after == HandleRecord(handle, st, r)
      ensures store.items == old(store.items)[runId := old(store.items)[runId] + after.plans[|st.plans|..]]
    {
      var (world, result) := handle(st.world, r, st.tally.read);
      store.RecordPlan(runId, result.plan);
      after := RunState(world, Count(st.tally, result), st.plans + [result.plan]);
      assert after.plans[|st.plans|..] == [result.plan];
    }

    /** The records of one page, up to the limit. */
    method RunPage(runId: string, handle: RecordHandler, st0: RunState, page: seq<Record>, limit: Option<int>)
      returns (st: RunState, ghost used: nat)
      requires runId in store.items
      modifies store`items
      ensures used == Room(limit, st0.tally.read, |page|) && st == HandleAll(handle, st0, page[..used])
      ensures st0.plans <= st.plans
      ensures store.items == old(store.items)[runId := old(store.items)[runId] + st.plans[|st0.plans|..]]
    {
      st, used := st0, 0;
      var i := 0;
      ghost var stored := store.items[runId];
      while i < |page| && !Reached(limit, st.tally.read)
        invariant i == used <= |page| && used <= Room(limit, st0.tally.read, |page|)
        invariant st == HandleAll(handle, st0, page[..used]) && st.tally.read == st0.tally.read + used
        invariant st0.plans <= st.plans
        invariant runId in store.items && store.items == old(store.items)[runId := store.items[runId]]
        invariant store.items[runId] == stored + st.plans[|st0.plans|..]
      {
        assert page[..used + 1][..used] == page[..used];
        ghost var before := st;
        st := RunRecord(runId, handle, st, page[i]);
        assert st.plans[|st0.plans|..] == before.plans[|st0.plans|..] + st.plans[|before.plans|..];
        i, used := i + 1, used + 1;
      }
    }

    /** One turn of the paging loop. */
    method TakePage(runId: string, from: SystemId, handle: RecordHandler, st0: RunState, st: RunState, start: nat,
                    limit: Option<int>, ghost records: seq<Record>)
      returns (after: RunState, cursor: Option<nat>, ghost longer: seq<Record>)
      requires KeepsListing(from, handle) && RunSoFar(from, handle, st0, st, records) && AtPage(Some(start), records)
      requires ReadInPages(cfg, from, handle, st0, records)
      requires runId in store.items && |records| <= Cap(limit, |st0.world.Side(from).order|)
      modifies store`items
      ensures RunSoFar(from, handle, st0, after, longer) && ReadInPages(cfg, from, handle, st0, longer)
      ensures |longer| <= Cap(limit, |st0.world.Side(from).order|)
      ensures AtPage(cursor, longer) && (cursor.Some? ==> start < cursor.value)
      ensures cursor == None ==> |longer| == Cap(limit, |st0.world.Side(from).order|)
      ensures st.plans <= after.plans
      ensures store.items == old(store.items)[runId := old(store.items)[runId] + after.plans[|st.plans|..]]
    {
      var page, next := PlacedPage(from, st.world.Side(from), start);
      ghost var used: nat;
      after, used := RunPage(runId, handle, st, page, limit);
      longer := records + page[..used];
      PageTaken(cfg, from, handle, st0, st, after, records, page, used, start, limit);
      cursor := if Reached(limit, after.tally.read) then None else next;
    }

    /** A page's records are the ones the listing has from its offset on. */
    method PlacedPage(from: SystemId, crm: Crm, start: nat) returns (page: seq<Record>, next: Option<nat>)
      requires WellFormed(crm)
      ensures |page| == |PageIds(crm.order, start)| && next == NextCursor(crm.order, start)
      ensures PlacedAt(from, crm.order, start, page) && SnapshotsOf(cfg, from, crm, page)
    {
      page, next := ListPage(from, crm, start);
      PagePlaces(cfg, from, crm, start, page);
    }

    /** One page of the unfiltered listing. */
    method ListPage(from: SystemId, crm: Crm, start: nat) returns (page: seq<Record>, next: Option<nat>)
      requires WellFormed(crm)
      ensures page == Snapshots(cfg.tables, from, crm, PageIds(crm.order, start)) && next == NextCursor(crm.order, start)
    {
      UnfilteredOrder(crm, crm.order);
      var all := Listing(crm, None, EVERYTHING);
      page := Snapshots(cfg.tables, from, crm, PageIds(all, start));
      next := NextCursor(all, start);
    }

    /** The paging loop for one type: it reads the records of the source in listing order, each exactly
        once and as it is when its page is fetched, up to the limit; the plans it stores are the
        plans it reports. */
    method RunType(runId: string, from: SystemId, handle: RecordHandler, st0: RunState, limit: Option<int>)
      returns (st: RunState, ghost records: seq<Record>)
      requires KeepsListing(from, handle) && ListingInv(st0.world, from)
      requires runId in store.items && st0.tally.read == 0
      modifies store`items
      ensures RunSoFar(from, handle, st0, st, records) && ReadInPages(cfg, from, handle, st0, records)
      ensures WithinLimit(limit, |st0.world.Side(from).order|, |records|)
      ensures st0.plans <= st.plans
      ensures store.items == old(store.items)[runId := old(store.items)[runId] + st.plans[|st0.plans|..]]
    {
      st, records := st0, [];
      ghost var stored := store.items[runId];
      var cursor: Option<nat> := Some(0);
      while cursor.Some?
        invariant RunSoFar(from, handle, st0, st, records) && ReadInPages(cfg, from, handle, st0, records)
        invariant |records| <= Cap(limit, |st0.world.Side(from).order|)
        invariant AtPage(cursor, records)
        invariant cursor == None ==> |records| == Cap(limit, |st0.world.Side(from).order|)
        invariant st0.plans <= st.plans
        invariant runId in store.items && store.items == old(store.items)[runId := store.items[runId]]
        invariant store.items[runId] == stored + st.plans[|st0.plans|..]
        decreases if cursor.Some? then |st0.world.Side(from).order| - cursor.value + 1 else 0
      {
        ghost var before := st.plans;
        st, cursor, records := TakePage(runId, from, handle, st0, st, cursor.value, limit, records);
        assert st.plans[|st0.plans|..] == before[|st0.plans|..] + st.plans[|before|..];
      }
    }

    /** The figures and plans of one type, starting from nothing. */
    method RunOne(runId: string, from: SystemId, handle: RecordHandler, world0: World, limit: Option<int>)
      returns (world: World, tally: Tally, plans: seq<Plan>, ghost records: seq<Record>)
      requires KeepsListing(from, handle) && ReportsFailures(handle) && ListingInv(world0, from) && runId in store.items
      modifies store`items
      ensures RunSoFar(from, handle, RunState(world0, NOTHING_READ, []), RunState(world, tally, plans), records)
      ensures ReadInPages(cfg, from, handle, RunState(world0, NOTHING_READ, []), records) && |records| == tally.read
      ensures ListingInv(world, from) && world.Side(from).order == world0.Side(from).order
      ensures Sound(tally) && tally.read == |plans| && WithinLimit(limit, |world0.Side(from).order|, tally.read)
      ensures store.items == old(store.items)[runId := old(store.items)[runId] + plans]
    {
      var st0 := RunState(world0, NOTHING_READ, []);
      var st;
      st, records := RunType(runId, from, handle, st0, limit);
      RunBalances(handle, st0, records);
      world, tally, plans := st.world, st.tally, st.plans;
    }

    /** `run`: one type after another, each over its own records. The stored plans of the run are
        exactly the reported ones, every type reads its whole listing up to the limit and its figures
        balance, and for distinct types the figures account for every plan. */
    method Run(runId: string, from: SystemId, mode: Mode, handle: string -> RecordHandler, types: seq<string>,
               worlds0: map<string, World>, limit: Option<int>)
      returns (worlds: map<string, World>, perType: map<string, Tally>, plans: seq<Plan>)
      requires AllReady(worlds0, from, handle, types)
      modifies store
      ensures store.items == old(store.items)[runId := plans]
      ensures store.runs == old(store.runs)[runId := RunSummary(from, mode, Completed)]
      ensures AllRead(perType, worlds0, from, limit, types)
      ensures Distinct(types) ==> |plans| == TotalRead(perType, types)
    {
      store.Begin(runId, from, mode);
      worlds, perType, plans := worlds0, map[], [];
      for i := 0 to |types|
        invariant AllReady(worlds, from, handle, types) && SameListings(worlds0, worlds, from, types)
        invariant AllRead(perType, worlds0, from, limit, types[..i])
        invariant Distinct(types) ==> |plans| == TotalRead(perType, types[..i])
        invariant store.items == old(store.items)[runId := plans]
        invariant store.runs == old(store.runs)[runId := RunSummary(from, mode, Running)]
      {
        worlds, perType, plans := RunNext(runId, from, handle, types, i, worlds0, worlds, perType, plans, limit);
      }
      assert types[..|types|] == types;
      store.Close(runId, Completed);
    }

    /** One turn of the loop over types. */
    method RunNext(runId: string, from: SystemId, handle: string -> RecordHandler, types: seq<string>, i: nat, ghost start: map<string, World>,
                   worlds0: map<string, World>, perType0: map<string, Tally>, plans0: seq<Plan>, limit: Option<int>)
      returns (worlds: map<string, World>, perType: map<string, Tally>, plans: seq<Plan>)
      requires runId in store.items && store.items[runId] == plans0 && i < |types|
      requires AllReady(worlds0, from, handle, types) && SameListings(start, worlds0, from, types)
      requires AllRead(perType0, start, from, limit, types[..i])
      modifies store`items
      ensures AllReady(worlds, from, handle, types) && SameListings(start, worlds, from, types)
      ensures AllRead(perType, start, from, limit, types[..i + 1])
      ensures (Distinct(types) && |plans0| == TotalRead(perType0, types[..i])) ==> |plans| == TotalRead(perType, types[..i + 1])
      ensures store.items == old(store.items)[runId := plans]
    {
      var t := types[i];
      assert TypeReady(worlds0, from, handle, t) && SameListing(start, worlds0, from, t);
      var world, tally, reported, _ := RunOne(runId, from, handle(t), worlds0[t], limit);
      AddedRead(perType0, types, i, tally);
      TypeReplaced(start, worlds0, from, handle, types, t, world);
      TypeCounted(perType0, start, from, limit, types, i, tally);
      worlds, perType, plans := worlds0[t := world], perType0[t := tally], plans0 + reported;
    }
  }

  /** Every type's records are listed and linked as the run needs. */
  ghost predicate AllReady(worlds: map<string, World>, from: SystemId, handle: string -> RecordHandler, types: seq<string>) {
    forall t :: t in types ==> TypeReady(worlds, from, handle, t)
  }

  /** No type's listing has changed. */
  predicate SameListings(worlds0: map<string, World>, worlds: map<string, World>, from: SystemId, types: seq<string>) {
    forall t :: t in types ==> SameListing(worlds0, worlds, from, t)
  }

  /** Every type has read its whole listing, up to the limit, and its figures balance. */
  predicate AllRead(perType: map<string, Tally>, worlds: map<string, World>, from: SystemId, limit: Option<int>, types: seq<string>) {
    forall t :: t in types ==> TypeRead(perType, worlds, from, limit, t)
  }

  lemma TypeReplaced(start: map<string, World>, worlds: map<string, World>, from: SystemId, handle: string -> RecordHandler,
                     types: seq<string>, t: string, world: World)
    requires AllReady(worlds, from, handle, types) && SameListings(start, worlds, from, types) && t in types
    requires t in worlds && ListingInv(world, from) && world.Side(from).order == worlds[t].Side(from).order
    ensures AllReady(worlds[t := world], from, handle, types) && SameListings(start, worlds[t := world], from, types)
  {
    forall u | u in types ensures TypeReady(worlds[t := world], from, handle, u) && SameListing(start, worlds[t := world], from, u) {
      assert TypeReady(worlds, from, handle, u) && SameListing(start, worlds, from, u);
    }
  }

  lemma TypeCounted(perType: map<string, Tally>, start: map<string, World>, from: SystemId, limit: Option<int>,
                    types: seq<string>, i: nat, tally: Tally)
    requires i < |types| && AllRead(perType, start, from, limit, types[..i])
    requires types[i] in start && Sound(tally) && WithinLimit(limit, |start[types[i]].Side(from).order|, tally.read)
    ensures AllRead(perType[types[i] := tally], start, from, limit, types[..i + 1])
  {
    var after := perType[types[i] := tally];
    forall u | u in types[..i + 1] ensures TypeRead(after, start, from, limit, u) {
      assert types[..i + 1] == types[..i] + [types[i]];
      if u != types[i] { assert TypeRead(perType, start, from, limit, u); }
    }
  }

  ghost predicate TypeReady(worlds: map<string, World>, from: SystemId, handle: string -> RecordHandler, t: string) {
    t in worlds && ListingInv(worlds[t], from) && KeepsListing(from, handle(t)) && ReportsFailures(handle(t))
  }

  /** The type's listing is what it was. */
  predicate SameListing(worlds0: map<string, World>, worlds: map<string, World>, from: SystemId, t: string) {
    t in worlds0 && t in worlds && worlds[t].Side(from).order == worlds0[t].Side(from).order
  }

  /** The type's whole listing was read, up to the limit, and its figures balance. */
  predicate TypeRead(perType: map<string, Tally>, worlds: map<string, World>, from: SystemId, limit: Option<int>, t: string) {
    t in perType && t in worlds && Sound(perType[t]) && WithinLimit(limit, |worlds[t].Side(from).order|, perType[t].read)
  }

  predicate Distinct(types: seq<string>) { forall i, j :: 0 <= i < j < |types| ==> types[i] != types[j] }

  /** One type's figures: every record read was reconciled or failed, and the actions add up. */
  predicate Sound(t: Tally) { t.read == t.reconciled + t.errors && ActionTotal(t.actions) == t.reconciled }

  function TotalRead(perType: map<string, Tally>, types: seq<string>): nat {
    if types == [] then 0
    else
      var last := types[|types| - 1];
      TotalRead(perType, types[..|types| - 1]) + if last in perType then perType[last].read else 0
  }

  lemma {:induction false} OtherTypesRead(perType: map<string, Tally>, types: seq<string>, t: string, tally: Tally)
    requires t !in types
    ensures TotalRead(perType[t := tally], types) == TotalRead(perType, types)
  {
    if types != [] { OtherTypesRead(perType, types[..|types| - 1], t, tally); }
  }

  lemma AddedRead(perType: map<string, Tally>, types: seq<string>, i: nat, tally: Tally)
    requires i < |types|
    ensures types[i] !in types[..i] ==>
              TotalRead(perType[types[i] := tally], types[..i + 1]) == TotalRead(perType, types[..i]) + tally.read
  {
    assert types[..i + 1][..i] == types[..i];
    if types[i] !in types[..i] { OtherTypesRead(perType, types[..i], types[i], tally); }
  }

  /** The taken records come next in the listing, and handling them leads to `after`. */
  ghost predicate NextTaken(from: SystemId, handle: RecordHandler, st0: RunState, after: RunState,
                            records: seq<Record>, taken: seq<Record>)
  {
    var order := st0.world.Side(from).order;
    && after == HandleAll(handle, st0, records + taken) && after.tally.read == |records| + |taken|
    && after.world.Side(from).order == order && ListingInv(after.world, from)
    && PlacedAt(from, order, |records|, taken)
  }

  lemma PageStep(from: SystemId, handle: RecordHandler, st0: RunState, st: RunState, after: RunState,
                 records: seq<Record>, taken: seq<Record>)
    requires KeepsListing(from, handle) && RunSoFar(from, handle, st0, st, records) && after == HandleAll(handle, st, taken)
    requires PlacedAt(from, st.world.Side(from).order, |records|, taken)
    ensures NextTaken(from, handle, st0, after, records, taken) && st.plans <= after.plans
  {
    TakenOn(handle, st0, st, after, records, taken);
    StillListed(from, handle, st, after, taken);
  }

  /** Records that the listing has, in order, from place `start` on. */
  ghost predicate PlacedAt(from: SystemId, order: seq<Id>, start: nat, taken: seq<Record>) {
    start + |taken| <= (if taken == [] then start else |order|)
    && forall i :: 0 <= i < |taken| ==> taken[i].source == from && taken[i].sourceId == order[start + i]
  }

  lemma PlacedPrefix(from: SystemId, order: seq<Id>, start: nat, page: seq<Record>, used: nat)
    requires PlacedAt(from, order, start, page) && used <= |page|
    ensures PlacedAt(from, order, start, page[..used])
  {
  }

  lemma PagePlaces(cfg: Config, from: SystemId, crm: Crm, start: nat, page: seq<Record>)
    requires WellFormed(crm) && page == Snapshots(cfg.tables, from, crm, PageIds(crm.order, start))
    ensures PlacedAt(from, crm.order, start, page) && SnapshotsOf(cfg, from, crm, page)
  {
    forall i | 0 <= i < |page|
      ensures page[i].source == from && page[i].sourceId == crm.order[start + i] && SnapshotOf(cfg, from, crm, page[i])
    {
      SnapshotsAt(cfg.tables, from, crm, PageIds(crm.order, start), i);
    }
  }

  lemma TakenOn(handle: RecordHandler, st0: RunState, st: RunState, after: RunState, records: seq<Record>, taken: seq<Record>)
    requires st == HandleAll(handle, st0, records) && after == HandleAll(handle, st, taken)
    ensures after == HandleAll(handle, st0, records + taken)
    ensures after.tally.read == st.tally.read + |taken| && st.plans <= after.plans
  {
    HandleAppend(handle, st0, records, taken);
    ReadsAll(handle, st, taken);
  }

  lemma StillListed(from: SystemId, handle: RecordHandler, st: RunState, after: RunState, taken: seq<Record>)
    requires KeepsListing(from, handle) && ListingInv(st.world, from) && after == HandleAll(handle, st, taken)
    requires FromListing(taken, from, st.world.Side(from).order)
    ensures ListingInv(after.world, from) && after.world.Side(from).order == st.world.Side(from).order
  {
    ListingKept(from, handle, st, taken);
  }

  lemma PageExtends(from: SystemId, handle: RecordHandler, st0: RunState, after: RunState, records: seq<Record>, taken: seq<Record>)
    requires ListingPrefix(from, st0.world.Side(from).order, records)
    requires NextTaken(from, handle, st0, after, records, taken)
    ensures RunSoFar(from, handle, st0, after, records + taken)
  {
    LongerPrefix(from, st0.world.Side(from).order, records, taken);
  }

  /** Records that are, in order, the first of a listing. */
  ghost predicate ListingPrefix(from: SystemId, order: seq<Id>, records: seq<Record>) {
    |records| <= |order| && forall i :: 0 <= i < |records| ==> records[i].source == from && records[i].sourceId == order[i]
  }

  lemma LongerPrefix(from: SystemId, order: seq<Id>, records: seq<Record>, taken: seq<Record>)
    requires ListingPrefix(from, order, records) && PlacedAt(from, order, |records|, taken)
    ensures ListingPrefix(from, order, records + taken)
  {
    forall i | 0 <= i < |records + taken|
      ensures (records + taken)[i].source == from && (records + taken)[i].sourceId == order[i]
    {
      if i >= |records| { assert (records + taken)[i] == taken[i - |records|]; }
    }
  }

  /** How far a page takes the run, and what the loop then does. */
  lemma PageArithmetic(limit: Option<int>, start: nat, all: seq<Id>, used: nat)
    requires start <= Cap(limit, |all|) && used == Room(limit, start, |PageIds(all, start)|)
    ensures start + used <= Cap(limit, |all|)
    ensures var cursor := if Reached(limit, start + used) then None else NextCursor(all, start);
            && (cursor.Some? ==> cursor.value == start + used == start + PAGE_SIZE)
            && (cursor == None ==> start + used == Cap(limit, |all|))
  {
  }

  // ----- when records are read -----

  predicate SnapshotOf(cfg: Config, from: SystemId, crm: Crm, r: Record) {
    r.sourceId in crm.records && r == Snapshot(cfg.tables, from, crm, r.sourceId)
  }

  ghost predicate SnapshotsOf(cfg: Config, from: SystemId, crm: Crm, page: seq<Record>) {
    forall i :: 0 <= i < |page| ==> SnapshotOf(cfg, from, crm, page[i])
  }

  /** The place where the page of the i-th record begins. */
  function PageStart(i: nat): (p: nat)
    ensures p <= i < p + PAGE_SIZE
  {
    i - i % PAGE_SIZE
  }

  /** A page that is to be fetched begins after the records read so far. */
  predicate AtPage(cursor: Option<nat>, records: seq<Record>) {
    cursor.Some? ==> cursor.value == |records| && |records| % PAGE_SIZE == 0
  }

  /** The i-th record is the source's record as it was once all earlier pages had been handled. */
  predicate ReadInPage(cfg: Config, from: SystemId, handle: RecordHandler, st0: RunState, records: seq<Record>, i: nat)
    requires i < |records|
  {
    SnapshotOf(cfg, from, HandleAll(handle, st0, records[..PageStart(i)]).world.Side(from), records[i])
  }

  ghost predicate ReadInPages(cfg: Config, from: SystemId, handle: RecordHandler, st0: RunState, records: seq<Record>) {
    forall i :: 0 <= i < |records| ==> ReadInPage(cfg, from, handle, st0, records, i)
  }

  lemma PageAdds(cfg: Config, from: SystemId, handle: RecordHandler, st0: RunState, st: RunState, records: seq<Record>, taken: seq<Record>)
    requires ReadInPages(cfg, from, handle, st0, records) && |records| % PAGE_SIZE == 0 && |taken| <= PAGE_SIZE
    requires st == HandleAll(handle, st0, records) && SnapshotsOf(cfg, from, st.world.Side(from), taken)
    ensures ReadInPages(cfg, from, handle, st0, records + taken)
  {
    var longer, n := records + taken, |records|;
    forall i | 0 <= i < |longer| ensures ReadInPage(cfg, from, handle, st0, longer, i) {
      if i < n {
        assert longer[..PageStart(i)] == records[..PageStart(i)];
        assert ReadInPage(cfg, from, handle, st0, records, i);
      } else {
        SamePage(n, i);
        assert longer[..n] == records;
        assert SnapshotOf(cfg, from, st.world.Side(from), taken[i - n]);
      }
    }
  }

  /** The part of a page that is handled continues the run. */
  lemma PageRuns(from: SystemId, handle: RecordHandler, st0: RunState, st: RunState, after: RunState,
                 records: seq<Record>, page: seq<Record>, used: nat)
    requires KeepsListing(from, handle) && RunSoFar(from, handle, st0, st, records)
    requires used <= |page| && after == HandleAll(handle, st, page[..used])
    requires PlacedAt(from, st.world.Side(from).order, |records|, page)
    ensures RunSoFar(from, handle, st0, after, records + page[..used]) && st.plans <= after.plans
  {
    PlacedPrefix(from, st.world.Side(from).order, |records|, page, used);
    PageStep(from, handle, st0, st, after, records, page[..used]);
    PageExtends(from, handle, st0, after, records, page[..used]);
  }

  lemma PageReads(cfg: Config, from: SystemId, handle: RecordHandler, st0: RunState, st: RunState,
                  records: seq<Record>, page: seq<Record>, used: nat)
    requires ReadInPages(cfg, from, handle, st0, records) && |records| % PAGE_SIZE == 0 && used <= |page| <= PAGE_SIZE
    requires st == HandleAll(handle, st0, records) && SnapshotsOf(cfg, from, st.world.Side(from), page)
    ensures ReadInPages(cfg, from, handle, st0, records + page[..used])
  {
    var taken := page[..used];
    forall i | 0 <= i < |taken| ensures SnapshotOf(cfg, from, st.world.Side(from), taken[i]) {
      assert SnapshotOf(cfg, from, st.world.Side(from), page[i]);
    }
    PageAdds(cfg, from, handle, st0, st, records, taken);
  }

  /** All that one turn of the paging loop does to the run. */
  lemma PageTaken(cfg: Config, from: SystemId, handle: RecordHandler, st0: RunState, st: RunState, after: RunState,
                  records: seq<Record>, page: seq<Record>, used: nat, start: nat, limit: Option<int>)
    requires KeepsListing(from, handle) && RunSoFar(from, handle, st0, st, records) && ReadInPages(cfg, from, handle, st0, records)
    requires AtPage(Some(start), records) && start <= Cap(limit, |st0.world.Side(from).order|)
    requires |page| == |PageIds(st.world.Side(from).order, start)| && used == Room(limit, st.tally.read, |page|)
    requires after == HandleAll(handle, st, page[..used])
    requires PlacedAt(from, st.world.Side(from).order, start, page) && SnapshotsOf(cfg, from, st.world.Side(from), page)
    ensures RunSoFar(from, handle, st0, after, records + page[..used]) && st.plans <= after.plans
    ensures ReadInPages(cfg, from, handle, st0, records + page[..used])
    ensures var order := st0.world.Side(from).order;
            var cursor := if Reached(limit, after.tally.read) then None else NextCursor(st.world.Side(from).order, start);
            && start + used <= Cap(limit, |order|) && AtPage(cursor, records + page[..used])
            && (cursor.Some? ==> start < cursor.value) && (cursor == None ==> start + used == Cap(limit, |order|))
  {
    assert st.tally.read == start && st.world.Side(from).order == st0.world.Side(from).order;
    PageArithmetic(limit, start, st0.world.Side(from).order, used);
    PageRuns(from, handle, st0, st, after, records, page, used);
    PageReads(cfg, from, handle, st0, st, records, page, used);
    StillAtPage(records, page[..used], if Reached(limit, after.tally.read) then None else NextCursor(st.world.Side(from).order, start));
  }

  lemma StillAtPage(records: seq<Record>, taken: seq<Record>, cursor: Option<nat>)
    requires |records| % PAGE_SIZE == 0
    requires cursor.Some? ==> cursor.value == |records| + |taken| == |records| + PAGE_SIZE
    ensures AtPage(cursor, records + taken)
  {
  }

  lemma SamePage(n: nat, i: nat)
    requires n % PAGE_SIZE == 0 && n <= i < n + PAGE_SIZE
    ensures PageStart(i) == n
  {
  }

  /** A run of one type after some records: they are, in order, the first of the source's listing,
      and the listing has not changed. */
  ghost predicate RunSoFar(from: SystemId, handle: RecordHandler, st0: RunState, st: RunState, records: seq<Record>) {
    var order := st0.world.Side(from).order;
    && st == HandleAll(handle, st0, records) && st.tally.read == |records|
    && ListingPrefix(from, order, records)
    && ListingInv(st.world, from) && st.world.Side(from).order == order
  }
}

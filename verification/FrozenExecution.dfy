/** Executing a reviewed preview (src/engine/migrationEngine.ts): everything is checked again before
    the first write, then the records are processed in the frozen order. */
module FrozenExecution {
  import opened Canonical
  import opened Reconciler
  import opened Migration
  import JobOutcomes
  import Mapping
  import SyncRuns

  const MOST_PLANS := 100_000

  /** Everything about a plan that counts as a change when it differs: all but the internal id. */
  datatype Fingerprint = Fingerprint(from: SystemId, sourceId: Id, targetId: Option<Id>, key: Option<string>,
                                     action: Action, diff: map<string, FieldDiff>, warnings: seq<Warning>)

  function FingerprintOf(p: Plan): Fingerprint {
    Fingerprint(p.from, p.sourceId, p.targetId, p.key, p.action, p.diff, p.warnings)
  }

  datatype Rejection = NoRecords | AmbiguousPlans | MixedSources | Vanished(id: Id) | Drifted(id: Id)

  datatype Execution = Rejected(why: Rejection) | Ran(tally: Tally, ok: bool)

  function RecordOf(cfg: Config, w: World, p: Plan): Option<Record> { Peek(cfg, w, p.from, p.sourceId) }

  /** The frozen plan is still what a preview of the record, as it is now, would say, the internal id
      aside. */
  predicate Confirmed(cfg: Config, w: World, p: Plan) {
    var record := RecordOf(cfg, w, p);
    record.Some? && Preview(cfg, w, record.value).(cid := p.cid) == p
  }

  /** Comparing fingerprints is comparing everything but the internal id. */
  lemma FingerprintsTell(p: Plan, q: Plan)
    ensures FingerprintOf(p) == FingerprintOf(q) <==> p.(cid := q.cid) == q
  {
  }

  /** What has to hold of a frozen preview before anything is written. */
  predicate Executable(cfg: Config, w: World, frozen: seq<Plan>) {
    && frozen != []
    && (forall i :: 0 <= i < |frozen| ==> frozen[i].action != AmbiguousMatch && frozen[i].from == frozen[0].from)
    && (forall i :: 0 <= i < |frozen| ==> Confirmed(cfg, w, frozen[i]))
  }

  /** Why one plan is not confirmed: its record is gone, or a preview of it now says something else. */
  predicate Unconfirmed(cfg: Config, w: World, p: Plan, why: Rejection) {
    match RecordOf(cfg, w, p)
    case None => why == Vanished(p.sourceId)
    case Some(record) => why == Drifted(p.sourceId) && Preview(cfg, w, record).(cid := p.cid) != p
  }

  /** The reason concerns the first plan that is not confirmed. */
  ghost predicate FirstUnconfirmed(cfg: Config, w: World, frozen: seq<Plan>, why: Rejection) {
    exists k :: 0 <= k < |frozen| && Unconfirmed(cfg, w, frozen[k], why) && forall i :: 0 <= i < k ==> Confirmed(cfg, w, frozen[i])
  }

  /** What each rejection says of the frozen plans. */
  ghost predicate RejectedFor(cfg: Config, w: World, frozen: seq<Plan>, why: Rejection) {
    match why
    case NoRecords => frozen == []
    case AmbiguousPlans => exists i :: 0 <= i < |frozen| && frozen[i].action == AmbiguousMatch
    case MixedSources => exists i :: 0 <= i < |frozen| && frozen[i].from != frozen[0].from
    case _ => FirstUnconfirmed(cfg, w, frozen, why)
  }

  // ----- processing in the frozen order -----

  datatype Progress = Progress(world: World, tally: Tally, ok: bool)

  /** The records as they were read during the check. */
  predicate ReadAs(cfg: Config, w: World, frozen: seq<Plan>, records: seq<Record>) {
    |records| == |frozen| && forall i :: 0 <= i < |frozen| ==> RecordOf(cfg, w, frozen[i]) == Some(records[i])
  }

  /** Writing one record: what it does to the world, and whether it went through. */
  type RecordWriter = (World, Record, nat) -> (World, bool)

  function ReconcileOne(cfg: Config, w: World, r: Record, env: RecordEnv): (World, bool) {
    if env.down then (w, false)
    else var (after, outcome) := Reconcile(cfg, w, r, env.amb); (after, !outcome.Refused?)
  }

  function WriterFor(cfg: Config, envs: nat -> RecordEnv): RecordWriter {
    (w: World, r: Record, n: nat) => ReconcileOne(cfg, w, r, envs(n))
  }

  function ExecuteNext(write: RecordWriter, st: Progress, r: Record, p: Plan, n: nat): Progress {
    var (world, ok) := write(st.world, r, n);
    Progress(world, Count(st.tally, RecordResult(p, ok)), ok)
  }

  /** The state after going through the first `k` records, or up to and including the first that
      fails. */
  function Execute(write: RecordWriter, w: World, records: seq<Record>, plans: seq<Plan>, k: nat): Progress
    requires |records| == |plans| && k <= |plans|
  {
    if k == 0 then Progress(w, NOTHING_READ, true)
    else
      var before := Execute(write, w, records, plans, k - 1);
      if !before.ok then before else ExecuteNext(write, before, records[k - 1], plans[k - 1], k - 1)
  }

  /** The worlds that writing the records one after another leads through. */
  function After(write: RecordWriter, w: World, records: seq<Record>, k: nat): World
    requires k <= |records|
  {
    if k == 0 then w else write(After(write, w, records, k - 1), records[k - 1], k - 1).0
  }

  /** Does the k-th record, written in its turn, go through? */
  predicate GoesThrough(write: RecordWriter, w: World, records: seq<Record>, k: nat) {
    k < |records| && write(After(write, w, records, k), records[k], k).1
  }

  /** The figures are those of the processed prefix: it is everything, or it ends with the first
      record that does not go through; the world is what writing exactly that prefix leaves. */
  ghost predicate ProcessedPrefix(write: RecordWriter, w: World, records: seq<Record>, k: nat, st: Progress) {
    var n := st.tally.read;
    && n <= k <= |records| && Sound(st.tally)
    && st.world == After(write, w, records, n)
    && (st.ok ==> n == k && st.tally.errors == 0)
    && (!st.ok ==> n > 0 && st.tally.errors == 1 && !GoesThrough(write, w, records, n - 1))
    && forall j :: 0 <= j < (if st.ok then n else n - 1) ==> GoesThrough(write, w, records, j)
  }

  lemma CountedOne(t: Tally, p: Plan, ok: bool)
    requires Sound(t)
    ensures var after := Count(t, RecordResult(p, ok));
            Sound(after) && after.read == t.read + 1 && after.errors == t.errors + if ok then 0 else 1
  {
    Bump(t.actions, p.action);
  }

  lemma {:induction false} StopsAtFirstFailure(write: RecordWriter, w: World, records: seq<Record>, plans: seq<Plan>, k: nat)
    requires |records| == |plans| && k <= |plans|
    ensures ProcessedPrefix(write, w, records, k, Execute(write, w, records, plans, k))
  {
    if k > 0 {
      StopsAtFirstFailure(write, w, records, plans, k - 1);
      var before := Execute(write, w, records, plans, k - 1);
      if before.ok {
        PrefixGrows(write, w, records, plans, k - 1, before);
      }
    }
  }

  lemma PrefixGrows(write: RecordWriter, w: World, records: seq<Record>, plans: seq<Plan>, k: nat, before: Progress)
    requires |records| == |plans| && k < |plans|
    requires ProcessedPrefix(write, w, records, k, before) && before.ok
    ensures ProcessedPrefix(write, w, records, k + 1, ExecuteNext(write, before, records[k], plans[k], k))
  {
    CountedOne(before.tally, plans[k], write(before.world, records[k], k).1);
  }

  // ----- what becomes of the records -----

  /** Writing a record goes through exactly when the target is in reach and its run is not refused, and
      then the record is in step with a live counterpart; otherwise nothing changes. */
  lemma WriterSettles(cfg: Config, envs: nat -> RecordEnv, w: World, r: Record, n: nat)
    requires Mapping.Settled(cfg.tables) && SyncRuns.Deliverable(cfg, w, r, envs(n).amb)
    ensures var (after, ok) := WriterFor(cfg, envs)(w, r, n);
            && (ok <==> !envs(n).down && !Reconcile(cfg, w, r, envs(n).amb).1.Refused?)
            && (ok ==> JobOutcomes.InStep(cfg, after, r.source, r.sourceId) && SyncRuns.SettledOne(cfg, w, after, r.source, r.sourceId))
            && (!ok ==> after == w)
  {
    JobOutcomes.RefusedRun(cfg, w, r, envs(n).amb);
    if !envs(n).down && !Reconcile(cfg, w, r, envs(n).amb).1.Refused? {
      JobOutcomes.RunPutsInStep(cfg, w, r, envs(n).amb);
      SyncRuns.DeliverySettles(cfg, w, r, envs(n).amb);
    }
  }

  /** The record's turn has come as it was read, and its write goes through. */
  ghost predicate Turn(cfg: Config, envs: nat -> RecordEnv, w: World, records: seq<Record>, j: nat) {
    && GoesThrough(WriterFor(cfg, envs), w, records, j)
    && SyncRuns.Deliverable(cfg, After(WriterFor(cfg, envs), w, records, j), records[j], envs(j).amb)
  }

  /** The record has been put in step, no other out of it, and none is lost. */
  ghost predicate StepsOn(cfg: Config, w: World, after: World, r: Record) {
    && JobOutcomes.InStep(cfg, after, r.source, r.sourceId) && SyncRuns.SettledOne(cfg, w, after, r.source, r.sourceId)
    && forall s :: w.Side(s).records.Keys <= after.Side(s).records.Keys
  }

  lemma WriterStepsOn(cfg: Config, envs: nat -> RecordEnv, w: World, r: Record, n: nat)
    requires Mapping.Settled(cfg.tables) && SyncRuns.Deliverable(cfg, w, r, envs(n).amb)
    requires WriterFor(cfg, envs)(w, r, n).1
    ensures StepsOn(cfg, w, WriterFor(cfg, envs)(w, r, n).0, r)
  {
    WriterSettles(cfg, envs, w, r, n);
    var after := WriterFor(cfg, envs)(w, r, n).0;
    assert after == Reconcile(cfg, w, r, envs(n).amb).0;
    forall s ensures w.Side(s).records.Keys <= after.Side(s).records.Keys {
      JobOutcomes.RecordsStay(cfg, w, r, envs(n).amb, s);
    }
  }

  lemma {:induction false} AllInStep(cfg: Config, write: RecordWriter, w: World, records: seq<Record>, k: nat)
    requires k <= |records|
    requires forall j :: 0 <= j < k ==> StepsOn(cfg, After(write, w, records, j), After(write, w, records, j + 1), records[j])
    ensures forall j :: 0 <= j < k ==>
              JobOutcomes.InStep(cfg, After(write, w, records, k), records[j].source, records[j].sourceId)
  {
    if k > 0 {
      var n := k - 1;
      AllInStep(cfg, write, w, records, n);
      var before, after := After(write, w, records, n), After(write, w, records, n + 1);
      assert StepsOn(cfg, before, after, records[n]);
      forall j | 0 <= j < n ensures JobOutcomes.InStep(cfg, after, records[j].source, records[j].sourceId) {
        JobOutcomes.StaysInStep(cfg, before, after, records[j].source, records[j].sourceId, records[n].source, records[n].sourceId);
      }
    }
  }

  /** Once every frozen record has had its turn, each of them is in step with a live counterpart. */
  lemma ExecutedInStep(cfg: Config, envs: nat -> RecordEnv, w: World, records: seq<Record>, k: nat)
    requires Mapping.Settled(cfg.tables) && k <= |records| && forall j :: 0 <= j < k ==> Turn(cfg, envs, w, records, j)
    ensures forall j :: 0 <= j < k ==>
              JobOutcomes.InStep(cfg, After(WriterFor(cfg, envs), w, records, k), records[j].source, records[j].sourceId)
  {
    var write := WriterFor(cfg, envs);
    forall j | 0 <= j < k ensures StepsOn(cfg, After(write, w, records, j), After(write, w, records, j + 1), records[j]) {
      assert Turn(cfg, envs, w, records, j);
      WriterStepsOn(cfg, envs, After(write, w, records, j), records[j], j);
    }
    AllInStep(cfg, write, w, records, k);
  }

  // ----- the engine -----

  class FrozenEngine {
    const cfg: Config
    const store: InMemoryMigrationStore

    constructor (cfg: Config, store: InMemoryMigrationStore)
      ensures this.cfg == cfg && this.store == store
    {
      this.cfg, this.store := cfg, store;
    }

    /** One plan checked against the systems as they are now. */
    method CheckOne(w: World, p: Plan) returns (why: Option<Rejection>, record: Option<Record>)
      ensures why == None <==> Confirmed(cfg, w, p)
      ensures why.Some? ==> Unconfirmed(cfg, w, p, why.value)
      ensures record == RecordOf(cfg, w, p)
    {
      record := RecordOf(cfg, w, p);
      if record == None {
        return Some(Vanished(p.sourceId)), record;
      }
      var current := Preview(cfg, w, record.value);
      FingerprintsTell(current, p);
      why := if FingerprintOf(current) != FingerprintOf(p) then Some(Drifted(p.sourceId)) else None;
    }

    /** All plans checked, in order, up to the first that is not confirmed. */
    method CheckAll(w: World, frozen: seq<Plan>) returns (why: Option<Rejection>, records: seq<Record>)
      ensures why == None <==> forall i :: 0 <= i < |frozen| ==> Confirmed(cfg, w, frozen[i])
      ensures why.Some? ==> FirstUnconfirmed(cfg, w, frozen, why.value)
      ensures why == None ==> ReadAs(cfg, w, frozen, records)
    {
      records := [];
      for k := 0 to |frozen|
        invariant |records| == k
        invariant forall i :: 0 <= i < k ==> Confirmed(cfg, w, frozen[i]) && RecordOf(cfg, w, frozen[i]) == Some(records[i])
      {
        var drift, record := CheckOne(w, frozen[k]);
        if drift.Some? {
          return drift, [];
        }
        records := records + [record.value];
      }
      why := None;
    }

    /** The first phase: reads only. Either some check fails, or all plans are confirmed. */
    method Verify(w: World, frozen: seq<Plan>) returns (why: Option<Rejection>, records: seq<Record>)
      ensures why == None <==> Executable(cfg, w, frozen)
      ensures why.Some? ==> RejectedFor(cfg, w, frozen, why.value)
      ensures why == None ==> ReadAs(cfg, w, frozen, records)
    {
      if frozen == [] {
        return Some(NoRecords), [];
      }
      if exists i :: 0 <= i < |frozen| && frozen[i].action == AmbiguousMatch {
        return Some(AmbiguousPlans), [];
      }
      if exists i :: 0 <= i < |frozen| && frozen[i].from != frozen[0].from {
        return Some(MixedSources), [];
      }
      why, records := CheckAll(w, frozen);
    }

    /** The second phase: the records in the frozen order, stopping at the first failure. */
    method Process(runId: string, write: RecordWriter, w: World, records: seq<Record>, plans: seq<Plan>) returns (st: Progress)
      requires |records| == |plans| && runId in store.items && store.items[runId] == []
      modifies store`items
      ensures ProcessedPrefix(write, w, records, |plans|, st)
      ensures store.items == old(store.items)[runId := plans[..st.tally.read]]
    {
      st := Progress(w, NOTHING_READ, true);
      var k := 0;
      while k < |plans| && st.ok
        invariant k <= |plans| && st == Execute(write, w, records, plans, k) && st.tally.read == k
        invariant store.items == old(store.items)[runId := plans[..k]]
      {
        assert plans[..k + 1] == plans[..k] + [plans[k]];
        store.RecordPlan(runId, plans[k]);
        st := ExecuteNext(write, st, records[k], plans[k], k);
        k := k + 1;
      }
      NothingAfterFailure(write, w, records, plans, k, |plans|);
      StopsAtFirstFailure(write, w, records, plans, |plans|);
    }

    /** A recorded run over confirmed records. */
    method Launch(runId: string, from: SystemId, write: RecordWriter, w: World, records: seq<Record>, plans: seq<Plan>)
      returns (st: Progress)
      requires |records| == |plans|
      modifies store
      ensures ProcessedPrefix(write, w, records, |plans|, st)
      ensures store.items == old(store.items)[runId := plans[..st.tally.read]]
      ensures store.runs == old(store.runs)[runId := RunSummary(from, Executing, if st.ok then Completed else Broken("record failed"))]
    {
      store.Begin(runId, from, Executing);
      st := Process(runId, write, w, records, plans);
      store.Close(runId, if st.ok then Completed else Broken("record failed"));
    }

    /** `executePreview`: rejected with both systems and the link table untouched, or every frozen
        plan equalled a preview taken before the first write and the records were processed in
        order up to the first failure, with one stored plan for each processed record. */
    method ExecutePreview(previewRunId: string, runId: string, w0: World, envs: nat -> RecordEnv)
      returns (w: World, result: Execution, ghost records: seq<Record>)
      requires previewRunId != runId
      modifies store
      ensures var frozen := FirstPlans(old(store.items), previewRunId, MOST_PLANS);
              && (result.Rejected? <==> !Executable(cfg, w0, frozen))
              && (result.Rejected? ==> RejectedFor(cfg, w0, frozen, result.why))
              && (result.Rejected? ==> w == w0 && store.items == old(store.items) && store.runs == old(store.runs))
              && (result.Ran? ==>
                    && ReadAs(cfg, w0, frozen, records)
                    && ProcessedPrefix(WriterFor(cfg, envs), w0, records, |frozen|, Progress(w, result.tally, result.ok))
                    && store.items == old(store.items)[runId := frozen[..result.tally.read]]
                    && store.runs == old(store.runs)[runId := RunSummary(frozen[0].from, Executing,
                                                       if result.ok then Completed else Broken("record failed"))])
    {
      var frozen := store.Plans(previewRunId, MOST_PLANS);
      var why, read := Verify(w0, frozen);
      records := read;
      if why.Some? {
        return w0, Rejected(why.value), records;
      }
      var st := Launch(runId, frozen[0].from, WriterFor(cfg, envs), w0, read, frozen);
      return st.world, Ran(st.tally, st.ok), records;
    }
  }

  lemma {:induction false} NothingAfterFailure(write: RecordWriter, w: World, records: seq<Record>, plans: seq<Plan>, k: nat, n: nat)
    requires |records| == |plans| && k <= n <= |plans|
    requires k < n ==> !Execute(write, w, records, plans, k).ok
    ensures Execute(write, w, records, plans, n) == Execute(write, w, records, plans, k)
    decreases n - k
  {
    if k < n {
      NothingAfterFailure(write, w, records, plans, k, n - 1);
    }
  }
}

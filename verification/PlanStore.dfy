/** Migration plans and the revision checks that guard them (src/engine/migrationPlanStore.ts). */
module PlanStore {
  import opened Canonical

  type PlanId = string

  datatype PlanStatus = Draft | Validated | Previewed | Executing | Completed | Failed

  datatype PlanInput = PlanInput(name: string, source: SystemId, types: seq<string>, limitPerType: Option<int>)

  datatype Canary = Canary(objectType: string, sourceId: Id, previewRunId: string, previewRevision: int,
                           executionRunId: Option<string>, verified: bool)

  datatype MigrationPlan = MigrationPlan(
    input: PlanInput,
    status: PlanStatus,
    revision: int,
    schemaHashes: map<string, string>,
    previewRunId: Option<string>,
    previewRevision: Option<int>,
    executionRunId: Option<string>,
    canary: Option<Canary>)

  type Plans = map<PlanId, MigrationPlan>

  datatype PlanStep =
    | CreatePlan(id: PlanId, input: PlanInput)
    | UpdatePlan(id: PlanId, input: PlanInput)
    | SaveValidation(id: PlanId, revision: int, schemaHashes: map<string, string>)
    | SavePreview(id: PlanId, revision: int, runId: string)
    | SaveCanaryPreview(id: PlanId, revision: int, objectType: string, sourceId: Id, runId: string)
    | FinishCanary(id: PlanId, revision: int, runId: string)
    | StartExecution(id: PlanId, revision: int)
    | FinishExecution(id: PlanId, executed: Option<string>, ok: bool)

  function NewPlan(input: PlanInput): MigrationPlan {
    MigrationPlan(input, Draft, 1, map[], None, None, None, None)
  }

  function Updated(p: MigrationPlan, input: PlanInput): MigrationPlan {
    MigrationPlan(input, Draft, p.revision + 1, map[], None, None, None, None)
  }

  /** The writes that carry the revision they were made for. */
  predicate CarriesRevision(step: PlanStep) {
    step.SaveValidation? || step.SavePreview? || step.SaveCanaryPreview? || step.FinishCanary? || step.StartExecution?
  }

  /** Whether a write goes through. */
  predicate Accepted(plans: Plans, step: PlanStep) {
    match step
    case CreatePlan(id, _) => id !in plans
    case UpdatePlan(id, _) => id in plans
    case SaveValidation(id, revision, _) => id in plans && plans[id].revision == revision
    case SavePreview(id, revision, _) => id in plans && plans[id].revision == revision
    case SaveCanaryPreview(id, revision, _, _, _) => id in plans && plans[id].revision == revision
    case FinishCanary(id, revision, _) =>
      id in plans && plans[id].revision == revision
      && plans[id].canary.Some? && plans[id].canary.value.previewRevision == revision
    case StartExecution(id, revision) =>
      id in plans && plans[id].revision == revision && plans[id].previewRevision == Some(revision)
    case FinishExecution(id, _, _) => id in plans
  }

  function Applied(p: MigrationPlan, step: PlanStep): MigrationPlan {
    match step
    case CreatePlan(_, _) => p
    case UpdatePlan(_, input) => Updated(p, input)
    case SaveValidation(_, _, hashes) => p.(status := Validated, schemaHashes := hashes)
    case SavePreview(_, revision, runId) => p.(status := Previewed, previewRunId := Some(runId), previewRevision := Some(revision))
    case SaveCanaryPreview(_, revision, objectType, sourceId, runId) =>
      p.(canary := Some(Canary(objectType, sourceId, runId, revision, None, false)))
    case FinishCanary(_, _, runId) =>
      if p.canary.Some? then p.(canary := Some(p.canary.value.(executionRunId := Some(runId), verified := true))) else p
    case StartExecution(_, _) => p.(status := Executing)
    case FinishExecution(_, runId, ok) => p.(status := if ok then Completed else Failed, executionRunId := runId)
  }

  function PlanNext(plans: Plans, step: PlanStep): Plans {
    if !Accepted(plans, step) then plans
    else match step
      case CreatePlan(id, input) => plans[id := NewPlan(input)]
      case _ => plans[step.id := Applied(plans[step.id], step)]
  }

  function PlanRun(steps: seq<PlanStep>): Plans {
    if steps == [] then map[] else PlanNext(PlanRun(steps[..|steps| - 1]), steps[|steps| - 1])
  }

  // ----- what every reachable store keeps -----

  /** A stored preview or canary belongs to the current revision. */
  predicate UpToDate(p: MigrationPlan) {
    && p.revision >= 1
    && (p.previewRevision.Some? ==> p.previewRevision.value == p.revision && p.previewRunId.Some?)
    && (p.canary.Some? ==> p.canary.value.previewRevision == p.revision)
  }

  /** The run's last accepted save of a preview for this revision, with no update of the plan since. */
  ghost predicate PreviewStands(steps: seq<PlanStep>, id: PlanId, revision: int) {
    exists j :: 0 <= j < |steps|
      && steps[j].SavePreview? && steps[j].id == id && steps[j].revision == revision
      && Accepted(PlanRun(steps[..j]), steps[j])
      && NoUpdate(steps, j + 1, id)
  }

  /** Likewise for the preview of a canary record. */
  ghost predicate CanaryStands(steps: seq<PlanStep>, id: PlanId, revision: int) {
    exists j :: 0 <= j < |steps|
      && steps[j].SaveCanaryPreview? && steps[j].id == id && steps[j].revision == revision
      && Accepted(PlanRun(steps[..j]), steps[j])
      && NoUpdate(steps, j + 1, id)
  }

  predicate NoUpdate(steps: seq<PlanStep>, start: nat, id: PlanId) {
    forall m :: start <= m < |steps| ==> !(steps[m].UpdatePlan? && steps[m].id == id)
  }

  ghost predicate PlanInv(steps: seq<PlanStep>, plans: Plans) {
    forall id :: id in plans ==>
      UpToDate(plans[id])
      && (plans[id].previewRevision.Some? ==> PreviewStands(steps, id, plans[id].revision))
      && (plans[id].canary.Some? ==> CanaryStands(steps, id, plans[id].revision))
  }

  lemma PreviewStillStands(steps: seq<PlanStep>, step: PlanStep, id: PlanId, revision: int)
    requires PreviewStands(steps, id, revision) && !(step.UpdatePlan? && step.id == id)
    ensures PreviewStands(steps + [step], id, revision)
  {
    var j :| 0 <= j < |steps| && steps[j].SavePreview? && steps[j].id == id && steps[j].revision == revision
      && Accepted(PlanRun(steps[..j]), steps[j]) && NoUpdate(steps, j + 1, id);
    var longer := steps + [step];
    assert longer[j] == steps[j] && longer[..j] == steps[..j];
  }

  lemma PreviewJustSaved(steps: seq<PlanStep>, step: PlanStep)
    requires step.SavePreview? && Accepted(PlanRun(steps), step)
    ensures PreviewStands(steps + [step], step.id, step.revision)
  {
    var longer := steps + [step];
    assert longer[|steps|] == step && longer[..|steps|] == steps;
    assert NoUpdate(longer, |steps| + 1, step.id);
  }

  lemma CanaryStillStands(steps: seq<PlanStep>, step: PlanStep, id: PlanId, revision: int)
    requires CanaryStands(steps, id, revision) && !(step.UpdatePlan? && step.id == id)
    ensures CanaryStands(steps + [step], id, revision)
  {
    var j :| 0 <= j < |steps| && steps[j].SaveCanaryPreview? && steps[j].id == id && steps[j].revision == revision
      && Accepted(PlanRun(steps[..j]), steps[j]) && NoUpdate(steps, j + 1, id);
    var longer := steps + [step];
    assert longer[j] == steps[j] && longer[..j] == steps[..j];
  }

  lemma CanaryJustSaved(steps: seq<PlanStep>, step: PlanStep)
    requires step.SaveCanaryPreview? && Accepted(PlanRun(steps), step)
    ensures CanaryStands(steps + [step], step.id, step.revision)
  {
    var longer := steps + [step];
    assert longer[|steps|] == step && longer[..|steps|] == steps;
    assert NoUpdate(longer, |steps| + 1, step.id);
  }

  lemma PlanStepKeeps(steps: seq<PlanStep>, step: PlanStep)
    requires PlanInv(steps, PlanRun(steps))
    ensures PlanInv(steps + [step], PlanNext(PlanRun(steps), step))
  {
    var plans, after := PlanRun(steps), PlanNext(PlanRun(steps), step);
    forall id | id in after
      ensures UpToDate(after[id])
      ensures after[id].previewRevision.Some? ==> PreviewStands(steps + [step], id, after[id].revision)
      ensures after[id].canary.Some? ==> CanaryStands(steps + [step], id, after[id].revision)
    {
      if id in plans && plans[id].previewRevision.Some? && !(step.UpdatePlan? && step.id == id) {
        PreviewStillStands(steps, step, id, plans[id].revision);
      }
      if id in plans && plans[id].canary.Some? && !(step.UpdatePlan? && step.id == id) {
        CanaryStillStands(steps, step, id, plans[id].revision);
      }
      if step.SaveCanaryPreview? && step.id == id && Accepted(plans, step) {
        CanaryJustSaved(steps, step);
      }
      if step.SavePreview? && step.id == id && Accepted(plans, step) {
        PreviewJustSaved(steps, step);
      }
    }
  }

  /** In every reachable store a preview or canary belongs to the current revision, and behind it
      stands a save for that revision with no update in between. */
  lemma {:induction false} ReachablePlans(steps: seq<PlanStep>)
    ensures PlanInv(steps, PlanRun(steps))
  {
    if steps != [] {
      var n := |steps| - 1;
      ReachablePlans(steps[..n]);
      PlanStepKeeps(steps[..n], steps[n]);
      assert steps[..n] + [steps[n]] == steps;
    }
  }

  /** An execution that starts has been previewed at exactly the revision it starts, and the plan
      has not been updated since. */
  lemma StartsOnlyPreviewed(steps: seq<PlanStep>, id: PlanId, revision: int)
    requires Accepted(PlanRun(steps), StartExecution(id, revision))
    ensures PreviewStands(steps, id, revision)
  {
    ReachablePlans(steps);
  }

  // ----- what a plan holds -----

  /** The last accepted write to the plan that sets this part of it, and what it sets. */
  ghost predicate LastSet<T>(steps: seq<PlanStep>, id: PlanId, sets: PlanStep -> Option<T>, j: nat, value: T) {
    && j < |steps| && steps[j].id == id && Accepted(PlanRun(steps[..j]), steps[j]) && sets(steps[j]) == Some(value)
    && forall m :: j < m < |steps| && steps[m].id == id && Accepted(PlanRun(steps[..m]), steps[m]) ==> sets(steps[m]) == None
  }

  /** Creating a plan sets the part, and so does every accepted write that changes it. */
  ghost predicate Sets<T(!new)>(sets: PlanStep -> Option<T>, part: MigrationPlan -> T) {
    && (forall id, input :: sets(CreatePlan(id, input)) == Some(part(NewPlan(input))))
    && (forall plans: Plans, step: PlanStep :: Accepted(plans, step) && !step.CreatePlan? ==>
          part(Applied(plans[step.id], step)) == if sets(step).Some? then sets(step).value else part(plans[step.id]))
  }

  lemma StillLast<T>(steps: seq<PlanStep>, id: PlanId, sets: PlanStep -> Option<T>, j: nat, value: T, n: nat)
    requires n + 1 == |steps| && LastSet(steps[..n], id, sets, j, value)
    requires steps[n].id == id && Accepted(PlanRun(steps[..n]), steps[n]) ==> sets(steps[n]) == None
    ensures LastSet(steps, id, sets, j, value)
  {
    assert steps[..n][j] == steps[j] && steps[..n][..j] == steps[..j];
    forall m | j < m < |steps| && steps[m].id == id && Accepted(PlanRun(steps[..m]), steps[m]) ensures sets(steps[m]) == None {
      if m < n { assert steps[..n][m] == steps[m] && steps[..n][..m] == steps[..m]; }
    }
  }

  /** So in every reachable store each part of a plan is what the last accepted write to it set. */
  lemma {:induction false} LastSetStands<T(!new)>(steps: seq<PlanStep>, id: PlanId, sets: PlanStep -> Option<T>, part: MigrationPlan -> T)
    requires Sets(sets, part) && id in PlanRun(steps)
    ensures exists j :: LastSet(steps, id, sets, j, part(PlanRun(steps)[id]))
  {
    var n := |steps| - 1;
    var before, step := PlanRun(steps[..n]), steps[n];
    if step.id == id && Accepted(before, step) && sets(step).Some? {
      assert LastSet(steps, id, sets, n, part(PlanRun(steps)[id]));
    } else {
      assert id in before && part(PlanRun(steps)[id]) == part(before[id]);
      LastSetStands(steps[..n], id, sets, part);
      var j :| LastSet(steps[..n], id, sets, j, part(before[id]));
      StillLast(steps, id, sets, j, part(before[id]), n);
    }
  }

  function SetsInput(step: PlanStep): Option<PlanInput> {
    match step
    case CreatePlan(_, input) => Some(input)
    case UpdatePlan(_, input) => Some(input)
    case _ => None
  }

  function SetsStatus(step: PlanStep): Option<PlanStatus> {
    match step
    case CreatePlan(_, _) => Some(Draft)
    case UpdatePlan(_, _) => Some(Draft)
    case SaveValidation(_, _, _) => Some(Validated)
    case SavePreview(_, _, _) => Some(Previewed)
    case StartExecution(_, _) => Some(Executing)
    case FinishExecution(_, _, ok) => Some(if ok then Completed else Failed)
    case _ => None
  }

  function SetsHashes(step: PlanStep): Option<map<string, string>> {
    match step
    case CreatePlan(_, _) => Some(map[])
    case UpdatePlan(_, _) => Some(map[])
    case SaveValidation(_, _, hashes) => Some(hashes)
    case _ => None
  }

  function SetsPreviewRun(step: PlanStep): Option<Option<string>> {
    match step
    case CreatePlan(_, _) => Some(None)
    case UpdatePlan(_, _) => Some(None)
    case SavePreview(_, _, runId) => Some(Some(runId))
    case _ => None
  }

  function SetsExecutionRun(step: PlanStep): Option<Option<string>> {
    match step
    case CreatePlan(_, _) => Some(None)
    case UpdatePlan(_, _) => Some(None)
    case FinishExecution(_, runId, _) => Some(runId)
    case _ => None
  }

  /** Which run has shown that the canary works, if one has. */
  function CanaryRun(p: MigrationPlan): Option<string> {
    if p.canary.Some? && p.canary.value.verified then p.canary.value.executionRunId else None
  }

  function SetsCanaryRun(step: PlanStep): Option<Option<string>> {
    match step
    case CreatePlan(_, _) => Some(None)
    case UpdatePlan(_, _) => Some(None)
    case SaveCanaryPreview(_, _, _, _, _) => Some(None)
    case FinishCanary(_, _, runId) => Some(Some(runId))
    case _ => None
  }

  lemma InputHolds(steps: seq<PlanStep>, id: PlanId)
    requires id in PlanRun(steps)
    ensures var p := PlanRun(steps)[id]; exists j :: LastSet(steps, id, SetsInput, j, p.input)
  {
    LastSetStands(steps, id, SetsInput, (p: MigrationPlan) => p.input);
  }

  lemma StatusHolds(steps: seq<PlanStep>, id: PlanId)
    requires id in PlanRun(steps)
    ensures var p := PlanRun(steps)[id]; exists j :: LastSet(steps, id, SetsStatus, j, p.status)
  {
    LastSetStands(steps, id, SetsStatus, (p: MigrationPlan) => p.status);
  }

  lemma HashesHolds(steps: seq<PlanStep>, id: PlanId)
    requires id in PlanRun(steps)
    ensures var p := PlanRun(steps)[id]; exists j :: LastSet(steps, id, SetsHashes, j, p.schemaHashes)
  {
    LastSetStands(steps, id, SetsHashes, (p: MigrationPlan) => p.schemaHashes);
  }

  lemma PreviewHolds(steps: seq<PlanStep>, id: PlanId)
    requires id in PlanRun(steps)
    ensures var p := PlanRun(steps)[id]; exists j :: LastSet(steps, id, SetsPreviewRun, j, p.previewRunId)
  {
    LastSetStands(steps, id, SetsPreviewRun, (p: MigrationPlan) => p.previewRunId);
  }

  lemma OutcomeHolds(steps: seq<PlanStep>, id: PlanId)
    requires id in PlanRun(steps)
    ensures var p := PlanRun(steps)[id]; exists j :: LastSet(steps, id, SetsExecutionRun, j, p.executionRunId)
  {
    LastSetStands(steps, id, SetsExecutionRun, (p: MigrationPlan) => p.executionRunId);
  }

  lemma CanaryHolds(steps: seq<PlanStep>, id: PlanId)
    requires id in PlanRun(steps)
    ensures var p := PlanRun(steps)[id]; exists j :: LastSet(steps, id, SetsCanaryRun, j, CanaryRun(p))
  {
    LastSetStands(steps, id, SetsCanaryRun, CanaryRun);
  }

  /** In every reachable store a plan has the input it was last given and the status of the last step
      taken with it, its schema digests, preview and outcome are those saved since, and its canary is
      verified only by a run finished since the canary was previewed. */
  lemma PlanHolds(steps: seq<PlanStep>, id: PlanId)
    requires id in PlanRun(steps)
    ensures var p := PlanRun(steps)[id];
            && (exists j :: LastSet(steps, id, SetsInput, j, p.input))
            && (exists j :: LastSet(steps, id, SetsStatus, j, p.status))
            && (exists j :: LastSet(steps, id, SetsHashes, j, p.schemaHashes))
            && (exists j :: LastSet(steps, id, SetsPreviewRun, j, p.previewRunId))
            && (exists j :: LastSet(steps, id, SetsExecutionRun, j, p.executionRunId))
            && (exists j :: LastSet(steps, id, SetsCanaryRun, j, CanaryRun(p)))
  {
    InputHolds(steps, id);
    StatusHolds(steps, id);
    HashesHolds(steps, id);
    PreviewHolds(steps, id);
    OutcomeHolds(steps, id);
    CanaryHolds(steps, id);
  }

  // ----- revisions -----

  /** Revisions only grow, by one for every update and by nothing else. */
  lemma {:induction false} RevisionsGrow(steps: seq<PlanStep>, k: nat, id: PlanId)
    requires k <= |steps| && id in PlanRun(steps[..k])
    ensures id in PlanRun(steps)
    ensures PlanRun(steps)[id].revision == PlanRun(steps[..k])[id].revision + UpdateCount(steps[k..], id)
    decreases |steps|
  {
    if k == |steps| {
      assert steps[..k] == steps;
    } else {
      var n := |steps| - 1;
      assert steps[..n][..k] == steps[..k] && steps[..n][k..] == steps[k..][..n - k];
      RevisionsGrow(steps[..n], k, id);
      assert steps[k..][n - k] == steps[n];
    }
  }

  function UpdateCount(steps: seq<PlanStep>, id: PlanId): nat {
    if steps == [] then 0
    else
      var last := steps[|steps| - 1];
      UpdateCount(steps[..|steps| - 1], id) + if last.UpdatePlan? && last.id == id then 1 else 0
  }

  /** Once a plan has been updated, every later write that carries a revision seen before the update
      is rejected and changes nothing, whatever else has happened to the plan. */
  lemma StaleWritesRejected(steps: seq<PlanStep>, k: nat, step: PlanStep)
    requires k <= |steps| && CarriesRevision(step) && step.id in PlanRun(steps[..k])
    requires step.revision <= PlanRun(steps[..k])[step.id].revision && UpdateCount(steps[k..], step.id) > 0
    ensures !Accepted(PlanRun(steps), step) && PlanNext(PlanRun(steps), step) == PlanRun(steps)
  {
    RevisionsGrow(steps, k, step.id);
  }

  // ----- the store -----

  class InMemoryMigrationPlanStore {
    var plans: Plans

    constructor ()
      ensures plans == map[]
    {
      plans := map[];
    }

    method Create(id: PlanId, input: PlanInput)
      requires id !in plans
      modifies this
      ensures plans == PlanNext(old(plans), CreatePlan(id, input))
    {
      plans := plans[id := NewPlan(input)];
    }

    method Update(id: PlanId, input: PlanInput) returns (plan: Option<MigrationPlan>)
      modifies this
      ensures plans == PlanNext(old(plans), UpdatePlan(id, input))
      ensures plan == if id in plans then Some(plans[id]) else None
    {
      if id !in plans {
        return None;
      }
      plans := plans[id := MigrationPlan(input, Draft, plans[id].revision + 1, map[], None, None, None, None)];
      return Some(plans[id]);
    }

    method Validate(id: PlanId, revision: int, schemaHashes: map<string, string>) returns (ok: bool)
      modifies this
      ensures ok == Accepted(old(plans), SaveValidation(id, revision, schemaHashes))
      ensures plans == PlanNext(old(plans), SaveValidation(id, revision, schemaHashes))
    {
      if id !in plans || plans[id].revision != revision {
        return false;
      }
      plans := plans[id := plans[id].(status := Validated, schemaHashes := schemaHashes)];
      return true;
    }

    method StorePreview(id: PlanId, revision: int, runId: string) returns (ok: bool)
      modifies this
      ensures ok == Accepted(old(plans), SavePreview(id, revision, runId))
      ensures plans == PlanNext(old(plans), SavePreview(id, revision, runId))
    {
      if id !in plans || plans[id].revision != revision {
        return false;
      }
      plans := plans[id := plans[id].(status := Previewed, previewRunId := Some(runId), previewRevision := Some(revision))];
      return true;
    }

    method StoreCanaryPreview(id: PlanId, revision: int, objectType: string, sourceId: Id, runId: string) returns (ok: bool)
      modifies this
      ensures ok == Accepted(old(plans), SaveCanaryPreview(id, revision, objectType, sourceId, runId))
      ensures plans == PlanNext(old(plans), SaveCanaryPreview(id, revision, objectType, sourceId, runId))
    {
      if id !in plans || plans[id].revision != revision {
        return false;
      }
      plans := plans[id := plans[id].(canary := Some(Canary(objectType, sourceId, runId, revision, None, false)))];
      return true;
    }

    method VerifyCanary(id: PlanId, revision: int, runId: string) returns (ok: bool)
      modifies this
      ensures ok == Accepted(old(plans), FinishCanary(id, revision, runId))
      ensures plans == PlanNext(old(plans), FinishCanary(id, revision, runId))
    {
      if id !in plans || plans[id].revision != revision
         || plans[id].canary == None || plans[id].canary.value.previewRevision != revision {
        return false;
      }
      var canary := plans[id].canary.value;
      plans := plans[id := plans[id].(canary := Some(canary.(executionRunId := Some(runId), verified := true)))];
      return true;
    }

    method Start(id: PlanId, revision: int) returns (ok: bool)
      modifies this
      ensures ok == Accepted(old(plans), StartExecution(id, revision))
      ensures plans == PlanNext(old(plans), StartExecution(id, revision))
    {
      if id !in plans || plans[id].revision != revision || plans[id].previewRevision != Some(revision) {
        return false;
      }
      plans := plans[id := plans[id].(status := Executing)];
      return true;
    }

    method Finish(id: PlanId, runId: Option<string>, ok: bool)
      modifies this
      ensures plans == PlanNext(old(plans), FinishExecution(id, runId, ok))
    {
      if id in plans {
        plans := plans[id := plans[id].(status := if ok then Completed else Failed, executionRunId := runId)];
      }
    }
  }
}

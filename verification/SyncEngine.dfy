/** The sync engine (src/engine/syncEngine.ts): it claims jobs, handles their events, and retries,
    parks or completes them. */
module SyncEngine {
  import opened Canonical
  import opened Reconciler
  import opened EventStore

  datatype DeletePolicy = IgnoreDeletes | CascadeDeletes | ReviewDeletes

  datatype Options = Options(
    concurrency: nat,
    maxAttempts: int,
    deletePolicy: DeletePolicy,
    shouldProcess: Event -> bool)

  /** What the surroundings supply to the handling of one job: identifiers and clocks, whether a
      system cannot be reached, and whether a later step (syncing associations) fails. */
  datatype Env = Env(amb: Ambient, now: Time, unreachable: bool, late: bool)

  datatype Verdict = Handled | Review(why: string) | Error(why: string)

  datatype Engine = Engine(world: World, store: Store)

  // ----- handling one event -----

  function HandleDelete(opts: Options, w: World, e: Event, env: Env): (World, Verdict) {
    match opts.deletePolicy
    case ReviewDeletes => (w, Review("delete requires operator approval"))
    case IgnoreDeletes => (w, Handled)
    case CascadeDeletes =>
      if env.unreachable && Counterpart(w, e.system, e.sourceId).Some? then (w, Error("unreachable"))
      else (PropagateDelete(w, e.system, e.sourceId), Handled)
  }

  function HandleChange(cfg: Config, w: World, e: Event, env: Env): (World, Verdict) {
    if env.unreachable then (w, Error("unreachable"))
    else match Peek(cfg, w, e.system, e.sourceId)
      case None => (w, Error("record vanished before fetch"))
      case Some(record) =>
        var (after, outcome) := Reconcile(cfg, w, record, env.amb);
        if outcome.Refused? then
          (after, if outcome.reason.AmbiguousKey? then Review("ambiguous natural key") else Error("refused"))
        else (after, if env.late then Error("associations") else Handled)
  }

  function Handle(cfg: Config, opts: Options, w: World, e: Event, env: Env): (World, Verdict) {
    if !opts.shouldProcess(e) then (w, Handled)
    else if e.change == Deleted then HandleDelete(opts, w, e, env)
    else HandleChange(cfg, w, e, env)
  }

  /** Everything the queue needs to know about event handling: what it does to the world and how
      it went. The queue's own properties hold whatever the handler does. */
  type Handler = (World, Event, Env) -> (World, Verdict)

  function HandlerOf(cfg: Config, opts: Options): Handler {
    (w: World, e: Event, env: Env) => Handle(cfg, opts, w, e, env)
  }

  // ----- settling a job -----

  function Pow2(n: nat): nat { if n == 0 then 1 else 2 * Pow2(n - 1) }

  function Lesser(a: int, b: int): int { if a <= b then a else b }

  /** Milliseconds to wait after the given number of attempts. */
  function Backoff(attempts: nat): int {
    Lesser(60_000, 500 * Pow2(if attempts == 0 then 0 else attempts - 1))
  }

  function SettleJob(opts: Options, job: Job, v: Verdict, now: Time): Job {
    match v
    case Handled => job.(status := Completed)
    case Review(why) => job.(status := ManualReview, lastError := Some(why))
    case Error(why) =>
      if job.attempts >= opts.maxAttempts then job.(status := DeadLetter, lastError := Some(why))
      else job.(status := Retry, lastError := Some(why), nextAttemptAt := now + Backoff(job.attempts))
  }

  function ProcessOne(opts: Options, handle: Handler, e: Engine, id: JobId, env: Env): Engine {
    if id !in e.store.jobs then e
    else
      var job := e.store.jobs[id];
      var (world, verdict) := handle(e.world, job.event, env);
      Engine(world, Set(e.store, id, SettleJob(opts, job, verdict, env.now)))
  }

  /** Handling the claimed jobs; `envs(n)`, `envs(n + 1)`, ... are the surroundings of each. */
  function ProcessAll(opts: Options, handle: Handler, e: Engine, ids: seq<JobId>, envs: nat -> Env, n: nat): Engine {
    if ids == [] then e
    else
      var k := |ids| - 1;
      ProcessOne(opts, handle, ProcessAll(opts, handle, e, ids[..k], envs, n), ids[k], envs(n + k))
  }

  lemma ProcessAllNext(opts: Options, handle: Handler, e: Engine, ids: seq<JobId>, i: nat, envs: nat -> Env, n: nat)
    requires i < |ids|
    ensures ProcessAll(opts, handle, e, ids[..i + 1], envs, n)
            == ProcessOne(opts, handle, ProcessAll(opts, handle, e, ids[..i], envs, n), ids[i], envs(n + i))
  {
    assert ids[..i + 1][..i] == ids[..i];
  }

  lemma ProcessOneKeys(opts: Options, handle: Handler, e: Engine, id: JobId, env: Env)
    ensures ProcessOne(opts, handle, e, id, env).store.jobs.Keys == e.store.jobs.Keys
  {
  }

  // ----- how much work is left -----

  function Budget(opts: Options): nat { if opts.maxAttempts >= 1 then opts.maxAttempts else 1 }

  function Remaining(opts: Options, attempts: nat): nat {
    if attempts < Budget(opts) then Budget(opts) - attempts else 0
  }

  /** How often a job can still be claimed, stale leases and replays aside. */
  function ClaimsLeft(opts: Options, job: Job): nat {
    match job.status
    case Queued => if Remaining(opts, job.attempts) == 0 then 1 else Remaining(opts, job.attempts)
    case Retry => if Remaining(opts, job.attempts) == 0 then 1 else Remaining(opts, job.attempts)
    case Processing => Remaining(opts, job.attempts)
    case _ => 0
  }

  /** Claims and handlings still to come. */
  function Rank(opts: Options, job: Job): nat {
    2 * ClaimsLeft(opts, job) + if job.status == Processing then 1 else 0
  }

  function WorkOf(opts: Options, st: Store, order: seq<JobId>): nat {
    if order == [] then 0
    else
      var last := order[|order| - 1];
      WorkOf(opts, st, order[..|order| - 1]) + if last in st.jobs then Rank(opts, st.jobs[last]) else 0
  }

  function Work(opts: Options, st: Store): nat { WorkOf(opts, st, st.order) }

  /** A claim and the handling of a claimed job each leave less to do. */
  lemma ClaimLowersRank(opts: Options, job: Job, now: Time)
    requires Claimable(job, now)
    ensures Rank(opts, Claimed(job)) == Rank(opts, job) - 1
    ensures ClaimsLeft(opts, Claimed(job)) == ClaimsLeft(opts, job) - 1
  {
  }

  lemma SettleLowersRank(opts: Options, job: Job, v: Verdict, now: Time)
    requires job.status == Processing
    ensures Rank(opts, SettleJob(opts, job, v, now)) < Rank(opts, job)
    ensures ClaimsLeft(opts, SettleJob(opts, job, v, now)) <= ClaimsLeft(opts, job)
  {
  }

  /** Nothing is left exactly when every job has reached a final status. */
  predicate Final(s: Status) { s == Completed || s == DeadLetter || s == ManualReview || s == Dismissed }

  lemma {:induction false} NoWorkMeansFinal(opts: Options, st: Store, order: seq<JobId>)
    requires forall id :: id in order ==> id in st.jobs
    ensures WorkOf(opts, st, order) == 0 <==> forall id :: id in order ==> Final(st.jobs[id].status)
  {
    if order != [] {
      var k := |order| - 1;
      assert order == order[..k] + [order[k]];
      NoWorkMeansFinal(opts, st, order[..k]);
    }
  }

  ghost predicate NoHarder(opts: Options, before: Store, after: Store) {
    && after.order == before.order && after.jobs.Keys == before.jobs.Keys
    && forall id :: id in before.jobs ==> Rank(opts, after.jobs[id]) <= Rank(opts, before.jobs[id])
  }

  lemma {:induction false} WorkFalls(opts: Options, before: Store, after: Store, order: seq<JobId>)
    requires NoHarder(opts, before, after)
    ensures WorkOf(opts, after, order) <= WorkOf(opts, before, order)
    ensures (exists id :: id in order && id in before.jobs && Rank(opts, after.jobs[id]) < Rank(opts, before.jobs[id]))
            ==> WorkOf(opts, after, order) < WorkOf(opts, before, order)
  {
    if order != [] {
      var k := |order| - 1;
      assert order == order[..k] + [order[k]];
      WorkFalls(opts, before, after, order[..k]);
    }
  }

  // ----- one round of the pump -----

  /** The given jobs are all being processed. */
  ghost predicate InHand(st: Store, ids: seq<JobId>) {
    NoRepeats(ids) && forall id :: id in ids ==> id in st.jobs && st.jobs[id].status == Processing
  }

  /** One job through a round: settled without becoming harder, or left alone. */
  ghost predicate JobSettled(opts: Options, before: Job, after: Job, hit: bool) {
    if hit then after.event == before.event && after.status != Processing && Rank(opts, after) <= Rank(opts, before)
    else after == before
  }

  /** The given jobs have been settled and every other job left alone. */
  ghost predicate HandSettled(opts: Options, before: Store, after: Store, ids: seq<JobId>) {
    && after.order == before.order && after.index == before.index && after.jobs.Keys == before.jobs.Keys
    && forall id :: id in before.jobs ==> JobSettled(opts, before.jobs[id], after.jobs[id], id in ids)
  }

  lemma SettleOneMore(opts: Options, before: Store, mid: Store, ids: seq<JobId>, id: JobId, job: Job)
    requires HandSettled(opts, before, mid, ids) && id in before.jobs && id !in ids
    requires JobSettled(opts, before.jobs[id], job, true)
    ensures id in mid.jobs && mid.jobs[id] == before.jobs[id]
    ensures HandSettled(opts, before, Set(mid, id, job), ids + [id])
  {
  }

  /** So the store stays in order and no job becomes harder. */
  lemma SettledKeeps(opts: Options, before: Store, after: Store, ids: seq<JobId>)
    requires Valid(before) && HandSettled(opts, before, after, ids)
    ensures Valid(after) && NoHarder(opts, before, after)
  {
    assert forall id :: id in before.jobs ==> after.jobs[id].event == before.jobs[id].event;
  }

  /** Handling jobs in hand settles exactly those. */
  lemma {:induction false} ProcessAllSettles(opts: Options, handle: Handler, e: Engine, ids: seq<JobId>, envs: nat -> Env, n: nat)
    requires InHand(e.store, ids)
    ensures HandSettled(opts, e.store, ProcessAll(opts, handle, e, ids, envs, n).store, ids)
  {
    if ids != [] {
      var k := |ids| - 1;
      var mid := ProcessAll(opts, handle, e, ids[..k], envs, n);
      assert HandSettled(opts, e.store, mid.store, ids[..k]) by {
        InHandSplit(e.store, ids);
        ProcessAllSettles(opts, handle, e, ids[..k], envs, n);
      }
      ProcessOneSettles(opts, handle, e.store, mid, ids, envs(n + k), ProcessAll(opts, handle, e, ids, envs, n).store);
    }
  }

  lemma ProcessOneSettles(opts: Options, handle: Handler, before: Store, mid: Engine, all: seq<JobId>, env: Env, after: Store)
    requires all != [] && InHand(before, all) && HandSettled(opts, before, mid.store, all[..|all| - 1])
    requires after == ProcessOne(opts, handle, mid, all[|all| - 1], env).store
    ensures HandSettled(opts, before, after, all)
  {
    var ids, id := all[..|all| - 1], all[|all| - 1];
    InHandSplit(before, all);
    var job := before.jobs[id];
    var v := handle(mid.world, job.event, env).1;
    SettleLowersRank(opts, job, v, env.now);
    SettleOneMore(opts, before, mid.store, ids, id, SettleJob(opts, job, v, env.now));
  }

  lemma InHandSplit(st: Store, ids: seq<JobId>)
    requires ids != [] && InHand(st, ids)
    ensures var k := |ids| - 1;
            && ids == ids[..k] + [ids[k]] && InHand(st, ids[..k]) && ids[k] !in ids[..k]
            && ids[k] in st.jobs && st.jobs[ids[k]].status == Processing
  {
    assert ids[|ids| - 1] in ids;
  }

  lemma ClaimInHand(opts: Options, st: Store, limit: nat, now: Time)
    requires Valid(st)
    ensures var ids, after := ClaimIds(st, limit, now), Claim(st, limit, now);
            && Valid(after) && InHand(after, ids) && NoHarder(opts, st, after)
            && (ids != [] ==> Work(opts, after) < Work(opts, st))
  {
    var ids, after := ClaimIds(st, limit, now), Claim(st, limit, now);
    ClaimTakesTurns(st, limit, now);
    ClaimKeepsValid(st, limit, now);
    forall id | id in ids ensures Rank(opts, after.jobs[id]) < Rank(opts, st.jobs[id]) {
      ClaimLowersRank(opts, st.jobs[id], now);
    }
    forall i, j | 0 <= i < j < |ids| ensures ids[i] != ids[j] {
      TurnsDiffer(st, ids[i], ids[j]);
    }
    WorkFalls(opts, st, after, st.order);
    if ids != [] { assert ids[0] in ids; }
  }

  lemma TurnsDiffer(st: Store, a: JobId, b: JobId)
    requires Valid(st) && Before(st, st.order, a, b)
    ensures a != b
  {
  }

  // ----- the pump -----

  /** One claim and the handling of what it claimed. */
  function Round(opts: Options, handle: Handler, e: Engine, now: Time, envs: nat -> Env, n: nat): Engine {
    ProcessAll(opts, handle, e.(store := Claim(e.store, opts.concurrency, now)), ClaimIds(e.store, opts.concurrency, now), envs, n)
  }

  /** A round that claims anything leaves strictly less to do, so the pump stops. */
  lemma RoundProgress(opts: Options, handle: Handler, e: Engine, now: Time, envs: nat -> Env, n: nat)
    requires Valid(e.store)
    ensures var after := Round(opts, handle, e, now, envs, n).store;
            && Valid(after) && Work(opts, after) <= Work(opts, e.store)
            && (ClaimIds(e.store, opts.concurrency, now) != [] ==> Work(opts, after) < Work(opts, e.store))
  {
    var ids, claimed := ClaimIds(e.store, opts.concurrency, now), Claim(e.store, opts.concurrency, now);
    ClaimInHand(opts, e.store, opts.concurrency, now);
    ProcessAllSettles(opts, handle, e.(store := claimed), ids, envs, n);
    var after := Round(opts, handle, e, now, envs, n).store;
    SettledKeeps(opts, claimed, after, ids);
    WorkFalls(opts, claimed, after, e.store.order);
    WorkFalls(opts, e.store, claimed, e.store.order);
  }

  /** A round leaves no job in processing that was not there before it. */
  lemma RoundSettles(opts: Options, handle: Handler, e: Engine, now: Time, envs: nat -> Env, n: nat)
    requires Valid(e.store)
    ensures var after := Round(opts, handle, e, now, envs, n).store;
            && after.jobs.Keys == e.store.jobs.Keys
            && forall id :: id in after.jobs && after.jobs[id].status == Processing ==>
                 e.store.jobs[id].status == Processing && after.jobs[id] == e.store.jobs[id]
  {
    var ids, claimed := ClaimIds(e.store, opts.concurrency, now), Claim(e.store, opts.concurrency, now);
    ClaimInHand(opts, e.store, opts.concurrency, now);
    ProcessAllSettles(opts, handle, e.(store := claimed), ids, envs, n);
    var after := Round(opts, handle, e, now, envs, n).store;
    forall id | id in after.jobs && after.jobs[id].status == Processing
      ensures e.store.jobs[id].status == Processing && after.jobs[id] == e.store.jobs[id]
    {
      assert JobSettled(opts, claimed.jobs[id], after.jobs[id], id in ids);
    }
  }

  /** No job is being processed that was not before. */
  ghost predicate NoneStuck(before: Store, after: Store) {
    after.jobs.Keys == before.jobs.Keys
    && forall id :: id in after.jobs && after.jobs[id].status == Processing ==> before.jobs[id].status == Processing
  }

  /** The engine at some point of the pump, and how many jobs it has handled so far. */
  datatype Progress = Progress(engine: Engine, handled: nat)

  /** One turn of the pump's loop that claims something. */
  ghost predicate Turn(opts: Options, handle: Handler, p: Progress, q: Progress, now: Time, envs: nat -> Env) {
    var ids := ClaimIds(p.engine.store, opts.concurrency, now);
    && ids != []
    && q == Progress(Round(opts, handle, p.engine, now, envs, p.handled), p.handled + |ids|)
  }

  /** The states of a pump between its turns; turn `k` claims at time `clock(k)`. */
  ghost predicate Turns(opts: Options, handle: Handler, trace: seq<Progress>, clock: nat -> Time, envs: nat -> Env) {
    trace != [] && forall k :: 0 <= k < |trace| - 1 ==> Turn(opts, handle, trace[k], trace[k + 1], clock(k), envs)
  }

  /** What any number of rounds keeps: the store is in order, no job is left half-handled, and
      each of the rounds has used up work. */
  ghost predicate Pumped(opts: Options, before: Store, after: Store, k: nat) {
    Valid(after) && NoneStuck(before, after) && Work(opts, after) + k <= Work(opts, before)
  }

  lemma NextPumped(opts: Options, handle: Handler, before: Store, p: Progress, q: Progress, now: Time, envs: nat -> Env, k: nat)
    requires Pumped(opts, before, p.engine.store, k) && Turn(opts, handle, p, q, now, envs)
    ensures Pumped(opts, before, q.engine.store, k + 1)
  {
    RoundProgress(opts, handle, p.engine, now, envs, p.handled);
    RoundSettles(opts, handle, p.engine, now, envs, p.handled);
  }

  lemma LastTurn(opts: Options, handle: Handler, trace: seq<Progress>, clock: nat -> Time, envs: nat -> Env)
    requires Turns(opts, handle, trace, clock, envs) && |trace| > 1
    ensures var n := |trace| - 1;
            && Turns(opts, handle, trace[..n], clock, envs) && trace[..n][0] == trace[0] && trace[..n][n - 1] == trace[n - 1]
            && Turn(opts, handle, trace[n - 1], trace[n], clock(n - 1), envs)
  {
    var n := |trace| - 1;
    assert Turn(opts, handle, trace[n - 1], trace[n - 1 + 1], clock(n - 1), envs);
    forall k | 0 <= k < n - 1 ensures Turn(opts, handle, trace[..n][k], trace[..n][k + 1], clock(k), envs) {
      assert Turn(opts, handle, trace[k], trace[k + 1], clock(k), envs);
    }
  }

  lemma OneMoreTurn(opts: Options, handle: Handler, trace: seq<Progress>, q: Progress, clock: nat -> Time, envs: nat -> Env)
    requires Turns(opts, handle, trace, clock, envs)
    requires Turn(opts, handle, trace[|trace| - 1], q, clock(|trace| - 1), envs)
    ensures Turns(opts, handle, trace + [q], clock, envs)
  {
    var longer := trace + [q];
    forall k | 0 <= k < |longer| - 1 ensures Turn(opts, handle, longer[k], longer[k + 1], clock(k), envs) {
      if k < |trace| - 1 { assert Turn(opts, handle, trace[k], trace[k + 1], clock(k), envs); }
    }
  }

  /** The pump stops: it cannot take more turns than there is work. */
  lemma {:induction false} PumpStops(opts: Options, handle: Handler, trace: seq<Progress>, clock: nat -> Time, envs: nat -> Env)
    requires Turns(opts, handle, trace, clock, envs) && Valid(trace[0].engine.store)
    ensures Pumped(opts, trace[0].engine.store, trace[|trace| - 1].engine.store, |trace| - 1)
  {
    var n := |trace| - 1;
    if n > 0 {
      LastTurn(opts, handle, trace, clock, envs);
      PumpStops(opts, handle, trace[..n], clock, envs);
      NextPumped(opts, handle, trace[0].engine.store, trace[n - 1], trace[n], clock(n - 1), envs, n - 1);
    }
  }

  /** An empty claim by a pump with any capacity means that nothing is due. */
  lemma NothingDue(opts: Options, st: Store, now: Time)
    requires Valid(st) && opts.concurrency > 0 && ClaimIds(st, opts.concurrency, now) == []
    ensures forall id :: id in st.jobs && st.jobs[id].status in {Queued, Retry} ==> st.jobs[id].nextAttemptAt > now
  {
    ClaimTakesTurns(st, opts.concurrency, now);
    forall id | id in st.jobs ensures !Claimable(st.jobs[id], now) {
      assert id in st.order && id !in Eligible(st, st.order, now);
    }
  }

  // ----- the attempt bound -----

  /** What can happen to the queue, replays aside. */
  datatype QueueStep =
    | Enqueues(sha: string -> string, events: seq<Event>, supply: seq<Fresh>)
    | Claims(limit: nat, now: Time)
    | Settles(id: JobId, verdict: Verdict, at: Time)
    | Recovers(id: JobId, since: Time)
    | Dismisses(id: JobId)
    | Approves(id: JobId)

  /** A worker settles, and a lease recovery re-queues, only jobs in processing; an operator
      dismisses or approves only parked ones. */
  function QueueNext(opts: Options, st: Store, step: QueueStep): Store {
    match step
    case Enqueues(sha, events, supply) => if |events| == |supply| then EnqueueAll(sha, st, events, supply) else st
    case Claims(limit, now) => Claim(st, limit, now)
    case Settles(id, verdict, at) =>
      if id in st.jobs && st.jobs[id].status == Processing then Set(st, id, SettleJob(opts, st.jobs[id], verdict, at)) else st
    case Recovers(id, since) =>
      if id in st.jobs && st.jobs[id].status == Processing
      then Set(st, id, st.jobs[id].(status := Retry, nextAttemptAt := since)) else st
    case Dismisses(id) =>
      if id in st.jobs && st.jobs[id].status in {DeadLetter, ManualReview, Retry}
      then Set(st, id, st.jobs[id].(status := Dismissed)) else st
    case Approves(id) =>
      if id in st.jobs && st.jobs[id].status == ManualReview && st.jobs[id].event.change == Deleted
      then Set(st, id, st.jobs[id].(status := Completed)) else st
  }

  function QueueRun(opts: Options, st: Store, steps: seq<QueueStep>): Store
    decreases |steps|
  {
    if steps == [] then st else QueueRun(opts, QueueNext(opts, st, steps[0]), steps[1..])
  }

  /** How often a run claims one job, and how often its lease expires. */
  function ClaimCount(opts: Options, st: Store, steps: seq<QueueStep>, id: JobId): nat
    decreases |steps|
  {
    if steps == [] then 0
    else
      (if steps[0].Claims? && id in st.jobs && id in ClaimIds(st, steps[0].limit, steps[0].now) then 1 else 0)
      + ClaimCount(opts, QueueNext(opts, st, steps[0]), steps[1..], id)
  }

  function RecoveryCount(opts: Options, st: Store, steps: seq<QueueStep>, id: JobId): nat
    decreases |steps|
  {
    if steps == [] then 0
    else
      (if steps[0].Recovers? && steps[0].id == id then 1 else 0)
      + RecoveryCount(opts, QueueNext(opts, st, steps[0]), steps[1..], id)
  }

  /** The claims a job, enqueued or yet to be, still has. */
  function Left(opts: Options, st: Store, id: JobId): nat {
    if id in st.jobs then ClaimsLeft(opts, st.jobs[id]) else Budget(opts)
  }

  lemma {:induction false} EnqueueLeft(opts: Options, sha: string -> string, st: Store, events: seq<Event>, supply: seq<Fresh>, id: JobId)
    requires |events| == |supply| && Valid(st) && Unused(st, supply)
    ensures Left(opts, EnqueueAll(sha, st, events, supply), id) <= Left(opts, st, id)
  {
    if events != [] {
      var n := |events| - 1;
      Shorter(st, supply);
      EnqueueLeft(opts, sha, st, events[..n], supply[..n], id);
      EnqueueKeeps(sha, st, events[..n], supply[..n]);
    }
  }

  ghost predicate StepFits(st: Store, step: QueueStep) {
    step.Enqueues? ==> |step.events| == |step.supply| && Unused(st, step.supply)
  }

  ghost predicate RunFits(opts: Options, st: Store, steps: seq<QueueStep>)
    decreases |steps|
  {
    steps == [] || (StepFits(st, steps[0]) && RunFits(opts, QueueNext(opts, st, steps[0]), steps[1..]))
  }

  lemma QueueStepKeeps(opts: Options, st: Store, step: QueueStep)
    requires Valid(st) && StepFits(st, step)
    ensures Valid(QueueNext(opts, st, step))
  {
    match step
    case Enqueues(sha, events, supply) => EnqueueKeeps(sha, st, events, supply);
    case Claims(limit, now) => ClaimKeepsValid(st, limit, now);
    case Settles(id, verdict, at) =>
      if id in st.jobs { SetKeepsValid(st, id, SettleJob(opts, st.jobs[id], verdict, at)); }
    case Recovers(id, since) =>
      if id in st.jobs { SetKeepsValid(st, id, st.jobs[id].(status := Retry, nextAttemptAt := since)); }
    case Dismisses(id) =>
      if id in st.jobs { SetKeepsValid(st, id, st.jobs[id].(status := Dismissed)); }
    case Approves(id) =>
      if id in st.jobs { SetKeepsValid(st, id, st.jobs[id].(status := Completed)); }
  }

  lemma ClaimUsesOne(opts: Options, st: Store, limit: nat, now: Time, id: JobId)
    requires Valid(st)
    ensures Left(opts, Claim(st, limit, now), id) + (if id in st.jobs && id in ClaimIds(st, limit, now) then 1 else 0) == Left(opts, st, id)
  {
    ClaimTakesTurns(st, limit, now);
    if id in st.jobs && id in ClaimIds(st, limit, now) {
      ClaimLowersRank(opts, st.jobs[id], now);
    }
  }

  /** What one transition of a job in processing does to its own claims and to nobody else's. */
  lemma SetLeft(opts: Options, st: Store, x: JobId, job: Job, id: JobId, back: nat)
    requires x in st.jobs && ClaimsLeft(opts, job) <= ClaimsLeft(opts, st.jobs[x]) + back
    ensures Left(opts, Set(st, x, job), id) <= Left(opts, st, id) + if x == id then back else 0
  {
  }

  /** Every claim of a job uses up one of its claims, and only an expired lease gives one back. */
  lemma StepUsesClaims(opts: Options, st: Store, step: QueueStep, id: JobId)
    requires Valid(st) && StepFits(st, step)
    ensures Left(opts, QueueNext(opts, st, step), id)
            + (if step.Claims? && id in st.jobs && id in ClaimIds(st, step.limit, step.now) then 1 else 0)
            <= Left(opts, st, id) + (if step.Recovers? && step.id == id then 1 else 0)
  {
    match step
    case Enqueues(sha, events, supply) => EnqueueLeft(opts, sha, st, events, supply, id);
    case Claims(limit, now) => ClaimUsesOne(opts, st, limit, now, id);
    case Settles(x, verdict, at) =>
      if x in st.jobs && st.jobs[x].status == Processing {
        SettleLowersRank(opts, st.jobs[x], verdict, at);
        SetLeft(opts, st, x, SettleJob(opts, st.jobs[x], verdict, at), id, 0);
      }
    case Recovers(x, since) =>
      if x in st.jobs && st.jobs[x].status == Processing {
        SetLeft(opts, st, x, st.jobs[x].(status := Retry, nextAttemptAt := since), id, 1);
      }
    case Dismisses(x) =>
      if x in st.jobs { SetLeft(opts, st, x, st.jobs[x].(status := Dismissed), id, 0); }
    case Approves(x) =>
      if x in st.jobs { SetLeft(opts, st, x, st.jobs[x].(status := Completed), id, 0); }
  }

  /** In any run without replays a job is claimed at most as often as it has attempts (at least
      one), plus once for every time its lease expired. */
  lemma {:induction false} AttemptBound(opts: Options, st: Store, steps: seq<QueueStep>, id: JobId)
    requires Valid(st) && RunFits(opts, st, steps)
    ensures ClaimCount(opts, st, steps, id) + Left(opts, QueueRun(opts, st, steps), id)
            <= Left(opts, st, id) + RecoveryCount(opts, st, steps, id)
    decreases |steps|
  {
    if steps != [] {
      QueueStepKeeps(opts, st, steps[0]);
      StepUsesClaims(opts, st, steps[0], id);
      AttemptBound(opts, QueueNext(opts, st, steps[0]), steps[1..], id);
    }
  }

  // ----- the waits of a job that always fails -----

  /** The waits scheduled before the m-th attempt, all together. */
  function TotalWait(m: nat): int { if m <= 1 then 0 else TotalWait(m - 1) + Backoff(m - 1) }

  lemma {:induction false} Pow2Grows(n: nat)
    ensures n >= 7 ==> Pow2(n) >= 128
  {
    if n > 7 { Pow2Grows(n - 1); } else if n == 7 { assert Pow2(7) == 2 * Pow2(6) == 4 * Pow2(5) == 8 * Pow2(4) == 16 * Pow2(3) == 128; }
  }

  lemma {:induction false} Pow2Small(n: nat)
    requires n <= 6
    ensures Pow2(n) <= 64
    decreases 6 - n
  {
    if n < 6 { Pow2Small(n + 1); } else { assert Pow2(6) == 2 * Pow2(5) == 4 * Pow2(4) == 8 * Pow2(3) == 64; }
  }

  lemma {:induction false} TotalWaitClosed(m: nat)
    requires m >= 1
    ensures TotalWait(m) == if m <= 8 then 500 * (Pow2(m - 1) - 1) else 63_500 + 60_000 * (m - 8)
  {
    if m > 1 {
      TotalWaitClosed(m - 1);
      if m <= 8 {
        Pow2Small(m - 2);
      } else {
        Pow2Grows(m - 2);
        if m == 9 { assert Pow2(7) == 128 by { Pow2AtSeven(); } }
      }
    }
  }

  lemma Pow2AtSeven()
    ensures Pow2(7) == 128
  {
    assert Pow2(7) == 2 * Pow2(6) == 4 * Pow2(5) == 8 * Pow2(4) == 16 * Pow2(3);
  }

  /** A job claimed as soon as it is due, failing at once, time after time. */
  function FailingJob(opts: Options, job: Job, k: nat): Job {
    if k == 0 then job
    else
      var before := FailingJob(opts, job, k - 1);
      SettleJob(opts, Claimed(before), Error("fails"), before.nextAttemptAt)
  }

  /** Until its attempts are used up it is retried after the scheduled waits; then it is
      dead-lettered, never before and never later. */
  lemma {:induction false} AlwaysFailing(opts: Options, job: Job, k: nat)
    requires job.status == Queued && job.attempts == 0 && 1 <= k <= opts.maxAttempts
    ensures var after := FailingJob(opts, job, k);
            && after.attempts == k
            && after.status == (if k < opts.maxAttempts then Retry else DeadLetter)
            && after.nextAttemptAt == job.nextAttemptAt + TotalWait(if k < opts.maxAttempts then k + 1 else k)
  {
    if k > 1 { AlwaysFailing(opts, job, k - 1); }
  }

  /** A replayed job starts over: it is due at once and has all its attempts again. */
  lemma ReplayStartsOver(opts: Options, job: Job, now: Time, k: nat)
    requires 1 <= k <= opts.maxAttempts
    ensures Claimable(Replayed(job, now), now) && Replayed(job, now).lastError == None
    ensures var after := FailingJob(opts, Replayed(job, now), k);
            && after.attempts == k
            && after.status == (if k < opts.maxAttempts then Retry else DeadLetter)
            && after.nextAttemptAt == now + TotalWait(if k < opts.maxAttempts then k + 1 else k)
  {
    AlwaysFailing(opts, Replayed(job, now), k);
  }

  // ----- while work is left, something can happen -----

  /** The latest time any job is waiting for. */
  function LatestDue(st: Store, order: seq<JobId>): Time {
    if order == [] then 0
    else
      var rest, last := LatestDue(st, order[..|order| - 1]), order[|order| - 1];
      if last in st.jobs && st.jobs[last].nextAttemptAt > rest then st.jobs[last].nextAttemptAt else rest
  }

  lemma {:induction false} DueByLatest(st: Store, order: seq<JobId>, id: JobId)
    requires id in order && id in st.jobs
    ensures st.jobs[id].nextAttemptAt <= LatestDue(st, order)
  {
    var k := |order| - 1;
    assert order == order[..k] + [order[k]];
    if id != order[k] { DueByLatest(st, order[..k], id); }
  }

  /** A queue that still has work has a job in hand, or a job that a late enough claim takes: no
      job gets stuck short of a final status. */
  lemma WorkCanGoOn(opts: Options, st: Store)
    requires Valid(st) && Work(opts, st) > 0
    ensures (exists id :: id in st.jobs && st.jobs[id].status == Processing)
            || forall limit: nat, now :: limit > 0 && now >= LatestDue(st, st.order) ==> ClaimIds(st, limit, now) != []
  {
    NoWorkMeansFinal(opts, st, st.order);
    var id :| id in st.order && !Final(st.jobs[id].status);
    if st.jobs[id].status != Processing {
      DueByLatest(st, st.order, id);
      forall limit: nat, now | limit > 0 && now >= LatestDue(st, st.order) ensures ClaimIds(st, limit, now) != [] {
        assert id in Eligible(st, st.order, now);
        ClaimTakesTurns(st, limit, now);
      }
    }
  }

  /** One round of the loop, whether or not it finds something to claim, no earlier than the store's
      jobs are waiting for. */
  ghost predicate PatientRound(opts: Options, handle: Handler, p: Progress, q: Progress, now: Time, envs: nat -> Env) {
    && now >= LatestDue(p.engine.store, p.engine.store.order)
    && q.engine == Round(opts, handle, p.engine, now, envs, p.handled)
  }

  ghost predicate PatientRounds(opts: Options, handle: Handler, trace: seq<Progress>, clock: nat -> Time, envs: nat -> Env) {
    trace != [] && forall k :: 0 <= k < |trace| - 1 ==> PatientRound(opts, handle, trace[k], trace[k + 1], clock(k), envs)
  }

  ghost predicate NoneInHand(st: Store) { forall id :: id in st.jobs ==> st.jobs[id].status != Processing }

  ghost predicate AllFinal(st: Store) { forall id :: id in st.jobs ==> Final(st.jobs[id].status) }

  /** A patient round leaves nothing in hand and, while any job is short of a final status, less to do. */
  lemma PatientRoundWorks(opts: Options, handle: Handler, p: Progress, q: Progress, now: Time, envs: nat -> Env)
    requires Valid(p.engine.store) && NoneInHand(p.engine.store) && opts.concurrency > 0
    requires PatientRound(opts, handle, p, q, now, envs)
    ensures Valid(q.engine.store) && NoneInHand(q.engine.store)
    ensures Work(opts, q.engine.store) <= if Work(opts, p.engine.store) == 0 then 0 else Work(opts, p.engine.store) - 1
  {
    RoundProgress(opts, handle, p.engine, now, envs, p.handled);
    RoundSettles(opts, handle, p.engine, now, envs, p.handled);
    if Work(opts, p.engine.store) > 0 { WorkCanGoOn(opts, p.engine.store); }
  }

  /** One step of wearing the work down. */
  ghost predicate Wears(opts: Options, before: Store, after: Store) {
    Valid(before) && NoneInHand(before) ==>
      && Valid(after) && NoneInHand(after)
      && Work(opts, after) <= if Work(opts, before) == 0 then 0 else Work(opts, before) - 1
  }

  /** After `k` steps nothing is in hand and `k` of the work is done, or all of it. */
  ghost predicate WornDown(opts: Options, start: nat, st: Store, k: nat) {
    Valid(st) && NoneInHand(st) && Work(opts, st) <= if k <= start then start - k else 0
  }

  lemma NextWornDown(opts: Options, start: nat, before: Store, after: Store, k: nat)
    requires Wears(opts, before, after)
    ensures WornDown(opts, start, before, k) ==> WornDown(opts, start, after, k + 1)
  {
  }

  lemma {:induction false} WearsDown(opts: Options, start: nat, stores: seq<Store>, k: nat)
    requires k < |stores| && forall j :: 0 <= j < |stores| - 1 ==> Wears(opts, stores[j], stores[j + 1])
    ensures WornDown(opts, start, stores[0], 0) ==> WornDown(opts, start, stores[k], k)
  {
    if k > 0 {
      WearsDown(opts, start, stores, k - 1);
      assert Wears(opts, stores[k - 1], stores[k - 1 + 1]);
      NextWornDown(opts, start, stores[k - 1], stores[k], k - 1);
    }
  }

  function StoresOf(trace: seq<Progress>): (stores: seq<Store>)
    ensures |stores| == |trace| && forall j :: 0 <= j < |trace| ==> stores[j] == trace[j].engine.store
  {
    seq(|trace|, j requires 0 <= j < |trace| => trace[j].engine.store)
  }

  lemma RoundsWear(opts: Options, handle: Handler, trace: seq<Progress>, clock: nat -> Time, envs: nat -> Env, j: nat)
    requires PatientRounds(opts, handle, trace, clock, envs) && opts.concurrency > 0 && j + 1 < |trace|
    ensures Wears(opts, trace[j].engine.store, trace[j + 1].engine.store)
  {
    assert PatientRound(opts, handle, trace[j], trace[j + 1], clock(j), envs);
    if Valid(trace[j].engine.store) && NoneInHand(trace[j].engine.store) {
      PatientRoundWorks(opts, handle, trace[j], trace[j + 1], clock(j), envs);
    }
  }

  /** Every job ends: with nothing in hand and any capacity, patient rounds bring every job to a
      final status within as many rounds as there is work, whatever handling the events does. */
  lemma EveryJobEnds(opts: Options, handle: Handler, trace: seq<Progress>, clock: nat -> Time, envs: nat -> Env, k: nat)
    requires PatientRounds(opts, handle, trace, clock, envs) && opts.concurrency > 0
    requires Valid(trace[0].engine.store) && NoneInHand(trace[0].engine.store)
    requires Work(opts, trace[0].engine.store) <= k < |trace|
    ensures AllFinal(trace[k].engine.store)
  {
    var stores := StoresOf(trace);
    forall j | 0 <= j < |stores| - 1 ensures Wears(opts, stores[j], stores[j + 1]) {
      RoundsWear(opts, handle, trace, clock, envs, j);
    }
    WearsDown(opts, Work(opts, trace[0].engine.store), stores, k);
    NoWorkMeansFinal(opts, trace[k].engine.store, trace[k].engine.store.order);
  }

  // ----- the class -----

  class SyncEngineService {
    const cfg: Config
    const opts: Options
    const reconciler: ReconcilerService
    const store: InMemorySyncEventStore
    var running: bool

    ghost function State(): Engine
      reads this, reconciler, reconciler.sf, reconciler.hs, reconciler.idMap, store
    {
      Engine(reconciler.State(), store.State())
    }

    ghost predicate Valid()
      reads this, reconciler, reconciler.sf, reconciler.hs, reconciler.idMap, store
    {
      reconciler.Valid() && reconciler.cfg == cfg && EventStore.Valid(store.State())
    }

    constructor (cfg: Config, opts: Options, reconciler: ReconcilerService, store: InMemorySyncEventStore)
      requires reconciler.Valid() && reconciler.cfg == cfg && EventStore.Valid(store.State())
      ensures Valid() && !running
      ensures this.cfg == cfg && this.opts == opts && this.reconciler == reconciler && this.store == store
    {
      this.cfg, this.opts, this.reconciler, this.store := cfg, opts, reconciler, store;
      running := false;
    }

    /** What `process` does with a delete event. */
    method HandleDeletion(e: Event, env: Env) returns (v: Verdict)
      requires Valid()
      modifies reconciler.sf, reconciler.hs
      ensures Valid()
      ensures (reconciler.State(), v) == HandleDelete(opts, old(reconciler.State()), e, env)
    {
      match opts.deletePolicy
      case ReviewDeletes => v := Review("delete requires operator approval");
      case IgnoreDeletes => v := Handled;
      case CascadeDeletes =>
        var ok := reconciler.PropagateDeletion(e.system, e.sourceId, env.unreachable);
        v := if ok then Handled else Error("unreachable");
    }

    /** What `process` does with any other change: read the record and reconcile it. */
    method HandleUpdate(e: Event, env: Env) returns (v: Verdict)
      requires Valid()
      modifies reconciler.sf, reconciler.hs, reconciler.idMap
      ensures Valid()
      ensures (reconciler.State(), v) == HandleChange(cfg, old(reconciler.State()), e, env)
    {
      if env.unreachable {
        return Error("unreachable");
      }
      var record := reconciler.Connector(e.system).ReadRecord(e.sourceId);
      if record == None {
        return Error("record vanished before fetch");
      }
      var outcome := reconciler.ReconcileRecord(record.value, env.amb);
      if outcome.Refused? {
        v := if outcome.reason.AmbiguousKey? then Review("ambiguous natural key") else Error("refused");
      } else {
        v := if env.late then Error("associations") else Handled;
      }
    }

    /** The bookkeeping at the end of `process`. */
    method SettleInStore(id: JobId, job: Job, v: Verdict, now: Time)
      requires EventStore.Valid(store.State()) && id in store.jobs && store.jobs[id] == job
      modifies store
      ensures EventStore.Valid(store.State())
      ensures store.State() == Set(old(store.State()), id, SettleJob(opts, job, v, now))
    {
      match v
      case Handled => store.Complete(id);
      case Review(why) => store.Park(id, ManualReview, why);
      case Error(why) => SettleFailure(id, job, why, now);
    }

    /** A failed job is retried later, or parked once its attempts are used up. */
    method SettleFailure(id: JobId, job: Job, why: string, now: Time)
      requires EventStore.Valid(store.State()) && id in store.jobs && store.jobs[id] == job
      modifies store
      ensures EventStore.Valid(store.State())
      ensures store.State() == Set(old(store.State()), id, SettleJob(opts, job, Error(why), now))
    {
      if job.attempts >= opts.maxAttempts {
        store.Park(id, DeadLetter, why);
      } else {
        var delay := Lesser(60_000, 500 * Pow2(if job.attempts == 0 then 0 else job.attempts - 1));
        store.RetryLater(id, why, now + delay);
      }
    }

    method HandleEvent(e: Event, env: Env) returns (v: Verdict)
      requires Valid()
      modifies reconciler.sf, reconciler.hs, reconciler.idMap
      ensures Valid()
      ensures (reconciler.State(), v) == HandlerOf(cfg, opts)(old(reconciler.State()), e, env)
    {
      if !opts.shouldProcess(e) {
        v := Handled;
      } else if e.change == Deleted {
        v := HandleDeletion(e, env);
      } else {
        v := HandleUpdate(e, env);
      }
    }

    /** `process`, for a job that has been claimed. */
    method ProcessJob(id: JobId, env: Env)
      requires Valid() && id in store.jobs
      modifies reconciler.sf, reconciler.hs, reconciler.idMap, store
      ensures Valid()
      ensures State() == ProcessOne(opts, HandlerOf(cfg, opts), old(State()), id, env)
    {
      var job := store.jobs[id];
      var v := HandleEvent(job.event, env);
      SettleInStore(id, job, v, env.now);
    }

    /** The jobs of one claim, one after another. */
    method ProcessJobs(ids: seq<JobId>, envs: nat -> Env, n: nat)
      requires Valid() && forall id :: id in ids ==> id in store.jobs
      modifies reconciler.sf, reconciler.hs, reconciler.idMap, store
      ensures Valid()
      ensures State() == ProcessAll(opts, HandlerOf(cfg, opts), old(State()), ids, envs, n)
    {
      ghost var handle, before := HandlerOf(cfg, opts), State();
      for i := 0 to |ids|
        invariant Valid() && State() == ProcessAll(opts, handle, before, ids[..i], envs, n)
        invariant store.jobs.Keys == before.store.jobs.Keys
      {
        assert ids[i] in ids;
        ProcessAllNext(opts, handle, before, ids, i, envs, n);
        ProcessOneKeys(opts, handle, State(), ids[i], envs(n + i));
        ProcessJob(ids[i], envs(n + i));
      }
      assert ids[..|ids|] == ids;
    }

    /** One turn of the pump's loop: how many jobs it claimed and handled. */
    method RunRound(now: Time, envs: nat -> Env, n: nat) returns (count: nat)
      requires Valid()
      modifies reconciler.sf, reconciler.hs, reconciler.idMap, store
      ensures Valid() && count == |ClaimIds(old(store.State()), opts.concurrency, now)|
      ensures State() == if count == 0 then old(State()) else Round(opts, HandlerOf(cfg, opts), old(State()), now, envs, n)
    {
      ghost var start := State();
      ClaimedKnown(start.store, opts.concurrency, now);
      var ids := store.ClaimJobs(opts.concurrency, now);
      count := |ids|;
      if ids == [] {
        EmptyClaim(start.store, opts.concurrency, now);
      } else {
        ProcessJobs(ids, envs, n);
      }
    }

    /** The loop of `pump`: claims and handles until a claim finds nothing. */
    method PumpLoop(clock: nat -> Time, envs: nat -> Env) returns (ghost trace: seq<Progress>, rounds: nat)
      requires Valid()
      modifies reconciler.sf, reconciler.hs, reconciler.idMap, store
      ensures Valid() && ClaimIds(store.State(), opts.concurrency, clock(rounds)) == []
      ensures Turns(opts, HandlerOf(cfg, opts), trace, clock, envs) && |trace| == rounds + 1
      ensures trace[0].engine == old(State()) && trace[rounds].engine == State()
    {
      rounds := 0;
      var handled: nat := 0;
      ghost var handle := HandlerOf(cfg, opts);
      trace := [Progress(State(), 0)];
      while true
        invariant Valid() && |trace| == rounds + 1
        invariant Turns(opts, handle, trace, clock, envs)
        invariant trace[0].engine == old(State()) && trace[rounds] == Progress(State(), handled)
        decreases Work(opts, store.State())
      {
        RoundProgress(opts, handle, State(), clock(rounds), envs, handled);
        var count := RunRound(clock(rounds), envs, handled);
        if count == 0 {
          break;
        }
        handled, rounds := handled + count, rounds + 1;
        OneMoreTurn(opts, handle, trace, Progress(State(), handled), clock, envs);
        trace := trace + [Progress(State(), handled)];
      }
    }

    /** `pump`: at most one at a time. It always stops, and when it does the last claim, at
        `clock(rounds)`, found nothing. */
    method RunPump(clock: nat -> Time, envs: nat -> Env) returns (ghost trace: seq<Progress>, rounds: nat)
      requires Valid()
      modifies this`running, reconciler.sf, reconciler.hs, reconciler.idMap, store
      ensures Valid() && running == old(running)
      ensures old(running) ==> State() == old(State())
      ensures !old(running) ==>
                && Turns(opts, HandlerOf(cfg, opts), trace, clock, envs) && |trace| == rounds + 1
                && trace[0].engine == old(State()) && trace[rounds].engine == State()
                && ClaimIds(store.State(), opts.concurrency, clock(rounds)) == []
    {
      if running {
        return [], 0;
      }
      running := true;
      trace, rounds := PumpLoop(clock, envs);
      running := false;
    }

    /** `approveDelete`: refused unless the job is a delete that awaits review. */
    method Approve(id: JobId, unreachable: bool) returns (ok: bool)
      requires Valid()
      modifies reconciler.sf, reconciler.hs, store
      ensures Valid()
      ensures ok <==> id in old(store.jobs) && old(store.jobs)[id].event.change == Deleted
                      && old(store.jobs)[id].status == ManualReview
                      && var event := old(store.jobs)[id].event;
                         !(unreachable && Counterpart(old(reconciler.State()), event.system, event.sourceId).Some?)
      ensures State() == if ok then Approved(old(State()), id) else old(State())
    {
      if id !in store.jobs || store.jobs[id].event.change != Deleted || store.jobs[id].status != ManualReview {
        return false;
      }
      var event := store.jobs[id].event;
      ok := reconciler.PropagateDeletion(event.system, event.sourceId, unreachable);
      if ok {
        store.Complete(id);
      }
    }

    /** `dismiss`: refused for a job that is queued, in hand or already settled. */
    method DismissJob(id: JobId) returns (ok: bool)
      requires Valid()
      modifies store
      ensures Valid()
      ensures ok <==> id in old(store.jobs) && old(store.jobs)[id].status in {DeadLetter, ManualReview, Retry}
      ensures store.State() == if ok then Set(old(store.State()), id, old(store.jobs)[id].(status := Dismissed)) else old(store.State())
    {
      if id !in store.jobs || store.jobs[id].status !in {DeadLetter, ManualReview, Retry} {
        return false;
      }
      store.Dismiss(id);
      return true;
    }
  }

  predicate PendingDelete(st: Store, id: JobId) {
    id in st.jobs && st.jobs[id].event.change == Deleted && st.jobs[id].status == ManualReview
  }

  function Approved(e: Engine, id: JobId): Engine
    requires id in e.store.jobs
  {
    var job := e.store.jobs[id];
    Engine(PropagateDelete(e.world, job.event.system, job.event.sourceId), Set(e.store, id, job.(status := Completed)))
  }

  lemma ClaimedKnown(st: Store, limit: nat, now: Time)
    requires EventStore.Valid(st)
    ensures forall id :: id in ClaimIds(st, limit, now) ==> id in Claim(st, limit, now).jobs
  {
    ClaimTakesTurns(st, limit, now);
  }

  /** A claim that takes nothing changes nothing. */
  lemma EmptyClaim(st: Store, limit: nat, now: Time)
    requires ClaimIds(st, limit, now) == []
    ensures Claim(st, limit, now) == st
  {
  }
}

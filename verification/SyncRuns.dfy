/** Whole runs of the protocol: any interleaving of user writes and event deliveries, with
    duplicates, reordering and spurious deliveries. */
module SyncRuns {
  import opened Canonical
  import opened Mapping
  import opened ContentHash
  import opened IdMap
  import opened Connector
  import opened Reconciler
  import opened Protocol

  /** Both systems, the link table, the change events not yet dealt with on each side, and how
      often a user has created or edited a record. */
  datatype State = State(world: World, sfPending: multiset<Id>, hsPending: multiset<Id>, userWrites: nat)
  {
    function Pending(s: SystemId): multiset<Id> { if s == Salesforce then sfPending else hsPending }

    function WithPending(s: SystemId, p: multiset<Id>): State {
      if s == Salesforce then this.(sfPending := p) else this.(hsPending := p)
    }

    predicate Quiet() { sfPending == multiset{} && hsPending == multiset{} }
  }

  /** A user creates or edits a record, or the engine handles a change event: it reads the record
      and reconciles it. With `again` the same event stays queued and is delivered once more. */
  datatype Step =
    | UserWrite(system: SystemId, id: Id, values: Fields, at: Time)
    | Deliver(system: SystemId, id: Id, again: bool, amb: Ambient)

  function UserStores(crm: Crm, id: Id, values: Fields, at: Time): Crm {
    crm.(order := if id in crm.records then crm.order else crm.order + [id],
         records := crm.records[id := Native(values, at)])
  }

  /** The events a system emits while one world becomes another: one for every engine write. */
  function Emitted(before: Crm, after: Crm): multiset<Id> {
    if |before.written| <= |after.written| then multiset(after.written[|before.written|..]) else multiset{}
  }

  function ApplyUser(st: State, s: SystemId, id: Id, values: Fields, at: Time): State {
    var crm := UserStores(st.world.Side(s), id, values, at);
    st.(world := st.world.With(s, crm), userWrites := st.userWrites + 1)
      .WithPending(s, st.Pending(s) + multiset{id})
  }

  /** A refused reconciliation leaves its event queued, for a retry or an operator. */
  function ApplyDelivery(cfg: Config, st: State, s: SystemId, id: Id, again: bool, amb: Ambient): State {
    match Peek(cfg, st.world, s, id)
    case None => st
    case Some(source) =>
      var (after, outcome) := Reconcile(cfg, st.world, source, amb);
      if outcome.Refused? then st
      else
        var left := if again then st.Pending(s) else st.Pending(s) - multiset{id};
        st.(world := after)
          .WithPending(s, left + Emitted(st.world.Side(s), after.Side(s)))
          .WithPending(Other(s), st.Pending(Other(s)) + Emitted(st.world.Side(Other(s)), after.Side(Other(s))))
  }

  function Next(cfg: Config, st: State, step: Step): State {
    match step
    case UserWrite(s, id, values, at) => ApplyUser(st, s, id, values, at)
    case Deliver(s, id, again, amb) => ApplyDelivery(cfg, st, s, id, again, amb)
  }

  /** Users store values that both systems carry; deliveries get fresh identifiers or a target that
      rejects their write, and an unlinked record passes the match check. */
  ghost predicate Legal(cfg: Config, st: State, step: Step) {
    match step
    case UserWrite(s, _, values, _) => Admissible(cfg.tables, ToCanonical(cfg.tables, s, values))
    case Deliver(s, id, _, amb) =>
      Supplied(st.world, Other(s), amb)
      && (id in st.world.Side(s).records ==> MatchOk(cfg, st.world, Snapshot(cfg.tables, s, st.world.Side(s), id)))
  }

  function Run(cfg: Config, st: State, steps: seq<Step>): State
    decreases |steps|
  {
    if steps == [] then st else Run(cfg, Next(cfg, st, steps[0]), steps[1..])
  }

  ghost predicate LegalRun(cfg: Config, st: State, steps: seq<Step>)
    decreases |steps|
  {
    steps == [] || (Legal(cfg, st, steps[0]) && LegalRun(cfg, Next(cfg, st, steps[0]), steps[1..]))
  }

  // ----- the invariant -----

  /** The table is in order, stored values are carried, and every record that still owes the other side something has an
      event waiting. */
  ghost predicate Inv(cfg: Config, st: State) {
    && TableOk(st.world) && AllCarried(cfg.tables, st.world)
    && (forall s, id :: id in Unsynced(cfg, st.world, s) ==> id in st.Pending(s))
  }

  /** What a user write can unsettle is the record it writes. */
  lemma UserUnsettlesOne(cfg: Config, st: State, s: SystemId, id: Id, values: Fields, at: Time)
    requires TableOk(st.world)
    ensures var after := ApplyUser(st, s, id, values, at);
            && TableOk(after.world)
            && Unsynced(cfg, after.world, s) <= Unsynced(cfg, st.world, s) + {id}
            && Unsynced(cfg, after.world, Other(s)) == Unsynced(cfg, st.world, Other(s))
            && Writes(after.world) == Writes(st.world)
  {
    var after := ApplyUser(st, s, id, values, at);
    assert after.world.table == st.world.table;
    assert after.world.Side(Other(s)) == st.world.Side(Other(s));
  }

  lemma UserCarries(tb: Tables, st: State, s: SystemId, id: Id, values: Fields, at: Time)
    requires AllCarried(tb, st.world) && Admissible(tb, ToCanonical(tb, s, values))
    ensures AllCarried(tb, ApplyUser(st, s, id, values, at).world)
  {
    var before, after := st.world.Side(s), ApplyUser(st, s, id, values, at).world.Side(s);
    forall x | x in after.records ensures Admissible(tb, Canon(tb, s, after, x)) {
      assert x != id ==> x in before.records && after.records[x] == before.records[x];
      StoredCarried(tb, s, before, x, ToCanonical(tb, s, values), Canon(tb, s, after, x));
    }
  }

  lemma UserKeepsInv(cfg: Config, st: State, s: SystemId, id: Id, values: Fields, at: Time)
    requires Inv(cfg, st) && Legal(cfg, st, UserWrite(s, id, values, at))
    ensures Inv(cfg, ApplyUser(st, s, id, values, at))
  {
    UserUnsettlesOne(cfg, st, s, id, values, at);
    UserCarries(cfg.tables, st, s, id, values, at);
    var after := ApplyUser(st, s, id, values, at);
    forall r, x | x in Unsynced(cfg, after.world, r) ensures x in after.Pending(r) {
      if r != s { assert r == Other(s); }
    }
  }

  ghost predicate Deliverable(cfg: Config, w: World, source: Record, amb: Ambient) {
    && TableOk(w) && AllCarried(cfg.tables, w)
    && Current(cfg, w, source) && MatchOk(cfg, w, source) && Supplied(w, Other(source.source), amb)
  }

  /** The table is in order, record `id` of side `s` is synced, and no other has become unsynced. */
  ghost predicate SettledOne(cfg: Config, w: World, after: World, s: SystemId, id: Id) {
    && TableOk(after)
    && Unsynced(cfg, after, s) <= Unsynced(cfg, w, s) - {id}
    && Unsynced(cfg, after, Other(s)) <= Unsynced(cfg, w, Other(s))
  }

  /** A delivery that is not refused leaves its record synced and unsettles no other. */
  lemma DeliverySettles(cfg: Config, w: World, source: Record, amb: Ambient)
    requires Settled(cfg.tables) && Deliverable(cfg, w, source, amb)
    requires !Reconcile(cfg, w, source, amb).1.Refused?
    ensures AllCarried(cfg.tables, Reconcile(cfg, w, source, amb).0)
    ensures SettledOne(cfg, w, Reconcile(cfg, w, source, amb).0, source.source, source.sourceId)
  {
    if amb.fault == Rejects {
      RejectedChangesNothing(cfg, w, source, amb);
      EchoSettles(cfg, w, source, amb.newCid);
    } else {
      ReconcileCarries(cfg, w, source, amb);
      StepSettles(cfg, w, source, amb);
    }
  }

  lemma ReconcileCarries(cfg: Config, w: World, source: Record, amb: Ambient)
    requires Settled(cfg.tables) && Ready(cfg, w, source, amb)
    ensures AllCarried(cfg.tables, Reconcile(cfg, w, source, amb).0)
  {
    ReconcileIsStep(cfg, w, source, amb);
  }

  lemma StepSettles(cfg: Config, w: World, source: Record, amb: Ambient)
    requires Settled(cfg.tables) && Ready(cfg, w, source, amb)
    requires !Reconcile(cfg, w, source, amb).1.Refused?
    ensures SettledOne(cfg, w, Reconcile(cfg, w, source, amb).0, source.source, source.sourceId)
  {
    var d, after := Decide(cfg, w, source, amb.newCid), Reconcile(cfg, w, source, amb).0;
    if d.Write? {
      assert StepOk(cfg, w, after, source, d, TargetOf(d, amb), amb) by { ReconcileIsStep(cfg, w, source, amb); }
      WrittenSettles(cfg, w, after, source, d, TargetOf(d, amb), amb);
    } else {
      EchoSettles(cfg, w, source, amb.newCid);
    }
  }

  lemma EchoSettles(cfg: Config, w: World, source: Record, newCid: Cid)
    requires TableOk(w) && Current(cfg, w, source) && MatchOk(cfg, w, source)
    requires Decide(cfg, w, source, newCid) == Suppress
    ensures SettledOne(cfg, w, w, source.source, source.sourceId)
  {
    EchoIsSynced(cfg, w, source, newCid);
  }

  lemma WrittenSettles(cfg: Config, w: World, after: World, source: Record, d: Decision, t: Id, amb: Ambient)
    requires StepOk(cfg, w, after, source, d, t, amb)
    ensures SettledOne(cfg, w, after, source.source, source.sourceId)
  {
    StepKeepsTable(cfg, w, after, source, d, t, amb);
    UnsyncedShrinks(cfg, w, after, source, d, t, amb, source.source);
    UnsyncedShrinks(cfg, w, after, source, d, t, amb, Other(source.source));
  }

  /** A delivery takes at most the one event it handles off the queues. */
  lemma DeliveryQueues(cfg: Config, st: State, s: SystemId, id: Id, again: bool, amb: Ambient, r: SystemId, x: Id)
    requires x in st.Pending(r) && (r == s ==> x != id)
    ensures x in ApplyDelivery(cfg, st, s, id, again, amb).Pending(r)
  {
    if r != s { assert r == Other(s); }
  }

  lemma DeliveryKeepsInv(cfg: Config, st: State, s: SystemId, id: Id, again: bool, amb: Ambient)
    requires Settled(cfg.tables) && Inv(cfg, st) && Legal(cfg, st, Deliver(s, id, again, amb))
    ensures Inv(cfg, ApplyDelivery(cfg, st, s, id, again, amb))
  {
    if id in st.world.Side(s).records {
      var source := Snapshot(cfg.tables, s, st.world.Side(s), id);
      if !Reconcile(cfg, st.world, source, amb).1.Refused? {
        DeliverySettles(cfg, st.world, source, amb);
        DeliveredQueues(cfg, st, s, id, again, amb);
        SettledInv(cfg, st, ApplyDelivery(cfg, st, s, id, again, amb), s, id);
      }
    }
  }

  lemma DeliveredQueues(cfg: Config, st: State, s: SystemId, id: Id, again: bool, amb: Ambient)
    requires id in st.world.Side(s).records
    requires !Reconcile(cfg, st.world, Snapshot(cfg.tables, s, st.world.Side(s), id), amb).1.Refused?
    ensures var end := ApplyDelivery(cfg, st, s, id, again, amb);
            && end.world == Reconcile(cfg, st.world, Snapshot(cfg.tables, s, st.world.Side(s), id), amb).0
            && forall r, x :: x in st.Pending(r) && (r == s ==> x != id) ==> x in end.Pending(r)
  {
    var end := ApplyDelivery(cfg, st, s, id, again, amb);
    forall r, x | x in st.Pending(r) && (r == s ==> x != id) ensures x in end.Pending(r) {
      DeliveryQueues(cfg, st, s, id, again, amb, r, x);
    }
  }

  /** If nothing new is out of step and no event but the delivered one was taken, the invariant holds on. */
  lemma SettledInv(cfg: Config, st: State, end: State, s: SystemId, id: Id)
    requires Inv(cfg, st) && AllCarried(cfg.tables, end.world) && SettledOne(cfg, st.world, end.world, s, id)
    requires forall r, x :: x in st.Pending(r) && (r == s ==> x != id) ==> x in end.Pending(r)
    ensures Inv(cfg, end)
  {
    forall r, x | x in Unsynced(cfg, end.world, r) ensures x in end.Pending(r) {
      if r != s { assert r == Other(s); }
      assert x in Unsynced(cfg, st.world, r);
    }
  }

  lemma {:induction false} RunKeepsInv(cfg: Config, st: State, steps: seq<Step>)
    requires Settled(cfg.tables) && Inv(cfg, st) && LegalRun(cfg, st, steps)
    ensures Inv(cfg, Run(cfg, st, steps))
    decreases |steps|
  {
    if steps != [] {
      match steps[0]
      case UserWrite(s, id, values, at) => UserKeepsInv(cfg, st, s, id, values, at);
                                           RunKeepsInv(cfg, Next(cfg, st, steps[0]), steps[1..]);
      case Deliver(s, id, again, amb) => DeliveryKeepsInv(cfg, st, s, id, again, amb);
                                         RunKeepsInv(cfg, Next(cfg, st, steps[0]), steps[1..]);
    }
  }

  // ----- convergence -----

  /** Both records of a pair are there and have the digest the link recorded for both. */
  ghost predicate Converged(cfg: Config, w: World) {
    forall s, id :: id in w.Side(s).records ==>
      && Counterpart(w, s, id).Some?
      && Counterpart(w, s, id).value in w.Side(Other(s)).records
      && HashOf(cfg, Canon(cfg.tables, s, w.Side(s), id))
         == HashOf(cfg, Canon(cfg.tables, Other(s), w.Side(Other(s)), Counterpart(w, s, id).value))
  }

  lemma SyncedPairsAgree(cfg: Config, w: World)
    requires TableOk(w) && Unsynced(cfg, w, Salesforce) == {} && Unsynced(cfg, w, Hubspot) == {}
    ensures Converged(cfg, w)
  {
    forall s, id | id in w.Side(s).records
      ensures Counterpart(w, s, id).Some?
      ensures Counterpart(w, s, id).value in w.Side(Other(s)).records
      ensures HashOf(cfg, Canon(cfg.tables, s, w.Side(s), id))
              == HashOf(cfg, Canon(cfg.tables, Other(s), w.Side(Other(s)), Counterpart(w, s, id).value))
    {
      assert id !in Unsynced(cfg, w, s);
      var c := FindBySource(w.table, s, id).value;
      var link := w.table.links[c];
      var partner := link.ids[Other(s)];
      assert partner !in Unsynced(cfg, w, Other(s));
      SyncedBy(cfg, w, s, id, c);
      SyncedBy(cfg, w, Other(s), partner, c);
    }
  }

  /** Once every event has been dealt with, every record has a counterpart with the same digest,
      whatever happened in between. */
  lemma Convergence(cfg: Config, st: State, steps: seq<Step>)
    requires Settled(cfg.tables) && Inv(cfg, st) && LegalRun(cfg, st, steps)
    ensures Run(cfg, st, steps).Quiet() ==> Converged(cfg, Run(cfg, st, steps).world)
  {
    RunKeepsInv(cfg, st, steps);
    var end := Run(cfg, st, steps);
    if end.Quiet() {
      assert Unsynced(cfg, end.world, Salesforce) == {} by {
        assert forall id :: id in Unsynced(cfg, end.world, Salesforce) ==> id in end.Pending(Salesforce);
      }
      assert Unsynced(cfg, end.world, Hubspot) == {} by {
        assert forall id :: id in Unsynced(cfg, end.world, Hubspot) ==> id in end.Pending(Hubspot);
      }
      SyncedPairsAgree(cfg, end.world);
    }
  }

  /** Equal digests are equal contents when the digest does not collide on the pair and the
      record's serialization is unambiguous. */
  lemma ConvergedContents(cfg: Config, w: World, s: SystemId, id: Id)
    requires Settled(cfg.tables) && Converged(cfg, w) && id in w.Side(s).records
    requires var f := Canon(cfg.tables, s, w.Side(s), id);
             var g := Canon(cfg.tables, Other(s), w.Side(Other(s)), Counterpart(w, s, id).value);
             Unambiguous(cfg.tables.host, f) && CollisionFree(cfg.tables.host, f, g)
    ensures Normal(cfg.tables.host, Canon(cfg.tables, s, w.Side(s), id))
            == Normal(cfg.tables.host, Canon(cfg.tables, Other(s), w.Side(Other(s)), Counterpart(w, s, id).value))
  {
    var f := Canon(cfg.tables, s, w.Side(s), id);
    var g := Canon(cfg.tables, Other(s), w.Side(Other(s)), Counterpart(w, s, id).value);
    assert f.Keys == Names(cfg.tables.Rules(s)) == Names(cfg.tables.Rules(Other(s))) == g.Keys;
    EqualHashes(cfg.tables.host, f, g);
  }

  // ----- loop freedom -----

  lemma {:induction false} WriteBound(cfg: Config, st: State, steps: seq<Step>)
    requires Settled(cfg.tables) && Inv(cfg, st) && LegalRun(cfg, st, steps)
    ensures var end := Run(cfg, st, steps);
            && end.userWrites >= st.userWrites
            && Writes(end.world) + Owed(cfg, end.world)
               <= Writes(st.world) + Owed(cfg, st.world) + (end.userWrites - st.userWrites)
    decreases |steps|
  {
    if steps != [] {
      match steps[0]
      case UserWrite(s, id, values, at) =>
        UserKeepsInv(cfg, st, s, id, values, at);
        UserOwesOne(cfg, st, s, id, values, at);
        WriteBound(cfg, Next(cfg, st, steps[0]), steps[1..]);
      case Deliver(s, id, again, amb) =>
        DeliveryKeepsInv(cfg, st, s, id, again, amb);
        DeliveryPays(cfg, st, s, id, again, amb);
        WriteBound(cfg, Next(cfg, st, steps[0]), steps[1..]);
    }
  }

  lemma UserOwesOne(cfg: Config, st: State, s: SystemId, id: Id, values: Fields, at: Time)
    requires TableOk(st.world)
    ensures Owed(cfg, ApplyUser(st, s, id, values, at).world) <= Owed(cfg, st.world) + 1
    ensures Writes(ApplyUser(st, s, id, values, at).world) == Writes(st.world)
  {
    UserUnsettlesOne(cfg, st, s, id, values, at);
    var after := ApplyUser(st, s, id, values, at);
    SubsetSize(Unsynced(cfg, after.world, s), Unsynced(cfg, st.world, s) + {id});
    var rest := Unsynced(cfg, st.world, s) - {id};
    assert Unsynced(cfg, st.world, s) + {id} == rest + {id};
    SubsetSize(rest, Unsynced(cfg, st.world, s));
  }

  lemma DeliveryPays(cfg: Config, st: State, s: SystemId, id: Id, again: bool, amb: Ambient)
    requires Settled(cfg.tables) && Inv(cfg, st) && Legal(cfg, st, Deliver(s, id, again, amb))
    ensures var end := ApplyDelivery(cfg, st, s, id, again, amb);
            && Writes(end.world) + Owed(cfg, end.world) <= Writes(st.world) + Owed(cfg, st.world)
            && end.userWrites == st.userWrites
  {
    if id in st.world.Side(s).records {
      var source := Snapshot(cfg.tables, s, st.world.Side(s), id);
      if amb.fault == Rejects {
        RejectedChangesNothing(cfg, st.world, source, amb);
      } else {
        StepPays(cfg, st.world, source, amb);
      }
    }
  }

  /** From empty systems, the engine never writes more often than users do: echoes die out. */
  lemma LoopFreedom(cfg: Config, steps: seq<Step>)
    requires Settled(cfg.tables)
    requires LegalRun(cfg, INITIAL, steps)
    ensures var end := Run(cfg, INITIAL, steps); Writes(end.world) <= end.userWrites
  {
    EmptyInv(cfg);
    WriteBound(cfg, INITIAL, steps);
    NothingOwed(cfg);
  }

  lemma EmptyInv(cfg: Config)
    ensures Inv(cfg, INITIAL)
  {
  }

  lemma NothingOwed(cfg: Config)
    ensures Writes(INITIAL.world) == 0 && Owed(cfg, INITIAL.world) == 0 && INITIAL.userWrites == 0
  {
    assert Unsynced(cfg, INITIAL.world, Salesforce) == {} && Unsynced(cfg, INITIAL.world, Hubspot) == {};
  }

  const INITIAL := State(World(EMPTY_CRM, EMPTY_CRM, EMPTY_TABLE), multiset{}, multiset{}, 0)

  // ----- event loops die out -----

  /** A delivery that takes a waiting event off its queue: the record is there, the run is not
      refused, and the event is not queued again. */
  predicate Takes(cfg: Config, st: State, step: Step) {
    && step.Deliver? && !step.again && step.id in st.Pending(step.system)
    && step.id in st.world.Side(step.system).records
    && !Reconcile(cfg, st.world, Snapshot(cfg.tables, step.system, st.world.Side(step.system), step.id), step.amb).1.Refused?
  }

  predicate TakingRun(cfg: Config, st: State, steps: seq<Step>)
    decreases |steps|
  {
    steps == [] || (Takes(cfg, st, steps[0]) && TakingRun(cfg, Next(cfg, st, steps[0]), steps[1..]))
  }

  function Waiting(st: State): nat { |st.sfPending| + |st.hsPending| }

  /** Events waiting, and the events that writes still owed will cause. */
  function ToDo(cfg: Config, st: State): nat { Waiting(st) + 2 * Owed(cfg, st.world) }

  /** No system forgets an emitted event. */
  lemma LogsGrow(cfg: Config, w: World, source: Record, amb: Ambient, s: SystemId)
    requires Settled(cfg.tables) && Deliverable(cfg, w, source, amb)
    ensures |w.Side(s).written| <= |Reconcile(cfg, w, source, amb).0.Side(s).written|
  {
    if amb.fault == Rejects {
      RejectedChangesNothing(cfg, w, source, amb);
    } else {
      ReconcileIsStep(cfg, w, source, amb);
      if s != source.source { assert s == Other(source.source); }
    }
  }

  /** Taking an event leaves one less, plus one for each write it caused. */
  lemma TakenWaiting(cfg: Config, st: State, step: Step)
    requires Takes(cfg, st, step)
    requires var after := Reconcile(cfg, st.world, Snapshot(cfg.tables, step.system, st.world.Side(step.system), step.id), step.amb).0;
             && |st.world.sf.written| <= |after.sf.written| && |st.world.hs.written| <= |after.hs.written|
    ensures Waiting(Next(cfg, st, step)) + Writes(st.world) + 1 == Waiting(st) + Writes(Next(cfg, st, step).world)
  {
    var s, after := step.system, Next(cfg, st, step).world;
    TakenQueues(cfg, st, step);
    EmittedSize(st.world.Side(s), after.Side(s));
    EmittedSize(st.world.Side(Other(s)), after.Side(Other(s)));
    OneTaken(st.Pending(s), step.id);
  }

  /** What the queues hold once the event has been taken. */
  lemma TakenQueues(cfg: Config, st: State, step: Step)
    requires Takes(cfg, st, step)
    ensures var s, end := step.system, Next(cfg, st, step);
            && end.world == Reconcile(cfg, st.world, Snapshot(cfg.tables, s, st.world.Side(s), step.id), step.amb).0
            && end.Pending(s) == st.Pending(s) - multiset{step.id} + Emitted(st.world.Side(s), end.world.Side(s))
            && end.Pending(Other(s)) == st.Pending(Other(s)) + Emitted(st.world.Side(Other(s)), end.world.Side(Other(s)))
  {
  }

  lemma OneTaken(queue: multiset<Id>, id: Id)
    requires id in queue
    ensures |queue - multiset{id}| == |queue| - 1
  {
  }

  lemma EmittedSize(before: Crm, after: Crm)
    requires |before.written| <= |after.written|
    ensures |Emitted(before, after)| == |after.written| - |before.written|
  {
  }

  lemma TakingPays(cfg: Config, st: State, step: Step)
    requires Settled(cfg.tables) && Inv(cfg, st) && Legal(cfg, st, step) && Takes(cfg, st, step)
    ensures ToDo(cfg, Next(cfg, st, step)) < ToDo(cfg, st)
  {
    var source := Snapshot(cfg.tables, step.system, st.world.Side(step.system), step.id);
    LogsGrow(cfg, st.world, source, step.amb, Salesforce);
    LogsGrow(cfg, st.world, source, step.amb, Hubspot);
    TakenWaiting(cfg, st, step);
    DeliveryPays(cfg, st, step.system, step.id, step.again, step.amb);
  }

  /** Once users pause, event loops die out: taking waiting events one after another, in whatever
      order, ends within a number of deliveries fixed at the start, and then every record has a
      counterpart with the same digest. */
  lemma {:induction false} LoopsDieOut(cfg: Config, st: State, steps: seq<Step>)
    requires Settled(cfg.tables) && Inv(cfg, st) && LegalRun(cfg, st, steps) && TakingRun(cfg, st, steps)
    ensures |steps| + ToDo(cfg, Run(cfg, st, steps)) <= ToDo(cfg, st)
    ensures Run(cfg, st, steps).Quiet() ==> Converged(cfg, Run(cfg, st, steps).world)
    decreases |steps|
  {
    Convergence(cfg, st, steps);
    if steps != [] {
      TakingPays(cfg, st, steps[0]);
      DeliveryKeepsInv(cfg, st, steps[0].system, steps[0].id, steps[0].again, steps[0].amb);
      LoopsDieOut(cfg, Next(cfg, st, steps[0]), steps[1..]);
    }
  }
}

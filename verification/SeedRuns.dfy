/** Runs in which users keep natural keys present, unique per side and stable: no duplicates in
    any of them, and what a bulk seed in both directions leaves behind. */
module SeedRuns {
  import opened Canonical
  import opened Mapping
  import opened IdMap
  import opened Connector
  import opened Reconciler
  import opened Protocol
  import opened SyncRuns
  import opened NaturalKeys

  /** Keys are in order, stored values are carried, and a field merge may be trusted with every key. */
  ghost predicate Orderly(cfg: Config, w: World) {
    && KeysOk(cfg, w) && AllCarried(cfg.tables, w)
    && AllSafe(cfg, SideKeys(cfg, w, Salesforce)) && AllSafe(cfg, SideKeys(cfg, w, Hubspot))
  }

  ghost predicate AllSafe(cfg: Config, keys: map<Id, Option<string>>) {
    forall id :: id in keys ==> SafeKey(cfg, keys[id])
  }

  lemma SafeWith(cfg: Config, keys: map<Id, Option<string>>, id: Id, key: Option<string>)
    requires AllSafe(cfg, keys) && SafeKey(cfg, key)
    ensures AllSafe(cfg, keys[id := key])
  {
  }

  /** A user stores values that both systems carry, never changes a record's key and never gives a
      new record the key of another. */
  ghost predicate Disciplined(cfg: Config, st: State, step: Step) {
    match step
    case Deliver(s, _, _, amb) => Supplied(st.world, Other(s), amb)
    case UserWrite(s, id, values, _) =>
      var keys, key := SideKeys(cfg, st.world, s), KeyFor(cfg, ToCanonical(cfg.tables, s, values));
      Admissible(cfg.tables, ToCanonical(cfg.tables, s, values)) && key.Some? && SafeKey(cfg, key) &&
      if id in keys then keys[id] == key else forall x :: x in keys ==> keys[x] != key
  }

  ghost predicate DisciplinedRun(cfg: Config, st: State, steps: seq<Step>)
    decreases |steps|
  {
    steps == [] || (Disciplined(cfg, st, steps[0]) && DisciplinedRun(cfg, Next(cfg, st, steps[0]), steps[1..]))
  }

  lemma GrownKeysFile(t: LinkTable, sf: map<Id, Option<string>>, hs: map<Id, Option<string>>,
                      sf': map<Id, Option<string>>, hs': map<Id, Option<string>>)
    requires TableKeyed(t, sf, hs)
    requires forall x :: x in sf ==> x in sf' && sf'[x] == sf[x]
    requires forall x :: x in hs ==> x in hs' && hs'[x] == hs[x]
    ensures TableKeyed(t, sf', hs')
  {
    forall c | c in t.links ensures LinkKeyed(sf', hs', t.links[c]) {
      assert LinkKeyed(sf, hs, t.links[c]);
    }
  }

  lemma UserKeys(cfg: Config, st: State, s: SystemId, id: Id, values: Fields, at: Time)
    ensures var w, after := st.world, ApplyUser(st, s, id, values, at).world;
            && SideKeys(cfg, after, s) == SideKeys(cfg, w, s)[id := KeyFor(cfg, ToCanonical(cfg.tables, s, values))]
            && SideKeys(cfg, after, Other(s)) == SideKeys(cfg, w, Other(s))
            && after.table == w.table
  {
    UserKeyMap(cfg, st.world.Side(s), s, id, values, at);
  }

  lemma UserKeyMap(cfg: Config, crm: Crm, s: SystemId, id: Id, values: Fields, at: Time)
    ensures KeyMap(cfg, s, UserStores(crm, id, values, at))
            == KeyMap(cfg, s, crm)[id := KeyFor(cfg, ToCanonical(cfg.tables, s, values))]
  {
  }

  lemma UserKeepsKeys(cfg: Config, st: State, s: SystemId, id: Id, values: Fields, at: Time)
    requires Orderly(cfg, st.world) && Disciplined(cfg, st, UserWrite(s, id, values, at))
    ensures Orderly(cfg, ApplyUser(st, s, id, values, at).world)
  {
    var w, after := st.world, ApplyUser(st, s, id, values, at).world;
    UserUnsettlesOne(cfg, st, s, id, values, at);
    UserKeys(cfg, st, s, id, values, at);
    UserCarries(cfg.tables, st, s, id, values, at);
    UniqueWith(SideKeys(cfg, w, s), id, KeyFor(cfg, ToCanonical(cfg.tables, s, values)));
    SafeWith(cfg, SideKeys(cfg, w, s), id, KeyFor(cfg, ToCanonical(cfg.tables, s, values)));
    GrownKeysFile(w.table, KeyMap(cfg, Salesforce, w.sf), KeyMap(cfg, Hubspot, w.hs),
                  KeyMap(cfg, Salesforce, after.sf), KeyMap(cfg, Hubspot, after.hs));
  }

  /** Whatever the outcome, a reconciliation keeps the discipline. */
  lemma ReconcileAnyKeepsKeys(cfg: Config, w: World, source: Record, amb: Ambient)
    requires Settled(cfg.tables)
    requires Orderly(cfg, w) && Current(cfg, w, source) && FreshIds(w, Other(source.source), amb)
    ensures Ready(cfg, w, source, amb) && SafeKey(cfg, KeyFor(cfg, source.fields)) && Orderly(cfg, Reconcile(cfg, w, source, amb).0)
  {
    KeysMatchOk(cfg, w, source);
    OwnKeySafe(cfg, w, source);
    ReconcileIsStep(cfg, w, source, amb);
    if Decide(cfg, w, source, amb.newCid).Write? {
      ReconcileKeepsKeys(cfg, w, source, amb);
      SafeWith(cfg, SideKeys(cfg, w, Other(source.source)), TargetOf(Decide(cfg, w, source, amb.newCid), amb), KeyFor(cfg, source.fields));
    }
  }

  lemma OwnKeySafe(cfg: Config, w: World, source: Record)
    requires Orderly(cfg, w) && Current(cfg, w, source)
    ensures SafeKey(cfg, KeyFor(cfg, source.fields))
  {
    assert AllSafe(cfg, SideKeys(cfg, w, source.source));
    assert SideKeys(cfg, w, source.source)[source.sourceId] == KeyFor(cfg, source.fields);
  }

  lemma DeliveryKeepsKeys(cfg: Config, st: State, s: SystemId, id: Id, again: bool, amb: Ambient)
    requires Settled(cfg.tables) && Orderly(cfg, st.world) && Supplied(st.world, Other(s), amb)
    ensures Legal(cfg, st, Deliver(s, id, again, amb))
    ensures Orderly(cfg, ApplyDelivery(cfg, st, s, id, again, amb).world)
  {
    if id in st.world.Side(s).records {
      var source := Snapshot(cfg.tables, s, st.world.Side(s), id);
      if amb.fault == Rejects {
        KeysMatchOk(cfg, st.world, source);
        RejectedChangesNothing(cfg, st.world, source, amb);
      } else {
        ReconcileAnyKeepsKeys(cfg, st.world, source, amb);
      }
    }
  }

  /** Every disciplined run is legal -- the match check always passes -- and each side holds at
      most one record per key at every point of it. */
  lemma {:induction false} NoDuplicates(cfg: Config, st: State, steps: seq<Step>)
    requires Settled(cfg.tables) && Orderly(cfg, st.world) && DisciplinedRun(cfg, st, steps)
    ensures LegalRun(cfg, st, steps) && Orderly(cfg, Run(cfg, st, steps).world)
    decreases |steps|
  {
    if steps != [] {
      match steps[0]
      case UserWrite(s, id, values, at) =>
        UserKeepsKeys(cfg, st, s, id, values, at);
        NoDuplicates(cfg, Next(cfg, st, steps[0]), steps[1..]);
      case Deliver(s, id, again, amb) =>
        DeliveryKeepsKeys(cfg, st, s, id, again, amb);
        NoDuplicates(cfg, Next(cfg, st, steps[0]), steps[1..]);
    }
  }

  // ----- seeding -----

  /** Its identifiers are new and it is not refused, for a blank required field say. */
  predicate SeedStepOk(cfg: Config, w: World, s: SystemId, id: Id, amb: Ambient) {
    match Peek(cfg, w, s, id)
    case None => true
    case Some(source) => FreshIds(w, Other(s), amb) && !Reconcile(cfg, w, source, amb).1.Refused?
  }

  /** Reconciling the listed records of one system one after another. */
  function SeedPass(cfg: Config, w: World, s: SystemId, ids: seq<Id>, ambs: seq<Ambient>): World
    requires |ids| == |ambs|
    decreases |ids|
  {
    if ids == [] then w else SeedPass(cfg, ReconcileNow(cfg, w, s, ids[0], ambs[0]), s, ids[1..], ambs[1..])
  }

  predicate SeedOk(cfg: Config, w: World, s: SystemId, ids: seq<Id>, ambs: seq<Ambient>)
    requires |ids| == |ambs|
    decreases |ids|
  {
    ids == [] || (SeedStepOk(cfg, w, s, ids[0], ambs[0])
                  && SeedOk(cfg, ReconcileNow(cfg, w, s, ids[0], ambs[0]), s, ids[1..], ambs[1..]))
  }

  function KeySet(cfg: Config, w: World, s: SystemId): set<Option<string>> {
    SideKeys(cfg, w, s).Values
  }

  /** What seeding some records changes: they are synced, their side keeps its keys, the other
      side gains at most theirs. */
  ghost predicate Seeded(cfg: Config, w: World, after: World, s: SystemId, ids: set<Id>) {
    && Orderly(cfg, after)
    && Unsynced(cfg, after, s) <= Unsynced(cfg, w, s) - ids
    && Unsynced(cfg, after, Other(s)) <= Unsynced(cfg, w, Other(s))
    && SideKeys(cfg, after, s) == SideKeys(cfg, w, s)
    && KeySet(cfg, w, Other(s)) <= KeySet(cfg, after, Other(s)) <= KeySet(cfg, w, Other(s)) + KeySet(cfg, w, s)
  }

  lemma SeededKeys(cfg: Config, w: World, source: Record, amb: Ambient)
    requires Settled(cfg.tables) && SafeKey(cfg, KeyFor(cfg, source.fields))
    requires KeysOk(cfg, w) && Ready(cfg, w, source, amb)
    requires Decide(cfg, w, source, amb.newCid).Write?
    ensures var s, after := source.source, Reconcile(cfg, w, source, amb).0;
            && SideKeys(cfg, after, s) == SideKeys(cfg, w, s)
            && KeySet(cfg, w, Other(s)) <= KeySet(cfg, after, Other(s)) <= KeySet(cfg, w, Other(s)) + KeySet(cfg, w, s)
  {
    ReconcileKeepsKeys(cfg, w, source, amb);
    TargetKey(cfg, w, source, amb);
    var d := Decide(cfg, w, source, amb.newCid);
    AddedValue(SideKeys(cfg, w, Other(source.source)), TargetOf(d, amb), KeyFor(cfg, source.fields));
    assert source.sourceId in SideKeys(cfg, w, source.source);
  }

  lemma SeedOne(cfg: Config, w: World, s: SystemId, id: Id, amb: Ambient)
    requires Settled(cfg.tables) && Orderly(cfg, w) && SeedStepOk(cfg, w, s, id, amb)
    ensures Seeded(cfg, w, ReconcileNow(cfg, w, s, id, amb), s, {id})
  {
    if id in w.Side(s).records {
      var source := Snapshot(cfg.tables, s, w.Side(s), id);
      ReconcileAnyKeepsKeys(cfg, w, source, amb);
      DeliverySettles(cfg, w, source, amb);
      if Decide(cfg, w, source, amb.newCid).Write? {
        SeededKeys(cfg, w, source, amb);
      } else {
        ReconcileIsStep(cfg, w, source, amb);
      }
    }
  }

  lemma AddedValue(m: map<Id, Option<string>>, id: Id, key: Option<string>)
    requires id in m ==> m[id] == key
    ensures m.Values <= m[id := key].Values <= m.Values + {key}
  {
    forall v | v in m.Values ensures v in m[id := key].Values {
      var x :| x in m && m[x] == v;
      assert m[id := key][x] == v;
    }
  }

  lemma SeededAgain(cfg: Config, w: World, mid: World, after: World, s: SystemId, a: set<Id>, b: set<Id>)
    requires Seeded(cfg, w, mid, s, a) && Seeded(cfg, mid, after, s, b)
    ensures Seeded(cfg, w, after, s, a + b)
  {
  }

  lemma SeededNothing(cfg: Config, w: World, s: SystemId)
    requires Orderly(cfg, w)
    ensures Seeded(cfg, w, w, s, ToSet([]))
  {
  }

  lemma FirstAndRest(ids: seq<Id>)
    requires ids != []
    ensures ToSet(ids) == {ids[0]} + ToSet(ids[1..])
  {
  }

  /** A pass over some records of one side syncs them all. */
  lemma {:induction false} PassSettles(cfg: Config, w: World, s: SystemId, ids: seq<Id>, ambs: seq<Ambient>)
    requires Settled(cfg.tables) && |ids| == |ambs| && Orderly(cfg, w) && SeedOk(cfg, w, s, ids, ambs)
    ensures Seeded(cfg, w, SeedPass(cfg, w, s, ids, ambs), s, ToSet(ids))
    decreases |ids|
  {
    if ids == [] {
      SeededNothing(cfg, w, s);
    } else {
      var mid := ReconcileNow(cfg, w, s, ids[0], ambs[0]);
      SeedOne(cfg, w, s, ids[0], ambs[0]);
      PassSettles(cfg, mid, s, ids[1..], ambs[1..]);
      FirstAndRest(ids);
      SeededAgain(cfg, w, mid, SeedPass(cfg, w, s, ids, ambs), s, {ids[0]}, ToSet(ids[1..]));
    }
  }

  lemma {:induction false} RepeatWritesNothing(cfg: Config, w: World, s: SystemId, ids: seq<Id>, ambs: seq<Ambient>)
    requires |ids| == |ambs| && Unsynced(cfg, w, s) == {}
    ensures SeedPass(cfg, w, s, ids, ambs) == w
  {
    if ids != [] {
      if ids[0] in w.Side(s).records {
        assert ids[0] !in Unsynced(cfg, w, s);
        SyncedIsEcho(cfg, w, Snapshot(cfg.tables, s, w.Side(s), ids[0]), ambs[0]);
      }
      RepeatWritesNothing(cfg, w, s, ids[1..], ambs[1..]);
    }
  }

  lemma SyncedKeySets(cfg: Config, w: World, s: SystemId)
    requires KeysOk(cfg, w) && Unsynced(cfg, w, s) == {}
    ensures KeySet(cfg, w, s) <= KeySet(cfg, w, Other(s))
  {
    var m, n := SideKeys(cfg, w, s), SideKeys(cfg, w, Other(s));
    forall v | v in m.Values ensures v in n.Values {
      var id :| id in m && m[id] == v;
      assert id !in Unsynced(cfg, w, s);
      var link := w.table.links[FindBySource(w.table, s, id).value];
      assert LinkKeyed(KeyMap(cfg, Salesforce, w.sf), KeyMap(cfg, Hubspot, w.hs), link);
      assert n[link.ids[Other(s)]] == v;
    }
  }

  /** What a seed leaves: keys in order, every record paired and in agreement, nothing owed, and
      on both sides exactly the keys that either side had. */
  ghost predicate SeededBoth(cfg: Config, w: World, after: World) {
    && Orderly(cfg, after) && Converged(cfg, after)
    && Unsynced(cfg, after, Salesforce) == {} && Unsynced(cfg, after, Hubspot) == {}
    && KeySet(cfg, after, Salesforce) == KeySet(cfg, w, Salesforce) + KeySet(cfg, w, Hubspot)
    && KeySet(cfg, after, Hubspot) == KeySet(cfg, w, Salesforce) + KeySet(cfg, w, Hubspot)
  }

  /** After the pass in the second direction nothing is owed either way. */
  lemma SecondPass(cfg: Config, w: World, w1: World, w2: World, sfIds: set<Id>, hsIds: set<Id>)
    requires Seeded(cfg, w, w1, Salesforce, sfIds) && w.sf.records.Keys <= sfIds
    requires Seeded(cfg, w1, w2, Hubspot, hsIds) && w1.hs.records.Keys <= hsIds
    ensures Orderly(cfg, w2) && Unsynced(cfg, w2, Salesforce) == {} && Unsynced(cfg, w2, Hubspot) == {}
  {
    assert Unsynced(cfg, w1, Salesforce) == {};
    assert Unsynced(cfg, w2, Hubspot) == {};
  }

  /** A settled world holds the same keys on both sides, so the two passes leave the union. */
  lemma UnionOfKeys(cfg: Config, w: World, w1: World, w2: World, sfIds: set<Id>, hsIds: set<Id>)
    requires Seeded(cfg, w, w1, Salesforce, sfIds) && Seeded(cfg, w1, w2, Hubspot, hsIds)
    requires KeySet(cfg, w2, Salesforce) == KeySet(cfg, w2, Hubspot)
    ensures KeySet(cfg, w2, Salesforce) == KeySet(cfg, w, Salesforce) + KeySet(cfg, w, Hubspot)
  {
  }

  lemma SameKeySets(cfg: Config, w: World)
    requires KeysOk(cfg, w) && Unsynced(cfg, w, Salesforce) == {} && Unsynced(cfg, w, Hubspot) == {}
    ensures KeySet(cfg, w, Salesforce) == KeySet(cfg, w, Hubspot)
  {
    SyncedKeySets(cfg, w, Salesforce);
    SyncedKeySets(cfg, w, Hubspot);
  }

  lemma KeysOkConverged(cfg: Config, w: World)
    requires KeysOk(cfg, w) && Unsynced(cfg, w, Salesforce) == {} && Unsynced(cfg, w, Hubspot) == {}
    ensures Converged(cfg, w)
  {
    SyncedPairsAgree(cfg, w);
  }

  lemma QuietIsSynced(cfg: Config, st: State)
    requires Inv(cfg, st) && st.Quiet()
    ensures Unsynced(cfg, st.world, Salesforce) == {} && Unsynced(cfg, st.world, Hubspot) == {}
  {
    assert forall id :: id in Unsynced(cfg, st.world, Salesforce) ==> id in st.Pending(Salesforce);
    assert forall id :: id in Unsynced(cfg, st.world, Hubspot) ==> id in st.Pending(Hubspot);
  }

  /** A disciplined run that goes quiet leaves the same keys on both sides, one record for each, and
      the two records of a key paired and in agreement. */
  lemma DisciplinedConverges(cfg: Config, st: State, steps: seq<Step>)
    requires Settled(cfg.tables) && Inv(cfg, st) && Orderly(cfg, st.world) && DisciplinedRun(cfg, st, steps)
    ensures var end := Run(cfg, st, steps);
            end.Quiet() ==>
              && Converged(cfg, end.world) && Orderly(cfg, end.world)
              && KeySet(cfg, end.world, Salesforce) == KeySet(cfg, end.world, Hubspot)
  {
    var end := Run(cfg, st, steps);
    NoDuplicates(cfg, st, steps);
    RunKeepsInv(cfg, st, steps);
    if end.Quiet() {
      QuietIsSynced(cfg, end);
      SameKeySets(cfg, end.world);
      KeysOkConverged(cfg, end.world);
    }
  }

  /** Seeding once per direction pairs every record and leaves exactly the union of the keys on
      both sides, one record each. */
  lemma SeedBothWays(cfg: Config, w: World, w1: World, w2: World,
                     sfIds: seq<Id>, sfAmbs: seq<Ambient>, hsIds: seq<Id>, hsAmbs: seq<Ambient>)
    requires Settled(cfg.tables) && Orderly(cfg, w)
    requires |sfIds| == |sfAmbs| && |hsIds| == |hsAmbs|
    requires SeedOk(cfg, w, Salesforce, sfIds, sfAmbs) && w.sf.records.Keys <= ToSet(sfIds)
    requires w1 == SeedPass(cfg, w, Salesforce, sfIds, sfAmbs)
    requires SeedOk(cfg, w1, Hubspot, hsIds, hsAmbs) && w1.hs.records.Keys <= ToSet(hsIds)
    requires w2 == SeedPass(cfg, w1, Hubspot, hsIds, hsAmbs)
    ensures SeededBoth(cfg, w, w2)
  {
    assert Seeded(cfg, w, w1, Salesforce, ToSet(sfIds)) by {
      PassSettles(cfg, w, Salesforce, sfIds, sfAmbs);
    }
    assert Seeded(cfg, w1, w2, Hubspot, ToSet(hsIds)) by {
      PassSettles(cfg, w1, Hubspot, hsIds, hsAmbs);
    }
    SecondPass(cfg, w, w1, w2, ToSet(sfIds), ToSet(hsIds));
    SameKeySets(cfg, w2);
    UnionOfKeys(cfg, w, w1, w2, ToSet(sfIds), ToSet(hsIds));
    KeysOkConverged(cfg, w2);
  }

  /** After that, seeding either side again -- any records, in any order -- changes nothing. */
  lemma SeedAgainChangesNothing(cfg: Config, w: World, w2: World, s: SystemId, ids: seq<Id>, ambs: seq<Ambient>)
    requires SeededBoth(cfg, w, w2) && |ids| == |ambs|
    ensures SeedPass(cfg, w2, s, ids, ambs) == w2
  {
    assert Unsynced(cfg, w2, s) == {} by {
      assert s == Salesforce || s == Hubspot;
    }
    RepeatWritesNothing(cfg, w2, s, ids, ambs);
  }
}

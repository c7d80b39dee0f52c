/** Seeding as the migration engine does it: pages are fetched first, every record is previewed before
    it is reconciled, and ambiguous ones are left out. With keys in order it comes to the same as
    reconciling the listed records one after another. */
module MigratedSeed {
  import opened Canonical
  import opened Mapping
  import opened IdMap
  import opened Connector
  import opened Reconciler
  import opened Protocol
  import opened NaturalKeys
  import opened SeedRuns
  import opened Migration

  // ----- seeding from the other end -----

  lemma {:induction false} SeedLast(cfg: Config, w: World, s: SystemId, ids: seq<Id>, ambs: seq<Ambient>)
    requires |ids| == |ambs| && ids != []
    ensures var n := |ids| - 1;
            && SeedPass(cfg, w, s, ids, ambs) == ReconcileNow(cfg, SeedPass(cfg, w, s, ids[..n], ambs[..n]), s, ids[n], ambs[n])
            && (SeedOk(cfg, w, s, ids, ambs) ==>
                  SeedOk(cfg, w, s, ids[..n], ambs[..n])
                  && SeedStepOk(cfg, SeedPass(cfg, w, s, ids[..n], ambs[..n]), s, ids[n], ambs[n]))
    decreases |ids|
  {
    var n := |ids| - 1;
    if n > 0 {
      var mid := ReconcileNow(cfg, w, s, ids[0], ambs[0]);
      SeedLast(cfg, mid, s, ids[1..], ambs[1..]);
      assert ids[1..][..n - 1] == ids[..n][1..] && ambs[1..][..n - 1] == ambs[..n][1..];
      SeedFirst(cfg, w, s, ids[..n], ambs[..n]);
    }
  }

  lemma SeedFirst(cfg: Config, w: World, s: SystemId, ids: seq<Id>, ambs: seq<Ambient>)
    requires |ids| == |ambs| && ids != []
    ensures var mid := ReconcileNow(cfg, w, s, ids[0], ambs[0]);
            && SeedPass(cfg, w, s, ids, ambs) == SeedPass(cfg, mid, s, ids[1..], ambs[1..])
            && (SeedOk(cfg, w, s, ids, ambs) <==> SeedStepOk(cfg, w, s, ids[0], ambs[0]) && SeedOk(cfg, mid, s, ids[1..], ambs[1..]))
  {
  }

  // ----- one record -----

  /** With keys in order no preview is ambiguous. */
  lemma NeverAmbiguous(cfg: Config, w: World, source: Record)
    requires KeysOk(cfg, w)
    ensures Preview(cfg, w, source).action != AmbiguousMatch
  {
    var key := KeyFor(cfg, source.fields);
    if key.Some? { AtMostOne(cfg, w, Other(source.source), key.value); }
    AmbiguousOnly(cfg, w, source);
  }

  lemma AmbiguousOnly(cfg: Config, w: World, source: Record)
    ensures Preview(cfg, w, source).action == AmbiguousMatch ==>
              KeyFor(cfg, source.fields).Some? && |Matches(cfg, w, Other(source.source), KeyFor(cfg, source.fields).value)| > 1
  {
    var cid := KnownLink(cfg, w, source);
    var link := StoredLink(w, cid);
    var target := LinkedTarget(cfg, w, Other(source.source), link);
    if target.Some? {
      ComparesOnly(cfg, source, cid, link, target.value, false);
    } else if KeyFor(cfg, source.fields).Some? {
      var found := Matches(cfg, w, Other(source.source), KeyFor(cfg, source.fields).value);
      if |found| == 1 {
        ComparesOnly(cfg, source, cid, link, Snapshot(cfg.tables, Other(source.source), w.Side(Other(source.source)), Only(found)), true);
      }
    }
  }

  lemma ComparesOnly(cfg: Config, source: Record, cid: Option<Cid>, link: Option<Link>, target: Record, matched: bool)
    ensures ComparePlan(cfg, source, cid, link, target, matched).action != AmbiguousMatch
  {
  }

  lemma AtMostOne(cfg: Config, w: World, s: SystemId, key: string)
    requires KeysOk(cfg, w)
    ensures |Matches(cfg, w, s, key)| <= 1
  {
    var found, m := Matches(cfg, w, s, key), SideKeys(cfg, w, s);
    assert Unique(m);
    forall a, b | a in found && b in found ensures a == b {
      assert m[a] == m[b] == Some(key);
    }
    if found != {} {
      var a :| a in found;
      SubsetSize(found, {a});
    }
  }

  /** So a real run reconciles the record. */
  lemma MigratesAsNow(cfg: Config, w: World, r: Record, env: RecordEnv)
    requires KeysOk(cfg, w) && Current(cfg, w, r) && !env.down && SeedStepOk(cfg, w, r.source, r.sourceId, env.amb)
    ensures MigrateRecord(cfg, false, w, r, env).0 == ReconcileNow(cfg, w, r.source, r.sourceId, env.amb)
    ensures MigrateRecord(cfg, false, w, r, env).1.ok
  {
    NeverAmbiguous(cfg, w, r);
  }

  /** Reconciling one record leaves the other records of its side alone. */
  lemma OthersOfSide(cfg: Config, w: World, s: SystemId, id: Id, amb: Ambient)
    requires Settled(cfg.tables) && Orderly(cfg, w) && SeedStepOk(cfg, w, s, id, amb)
    ensures Orderly(cfg, ReconcileNow(cfg, w, s, id, amb))
    ensures Kept(w.Side(s), ReconcileNow(cfg, w, s, id, amb).Side(s), id)
  {
    if id in w.Side(s).records {
      var source := Snapshot(cfg.tables, s, w.Side(s), id);
      ReconcileAnyKeepsKeys(cfg, w, source, amb);
      ReconcileIsStep(cfg, w, source, amb);
      var d := Decide(cfg, w, source, amb.newCid);
      if d.Write? { StepMoves(cfg, w, Reconcile(cfg, w, source, amb).0, source, d, TargetOf(d, amb), amb); }
    }
  }

  // ----- a whole listing -----

  /** The identifiers and clocks that a run meets, record by record. */
  function AmbsOf(envs: nat -> RecordEnv, n: nat): seq<Ambient> { seq(n, i requires 0 <= i => envs(i).amb) }

  /** A run's records, read in pages from the listing `ids`, in surroundings that can be reached. */
  ghost predicate ListedRecords(cfg: Config, s: SystemId, envs: nat -> RecordEnv, w: World, ids: seq<Id>, records: seq<Record>) {
    && |records| == |ids| && (forall i, j :: 0 <= i < j < |ids| ==> ids[i] != ids[j])
    && (forall i :: 0 <= i < |ids| ==> records[i].source == s && records[i].sourceId == ids[i] && ids[i] in w.Side(s).records)
    && (forall i :: 0 <= i < |ids| ==> !envs(i).down)
  }

  function Begin(w: World): RunState { RunState(w, NOTHING_READ, []) }

  function After(cfg: Config, envs: nat -> RecordEnv, w: World, records: seq<Record>): RunState {
    HandleAll(HandlerFor(cfg, false, envs), Begin(w), records)
  }

  /** What is known once the first `k` records have been handled. */
  ghost predicate SeededTo(cfg: Config, s: SystemId, envs: nat -> RecordEnv, w: World, ids: seq<Id>, records: seq<Record>, k: nat)
    requires k <= |records| == |ids|
  {
    var st := After(cfg, envs, w, records[..k]);
    && st.world == SeedPass(cfg, w, s, ids[..k], AmbsOf(envs, k)) && Orderly(cfg, st.world)
    && st.tally.read == k && st.tally.errors == 0
    && forall i :: k <= i < |ids| ==> Untouched(w.Side(s), st.world.Side(s), ids[i])
  }

  predicate Untouched(before: Crm, after: Crm, id: Id) {
    id in before.records && id in after.records && after.records[id] == before.records[id]
  }

  /** A record read when its page was fetched is still what its system holds when it is handled. */
  lemma StillCurrent(cfg: Config, s: SystemId, w: World, page: World, now: World, r: Record)
    requires r.source == s && SnapshotOf(cfg, s, page.Side(s), r)
    requires Untouched(w.Side(s), page.Side(s), r.sourceId) && Untouched(w.Side(s), now.Side(s), r.sourceId)
    ensures Current(cfg, now, r)
  {
  }

  lemma NextSeeded(cfg: Config, s: SystemId, envs: nat -> RecordEnv, w: World, ids: seq<Id>, records: seq<Record>, k: nat)
    requires Settled(cfg.tables) && ListedRecords(cfg, s, envs, w, ids, records) && k < |ids|
    requires SeededTo(cfg, s, envs, w, ids, records, k)
    requires Current(cfg, After(cfg, envs, w, records[..k]).world, records[k])
    requires SeedStepOk(cfg, SeedPass(cfg, w, s, ids[..k], AmbsOf(envs, k)), s, ids[k], envs(k).amb)
    ensures SeededTo(cfg, s, envs, w, ids, records, k + 1)
  {
    var st, r := After(cfg, envs, w, records[..k]), records[k];
    MigratesAsNow(cfg, st.world, r, envs(k));
    OthersOfSide(cfg, st.world, s, ids[k], envs(k).amb);
    OneMoreHandled(cfg, envs, w, records, k);
    OneMoreSeeded(cfg, s, envs, w, ids, k);
    var end := After(cfg, envs, w, records[..k + 1]);
    forall i | k + 1 <= i < |ids| ensures Untouched(w.Side(s), end.world.Side(s), ids[i]) {
      assert Untouched(w.Side(s), st.world.Side(s), ids[i]) && ids[i] != ids[k];
    }
  }

  lemma OneMoreHandled(cfg: Config, envs: nat -> RecordEnv, w: World, records: seq<Record>, k: nat)
    requires k < |records| && After(cfg, envs, w, records[..k]).tally.read == k
    ensures var st, end := After(cfg, envs, w, records[..k]), After(cfg, envs, w, records[..k + 1]);
            var (world, result) := MigrateRecord(cfg, false, st.world, records[k], envs(k));
            end.world == world && end.tally == Count(st.tally, result)
  {
    assert records[..k + 1][..k] == records[..k];
  }

  lemma OneMoreSeeded(cfg: Config, s: SystemId, envs: nat -> RecordEnv, w: World, ids: seq<Id>, k: nat)
    requires k < |ids|
    ensures SeedPass(cfg, w, s, ids[..k + 1], AmbsOf(envs, k + 1))
            == ReconcileNow(cfg, SeedPass(cfg, w, s, ids[..k], AmbsOf(envs, k)), s, ids[k], envs(k).amb)
  {
    SeedLast(cfg, w, s, ids[..k + 1], AmbsOf(envs, k + 1));
    assert ids[..k + 1][..k] == ids[..k] && AmbsOf(envs, k + 1)[..k] == AmbsOf(envs, k);
  }

  /** The seeding hypotheses hold along every beginning of the listing. */
  lemma {:induction false} SeedOkUpTo(cfg: Config, s: SystemId, envs: nat -> RecordEnv, w: World, ids: seq<Id>, k: nat)
    requires k <= |ids| && SeedOk(cfg, w, s, ids, AmbsOf(envs, |ids|))
    ensures SeedOk(cfg, w, s, ids[..k], AmbsOf(envs, k))
    decreases |ids| - k
  {
    if k == |ids| {
      assert ids[..k] == ids;
    } else {
      SeedOkUpTo(cfg, s, envs, w, ids, k + 1);
      SeedLast(cfg, w, s, ids[..k + 1], AmbsOf(envs, k + 1));
      assert ids[..k + 1][..k] == ids[..k] && AmbsOf(envs, k + 1)[..k] == AmbsOf(envs, k);
    }
  }

  lemma StepOkAt(cfg: Config, s: SystemId, envs: nat -> RecordEnv, w: World, ids: seq<Id>, k: nat)
    requires k < |ids| && SeedOk(cfg, w, s, ids, AmbsOf(envs, |ids|))
    ensures SeedStepOk(cfg, SeedPass(cfg, w, s, ids[..k], AmbsOf(envs, k)), s, ids[k], envs(k).amb)
  {
    SeedOkUpTo(cfg, s, envs, w, ids, k + 1);
    SeedLast(cfg, w, s, ids[..k + 1], AmbsOf(envs, k + 1));
    assert ids[..k + 1][..k] == ids[..k] && AmbsOf(envs, k + 1)[..k] == AmbsOf(envs, k);
  }

  lemma {:induction false} SeedsPrefix(cfg: Config, s: SystemId, envs: nat -> RecordEnv, w: World, ids: seq<Id>, records: seq<Record>, k: nat)
    requires Settled(cfg.tables) && Orderly(cfg, w) && ListedRecords(cfg, s, envs, w, ids, records) && k <= |ids|
    requires ReadInPages(cfg, s, HandlerFor(cfg, false, envs), Begin(w), records)
    requires SeedOk(cfg, w, s, ids, AmbsOf(envs, |ids|))
    ensures SeededTo(cfg, s, envs, w, ids, records, k)
    decreases k
  {
    if k > 0 {
      var n := k - 1;
      SeedsPrefix(cfg, s, envs, w, ids, records, n);
      SeedsPrefix(cfg, s, envs, w, ids, records, PageStart(n));
      PageIsCurrent(cfg, s, envs, w, ids, records, n);
      StepOkAt(cfg, s, envs, w, ids, n);
      NextSeeded(cfg, s, envs, w, ids, records, n);
    }
  }

  lemma PageIsCurrent(cfg: Config, s: SystemId, envs: nat -> RecordEnv, w: World, ids: seq<Id>, records: seq<Record>, n: nat)
    requires ListedRecords(cfg, s, envs, w, ids, records) && n < |ids|
    requires ReadInPages(cfg, s, HandlerFor(cfg, false, envs), Begin(w), records)
    requires SeededTo(cfg, s, envs, w, ids, records, n) && SeededTo(cfg, s, envs, w, ids, records, PageStart(n))
    ensures Current(cfg, After(cfg, envs, w, records[..n]).world, records[n])
  {
    assert ReadInPage(cfg, s, HandlerFor(cfg, false, envs), Begin(w), records, n);
    StillCurrent(cfg, s, w, After(cfg, envs, w, records[..PageStart(n)]).world, After(cfg, envs, w, records[..n]).world, records[n]);
  }

  /** A real run over a whole listing, as the paging loop performs it, leaves the world of the seeding
      pass, and no record fails. */
  lemma MigrationSeeds(cfg: Config, s: SystemId, envs: nat -> RecordEnv, w: World, st: RunState, records: seq<Record>)
    requires Settled(cfg.tables) && Orderly(cfg, w) && WellFormed(w.Side(s)) && forall i :: 0 <= i < |records| ==> !envs(i).down
    requires RunSoFar(s, HandlerFor(cfg, false, envs), Begin(w), st, records) && |records| == |w.Side(s).order|
    requires ReadInPages(cfg, s, HandlerFor(cfg, false, envs), Begin(w), records)
    requires SeedOk(cfg, w, s, w.Side(s).order, AmbsOf(envs, |w.Side(s).order|))
    ensures st.world == SeedPass(cfg, w, s, w.Side(s).order, AmbsOf(envs, |w.Side(s).order|))
    ensures st.tally.errors == 0
  {
    RunIsListing(cfg, s, envs, w, st, records);
    SeedsPrefix(cfg, s, envs, w, w.Side(s).order, records, |records|);
    WholeSeeded(cfg, s, envs, w, w.Side(s).order, st, records);
  }

  lemma RunIsListing(cfg: Config, s: SystemId, envs: nat -> RecordEnv, w: World, st: RunState, records: seq<Record>)
    requires WellFormed(w.Side(s)) && |records| == |w.Side(s).order| && forall i :: 0 <= i < |records| ==> !envs(i).down
    requires RunSoFar(s, HandlerFor(cfg, false, envs), Begin(w), st, records)
    ensures ListedRecords(cfg, s, envs, w, w.Side(s).order, records)
  {
    assert ListingPrefix(s, w.Side(s).order, records);
  }

  lemma WholeSeeded(cfg: Config, s: SystemId, envs: nat -> RecordEnv, w: World, ids: seq<Id>, st: RunState, records: seq<Record>)
    requires |records| == |ids| && SeededTo(cfg, s, envs, w, ids, records, |records|)
    requires st == HandleAll(HandlerFor(cfg, false, envs), Begin(w), records)
    ensures st.world == SeedPass(cfg, w, s, ids, AmbsOf(envs, |ids|)) && st.tally.errors == 0
  {
    assert records[..|records|] == records && ids[..|records|] == ids;
  }

  /** Migrating once per direction pairs every record and leaves exactly the union of the keys on both
      sides, one record each. */
  lemma MigratedBothWays(cfg: Config, w: World, sfEnvs: nat -> RecordEnv, sf: RunState, sfRecords: seq<Record>,
                         hsEnvs: nat -> RecordEnv, hs: RunState, hsRecords: seq<Record>)
    requires Settled(cfg.tables) && Orderly(cfg, w) && WellFormed(w.sf)
    requires forall i :: 0 <= i < |sfRecords| ==> !sfEnvs(i).down
    requires RunSoFar(Salesforce, HandlerFor(cfg, false, sfEnvs), Begin(w), sf, sfRecords) && |sfRecords| == |w.sf.order|
    requires ReadInPages(cfg, Salesforce, HandlerFor(cfg, false, sfEnvs), Begin(w), sfRecords)
    requires SeedOk(cfg, w, Salesforce, w.sf.order, AmbsOf(sfEnvs, |w.sf.order|))
    requires WellFormed(sf.world.hs) && forall i :: 0 <= i < |hsRecords| ==> !hsEnvs(i).down
    requires RunSoFar(Hubspot, HandlerFor(cfg, false, hsEnvs), Begin(sf.world), hs, hsRecords) && |hsRecords| == |sf.world.hs.order|
    requires ReadInPages(cfg, Hubspot, HandlerFor(cfg, false, hsEnvs), Begin(sf.world), hsRecords)
    requires SeedOk(cfg, sf.world, Hubspot, sf.world.hs.order, AmbsOf(hsEnvs, |sf.world.hs.order|))
    ensures SeededBoth(cfg, w, hs.world)
  {
    MigrationSeeds(cfg, Salesforce, sfEnvs, w, sf, sfRecords);
    PassSettles(cfg, w, Salesforce, w.sf.order, AmbsOf(sfEnvs, |w.sf.order|));
    MigrationSeeds(cfg, Hubspot, hsEnvs, sf.world, hs, hsRecords);
    AllListed(w.sf);
    AllListed(sf.world.hs);
    SeedBothWays(cfg, w, sf.world, hs.world, w.sf.order, AmbsOf(sfEnvs, |w.sf.order|),
                 sf.world.hs.order, AmbsOf(hsEnvs, |sf.world.hs.order|));
  }

  lemma AllListed(crm: Crm)
    requires WellFormed(crm)
    ensures crm.records.Keys <= ToSet(crm.order)
  {
  }

  // ----- migrating again -----

  /** A synced record is migrated without effect, whatever the surroundings. */
  lemma SyncedMigrates(cfg: Config, dry: bool, w: World, r: Record, env: RecordEnv)
    requires Current(cfg, w, r) && Synced(cfg, w, r.source, r.sourceId)
    ensures MigrateRecord(cfg, dry, w, r, env).0 == w
  {
    SyncedIsEcho(cfg, w, r, env.amb);
  }

  /** Handling a record of this world, as it is, leaves the world alone. */
  ghost predicate LeavesAlone(cfg: Config, handle: RecordHandler, w: World, s: SystemId) {
    forall r: Record, n: nat :: r.source == s && SnapshotOf(cfg, s, w.Side(s), r) ==> handle(w, r, n).0 == w
  }

  lemma {:induction false} AgainTo(cfg: Config, handle: RecordHandler, w: World, s: SystemId, st: RunState, records: seq<Record>, k: nat)
    requires LeavesAlone(cfg, handle, w, s) && st.world == w && k <= |records|
    requires forall i :: 0 <= i < |records| ==> records[i].source == s
    requires ReadInPages(cfg, s, handle, st, records)
    ensures HandleAll(handle, st, records[..k]).world == w
    decreases k
  {
    if k > 0 {
      var n := k - 1;
      AgainTo(cfg, handle, w, s, st, records, n);
      AgainTo(cfg, handle, w, s, st, records, PageStart(n));
      assert ReadInPage(cfg, s, handle, st, records, n);
      assert records[..k][..n] == records[..n];
    }
  }

  lemma AgainOne(cfg: Config, dry: bool, w2: World, s: SystemId, r: Record, env: RecordEnv)
    requires Unsynced(cfg, w2, s) == {} && r.source == s && SnapshotOf(cfg, s, w2.Side(s), r)
    ensures MigrateRecord(cfg, dry, w2, r, env).0 == w2
  {
    assert r.sourceId !in Unsynced(cfg, w2, s);
    SyncedMigrates(cfg, dry, w2, r, env);
  }

  /** Once a side is in step, as both are after seeding both ways, migrating it again, in whatever
      surroundings, changes nothing at all. */
  lemma MigratedAgain(cfg: Config, dry: bool, w: World, s: SystemId, envs: nat -> RecordEnv, st: RunState, records: seq<Record>)
    requires Unsynced(cfg, w, s) == {} && forall i :: 0 <= i < |records| ==> records[i].source == s
    requires st.world == w && ReadInPages(cfg, s, HandlerFor(cfg, dry, envs), st, records)
    ensures HandleAll(HandlerFor(cfg, dry, envs), st, records).world == w
  {
    var handle := HandlerFor(cfg, dry, envs);
    forall r: Record, n: nat | r.source == s && SnapshotOf(cfg, s, w.Side(s), r) ensures handle(w, r, n).0 == w {
      AgainOne(cfg, dry, w, s, r, envs(n));
    }
    AgainTo(cfg, handle, w, s, st, records, |records|);
    assert records[..|records|] == records;
  }
}

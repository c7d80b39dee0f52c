/** Concurrent edits of one linked pair: which content survives, and when the order in which the
    two change events are handled does not matter. */
module Confluence {
  import opened Canonical
  import opened Mapping
  import opened Conflict
  import opened ContentHash
  import opened IdMap
  import opened Connector
  import opened Reconciler
  import opened Protocol
  import opened CrashRetry
  import opened SmallWorlds

  /** The current snapshots of the two records of one stored link. */
  ghost predicate Pair(cfg: Config, w: World, a: Record, b: Record) {
    && TableOk(w) && AllCarried(cfg.tables, w) && b.source == Other(a.source)
    && Current(cfg, w, a) && Current(cfg, w, b)
    && Linked(w, a.source, a.sourceId)
    && FindBySource(w.table, b.source, b.sourceId) == FindBySource(w.table, a.source, a.sourceId)
  }

  lemma PairSymmetric(cfg: Config, w: World, a: Record, b: Record)
    requires Pair(cfg, w, a, b)
    ensures Pair(cfg, w, b, a)
  {
  }

  predicate Changed(cfg: Config, w: World, a: Record)
    requires a.sourceId in w.Side(a.source).records
  {
    !Synced(cfg, w, a.source, a.sourceId)
  }

  /** What a delivery of one changed record of a pair resolves to. */
  function Settlement(cfg: Config, w: World, a: Record, b: Record): Fields
    requires b.sourceId in w.Side(b.source).records
  {
    if cfg.readCounterpart && Changed(cfg, w, b) then Resolve(a, b, PolicyOf(cfg)).winner.fields else a.fields
  }

  lemma PairDecision(cfg: Config, w: World, a: Record, b: Record, newCid: Cid)
    requires Pair(cfg, w, a, b) && Changed(cfg, w, a)
    ensures MatchOk(cfg, w, a)
    ensures var d := Decide(cfg, w, a, newCid);
            && (d.Write? ==> d.target == Some(b.sourceId) && d.winner.fields == Settlement(cfg, w, a, b))
            && (!d.Write? ==> d == Refuse(MissingRequired))
  {
    PairLocated(cfg, w, a, b, newCid);
    var c := FindBySource(w.table, a.source, a.sourceId).value;
    SyncedBy(cfg, w, b.source, b.sourceId, c);
    PairWinner(cfg, w, a, b, w.table.links[c]);
    LocatedDecision(cfg, w, a, b, newCid, c);
  }

  lemma LocatedDecision(cfg: Config, w: World, a: Record, b: Record, newCid: Cid, c: Cid)
    requires Current(cfg, w, a) && Changed(cfg, w, a) && FindBySource(w.table, a.source, a.sourceId) == Some(c)
    requires FindOrCreateLink(cfg, w, a, newCid) == Found(c, w.table.links[c]) && b.source == Other(a.source)
    requires b.source in w.table.links[c].ids && w.table.links[c].ids[b.source] == b.sourceId
    ensures var d := Decide(cfg, w, a, newCid);
            && (d.Write? ==> d.target == Some(b.sourceId) && d.winner == Winner(cfg, w, a, w.table.links[c]))
            && (!d.Write? ==> d == Refuse(MissingRequired))
  {
  }

  lemma PairLocated(cfg: Config, w: World, a: Record, b: Record, newCid: Cid)
    requires Pair(cfg, w, a, b)
    ensures var c := FindBySource(w.table, a.source, a.sourceId).value;
            && FindOrCreateLink(cfg, w, a, newCid) == Found(c, w.table.links[c])
            && b.source in w.table.links[c].ids && w.table.links[c].ids[b.source] == b.sourceId
            && b.source in w.table.links[c].hashes
  {
  }

  lemma PairWinner(cfg: Config, w: World, a: Record, b: Record, link: Link)
    requires b.source == Other(a.source) && Current(cfg, w, b)
    requires b.source in link.ids && link.ids[b.source] == b.sourceId && b.source in link.hashes
    requires Changed(cfg, w, b) <==> HashOf(cfg, b.fields) != link.hashes[b.source]
    ensures Winner(cfg, w, a, link).fields == Settlement(cfg, w, a, b)
  {
  }

  /** Delivering one record of a pair leaves both with the settlement's digest, and delivering the
      other record afterwards finds nothing left to do. */
  lemma FirstDeliveryDecides(cfg: Config, w: World, a: Record, b: Record, amb: Ambient, later: Ambient)
    requires Settled(cfg.tables) && Pair(cfg, w, a, b) && Changed(cfg, w, a) && FreshIds(w, b.source, amb)
    requires !Reconcile(cfg, w, a, amb).1.Refused?
    ensures var after := ReconcileNow(cfg, w, a.source, a.sourceId, amb);
            && EndsAs(cfg, after, a.source, a.sourceId, b.sourceId, HashOf(cfg, Settlement(cfg, w, a, b)),
                      w.Side(b.source).records.Keys)
            && ReconcileNow(cfg, after, b.source, b.sourceId, later) == after
  {
    PairDecision(cfg, w, a, b, amb.newCid);
    var d, after := Decide(cfg, w, a, amb.newCid), ReconcileNow(cfg, w, a.source, a.sourceId, amb);
    assert StepOk(cfg, w, after, a, d, b.sourceId, amb) by { ReconcileIsStep(cfg, w, a, amb); }
    StepThenEcho(cfg, w, after, a, b, d, amb, later);
  }

  lemma StepThenEcho(cfg: Config, w: World, after: World, a: Record, b: Record, d: Decision, amb: Ambient, later: Ambient)
    requires d.Write? && StepOk(cfg, w, after, a, d, b.sourceId, amb)
    requires b.source == Other(a.source) && b.sourceId in w.Side(b.source).records
    ensures EndsAs(cfg, after, a.source, a.sourceId, b.sourceId, HashOf(cfg, d.winner.fields), w.Side(b.source).records.Keys)
    ensures ReconcileNow(cfg, after, b.source, b.sourceId, later) == after
  {
    StepEnds(cfg, w, after, a, d, b.sourceId, amb);
    assert w.Side(b.source).records.Keys + {b.sourceId} == w.Side(b.source).records.Keys;
    StepSyncsPair(cfg, w, after, a, d, b.sourceId, amb);
    SyncedIsEcho(cfg, after, Snapshot(cfg.tables, b.source, after.Side(b.source), b.sourceId), later);
  }

  /** If only one of the two records has changed since the last sync, its content wins, whatever
      the strategy says. */
  lemma OnlyChangeWins(cfg: Config, w: World, a: Record, b: Record, amb: Ambient, later: Ambient)
    requires Settled(cfg.tables) && Pair(cfg, w, a, b) && Changed(cfg, w, a) && FreshIds(w, b.source, amb)
    requires !Changed(cfg, w, b) && !Reconcile(cfg, w, a, amb).1.Refused?
    ensures var after := ReconcileNow(cfg, w, a.source, a.sourceId, amb);
            EndsAs(cfg, after, a.source, a.sourceId, b.sourceId, HashOf(cfg, a.fields), w.Side(b.source).records.Keys)
  {
    FirstDeliveryDecides(cfg, w, a, b, amb, later);
  }

  // ----- what both records end up with -----

  /** Record `b` holds exactly these fields, and `a` has the same digest. */
  ghost predicate BothHold(cfg: Config, w: World, a: Record, b: Record, f: Fields) {
    && b.sourceId in w.Side(b.source).records && Canon(cfg.tables, b.source, w.Side(b.source), b.sourceId) == f
    && DigestAt(cfg, w, a.source, a.sourceId) == Some(HashOf(cfg, f))
  }

  /** When both records have changed, delivering either leaves the winner of the two in force; the
      second delivery changes nothing. */
  lemma DeliveredWinner(cfg: Config, w: World, a: Record, b: Record, amb: Ambient, later: Ambient)
    requires Settled(cfg.tables) && Pair(cfg, w, a, b) && cfg.readCounterpart
    requires Changed(cfg, w, a) && Changed(cfg, w, b) && FreshIds(w, b.source, amb)
    requires !Reconcile(cfg, w, a, amb).1.Refused?
    ensures var f := Resolve(a, b, PolicyOf(cfg)).winner.fields;
            BothHold(cfg, ReconcileNow(cfg, w, a.source, a.sourceId, amb), a, b, f)
            && BothHold(cfg, BothEvents(cfg, w, a, b, amb, later), a, b, f)
  {
    FirstDeliveryDecides(cfg, w, a, b, amb, later);
    PairDecision(cfg, w, a, b, amb.newCid);
    var d, after := Decide(cfg, w, a, amb.newCid), ReconcileNow(cfg, w, a.source, a.sourceId, amb);
    assert StepOk(cfg, w, after, a, d, b.sourceId, amb) by { ReconcileIsStep(cfg, w, a, amb); }
    StepWritesTarget(cfg, w, after, a, d, b.sourceId, amb);
  }

  lemma StepWritesTarget(cfg: Config, w: World, after: World, source: Record, d: Decision, t: Id, amb: Ambient)
    requires d.Write? && StepOk(cfg, w, after, source, d, t, amb)
    ensures var to := Other(source.source);
            t in after.Side(to).records && Canon(cfg.tables, to, after.Side(to), t) == d.winner.fields
  {
  }

  /** Under source of truth both records end up with what the named system's record held, whichever
      of the two events is handled, and handled first. */
  lemma TruthPrevails(cfg: Config, w: World, a: Record, b: Record, truth: Record, amb: Ambient, later: Ambient)
    requires Settled(cfg.tables) && Pair(cfg, w, a, b) && cfg.readCounterpart && cfg.strategy == SourceOfTruth
    requires Changed(cfg, w, a) && Changed(cfg, w, b) && FreshIds(w, b.source, amb)
    requires !Reconcile(cfg, w, a, amb).1.Refused?
    requires truth in {a, b} && truth.source == cfg.sourceOfTruth
    ensures BothHold(cfg, ReconcileNow(cfg, w, a.source, a.sourceId, amb), a, b, truth.fields)
    ensures BothHold(cfg, BothEvents(cfg, w, a, b, amb, later), a, b, truth.fields)
  {
    DeliveredWinner(cfg, w, a, b, amb, later);
    SystemWins(PolicyOf(cfg), a, b);
  }

  /** Under last write wins it is what the later record held. */
  lemma LatestPrevails(cfg: Config, w: World, a: Record, b: Record, latest: Record, earlier: Record, amb: Ambient, later: Ambient)
    requires Settled(cfg.tables) && Pair(cfg, w, a, b) && cfg.readCounterpart && cfg.strategy == LastWriteWins
    requires Changed(cfg, w, a) && Changed(cfg, w, b) && FreshIds(w, b.source, amb)
    requires !Reconcile(cfg, w, a, amb).1.Refused?
    requires Sides(a, b, latest, earlier) && latest.modifiedAt > earlier.modifiedAt
    ensures BothHold(cfg, ReconcileNow(cfg, w, a.source, a.sourceId, amb), a, b, latest.fields)
    ensures BothHold(cfg, BothEvents(cfg, w, a, b, amb, later), a, b, latest.fields)
  {
    DeliveredWinner(cfg, w, a, b, amb, later);
    NewerWins(PolicyOf(cfg), a, b);
  }

  /** A record that meets the only other record of its key for the first time is resolved against it,
      as if both had changed. */
  lemma FirstContact(cfg: Config, w: World, source: Record, key: string, t: Id, amb: Ambient)
    requires Settled(cfg.tables) && Ready(cfg, w, source, amb) && cfg.readCounterpart
    requires !Linked(w, source.source, source.sourceId) && KeyFor(cfg, source.fields) == Some(key)
    requires Matches(cfg, w, Other(source.source), key) == {t} && Reconcile(cfg, w, source, amb).1 == Done
    ensures t in w.Side(Other(source.source)).records
    ensures var to := Other(source.source);
            var met := Snapshot(cfg.tables, to, w.Side(to), t);
            BothHold(cfg, Reconcile(cfg, w, source, amb).0, source, met, Resolve(source, met, PolicyOf(cfg)).winner.fields)
  {
    var d, after, to := Decide(cfg, w, source, amb.newCid), Reconcile(cfg, w, source, amb).0, Other(source.source);
    MatchResolves(cfg, w, source, key, t, amb.newCid);
    assert StepOk(cfg, w, after, source, d, t, amb) by { ReconcileIsStep(cfg, w, source, amb); }
    StepEnds(cfg, w, after, source, d, t, amb);
    StepWritesTarget(cfg, w, after, source, d, t, amb);
  }

  lemma MatchResolves(cfg: Config, w: World, source: Record, key: string, t: Id, newCid: Cid)
    requires MatchOk(cfg, w, source) && cfg.readCounterpart
    requires !Linked(w, source.source, source.sourceId) && KeyFor(cfg, source.fields) == Some(key)
    requires Matches(cfg, w, Other(source.source), key) == {t}
    ensures t in w.Side(Other(source.source)).records
    ensures var d, to := Decide(cfg, w, source, newCid), Other(source.source);
            d.Write? ==> d.target == Some(t) && d.winner == Resolve(source, Snapshot(cfg.tables, to, w.Side(to), t), PolicyOf(cfg)).winner
  {
    assert t in Matches(cfg, w, Other(source.source), key);
    assert |{t}| == 1 && Only({t}) in {t};
  }

  /** Under field merge, in a field owned by one system it is that system's value, if it has one. */
  lemma OwnerPrevails(cfg: Config, w: World, a: Record, b: Record, own: Record, other: Record, i: nat, amb: Ambient, later: Ambient)
    requires Settled(cfg.tables) && Pair(cfg, w, a, b) && cfg.readCounterpart && cfg.strategy == FieldMerge
    requires Changed(cfg, w, a) && Changed(cfg, w, b) && FreshIds(w, b.source, amb)
    requires !Reconcile(cfg, w, a, amb).1.Refused?
    requires Sides(a, b, own, other) && LastOwner(cfg, i, own.source)
    ensures var c := (cfg.tables.salesforce + cfg.tables.hubspot)[i].canonical;
            exists f :: BothHold(cfg, ReconcileNow(cfg, w, a.source, a.sourceId, amb), a, b, f)
                     && BothHold(cfg, BothEvents(cfg, w, a, b, amb, later), a, b, f)
                     && c in f && c in own.fields && c in other.fields
                     && f[c] == if own.fields[c] != Null then own.fields[c] else other.fields[c]
  {
    var c := (cfg.tables.salesforce + cfg.tables.hubspot)[i].canonical;
    DeliveredWinner(cfg, w, a, b, amb, later);
    PolicyInForce(cfg, i);
    RuleNames(cfg, w, a, i);
    RuleNames(cfg, w, b, i);
    OwnerWins(PolicyOf(cfg), a, b, own, other, c);
  }

  /** Rule `i` is the last one for its field that names an owner, and it names this system. */
  predicate LastOwner(cfg: Config, i: nat, s: SystemId) {
    var rules := cfg.tables.salesforce + cfg.tables.hubspot;
    && i < |rules| && rules[i].owner == Some(s)
    && forall j :: i < j < |rules| && rules[j].canonical == rules[i].canonical ==> rules[j].owner == None
  }

  /** Every mapped field is in a snapshot. */
  lemma RuleNames(cfg: Config, w: World, a: Record, i: nat)
    requires Settled(cfg.tables) && Current(cfg, w, a) && i < |cfg.tables.salesforce + cfg.tables.hubspot|
    ensures (cfg.tables.salesforce + cfg.tables.hubspot)[i].canonical in a.fields
  {
    var r := (cfg.tables.salesforce + cfg.tables.hubspot)[i];
    assert r in cfg.tables.salesforce || r in cfg.tables.hubspot;
    assert r.canonical in Names(cfg.tables.salesforce) || r.canonical in Names(cfg.tables.hubspot);
  }

  // ----- the order of the two deliveries -----

  /** The digest tells two field maps apart. */
  predicate ToldApart(cfg: Config, f: Fields, g: Fields) {
    HashOf(cfg, f) == HashOf(cfg, g) ==> f == g
  }

  /** Both events of a pair that has changed on both sides, one order and the other. */
  function BothEvents(cfg: Config, w: World, a: Record, b: Record, amb: Ambient, later: Ambient): World {
    ReconcileNow(cfg, ReconcileNow(cfg, w, a.source, a.sourceId, amb), b.source, b.sourceId, later)
  }

  /** When both records have changed, the order of the two deliveries makes no difference to what
      the pair ends up holding exactly when the strategy leaves nothing to the tie-break of equal
      timestamps. */
  lemma ConfluentExactly(cfg: Config, w: World, a: Record, b: Record, amb: Ambient, later: Ambient, amb2: Ambient, later2: Ambient)
    requires Settled(cfg.tables) && Pair(cfg, w, a, b) && cfg.readCounterpart
    requires Changed(cfg, w, a) && Changed(cfg, w, b)
    requires FreshIds(w, b.source, amb) && FreshIds(w, a.source, amb2)
    requires !Reconcile(cfg, w, a, amb).1.Refused? && !Reconcile(cfg, w, b, amb2).1.Refused?
    requires ToldApart(cfg, Resolve(a, b, PolicyOf(cfg)).winner.fields, Resolve(b, a, PolicyOf(cfg)).winner.fields)
    ensures var aFirst, bFirst := BothEvents(cfg, w, a, b, amb, later), BothEvents(cfg, w, b, a, amb2, later2);
            && DigestAt(cfg, aFirst, a.source, a.sourceId) == DigestAt(cfg, aFirst, b.source, b.sourceId)
            && DigestAt(cfg, bFirst, a.source, a.sourceId) == DigestAt(cfg, bFirst, b.source, b.sourceId)
            && (DigestAt(cfg, aFirst, a.source, a.sourceId) == DigestAt(cfg, bFirst, a.source, a.sourceId)
                <==> OrderFree(PolicyOf(cfg), a, b))
  {
    FirstDeliveryDecides(cfg, w, a, b, amb, later);
    PairSymmetric(cfg, w, a, b);
    FirstDeliveryDecides(cfg, w, b, a, amb2, later2);
    ResolveSymmetric(PolicyOf(cfg), a, b);
  }

  // ----- a tie does matter -----

  /** The two orders end with different contents in the pair. */
  ghost predicate OrderMatters(cfg: Config, w: World, a: Record, b: Record, amb: Ambient, later: Ambient, amb2: Ambient, later2: Ambient)
  {
    DigestAt(cfg, BothEvents(cfg, w, a, b, amb, later), a.source, a.sourceId)
    != DigestAt(cfg, BothEvents(cfg, w, b, a, amb2, later2), a.source, a.sourceId)
  }

  lemma TiedPair(host: Host, h: string)
    ensures var cfg, w := PlainConfig(host, LastWriteWins), PairWorld(LEFT.fields, 5, RIGHT.fields, 5, h);
            Settled(cfg.tables) && Pair(cfg, w, LEFT, RIGHT)
  {
    PairTable(LEFT.fields, 5, RIGHT.fields, 5, h);
    PairReads(host, LastWriteWins, Str("1"), Null, 5, Str("2"), Null, 5, h);
    PlainSettled(host);
    AlwaysAllCarried(PlainTables(host), PairWorld(LEFT.fields, 5, RIGHT.fields, 5, h));
  }

  /** Both sides have written x in the same instant. */
  const LEFT := SfRecord(TwoFields(Str("1"), Null), 5)
  const RIGHT := HsRecord(TwoFields(Str("2"), Null), 5)

  lemma TiedWinners(host: Host)
    requires Hash(host, LEFT.fields) != Hash(host, RIGHT.fields)
    ensures var cfg := PlainConfig(host, LastWriteWins);
            && !OrderFree(PolicyOf(cfg), LEFT, RIGHT)
            && ToldApart(cfg, Resolve(LEFT, RIGHT, PolicyOf(cfg)).winner.fields, Resolve(RIGHT, LEFT, PolicyOf(cfg)).winner.fields)
  {
    PlainPolicy(host, LastWriteWins);
    assert LEFT.fields["x"] != RIGHT.fields["x"];
  }

  lemma TiedFree(host: Host, h: string, amb: Ambient, amb2: Ambient)
    requires h != Hash(host, LEFT.fields) && h != Hash(host, RIGHT.fields)
    requires amb.newCid != "c" && amb.newId != "b" && amb.fault == NoFault
    requires amb2.newCid != "c" && amb2.newId != "a" && amb2.fault == NoFault
    ensures var cfg, w := PlainConfig(host, LastWriteWins), PairWorld(LEFT.fields, 5, RIGHT.fields, 5, h);
            FreeToSettle(cfg, w, LEFT, h, amb) && FreeToSettle(cfg, w, RIGHT, h, amb2)
  {
    PairTable(LEFT.fields, 5, RIGHT.fields, 5, h);
    OneIsFree(PlainConfig(host, LastWriteWins), PairWorld(LEFT.fields, 5, RIGHT.fields, 5, h), LEFT, h, amb);
    OneIsFree(PlainConfig(host, LastWriteWins), PairWorld(LEFT.fields, 5, RIGHT.fields, 5, h), RIGHT, h, amb2);
  }

  lemma OneIsFree(cfg: Config, w: World, source: Record, h: string, amb: Ambient)
    requires OnePair(w, h) && cfg.required == map[] && HashOf(cfg, source.fields) != h
    requires source.sourceId == if source.source == Salesforce then "a" else "b"
    requires amb.newCid != "c" && amb.newId != (if source.source == Salesforce then "b" else "a") && amb.fault == NoFault
    ensures FreeToSettle(cfg, w, source, h, amb)
  {
  }

  /** Two changed records of one link, no field required. */
  ghost predicate FreeToSettle(cfg: Config, w: World, source: Record, h: string, amb: Ambient) {
    && cfg.required == map[] && FindBySource(w.table, source.source, source.sourceId) == Some("c")
    && LastSyncedAt(w, "c", h) && h != HashOf(cfg, source.fields)
    && FreshIds(w, Other(source.source), amb)
  }

  lemma NotRefused(cfg: Config, w: World, source: Record, h: string, amb: Ambient)
    requires FreeToSettle(cfg, w, source, h, amb) && Current(cfg, w, source)
    ensures !Reconcile(cfg, w, source, amb).1.Refused? && Changed(cfg, w, source)
  {
    NewsIsWritten(cfg, w, source, "c", h, amb.newCid);
  }

  lemma OpenTie(cfg: Config, w: World, a: Record, b: Record, h: string, amb: Ambient, later: Ambient, amb2: Ambient, later2: Ambient)
    requires Settled(cfg.tables) && Pair(cfg, w, a, b) && cfg.readCounterpart
    requires FreeToSettle(cfg, w, a, h, amb) && FreeToSettle(cfg, w, b, h, amb2)
    requires !OrderFree(PolicyOf(cfg), a, b)
    requires ToldApart(cfg, Resolve(a, b, PolicyOf(cfg)).winner.fields, Resolve(b, a, PolicyOf(cfg)).winner.fields)
    ensures OrderMatters(cfg, w, a, b, amb, later, amb2, later2)
  {
    NotRefused(cfg, w, a, h, amb);
    NotRefused(cfg, w, b, h, amb2);
    ConfluentExactly(cfg, w, a, b, amb, later, amb2, later2);
  }

  /** Last write wins, two different edits in the same instant: whichever event is handled first
      decides what both records end up with. */
  lemma TieOrderMatters(host: Host, h: string, amb: Ambient, later: Ambient, amb2: Ambient, later2: Ambient)
    requires Hash(host, LEFT.fields) != Hash(host, RIGHT.fields) && h != Hash(host, LEFT.fields) && h != Hash(host, RIGHT.fields)
    requires amb.newCid != "c" && amb.newId != "b" && amb.fault == NoFault
    requires amb2.newCid != "c" && amb2.newId != "a" && amb2.fault == NoFault
    ensures OrderMatters(PlainConfig(host, LastWriteWins), PairWorld(LEFT.fields, 5, RIGHT.fields, 5, h), LEFT, RIGHT, amb, later, amb2, later2)
  {
    TiedPair(host, h);
    TiedFree(host, h, amb, amb2);
    TiedWinners(host);
    OpenTie(PlainConfig(host, LastWriteWins), PairWorld(LEFT.fields, 5, RIGHT.fields, 5, h), LEFT, RIGHT, h, amb, later, amb2, later2);
  }
}

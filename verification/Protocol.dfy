/** The sync protocol as a state machine: user edits, change events and reconciliations in any
    order, and what every run of it keeps. */
module Protocol {
  import opened Canonical
  import opened Mapping
  import opened Conflict
  import opened IdMap
  import opened Connector
  import opened Reconciler

  // ----- what every stored state keeps -----

  ghost predicate Agreed(link: Link) {
    Salesforce in link.hashes && Hubspot in link.hashes && link.hashes[Salesforce] == link.hashes[Hubspot]
  }

  ghost predicate Live(w: World, link: Link) {
    && Salesforce in link.ids && link.ids[Salesforce] in w.sf.records
    && Hubspot in link.ids && link.ids[Hubspot] in w.hs.records
  }

  /** Links pair live records one-to-one and agree with themselves: both sides are known, both
      digests are recorded and equal, and the source index is exact. */
  ghost predicate TableOk(w: World) {
    && SourceExact(w.table)
    && (forall c :: c in w.table.links ==> Live(w, w.table.links[c]) && Agreed(w.table.links[c]))
  }

  ghost predicate SideCarried(tb: Tables, s: SystemId, crm: Crm) {
    forall id :: id in crm.records ==> Admissible(tb, Canon(tb, s, crm, id))
  }

  /** Both systems carry every value that is stored. */
  ghost predicate AllCarried(tb: Tables, w: World) {
    SideCarried(tb, Salesforce, w.sf) && SideCarried(tb, Hubspot, w.hs)
  }

  lemma AlwaysAllCarried(tb: Tables, w: World)
    requires Settled(tb) && AlwaysCarried(tb)
    ensures AllCarried(tb, w)
  {
    forall s: SystemId ensures SideCarried(tb, s, w.Side(s)) {
      forall id | id in w.Side(s).records ensures Admissible(tb, Canon(tb, s, w.Side(s), id)) {
        ReadsAdmissible(tb, s, w.Side(s).records[id].values);
      }
    }
    assert w.Side(Salesforce) == w.sf && w.Side(Hubspot) == w.hs;
  }

  predicate Linked(w: World, s: SystemId, id: Id) {
    FindBySource(w.table, s, id).Some?
  }

  /** The record is linked and its content is the one last recorded for its side. */
  predicate Synced(cfg: Config, w: World, s: SystemId, id: Id)
    requires id in w.Side(s).records
  {
    match FindBySource(w.table, s, id)
    case None => false
    case Some(c) =>
      s in w.table.links[c].hashes
      && HashOf(cfg, Canon(cfg.tables, s, w.Side(s), id)) == w.table.links[c].hashes[s]
  }

  /** The snapshot is what its system holds now. */
  ghost predicate Current(cfg: Config, w: World, source: Record) {
    Peek(cfg, w, source.source, source.sourceId) == Some(source)
  }

  /** A check a caller can make before reconciling an unlinked record: its key names no stored
      link, and no record of the other system with that key is linked already. */
  predicate MatchOk(cfg: Config, w: World, source: Record) {
    Linked(w, source.source, source.sourceId) ||
    match KeyFor(cfg, source.fields)
    case None => true
    case Some(key) =>
      FindByKey(w.table, key) == None
      && forall id :: id in Matches(cfg, w, Other(source.source), key) ==> !Linked(w, Other(source.source), id)
  }

  predicate FreshIds(w: World, to: SystemId, amb: Ambient) {
    amb.newId !in w.Side(to).records && amb.newCid !in w.table.links && amb.fault == NoFault
  }

  /** The surroundings of a delivery: new identifiers, or a target that rejects the write. */
  predicate Supplied(w: World, to: SystemId, amb: Ambient) {
    amb.fault == Rejects || FreshIds(w, to, amb)
  }

  // ----- one reconciliation -----

  lemma WinnerAdmissible(cfg: Config, w: World, source: Record, link: Link)
    requires AllCarried(cfg.tables, w) && Current(cfg, w, source)
    ensures Admissible(cfg.tables, source.fields)
    ensures Admissible(cfg.tables, Winner(cfg, w, source, link).fields)
  {
    var from, to := source.source, Other(source.source);
    assert SideCarried(cfg.tables, from, w.Side(from));
    var c := Contender(cfg, w, to, link);
    if c.Some? {
      assert SideCarried(cfg.tables, to, w.Side(to));
      ResolvedAdmissible(cfg.tables, PolicyOf(cfg), source, c.value);
    }
  }

  lemma MixCarries(tb: Tables, s: SystemId, a: Fields, b: Fields, f: Fields)
    requires Carries(tb, s, a) && Carries(tb, s, b)
    requires f.Keys == a.Keys && forall c :: c in f ==> f[c] == a[c] || f[c] == b[c]
    ensures Carries(tb, s, f)
  {
  }

  lemma ResolvedAdmissible(tb: Tables, policy: Policy, a: Record, b: Record)
    requires Admissible(tb, a.fields) && Admissible(tb, b.fields)
    ensures Admissible(tb, Resolve(a, b, policy).winner.fields)
  {
    WinnerFromInputs(policy, a, b);
    MixCarries(tb, Salesforce, a.fields, b.fields, Resolve(a, b, policy).winner.fields);
    MixCarries(tb, Hubspot, a.fields, b.fields, Resolve(a, b, policy).winner.fields);
  }

  // ----- the key of the winner -----

  /** Two records that share this key still have it after they are merged field by field, because
      it determines the values it was joined from. Only a field merge asks for this. */
  ghost predicate SafeKey(cfg: Config, key: Option<string>) {
    cfg.strategy == FieldMerge && cfg.readCounterpart && key.Some? ==>
      KeyDetermines(cfg.tables.host, cfg.keyFields, key.value)
  }

  /** The other strategies pick one of the two records. */
  lemma PickedWhole(policy: Policy, a: Record, b: Record)
    requires policy.strategy != FieldMerge
    ensures Resolve(a, b, policy).winner.fields in {a.fields, b.fields}
  {
  }

  lemma ResolvedKey(cfg: Config, a: Record, b: Record)
    requires a.fields.Keys == b.fields.Keys && cfg.readCounterpart
    requires KeyFor(cfg, a.fields).Some? && KeyFor(cfg, b.fields) == KeyFor(cfg, a.fields) && SafeKey(cfg, KeyFor(cfg, a.fields))
    ensures KeyFor(cfg, Resolve(a, b, PolicyOf(cfg)).winner.fields) == KeyFor(cfg, a.fields)
  {
    if cfg.strategy == FieldMerge {
      WinnerFromInputs(PolicyOf(cfg), a, b);
      MixedKey(cfg.tables.host, cfg.keyFields, a.fields, b.fields, Resolve(a, b, PolicyOf(cfg)).winner.fields);
    } else {
      PickedWhole(PolicyOf(cfg), a, b);
    }
  }

  /** Whose link it is: the snapshot's own id on its own side. */
  predicate OwnsLink(source: Record, d: Decision) {
    d.Write? && source.source in d.link.ids && d.link.ids[source.source] == source.sourceId
  }

  /** What a carried-out decision leaves: the winner in the written record, the winner in the
      source record too if it was written back, the final link in the table, nothing else moved. */
  ghost predicate Effected(cfg: Config, w: World, after: World, source: Record, d: Decision, t: Id, amb: Ambient)
    requires d.Write?
  {
    var from, to := source.source, Other(source.source);
    && after.table == Index(w.table, d.cid, FinalLink(cfg, source, d, t, amb))
    && OneWrite(cfg.tables, to, w.Side(to), after.Side(to), t, d.winner.fields, amb.now)
    && (if WritesBack(cfg, source, d)
        then OneWrite(cfg.tables, from, w.Side(from), after.Side(from), source.sourceId, d.winner.fields, amb.later)
        else after.Side(from) == w.Side(from))
  }

  lemma StepEffect(cfg: Config, w: World, source: Record, d: Decision, t: Id, amb: Ambient)
    requires Settled(cfg.tables) && OwnsLink(source, d) && Admissible(cfg.tables, d.winner.fields)
    ensures Effected(cfg, w, AfterLink(cfg, w, source, d, t, amb), source, d, t, amb)
  {
    var from, to := source.source, Other(source.source);
    UpsertReadsBack(cfg.tables, to, w.Side(to), t, d.winner.fields, amb.now);
    UpsertReadsBack(cfg.tables, from, w.Side(from), source.sourceId, d.winner.fields, amb.later);
  }

  lemma OneWriteCarried(tb: Tables, s: SystemId, before: Crm, after: Crm, id: Id, fields: Fields, now: Time)
    requires OneWrite(tb, s, before, after, id, fields, now) && SideCarried(tb, s, before) && Admissible(tb, fields)
    ensures SideCarried(tb, s, after)
  {
    forall x | x in after.records ensures Admissible(tb, Canon(tb, s, after, x)) {
      if x != id { OtherCanon(tb, s, before, after, id, fields, now, x); }
      StoredCarried(tb, s, before, x, fields, Canon(tb, s, after, x));
    }
  }

  lemma OtherCanon(tb: Tables, s: SystemId, before: Crm, after: Crm, id: Id, fields: Fields, now: Time, x: Id)
    requires OneWrite(tb, s, before, after, id, fields, now) && x in after.records && x != id
    ensures x in before.records && Canon(tb, s, after, x) == Canon(tb, s, before, x)
  {
  }

  lemma StoredCarried(tb: Tables, s: SystemId, crm: Crm, x: Id, fields: Fields, now: Fields)
    requires SideCarried(tb, s, crm) && Admissible(tb, fields)
    requires now == fields || (x in crm.records && now == Canon(tb, s, crm, x))
    ensures Admissible(tb, now)
  {
  }

  lemma StepKeepsCarried(cfg: Config, w: World, after: World, source: Record, d: Decision, t: Id, amb: Ambient)
    requires d.Write? && Effected(cfg, w, after, source, d, t, amb)
    requires AllCarried(cfg.tables, w) && Admissible(cfg.tables, d.winner.fields)
    ensures AllCarried(cfg.tables, after)
  {
    var from, to := source.source, Other(source.source);
    OneWriteCarried(cfg.tables, to, w.Side(to), after.Side(to), t, d.winner.fields, amb.now);
    if WritesBack(cfg, source, d) {
      OneWriteCarried(cfg.tables, from, w.Side(from), after.Side(from), source.sourceId, d.winner.fields, amb.later);
    }
  }

  /** The link a decision writes through: the stored link of the source, or a new link between
      records that had none. */
  ghost predicate ShapeOk(w: World, source: Record, d: Decision, amb: Ambient) {
    var from, to := source.source, Other(source.source);
    && OwnsLink(source, d)
    && (d.target.Some? <==> to in d.link.ids)
    && (d.target.Some? ==> d.target.value == d.link.ids[to] && d.target.value in w.Side(to).records)
    && if Linked(w, from, source.sourceId) then
         FindBySource(w.table, from, source.sourceId) == Some(d.cid) && d.link == w.table.links[d.cid]
       else
         d.cid == amb.newCid && d.link.hashes == map[] && (d.target.Some? ==> !Linked(w, to, d.target.value))
  }

  /** The link found for a snapshot, before anything else is looked at. */
  ghost predicate LocatedOk(w: World, source: Record, newCid: Cid, cid: Cid, link: Link) {
    var from, to := source.source, Other(source.source);
    && from in link.ids && link.ids[from] == source.sourceId
    && (to in link.ids ==> link.ids[to] in w.Side(to).records)
    && if Linked(w, from, source.sourceId) then
         FindBySource(w.table, from, source.sourceId) == Some(cid) && link == w.table.links[cid]
       else
         cid == newCid && link.hashes == map[] && (to in link.ids ==> !Linked(w, to, link.ids[to]))
  }

  lemma LocateShape(cfg: Config, w: World, source: Record, newCid: Cid)
    requires TableOk(w) && MatchOk(cfg, w, source)
    requires FindOrCreateLink(cfg, w, source, newCid).Found?
    ensures var l := FindOrCreateLink(cfg, w, source, newCid); LocatedOk(w, source, newCid, l.cid, l.link)
  {
  }

  /** A decision to write carries the located link, the linked id of the target and the winner,
      and the source side of that link did not record the source's content. */
  lemma DecisionParts(cfg: Config, w: World, source: Record, newCid: Cid)
    requires Decide(cfg, w, source, newCid).Write?
    ensures var d, to := Decide(cfg, w, source, newCid), Other(source.source);
            && FindOrCreateLink(cfg, w, source, newCid) == Found(d.cid, d.link)
            && d.target == (if to in d.link.ids then Some(d.link.ids[to]) else None)
            && d.winner == Winner(cfg, w, source, d.link)
            && !(source.source in d.link.hashes && d.link.hashes[source.source] == HashOf(cfg, source.fields))
  {
  }

  lemma DecisionShape(cfg: Config, w: World, source: Record, amb: Ambient)
    requires TableOk(w) && Current(cfg, w, source) && MatchOk(cfg, w, source)
    requires Decide(cfg, w, source, amb.newCid).Write?
    ensures ShapeOk(w, source, Decide(cfg, w, source, amb.newCid), amb)
  {
    LocateShape(cfg, w, source, amb.newCid);
    DecisionParts(cfg, w, source, amb.newCid);
  }

  lemma LinkedIffIndexed(w: World, s: SystemId, id: Id)
    requires TableOk(w)
    ensures Linked(w, s, id) <==> NativeKey(s, id) in w.table.bySource
    ensures NativeKey(s, id) in w.table.bySource ==> id in w.Side(s).records
  {
  }

  /** A decision that is carried out: record `t` is written. */
  ghost predicate StepOk(cfg: Config, w: World, after: World, source: Record, d: Decision, t: Id, amb: Ambient) {
    && TableOk(w) && FreshIds(w, Other(source.source), amb) && ShapeOk(w, source, d, amb)
    && source.sourceId in w.Side(source.source).records
    && source.fields == Canon(cfg.tables, source.source, w.Side(source.source), source.sourceId)
    && t == (if d.target.Some? then d.target.value else amb.newId)
    && Effected(cfg, w, after, source, d, t, amb)
  }

  /** Storing an agreed link between live records keeps the table in order. */
  lemma StoreKeepsTable(w: World, after: World, cid: Cid, link: Link)
    requires TableOk(w) && SourceExact(after.table) && after.table == Index(w.table, cid, link)
    requires w.sf.records.Keys <= after.sf.records.Keys && w.hs.records.Keys <= after.hs.records.Keys
    requires Live(after, link) && Agreed(link)
    ensures TableOk(after)
  {
  }

  lemma FinalLinkAgreed(cfg: Config, source: Record, d: Decision, t: Id, amb: Ambient)
    requires OwnsLink(source, d)
    ensures Agreed(FinalLink(cfg, source, d, t, amb))
  {
  }

  /** The pair of ids a written link ends up with keeps the index exact. */
  lemma StepKeepsIndex(w: World, source: Record, d: Decision, t: Id, amb: Ambient, link: Link)
    requires TableOk(w) && FreshIds(w, Other(source.source), amb) && ShapeOk(w, source, d, amb)
    requires t == if d.target.Some? then d.target.value else amb.newId
    requires link.ids == d.link.ids[Other(source.source) := t][source.source := source.sourceId]
    ensures SourceExact(Index(w.table, d.cid, link))
  {
    var from, to := source.source, Other(source.source);
    LinkedIffIndexed(w, to, t);
    LinkedIffIndexed(w, from, source.sourceId);
    if Linked(w, from, source.sourceId) {
      assert link.ids == w.table.links[d.cid].ids;
      IndexSameIds(w.table, d.cid, link);
    } else {
      forall s | s in link.ids ensures NativeKey(s, link.ids[s]) !in w.table.bySource {
        assert s == from || s == to;
      }
      IndexNewIds(w.table, d.cid, link);
    }
  }

  /** The table stays in order through a reconciliation. */
  lemma StepKeepsTable(cfg: Config, w: World, after: World, source: Record, d: Decision, t: Id, amb: Ambient)
    requires StepOk(cfg, w, after, source, d, t, amb)
    ensures TableOk(after)
  {
    var link := FinalLink(cfg, source, d, t, amb);
    StepKeepsIndex(w, source, d, t, amb, link);
    FinalLinkAgreed(cfg, source, d, t, amb);
    StoreKeepsTable(w, after, d.cid, link);
  }

  // ----- what a reconciliation settles -----

  /** The records of one side that are unlinked or differ from what was last recorded. */
  function Unsynced(cfg: Config, w: World, s: SystemId): set<Id> {
    set id | id in w.Side(s).records && !Synced(cfg, w, s, id)
  }

  /** The stored link decides whether a record is synced. */
  lemma SyncedBy(cfg: Config, w: World, s: SystemId, id: Id, c: Cid)
    requires TableOk(w) && c in w.table.links && s in w.table.links[c].ids && w.table.links[c].ids[s] == id
    requires id in w.Side(s).records
    ensures FindBySource(w.table, s, id) == Some(c)
    ensures Synced(cfg, w, s, id) <==> HashOf(cfg, Canon(cfg.tables, s, w.Side(s), id)) == w.table.links[c].hashes[s]
  {
  }

  /** Both records of the pair are synced afterwards. */
  lemma StepSyncsPair(cfg: Config, w: World, after: World, source: Record, d: Decision, t: Id, amb: Ambient)
    requires StepOk(cfg, w, after, source, d, t, amb)
    ensures source.sourceId in after.Side(source.source).records && t in after.Side(Other(source.source)).records
    ensures Synced(cfg, after, source.source, source.sourceId)
    ensures Synced(cfg, after, Other(source.source), t)
  {
    StepKeepsTable(cfg, w, after, source, d, t, amb);
    SyncedBy(cfg, after, source.source, source.sourceId, d.cid);
    SyncedBy(cfg, after, Other(source.source), t, d.cid);
  }

  /** What a link remembers of a run: both native ids, the digest that both records have, when the
      target was written, and how old the source's change was. */
  ghost predicate Remembers(cfg: Config, after: World, source: Record, link: Link, t: Id) {
    var from, to := source.source, Other(source.source);
    && from in link.ids && link.ids[from] == source.sourceId && to in link.ids && link.ids[to] == t
    && t in after.Side(to).records && from in link.hashes && to in link.hashes
    && link.hashes[to] == link.hashes[from] == HashOf(cfg, Canon(cfg.tables, to, after.Side(to), t))
    && to in link.modifiedAt && link.modifiedAt[to] == after.Side(to).records[t].modifiedAt
    && from in link.modifiedAt && link.modifiedAt[from] == source.modifiedAt
  }

  lemma StepRemembers(cfg: Config, w: World, after: World, source: Record, d: Decision, t: Id, amb: Ambient)
    requires StepOk(cfg, w, after, source, d, t, amb)
    ensures FindBySource(after.table, source.source, source.sourceId) == Some(d.cid)
    ensures Remembers(cfg, after, source, after.table.links[d.cid], t)
    ensures after.table.links[d.cid].keys == d.link.keys
  {
    StoredUnder(w.table, d.cid, FinalLink(cfg, source, d, t, amb), source.source, source.sourceId);
  }

  /** After a run that wrote, the source's link remembers it, and a link that is new is filed under the
      source's key. */
  lemma RunRemembers(cfg: Config, w: World, source: Record, amb: Ambient)
    requires Settled(cfg.tables) && Ready(cfg, w, source, amb) && Reconcile(cfg, w, source, amb).1 == Done
    ensures var after := Reconcile(cfg, w, source, amb).0;
            var c := FindBySource(after.table, source.source, source.sourceId);
            && c.Some? && Other(source.source) in after.table.links[c.value].ids
            && Remembers(cfg, after, source, after.table.links[c.value], after.table.links[c.value].ids[Other(source.source)])
            && (!Linked(w, source.source, source.sourceId) && KeyFor(cfg, source.fields).Some? ==>
                  after.table.links[c.value].keys == {KeyFor(cfg, source.fields).value})
  {
    var after, d := Reconcile(cfg, w, source, amb).0, Decide(cfg, w, source, amb.newCid);
    assert StepOk(cfg, w, after, source, d, TargetOf(d, amb), amb) by { ReconcileIsStep(cfg, w, source, amb); }
    StepRemembers(cfg, w, after, source, d, TargetOf(d, amb), amb);
    if !Linked(w, source.source, source.sourceId) && KeyFor(cfg, source.fields).Some? {
      DecisionParts(cfg, w, source, amb.newCid);
      NewLinkKey(cfg, w, source, amb.newCid);
    }
  }

  lemma NewLinkKey(cfg: Config, w: World, source: Record, newCid: Cid)
    requires MatchOk(cfg, w, source) && !Linked(w, source.source, source.sourceId) && KeyFor(cfg, source.fields).Some?
    requires FindOrCreateLink(cfg, w, source, newCid).Found?
    ensures FindOrCreateLink(cfg, w, source, newCid).link.keys == {KeyFor(cfg, source.fields).value}
  {
  }

  lemma OtherLinksKept(w: World, source: Record, d: Decision, t: Id, amb: Ambient, s: SystemId, id: Id)
    requires TableOk(w) && FreshIds(w, Other(source.source), amb) && ShapeOk(w, source, d, amb)
    requires t == if d.target.Some? then d.target.value else amb.newId
    requires Linked(w, s, id) && id != (if s == source.source then source.sourceId else t)
    ensures var c := FindBySource(w.table, s, id).value;
            c != d.cid && s in w.table.links[c].ids && w.table.links[c].ids[s] == id
  {
  }

  lemma SyncedStays(cfg: Config, w: World, after: World, s: SystemId, id: Id, c: Cid)
    requires TableOk(w) && TableOk(after)
    requires c in w.table.links && c in after.table.links && after.table.links[c] == w.table.links[c]
    requires s in w.table.links[c].ids && w.table.links[c].ids[s] == id
    requires id in w.Side(s).records && id in after.Side(s).records
    requires after.Side(s).records[id] == w.Side(s).records[id]
    ensures Synced(cfg, w, s, id) <==> Synced(cfg, after, s, id)
  {
    SyncedBy(cfg, w, s, id, c);
    SyncedBy(cfg, after, s, id, c);
  }

  ghost predicate Kept(before: Crm, after: Crm, except: Id) {
    forall id :: id in before.records && id != except ==>
      id in after.records && after.records[id] == before.records[id]
  }

  /** A world that differs from another only in one link and the two records it names. */
  ghost predicate Moved(w: World, after: World, source: Record, cid: Cid, t: Id) {
    && (forall c :: c in w.table.links && c != cid ==> c in after.table.links && after.table.links[c] == w.table.links[c])
    && Kept(w.Side(source.source), after.Side(source.source), source.sourceId)
    && Kept(w.Side(Other(source.source)), after.Side(Other(source.source)), t)
  }

  lemma StepMoves(cfg: Config, w: World, after: World, source: Record, d: Decision, t: Id, amb: Ambient)
    requires d.Write? && Effected(cfg, w, after, source, d, t, amb)
    ensures Moved(w, after, source, d.cid, t)
  {
  }

  /** And no other record stops being synced. */
  lemma OthersStaySynced(cfg: Config, w: World, after: World, source: Record, d: Decision, t: Id, amb: Ambient, s: SystemId, id: Id)
    requires TableOk(w) && FreshIds(w, Other(source.source), amb) && ShapeOk(w, source, d, amb)
    requires t == if d.target.Some? then d.target.value else amb.newId
    requires TableOk(after) && Moved(w, after, source, d.cid, t)
    requires id in w.Side(s).records && id != (if s == source.source then source.sourceId else t)
    requires Synced(cfg, w, s, id)
    ensures id in after.Side(s).records && Synced(cfg, after, s, id)
  {
    OtherLinksKept(w, source, d, t, amb, s, id);
    OthersKept(w, after, source, d.cid, t, s, id);
    SyncedStays(cfg, w, after, s, id, FindBySource(w.table, s, id).value);
  }

  lemma OthersKept(w: World, after: World, source: Record, cid: Cid, t: Id, s: SystemId, id: Id)
    requires Moved(w, after, source, cid, t) && id in w.Side(s).records
    requires id != (if s == source.source then source.sourceId else t)
    ensures id in after.Side(s).records && after.Side(s).records[id] == w.Side(s).records[id]
  {
    if s != source.source { assert s == Other(source.source); }
  }

  // ----- each write is paid for -----

  /** The source of a write was not synced, and a write-back only happens against a target that
      was not synced either. */
  lemma WritesNeedUnsynced(cfg: Config, w: World, source: Record, amb: Ambient)
    requires TableOk(w) && Current(cfg, w, source) && MatchOk(cfg, w, source)
    requires Decide(cfg, w, source, amb.newCid).Write?
    ensures var d := Decide(cfg, w, source, amb.newCid);
            && source.sourceId in Unsynced(cfg, w, source.source)
            && (WritesBack(cfg, source, d) ==> d.target.Some? && d.target.value in Unsynced(cfg, w, Other(source.source)))
  {
    DecisionShape(cfg, w, source, amb);
    DecisionParts(cfg, w, source, amb.newCid);
  }

  function Writes(w: World): nat { |w.sf.written| + |w.hs.written| }

  /** The records whose change has not reached the other side yet. */
  function Owed(cfg: Config, w: World): nat {
    |Unsynced(cfg, w, Salesforce)| + |Unsynced(cfg, w, Hubspot)|
  }

  lemma UnsyncedShrinks(cfg: Config, w: World, after: World, source: Record, d: Decision, t: Id, amb: Ambient, s: SystemId)
    requires StepOk(cfg, w, after, source, d, t, amb)
    ensures Unsynced(cfg, after, s) <= Unsynced(cfg, w, s) - {if s == source.source then source.sourceId else t}
  {
    StepKeepsTable(cfg, w, after, source, d, t, amb);
    StepMoves(cfg, w, after, source, d, t, amb);
    forall id | id in Unsynced(cfg, after, s)
      ensures id in Unsynced(cfg, w, s) && id != if s == source.source then source.sourceId else t
    {
      UnsyncedBefore(cfg, w, after, source, d, t, amb, s, id);
    }
  }

  /** A record that is not synced after a step was not synced before it. */
  lemma UnsyncedBefore(cfg: Config, w: World, after: World, source: Record, d: Decision, t: Id, amb: Ambient, s: SystemId, id: Id)
    requires StepOk(cfg, w, after, source, d, t, amb) && TableOk(after) && Moved(w, after, source, d.cid, t)
    requires id in Unsynced(cfg, after, s)
    ensures id in Unsynced(cfg, w, s) && id != if s == source.source then source.sourceId else t
  {
    StepSyncsPair(cfg, w, after, source, d, t, amb);
    if id in w.Side(s).records && Synced(cfg, w, s, id) {
      if id != (if s == source.source then source.sourceId else t) {
        OthersStaySynced(cfg, w, after, source, d, t, amb, s, id);
      }
    }
  }

  lemma Smaller(a: set<Id>, b: set<Id>, x: Id)
    requires a <= b - {x}
    ensures |a| <= |b| && (x in b ==> |a| + 1 <= |b|)
  {
    assert b - {x} <= b;
    SubsetSize(a, b - {x});
    if x in b { assert |b - {x}| == |b| - 1; } else { assert b - {x} == b; }
  }

  /** The record a decision writes to. */
  function TargetOf(d: Decision, amb: Ambient): Id
    requires d.Write?
  {
    if d.target.Some? then d.target.value else amb.newId
  }

  /** The hypotheses under which one reconciliation is studied: stored values are carried, its
      snapshot is current, the match check passes and the supplied identifiers are new. */
  ghost predicate Ready(cfg: Config, w: World, source: Record, amb: Ambient) {
    && TableOk(w) && AllCarried(cfg.tables, w) && Current(cfg, w, source) && MatchOk(cfg, w, source)
    && FreshIds(w, Other(source.source), amb)
  }

  /** Reconciling one record as it is now: what an event delivery, a retry and a bulk run do. */
  function ReconcileNow(cfg: Config, w: World, s: SystemId, id: Id, amb: Ambient): World {
    match Peek(cfg, w, s, id)
    case None => w
    case Some(source) => Reconcile(cfg, w, source, amb).0
  }

  lemma ReconcileIsStep(cfg: Config, w: World, source: Record, amb: Ambient)
    requires Settled(cfg.tables) && Ready(cfg, w, source, amb)
    ensures var (after, outcome) := Reconcile(cfg, w, source, amb);
            var d := Decide(cfg, w, source, amb.newCid);
            && (outcome == Done <==> d.Write?)
            && (d.Write? ==> StepOk(cfg, w, after, source, d, TargetOf(d, amb), amb))
            && (!d.Write? ==> after == w)
            && AllCarried(cfg.tables, after)
  {
    var d := Decide(cfg, w, source, amb.newCid);
    if d.Write? {
      DecisionShape(cfg, w, source, amb);
      DecisionParts(cfg, w, source, amb.newCid);
      WinnerAdmissible(cfg, w, source, d.link);
      StepEffect(cfg, w, source, d, TargetOf(d, amb), amb);
      StepKeepsCarried(cfg, w, Reconcile(cfg, w, source, amb).0, source, d, TargetOf(d, amb), amb);
    }
  }

  /** A dropped echo is the content last recorded for a linked record. */
  lemma EchoIsSynced(cfg: Config, w: World, source: Record, newCid: Cid)
    requires TableOk(w) && Current(cfg, w, source) && MatchOk(cfg, w, source)
    requires Decide(cfg, w, source, newCid) == Suppress
    ensures Synced(cfg, w, source.source, source.sourceId)
  {
    LocateShape(cfg, w, source, newCid);
  }

  /** Every write of a reconciliation settles a record that was owed one. */
  lemma StepPays(cfg: Config, w: World, source: Record, amb: Ambient)
    requires Settled(cfg.tables) && Ready(cfg, w, source, amb)
    ensures var after := Reconcile(cfg, w, source, amb).0;
            TableOk(after) && Writes(after) + Owed(cfg, after) <= Writes(w) + Owed(cfg, w)
  {
    ReconcileIsStep(cfg, w, source, amb);
    var d := Decide(cfg, w, source, amb.newCid);
    if d.Write? {
      var after, to, t := Reconcile(cfg, w, source, amb).0, Other(source.source), TargetOf(d, amb);
      StepKeepsTable(cfg, w, after, source, d, t, amb);
      WritesNeedUnsynced(cfg, w, source, amb);
      UnsyncedShrinks(cfg, w, after, source, d, t, amb, source.source);
      UnsyncedShrinks(cfg, w, after, source, d, t, amb, to);
      Smaller(Unsynced(cfg, after, source.source), Unsynced(cfg, w, source.source), source.sourceId);
      Smaller(Unsynced(cfg, after, to), Unsynced(cfg, w, to), t);
    }
  }

  /** Reconciling a synced record is an echo. */
  lemma SyncedIsEcho(cfg: Config, w: World, source: Record, amb: Ambient)
    requires Current(cfg, w, source) && Synced(cfg, w, source.source, source.sourceId)
    ensures Reconcile(cfg, w, source, amb) == (w, Echo)
  {
  }

  // ----- the self-heal -----

  /** When the target reports that another record owns the value, the run goes through exactly if
      the value belongs to the natural key, the owner is not the record just tried and the second
      write succeeds. Then the owner alone is written and linked; otherwise nothing changes. */
  lemma SelfHeals(cfg: Config, w: World, source: Record, amb: Ambient)
    requires Settled(cfg.tables) && AllCarried(cfg.tables, w) && Current(cfg, w, source) && amb.fault.Duplicate?
    requires Decide(cfg, w, source, amb.newCid).Write?
    ensures var d, to, owner := Decide(cfg, w, source, amb.newCid), Other(source.source), amb.fault.owner;
            var (after, outcome) := Reconcile(cfg, w, source, amb);
            && (outcome == Done <==> NamesKeyField(cfg, to, amb.fault.property) && d.target != Some(owner) && !amb.fault.again)
            && (outcome == Done ==>
                  && OneWrite(cfg.tables, to, w.Side(to), after.Side(to), owner, d.winner.fields, amb.now)
                  && FindBySource(after.table, to, owner) == Some(d.cid)
                  && to in after.table.links[d.cid].ids && after.table.links[d.cid].ids[to] == owner)
            && (outcome != Done ==> after == w)
  {
    var d, to, owner := Decide(cfg, w, source, amb.newCid), Other(source.source), amb.fault.owner;
    KeyPropertyExactly(cfg, to, amb.fault.property);
    if WrittenId(cfg, to, d.target, amb).Some? {
      HealedWrite(cfg, w, source, amb);
      HealedLink(cfg, w, source, d, owner, amb);
    }
  }

  lemma HealedWrite(cfg: Config, w: World, source: Record, amb: Ambient)
    requires Settled(cfg.tables) && AllCarried(cfg.tables, w) && Current(cfg, w, source) && amb.fault.Duplicate?
    requires Decide(cfg, w, source, amb.newCid).Write?
    ensures var d, to, owner := Decide(cfg, w, source, amb.newCid), Other(source.source), amb.fault.owner;
            OneWrite(cfg.tables, to, w.Side(to), AfterTarget(cfg, w, source, d, owner, amb).Side(to), owner, d.winner.fields, amb.now)
  {
    var d, to := Decide(cfg, w, source, amb.newCid), Other(source.source);
    DecisionParts(cfg, w, source, amb.newCid);
    WinnerAdmissible(cfg, w, source, d.link);
    UpsertReadsBack(cfg.tables, to, w.Side(to), amb.fault.owner, d.winner.fields, amb.now);
  }

  lemma HealedLink(cfg: Config, w: World, source: Record, d: Decision, owner: Id, amb: Ambient)
    requires d.Write?
    ensures var after, to := AfterLink(cfg, w, source, d, owner, amb), Other(source.source);
            && after.Side(to) == AfterTarget(cfg, w, source, d, owner, amb).Side(to)
            && FindBySource(after.table, to, owner) == Some(d.cid)
            && to in after.table.links[d.cid].ids && after.table.links[d.cid].ids[to] == owner
  {
    StoredUnder(w.table, d.cid, FinalLink(cfg, source, d, owner, amb), Other(source.source), owner);
  }

  lemma StoredUnder(t: LinkTable, cid: Cid, link: Link, s: SystemId, id: Id)
    requires s in link.ids && link.ids[s] == id
    ensures FindBySource(Index(t, cid, link), s, id) == Some(cid) && Index(t, cid, link).links[cid] == link
  {
  }

  // ----- the key index -----

  /** Whatever the outcome, a reconciliation leaves the key index in order. */
  lemma ReconcileFilesKeys(cfg: Config, w: World, source: Record, amb: Ambient)
    requires KeysFiled(w.table) && amb.newCid !in w.table.links
    ensures KeysFiled(Reconcile(cfg, w, source, amb).0.table)
  {
    var d := Decide(cfg, w, source, amb.newCid);
    if d.Write? {
      DecisionParts(cfg, w, source, amb.newCid);
      KeysOnlyGrow(cfg, w, source, amb.newCid);
      var id := WrittenId(cfg, Other(source.source), d.target, amb);
      if id.Some? { IndexFilesKeys(w.table, d.cid, FinalLink(cfg, source, d, id.value, amb)); }
    }
  }

  lemma KeysOnlyGrow(cfg: Config, w: World, source: Record, newCid: Cid)
    requires newCid !in w.table.links && FindOrCreateLink(cfg, w, source, newCid).Found?
    ensures var l := FindOrCreateLink(cfg, w, source, newCid); l.cid in w.table.links ==> w.table.links[l.cid].keys <= l.link.keys
  {
  }

  /** A rejected write leaves everything as it was. */
  lemma RejectedChangesNothing(cfg: Config, w: World, source: Record, amb: Ambient)
    requires amb.fault == Rejects
    ensures var (after, outcome) := Reconcile(cfg, w, source, amb);
            after == w && outcome != Done && (outcome == Echo <==> Decide(cfg, w, source, amb.newCid) == Suppress)
  {
  }
}

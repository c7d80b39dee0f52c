/** What a preview promises about the reconciliation that follows it, and about a preview taken
    after one. */
module Previews {
  import opened Canonical
  import opened Mapping
  import opened Conflict
  import opened ContentHash
  import opened IdMap
  import opened Connector
  import opened Reconciler
  import opened Protocol
  import opened SmallWorlds

  // ----- what a preview reports -----

  /** The fields in which two records differ, each with the first record's value and the second's. */
  ghost predicate Differences(diff: map<string, FieldDiff>, a: Fields, b: Fields) {
    && (forall c :: c in diff <==> (c in a || c in b) && !(c in a && c in b && a[c] == b[c]))
    && (forall c :: c in diff ==> ShowsValue(diff[c].source, a, c) && ShowsValue(diff[c].target, b, c))
  }

  predicate ShowsValue(shown: Option<FieldValue>, f: Fields, c: string) {
    if c in f then shown == Some(f[c]) else shown == None
  }

  lemma DiffShowsDifferences(a: Fields, b: Fields)
    ensures Differences(DiffFields(a, b), a, b)
  {
  }

  /** The stored link a snapshot belongs to: the one of its native id, or else of its key. */
  ghost predicate BelongsTo(cfg: Config, w: World, source: Record, c: Cid) {
    || FindBySource(w.table, source.source, source.sourceId) == Some(c)
    || (FindBySource(w.table, source.source, source.sourceId) == None
        && exists key :: KeyFor(cfg, source.fields) == Some(key) && FindByKey(w.table, key) == Some(c))
  }

  /** What the link recorded for the side of `t` is not what the record holds now. */
  predicate MovedOn(cfg: Config, w: World, link: Link, to: SystemId, t: Id)
    requires t in w.Side(to).records
  {
    to in link.hashes && link.hashes[to] != HashOf(cfg, Canon(cfg.tables, to, w.Side(to), t))
  }

  /** Whose plan it is, and which record it compares the snapshot with. */
  ghost predicate Reports(cfg: Config, w: World, source: Record, cid: Option<Cid>, t: Id, plan: Plan)
    requires t in w.Side(Other(source.source)).records
  {
    && plan.cid == cid && plan.from == source.source && plan.sourceId == source.sourceId
    && plan.targetId == Some(t) && plan.key == KeyFor(cfg, source.fields)
    && Differences(plan.diff, source.fields, Canon(cfg.tables, Other(source.source), w.Side(Other(source.source)), t))
  }

  /** The action of a plan that compares two records: nothing to do exactly when they are the same,
      otherwise a conflict exactly when the target has moved on, and else a match if it will be newly
      linked and an update if not. */
  predicate Judges(action: Action, same: bool, moved: bool, newly: bool) {
    && (action == Skip <==> same)
    && (action == Conflict <==> !same && moved)
    && (action == Match <==> !same && !moved && newly)
    && (action == Update <==> !same && !moved && !newly)
  }

  predicate SameAs(cfg: Config, w: World, source: Record, t: Id)
    requires t in w.Side(Other(source.source)).records
  {
    source.fields == Canon(cfg.tables, Other(source.source), w.Side(Other(source.source)), t)
  }

  lemma ComparedReport(cfg: Config, w: World, source: Record, cid: Option<Cid>, link: Link, t: Id, matched: bool)
    requires t in w.Side(Other(source.source)).records
    ensures var to := Other(source.source);
            var plan := ComparePlan(cfg, source, cid, Some(link), Snapshot(cfg.tables, to, w.Side(to), t), matched);
            && Reports(cfg, w, source, cid, t, plan) && plan.warnings == (if matched then [WillBeLinked] else [])
            && Judges(plan.action, SameAs(cfg, w, source, t), MovedOn(cfg, w, link, to, t), matched && to !in link.ids)
  {
    var to := Other(source.source);
    NoDifference(source.fields, Canon(cfg.tables, to, w.Side(to), t));
    DiffShowsDifferences(source.fields, Canon(cfg.tables, to, w.Side(to), t));
  }

  /** With a live linked record the plan compares with it, and a conflict means that this record is no
      longer what was last recorded for it. */
  lemma LinkedReport(cfg: Config, w: World, source: Record, c: Cid, t: Id)
    requires BelongsTo(cfg, w, source, c)
    requires var to, link := Other(source.source), w.table.links[c];
             to in link.ids && link.ids[to] == t && t in w.Side(to).records
    ensures var to, plan := Other(source.source), Preview(cfg, w, source);
            && Reports(cfg, w, source, Some(c), t, plan) && plan.warnings == []
            && Judges(plan.action, SameAs(cfg, w, source, t), MovedOn(cfg, w, w.table.links[c], to, t), false)
  {
    LinkIsCompared(cfg, w, source, c, t);
    ComparedReport(cfg, w, source, Some(c), w.table.links[c], t, false);
  }

  lemma LinkIsCompared(cfg: Config, w: World, source: Record, c: Cid, t: Id)
    requires BelongsTo(cfg, w, source, c)
    requires var to, link := Other(source.source), w.table.links[c];
             to in link.ids && link.ids[to] == t && t in w.Side(to).records
    ensures Preview(cfg, w, source)
            == ComparePlan(cfg, source, Some(c), Some(w.table.links[c]),
                           Snapshot(cfg.tables, Other(source.source), w.Side(Other(source.source)), t), false)
  {
    KnownIs(cfg, w, source, Some(c));
  }

  /** No live record of the other side is linked to the snapshot. */
  ghost predicate NoTarget(w: World, to: SystemId, link: Option<Link>) {
    link.Some? && to in link.value.ids ==> link.value.ids[to] !in w.Side(to).records
  }

  /** Without one, but with exactly one record of the same key, the plan compares with that record and
      announces that it will be linked; whether it matches or updates it is what the link says. */
  lemma MatchedReport(cfg: Config, w: World, source: Record, c: Cid, key: string, t: Id)
    requires BelongsTo(cfg, w, source, c) && NoTarget(w, Other(source.source), Some(w.table.links[c]))
    requires KeyFor(cfg, source.fields) == Some(key) && Matches(cfg, w, Other(source.source), key) == {t}
    ensures var to, plan, link := Other(source.source), Preview(cfg, w, source), w.table.links[c];
            && t in w.Side(to).records
            && Reports(cfg, w, source, Some(c), t, plan) && plan.warnings == [WillBeLinked]
            && Judges(plan.action, SameAs(cfg, w, source, t), MovedOn(cfg, w, link, to, t), to !in link.ids)
  {
    MatchExists(cfg, w, Other(source.source), key, t);
    MatchIsCompared(cfg, w, source, c, key, t);
    ComparedReport(cfg, w, source, Some(c), w.table.links[c], t, true);
  }

  lemma MatchExists(cfg: Config, w: World, to: SystemId, key: string, t: Id)
    requires Matches(cfg, w, to, key) == {t}
    ensures t in w.Side(to).records
  {
    assert t in Matches(cfg, w, to, key);
  }

  lemma MatchIsCompared(cfg: Config, w: World, source: Record, c: Cid, key: string, t: Id)
    requires BelongsTo(cfg, w, source, c) && NoTarget(w, Other(source.source), Some(w.table.links[c]))
    requires KeyFor(cfg, source.fields) == Some(key) && Matches(cfg, w, Other(source.source), key) == {t}
    requires t in w.Side(Other(source.source)).records
    ensures Preview(cfg, w, source)
            == ComparePlan(cfg, source, Some(c), Some(w.table.links[c]),
                           Snapshot(cfg.tables, Other(source.source), w.Side(Other(source.source)), t), true)
  {
    KnownIs(cfg, w, source, Some(c));
    OnlyOne(t);
  }

  lemma OnlyOne(t: Id)
    ensures |{t}| == 1 && Only({t}) == t
  {
    assert t in {t} && Only({t}) in {t};
  }

  /** A record that no link knows is compared with the only record of the same key: it is a match, or
      already the same. */
  lemma FirstMatchReport(cfg: Config, w: World, source: Record, key: string, t: Id)
    requires FindBySource(w.table, source.source, source.sourceId) == None && FindByKey(w.table, key) == None
    requires KeyFor(cfg, source.fields) == Some(key) && Matches(cfg, w, Other(source.source), key) == {t}
    ensures var to, plan := Other(source.source), Preview(cfg, w, source);
            && t in w.Side(to).records
            && Reports(cfg, w, source, None, t, plan) && plan.warnings == [WillBeLinked]
            && plan.action == if SameAs(cfg, w, source, t) then Skip else Match
  {
    var to := Other(source.source);
    MatchExists(cfg, w, to, key, t);
    OnlyOne(t);
    NoDifference(source.fields, Canon(cfg.tables, to, w.Side(to), t));
    DiffShowsDifferences(source.fields, Canon(cfg.tables, to, w.Side(to), t));
  }

  /** The link that a snapshot belongs to, if any. */
  ghost predicate LinkIs(cfg: Config, w: World, source: Record, cid: Option<Cid>) {
    if cid.Some? then BelongsTo(cfg, w, source, cid.value) else forall c :: !BelongsTo(cfg, w, source, c)
  }

  /** With neither, the plan creates a record with every field of the snapshot, and warns if there is
      no key to find it by later; several records of the same key make it ambiguous. */
  lemma UnmatchedReport(cfg: Config, w: World, source: Record, cid: Option<Cid>)
    requires LinkIs(cfg, w, source, cid)
    requires NoTarget(w, Other(source.source), if cid.Some? then Some(w.table.links[cid.value]) else None)
    requires var key := KeyFor(cfg, source.fields);
             key.Some? ==> |Matches(cfg, w, Other(source.source), key.value)| != 1
    ensures var plan, key := Preview(cfg, w, source), KeyFor(cfg, source.fields);
            && plan.cid == cid && plan.from == source.source && plan.sourceId == source.sourceId
            && plan.targetId == None && plan.key == key
            && if key.Some? && |Matches(cfg, w, Other(source.source), key.value)| > 1 then
                 plan.action == AmbiguousMatch && plan.diff == map[]
                 && plan.warnings == [SharedKey(|Matches(cfg, w, Other(source.source), key.value)|)]
               else
                 plan.action == Create && Differences(plan.diff, source.fields, map[])
                 && plan.warnings == if key == None then [NoKey] else []
  {
    KnownIs(cfg, w, source, cid);
  }

  lemma KnownIs(cfg: Config, w: World, source: Record, cid: Option<Cid>)
    requires LinkIs(cfg, w, source, cid)
    ensures KnownLink(cfg, w, source) == cid
  {
    var known := KnownLink(cfg, w, source);
    if known.Some? { assert BelongsTo(cfg, w, source, known.value); }
  }

  /** So a preview reports a conflict exactly when reconciling the snapshot would resolve it against
      the linked record and the two are not the same already. */
  lemma ConflictMeansContention(cfg: Config, w: World, source: Record, c: Cid, t: Id)
    requires BelongsTo(cfg, w, source, c) && cfg.readCounterpart
    requires var to, link := Other(source.source), w.table.links[c];
             to in link.ids && link.ids[to] == t && t in w.Side(to).records && to in link.hashes
    ensures var to := Other(source.source);
            var target := Snapshot(cfg.tables, to, w.Side(to), t);
            Preview(cfg, w, source).action == Conflict
            <==> source.fields != target.fields && Contender(cfg, w, to, w.table.links[c]) == Some(target)
  {
    LinkedReport(cfg, w, source, c, t);
  }

  // ----- before -----

  /** A preview of a record that no link knows is one of four actions, and each says exactly what
      reconciling the record would do. */
  ghost predicate Predicted(cfg: Config, w: World, source: Record, amb: Ambient, action: Action) {
    var to, (after, outcome) := Other(source.source), Reconcile(cfg, w, source, amb);
    var before := w.Side(to).records.Keys;
    match action
    case Create =>
      outcome == Done && amb.newId !in before && after.Side(to).records.Keys == before + {amb.newId}
    case Match => MatchedOnly(cfg, w, after, source, outcome, amb.newCid)
    case Skip => MatchedOnly(cfg, w, after, source, outcome, amb.newCid)
    case AmbiguousMatch => outcome.Refused? && outcome.reason.AmbiguousKey? && after == w
    case _ => false
  }

  /** No record is created: the only record with the same key is linked to the source. */
  ghost predicate MatchedOnly(cfg: Config, w: World, after: World, source: Record, outcome: Outcome, cid: Cid) {
    var to, key := Other(source.source), KeyFor(cfg, source.fields);
    && outcome == Done && key.Some?
    && after.Side(to).records.Keys == w.Side(to).records.Keys
    && exists t :: Matches(cfg, w, to, key.value) == {t}
         && FindBySource(after.table, to, t) == Some(cid)
         && FindBySource(after.table, source.source, source.sourceId) == Some(cid)
  }

  /** With nothing linked, the number of records with the same key decides both. */
  lemma UnknownLink(cfg: Config, w: World, source: Record, newCid: Cid)
    requires KnownLink(cfg, w, source) == None
    ensures var to, key := Other(source.source), KeyFor(cfg, source.fields);
            var found := if key.Some? then Matches(cfg, w, to, key.value) else {};
            var keys := if key.Some? then {key.value} else {};
            var blank := Link(map[source.source := source.sourceId], map[], map[], keys);
            && FindOrCreateLink(cfg, w, source, newCid)
               == (if |found| > 1 then Ambiguous(|found|)
                   else if |found| == 1 then Found(newCid, blank.(ids := blank.ids[to := Only(found)]))
                   else Found(newCid, blank))
            && Preview(cfg, w, source).action
               == (if |found| > 1 then AmbiguousMatch
                   else if |found| == 1 then
                     if source.fields == Canon(cfg.tables, to, w.Side(to), Only(found)) then Skip else Match
                   else Create)
  {
    var to, key := Other(source.source), KeyFor(cfg, source.fields);
    if key.Some? && |Matches(cfg, w, to, key.value)| == 1 {
      NoDifference(source.fields, Canon(cfg.tables, to, w.Side(to), Only(Matches(cfg, w, to, key.value))));
    }
  }

  lemma NoDifference(a: Fields, b: Fields)
    ensures DiffFields(a, b) == map[] <==> a == b
  {
    if DiffFields(a, b) == map[] {
      forall c | c in a.Keys + b.Keys ensures Payload(a, c) == Payload(b, c) {
        assert c !in DiffFields(a, b);
      }
    }
  }

  lemma IndexedIds(t: LinkTable, cid: Cid, link: Link, s: SystemId)
    requires s in link.ids
    ensures FindBySource(Index(t, cid, link), s, link.ids[s]) == Some(cid)
  {
  }

  /** A stored link is found under both ids that the run stored, and one record was written. */
  lemma StoredIsFound(cfg: Config, w: World, after: World, source: Record, d: Decision, id: Id, amb: Ambient)
    requires d.Write? && after == AfterLink(cfg, w, source, d, id, amb)
    ensures FindBySource(after.table, Other(source.source), id) == Some(d.cid)
    ensures FindBySource(after.table, source.source, source.sourceId) == Some(d.cid)
  {
    IndexedIds(w.table, d.cid, FinalLink(cfg, source, d, id, amb), Other(source.source));
    IndexedIds(w.table, d.cid, FinalLink(cfg, source, d, id, amb), source.source);
  }

  lemma TargetKeys(cfg: Config, w: World, after: World, source: Record, d: Decision, id: Id, amb: Ambient)
    requires d.Write? && after == AfterLink(cfg, w, source, d, id, amb)
    ensures after.Side(Other(source.source)).records.Keys == w.Side(Other(source.source)).records.Keys + {id}
  {
  }

  /** The winner of the run would leave a field blank that the target requires. */
  predicate WouldLack(cfg: Config, w: World, source: Record, newCid: Cid) {
    var located := FindOrCreateLink(cfg, w, source, newCid);
    located.Found? && LacksRequired(cfg, Other(source.source), Winner(cfg, w, source, located.link).fields)
  }

  /** What the search decides about the run, required fields aside. */
  lemma UnknownDecision(cfg: Config, w: World, source: Record, amb: Ambient)
    requires KnownLink(cfg, w, source) == None && FreshIds(w, Other(source.source), amb)
    requires !WouldLack(cfg, w, source, amb.newCid)
    ensures var (after, outcome) := Reconcile(cfg, w, source, amb);
            var to, key, d := Other(source.source), KeyFor(cfg, source.fields), Decide(cfg, w, source, amb.newCid);
            var found := if key.Some? then Matches(cfg, w, to, key.value) else {};
            if |found| > 1 then after == w && outcome == Refused(AmbiguousKey(|found|))
            else
              && d.Write? && outcome == Done && d.cid == amb.newCid
              && d.target == (if |found| == 1 then Some(Only(found)) else None)
              && after == AfterLink(cfg, w, source, d, TargetOf(d, amb), amb)
  {
    UnknownLink(cfg, w, source, amb.newCid);
    NewLinkRuns(cfg, w, source, amb);
  }

  /** A run whose link is new is refused on several matches and otherwise goes through. */
  lemma NewLinkRuns(cfg: Config, w: World, source: Record, amb: Ambient)
    requires !WouldLack(cfg, w, source, amb.newCid) && amb.fault == NoFault
    requires var located := FindOrCreateLink(cfg, w, source, amb.newCid); located.Found? ==> located.link.hashes == map[]
    ensures var (after, outcome) := Reconcile(cfg, w, source, amb);
            var to, d := Other(source.source), Decide(cfg, w, source, amb.newCid);
            match FindOrCreateLink(cfg, w, source, amb.newCid)
            case Ambiguous(count) => after == w && outcome == Refused(AmbiguousKey(count))
            case Found(cid, link) =>
              && d.Write? && outcome == Done && d.cid == cid
              && d.target == (if to in link.ids then Some(link.ids[to]) else None)
              && after == AfterLink(cfg, w, source, d, TargetOf(d, amb), amb)
  {
  }

  /** The preview of an unknown record says what its reconciliation does: one new record, a match
      with the only candidate, or a refusal before any write. What it does not say is whether the
      run would leave a required field blank, which refuses it before any write too. */
  lemma PreviewPredicts(cfg: Config, w: World, source: Record, amb: Ambient)
    requires KnownLink(cfg, w, source) == None && FreshIds(w, Other(source.source), amb)
    ensures if WouldLack(cfg, w, source, amb.newCid) then Reconcile(cfg, w, source, amb) == (w, Refused(MissingRequired))
            else Predicted(cfg, w, source, amb, Preview(cfg, w, source).action)
  {
    if WouldLack(cfg, w, source, amb.newCid) {
      UnknownLink(cfg, w, source, amb.newCid);
    } else {
      PreviewKeepsWord(cfg, w, source, amb);
    }
  }

  lemma PreviewKeepsWord(cfg: Config, w: World, source: Record, amb: Ambient)
    requires KnownLink(cfg, w, source) == None && FreshIds(w, Other(source.source), amb)
    requires !WouldLack(cfg, w, source, amb.newCid)
    ensures Predicted(cfg, w, source, amb, Preview(cfg, w, source).action)
  {
    UnknownLink(cfg, w, source, amb.newCid);
    UnknownDecision(cfg, w, source, amb);
    var d, after, key := Decide(cfg, w, source, amb.newCid), Reconcile(cfg, w, source, amb).0, KeyFor(cfg, source.fields);
    if d.Write? {
      TargetKeys(cfg, w, after, source, d, TargetOf(d, amb), amb);
      if d.target.Some? {
        StoredIsFound(cfg, w, after, source, d, d.target.value, amb);
        CandidateMatched(cfg, w, after, source, Done, amb.newCid, d.target.value);
      }
    }
  }

  lemma CandidateMatched(cfg: Config, w: World, after: World, source: Record, outcome: Outcome, cid: Cid, t: Id)
    requires outcome == Done && KeyFor(cfg, source.fields).Some?
    requires Matches(cfg, w, Other(source.source), KeyFor(cfg, source.fields).value) == {t}
    requires after.Side(Other(source.source)).records.Keys == w.Side(Other(source.source)).records.Keys + {t}
    requires FindBySource(after.table, Other(source.source), t) == Some(cid)
    requires FindBySource(after.table, source.source, source.sourceId) == Some(cid)
    ensures MatchedOnly(cfg, w, after, source, outcome, cid)
  {
    assert t in Matches(cfg, w, Other(source.source), KeyFor(cfg, source.fields).value);
  }

  // ----- after -----

  /** A linked pair whose digests are the recorded ones previews as unchanged exactly when the two
      canonical records are identical; otherwise as an update, never as a conflict. */
  lemma LinkedPreview(cfg: Config, w: World, source: Record, c: Cid, t: Id)
    requires FindBySource(w.table, source.source, source.sourceId) == Some(c)
    requires var to, link := Other(source.source), w.table.links[c];
             && to in link.ids && link.ids[to] == t && t in w.Side(to).records
             && to in link.hashes && link.hashes[to] == HashOf(cfg, Canon(cfg.tables, to, w.Side(to), t))
    ensures Preview(cfg, w, source).action
            == if source.fields == Canon(cfg.tables, Other(source.source), w.Side(Other(source.source)), t) then Skip else Update
  {
    NoDifference(source.fields, Canon(cfg.tables, Other(source.source), w.Side(Other(source.source)), t));
  }

  /** After a successful reconciliation a fresh preview reports nothing to do, unless the winner
      and the source differ only in a way the digest does not see and so were not written back. */
  lemma PreviewAfterReconcile(cfg: Config, w: World, source: Record, amb: Ambient)
    requires Settled(cfg.tables) && Ready(cfg, w, source, amb)
    requires Reconcile(cfg, w, source, amb).1 == Done
    ensures var after, d := Reconcile(cfg, w, source, amb).0, Decide(cfg, w, source, amb.newCid);
            && d.Write? && source.sourceId in after.Side(source.source).records
            && Preview(cfg, after, Snapshot(cfg.tables, source.source, after.Side(source.source), source.sourceId)).action
               == if WritesBack(cfg, source, d) || d.winner.fields == source.fields then Skip else Update
  {
    ReconcileIsStep(cfg, w, source, amb);
    var after, d := Reconcile(cfg, w, source, amb).0, Decide(cfg, w, source, amb.newCid);
    StepPreview(cfg, w, after, source, d, TargetOf(d, amb), amb);
  }

  lemma StepPreview(cfg: Config, w: World, after: World, source: Record, d: Decision, t: Id, amb: Ambient)
    requires d.Write? && StepOk(cfg, w, after, source, d, t, amb)
    ensures source.sourceId in after.Side(source.source).records
    ensures Preview(cfg, after, Snapshot(cfg.tables, source.source, after.Side(source.source), source.sourceId)).action
            == if WritesBack(cfg, source, d) || d.winner.fields == source.fields then Skip else Update
  {
    StepSyncsPair(cfg, w, after, source, d, t, amb);
    StepKeepsTable(cfg, w, after, source, d, t, amb);
    var from, to := source.source, Other(source.source);
    SyncedBy(cfg, after, from, source.sourceId, d.cid);
    SyncedBy(cfg, after, to, t, d.cid);
    LinkedPreview(cfg, after, Snapshot(cfg.tables, from, after.Side(from), source.sourceId), d.cid, t);
  }

  // ----- an update after a successful run -----

  /** Salesforce has cleared x and set y; meanwhile HubSpot has emptied x. */
  const NULLED := SfRecord(TwoFields(Null, Str("2")), 2)
  const EMPTIED := HsRecord(TwoFields(Str(""), Str("1")), 1)

  /** The merge takes the empty text for x, which the digest does not tell from null. */
  lemma MergedUnseen(host: Host)
    ensures var cfg := PlainConfig(host, FieldMerge);
            var f := Resolve(NULLED, EMPTIED, PolicyOf(cfg)).winner.fields;
            f != NULLED.fields && HashOf(cfg, f) == HashOf(cfg, NULLED.fields)
  {
    PlainPolicy(host, FieldMerge);
    var f := Resolve(NULLED, EMPTIED, PolicyOf(PlainConfig(host, FieldMerge))).winner.fields;
    assert f == TwoFields(Str(""), Str("2"));
    assert f["x"] != NULLED.fields["x"];
    assert Normal(host, f) == Normal(host, NULLED.fields);
    HashOfNormal(host, f, NULLED.fields);
  }

  /** A linked record with news whose changed counterpart yields another winner with the same digest
      is not written back, and so previews as an update. */
  lemma UnseenUpdate(cfg: Config, w: World, source: Record, other: Record, h: string, amb: Ambient)
    requires Settled(cfg.tables) && Ready(cfg, w, source, amb) && cfg.required == map[] && cfg.readCounterpart
    requires OnePair(w, h) && h != HashOf(cfg, source.fields) && h != HashOf(cfg, other.fields)
    requires source.source == Salesforce && source.sourceId == "a" && Peek(cfg, w, Hubspot, "b") == Some(other)
    requires var f := Resolve(source, other, PolicyOf(cfg)).winner.fields; f != source.fields && HashOf(cfg, f) == HashOf(cfg, source.fields)
    ensures UpdateAfter(cfg, w, source, amb)
  {
    NewsIsWritten(cfg, w, source, "c", h, amb.newCid);
    PairContender(cfg, w, other, h);
    PreviewAfterReconcile(cfg, w, source, amb);
  }

  /** The run succeeds, and a preview right after it reports an update. */
  ghost predicate UpdateAfter(cfg: Config, w: World, source: Record, amb: Ambient) {
    var (after, outcome) := Reconcile(cfg, w, source, amb);
    && outcome == Done && source.sourceId in after.Side(source.source).records
    && Preview(cfg, after, Snapshot(cfg.tables, source.source, after.Side(source.source), source.sourceId)).action == Update
  }

  lemma PairContender(cfg: Config, w: World, other: Record, h: string)
    requires OnePair(w, h) && h != HashOf(cfg, other.fields) && cfg.readCounterpart
    requires Peek(cfg, w, Hubspot, "b") == Some(other)
    ensures Contender(cfg, w, Hubspot, w.table.links["c"]) == Some(other)
  {
  }

  /** So an update right after a successful run does happen. */
  lemma PreviewUpdates(host: Host, h: string, amb: Ambient)
    requires h != Hash(host, NULLED.fields) && h != Hash(host, EMPTIED.fields)
    requires amb.newCid != "c" && amb.newId != "b" && amb.fault == NoFault
    ensures UpdateAfter(PlainConfig(host, FieldMerge), PairWorld(NULLED.fields, 2, EMPTIED.fields, 1, h), NULLED, amb)
  {
    var cfg, w := PlainConfig(host, FieldMerge), PairWorld(NULLED.fields, 2, EMPTIED.fields, 1, h);
    PairTable(NULLED.fields, 2, EMPTIED.fields, 1, h);
    PairReads(host, FieldMerge, Null, Str("2"), 2, Str(""), Str("1"), 1, h);
    PlainSettled(host);
    NewsReady(cfg, w, NULLED, h, amb);
    MergedUnseen(host);
    UnseenUpdate(cfg, w, NULLED, EMPTIED, h, amb);
  }

  lemma NewsReady(cfg: Config, w: World, source: Record, h: string, amb: Ambient)
    requires AlwaysCarried(cfg.tables) && Settled(cfg.tables) && OnePair(w, h) && Current(cfg, w, source)
    requires source.source == Salesforce && source.sourceId == "a"
    requires amb.newCid != "c" && amb.newId != "b" && amb.fault == NoFault
    ensures Ready(cfg, w, source, amb)
  {
    PairReady(cfg, w, source, amb);
  }
}

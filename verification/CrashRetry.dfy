/** A reconciliation cut off after any of its external writes and then retried on a fresh read. */
module CrashRetry {
  import opened Canonical
  import opened Mapping
  import opened Conflict
  import opened ContentHash
  import opened IdMap
  import opened Connector
  import opened Reconciler
  import opened Protocol
  import opened SmallWorlds

  /** How far a run got before it was cut off: past the write to the target, past the write-back,
      or past storing the link. (Before its first write a run has left nothing behind.) */
  datatype Cut = TargetWritten | WrittenBack | LinkStored

  function CutWorld(cfg: Config, w: World, source: Record, d: Decision, amb: Ambient, cut: Cut): World
    requires d.Write?
  {
    match cut
    case TargetWritten => AfterTarget(cfg, w, source, d, TargetOf(d, amb), amb)
    case WrittenBack => AfterWriteBack(cfg, w, source, d, TargetOf(d, amb), amb)
    case LinkStored => AfterLink(cfg, w, source, d, TargetOf(d, amb), amb)
  }

  // ----- what a finished run leaves -----

  function DigestAt(cfg: Config, w: World, s: SystemId, id: Id): Option<string> {
    if id in w.Side(s).records then Some(HashOf(cfg, Canon(cfg.tables, s, w.Side(s), id))) else None
  }

  /** Both records of the pair have the digest `h`, and the target side holds the records `ids`. */
  ghost predicate EndsAs(cfg: Config, w: World, from: SystemId, id: Id, t: Id, h: string, ids: set<Id>) {
    && DigestAt(cfg, w, from, id) == Some(h)
    && DigestAt(cfg, w, Other(from), t) == Some(h)
    && w.Side(Other(from)).records.Keys == ids
  }

  lemma StepEnds(cfg: Config, w: World, after: World, source: Record, d: Decision, t: Id, amb: Ambient)
    requires StepOk(cfg, w, after, source, d, t, amb)
    ensures EndsAs(cfg, after, source.source, source.sourceId, t, HashOf(cfg, d.winner.fields),
                   w.Side(Other(source.source)).records.Keys + {t})
  {
  }

  // ----- the world in between -----

  /** The target has been written, the source too if `back`, and the link not yet. */
  ghost predicate HalfDone(cfg: Config, w: World, mid: World, source: Record, d: Decision, t: Id, amb: Ambient, back: bool)
    requires d.Write?
  {
    var from, to := source.source, Other(source.source);
    && mid.table == w.table
    && OneWrite(cfg.tables, to, w.Side(to), mid.Side(to), t, d.winner.fields, amb.now)
    && (if back then OneWrite(cfg.tables, from, w.Side(from), mid.Side(from), source.sourceId, d.winner.fields, amb.later)
        else mid.Side(from) == w.Side(from))
  }

  lemma CutIsHalf(cfg: Config, w: World, source: Record, d: Decision, amb: Ambient)
    requires Settled(cfg.tables) && OwnsLink(source, d) && Admissible(cfg.tables, d.winner.fields)
    ensures HalfDone(cfg, w, CutWorld(cfg, w, source, d, amb, TargetWritten), source, d, TargetOf(d, amb), amb, false)
    ensures HalfDone(cfg, w, CutWorld(cfg, w, source, d, amb, WrittenBack), source, d, TargetOf(d, amb), amb,
                     WritesBack(cfg, source, d))
  {
    StepEffect(cfg, w, source, d, TargetOf(d, amb), amb);
    CutShares(cfg, w, source, d, amb);
  }

  /** A cut run has written what the whole run writes there. */
  lemma CutShares(cfg: Config, w: World, source: Record, d: Decision, amb: Ambient)
    requires d.Write?
    ensures var from, to, whole := source.source, Other(source.source), AfterLink(cfg, w, source, d, TargetOf(d, amb), amb);
            var first, second := CutWorld(cfg, w, source, d, amb, TargetWritten), CutWorld(cfg, w, source, d, amb, WrittenBack);
            && first.table == w.table && first.Side(to) == whole.Side(to) && first.Side(from) == w.Side(from)
            && second.table == w.table && second.Side(to) == whole.Side(to) && second.Side(from) == whole.Side(from)
  {
  }

  /** The retry can find the target: it is linked or matched already, or the record has a key. */
  predicate TargetFindable(cfg: Config, source: Record, d: Decision)
    requires d.Write?
  {
    d.target.Some? || KeyFor(cfg, source.fields).Some?
  }

  // ----- locating the target again -----

  /** Where a retry has to search by key, a field merge keeps the key of the source. */
  ghost predicate KeySurvives(cfg: Config, w: World, source: Record) {
    Linked(w, source.source, source.sourceId) || SafeKey(cfg, KeyFor(cfg, source.fields))
  }

  /** An unlinked source's winner has the source's key. */
  lemma UnlinkedWinnerKey(cfg: Config, w: World, source: Record, amb: Ambient)
    requires Settled(cfg.tables) && SafeKey(cfg, KeyFor(cfg, source.fields))
    requires Ready(cfg, w, source, amb) && !Linked(w, source.source, source.sourceId)
    requires Decide(cfg, w, source, amb.newCid).Write? && KeyFor(cfg, source.fields).Some?
    ensures KeyFor(cfg, Decide(cfg, w, source, amb.newCid).winner.fields) == KeyFor(cfg, source.fields)
  {
    var d, to := Decide(cfg, w, source, amb.newCid), Other(source.source);
    DecisionParts(cfg, w, source, amb.newCid);
    var contender := Contender(cfg, w, to, d.link);
    if contender.Some? {
      assert d.link.ids[to] in Matches(cfg, w, to, KeyFor(cfg, source.fields).value);
      assert contender.value.fields.Keys == Names(cfg.tables.Rules(to)) == Names(cfg.tables.Rules(source.source)) == source.fields.Keys;
      ResolvedKey(cfg, source, contender.value);
    }
  }

  lemma UntouchedKey(cfg: Config, before: Crm, after: Crm, s: SystemId, x: Id)
    requires x in before.records && x in after.records && after.records[x] == before.records[x]
    ensures KeyOf(cfg.tables, cfg.keyFields, s, after, x) == KeyOf(cfg.tables, cfg.keyFields, s, before, x)
  {
  }

  /** After the write exactly the written record has the key. */
  lemma OnlyWrittenMatches(cfg: Config, before: Crm, after: Crm, s: SystemId, key: string, t: Id, fields: Fields, now: Time)
    requires OneWrite(cfg.tables, s, before, after, t, fields, now)
    requires KeyFor(cfg, fields) == Some(key) && Candidates(cfg.tables, cfg.keyFields, s, before, key) <= {t}
    ensures Candidates(cfg.tables, cfg.keyFields, s, after, key) == {t}
  {
    forall x | x in after.records && x != t
      ensures x !in Candidates(cfg.tables, cfg.keyFields, s, after, key)
    {
      UntouchedKey(cfg, before, after, s, x);
      assert x !in Candidates(cfg.tables, cfg.keyFields, s, before, key);
    }
    assert KeyOf(cfg.tables, cfg.keyFields, s, after, t) == Some(key);
  }

  /** What the retry works with: the located link names the same target and remembers the same
      digests as the run that was cut off. */
  ghost predicate FoundAgain(cfg: Config, mid: World, source: Record, again: Record, d: Decision, t: Id, newCid: Cid)
    requires d.Write?
  {
    var to, found := Other(source.source), FindOrCreateLink(cfg, mid, again, newCid);
    && found.Found? && to in found.link.ids && found.link.ids[to] == t
    && found.link.hashes == d.link.hashes
  }

  lemma LinkedAgain(cfg: Config, w: World, mid: World, source: Record, again: Record, d: Decision, amb: Ambient, newCid: Cid)
    requires TableOk(w) && ShapeOk(w, source, d, amb) && mid.table == w.table
    requires Linked(w, source.source, source.sourceId)
    requires again.source == source.source && again.sourceId == source.sourceId
    ensures MatchOk(cfg, mid, again) && FoundAgain(cfg, mid, source, again, d, TargetOf(d, amb), newCid)
  {
  }

  /** What a decision for an unlinked record with a key says about the candidates. */
  lemma UnlinkedMatches(cfg: Config, w: World, source: Record, amb: Ambient)
    requires TableOk(w) && Current(cfg, w, source) && MatchOk(cfg, w, source) && FreshIds(w, Other(source.source), amb)
    requires Decide(cfg, w, source, amb.newCid).Write?
    requires !Linked(w, source.source, source.sourceId) && KeyFor(cfg, source.fields).Some?
    ensures var d, key, to := Decide(cfg, w, source, amb.newCid), KeyFor(cfg, source.fields).value, Other(source.source);
            && FindByKey(w.table, key) == None
            && Matches(cfg, w, to, key) <= {TargetOf(d, amb)}
            && d.link.hashes == map[]
            && !Linked(w, to, TargetOf(d, amb))
  {
    DecisionParts(cfg, w, source, amb.newCid);
    UnlinkedLocated(cfg, w, source, amb.newCid);
    LinkedIffIndexed(w, Other(source.source), TargetOf(Decide(cfg, w, source, amb.newCid), amb));
  }

  /** Without a link, the search by key decides the link to be made. */
  lemma UnlinkedLocated(cfg: Config, w: World, source: Record, newCid: Cid)
    requires MatchOk(cfg, w, source) && !Linked(w, source.source, source.sourceId) && KeyFor(cfg, source.fields).Some?
    requires FindOrCreateLink(cfg, w, source, newCid).Found?
    ensures var link, to := FindOrCreateLink(cfg, w, source, newCid).link, Other(source.source);
            var found := Matches(cfg, w, to, KeyFor(cfg, source.fields).value);
            && FindByKey(w.table, KeyFor(cfg, source.fields).value) == None && link.hashes == map[]
            && (to in link.ids ==> found == {link.ids[to]} && !Linked(w, to, link.ids[to]))
            && (to !in link.ids ==> found == {})
  {
  }

  lemma UnlinkedAgain(cfg: Config, w: World, mid: World, source: Record, again: Record, d: Decision, t: Id, newCid: Cid, key: string)
    requires mid.table == w.table && !Linked(w, source.source, source.sourceId)
    requires again.source == source.source && again.sourceId == source.sourceId
    requires KeyFor(cfg, again.fields) == Some(key) && FindByKey(w.table, key) == None
    requires Matches(cfg, mid, Other(source.source), key) == {t}
    requires d.Write? && d.link.hashes == map[] && !Linked(w, Other(source.source), t)
    ensures MatchOk(cfg, mid, again) && FoundAgain(cfg, mid, source, again, d, t, newCid)
  {
  }

  /** On any half-done world the retry finds its way back to the same target. */
  lemma LocatedAgain(cfg: Config, w: World, mid: World, source: Record, again: Record, d: Decision, amb: Ambient,
                     back: bool, newCid: Cid)
    requires Settled(cfg.tables) && KeySurvives(cfg, w, source)
    requires Ready(cfg, w, source, amb) && d == Decide(cfg, w, source, amb.newCid) && d.Write?
    requires TargetFindable(cfg, source, d)
    requires HalfDone(cfg, w, mid, source, d, TargetOf(d, amb), amb, back)
    requires again.source == source.source && again.sourceId == source.sourceId
    requires again.fields == if back then d.winner.fields else source.fields
    ensures MatchOk(cfg, mid, again) && FoundAgain(cfg, mid, source, again, d, TargetOf(d, amb), newCid)
  {
    DecisionShape(cfg, w, source, amb);
    if Linked(w, source.source, source.sourceId) {
      LinkedAgain(cfg, w, mid, source, again, d, amb, newCid);
    } else {
      var t, to := TargetOf(d, amb), Other(source.source);
      UnlinkedHasKey(cfg, w, source, amb);
      var key := KeyFor(cfg, source.fields).value;
      UnlinkedMatches(cfg, w, source, amb);
      UnlinkedWinnerKey(cfg, w, source, amb);
      OnlyWrittenMatches(cfg, w.Side(to), mid.Side(to), to, key, t, d.winner.fields, amb.now);
      UnlinkedAgain(cfg, w, mid, source, again, d, t, newCid, key);
    }
  }

  lemma UnlinkedHasKey(cfg: Config, w: World, source: Record, amb: Ambient)
    requires !Linked(w, source.source, source.sourceId)
    requires var d := Decide(cfg, w, source, amb.newCid); d.Write? && TargetFindable(cfg, source, d)
    ensures KeyFor(cfg, source.fields).Some?
  {
    DecisionParts(cfg, w, source, amb.newCid);
  }

  /** The half-done world meets the hypotheses of another reconciliation. */
  lemma HalfTable(w: World, mid: World)
    requires TableOk(w) && mid.table == w.table
    requires w.sf.records.Keys <= mid.sf.records.Keys && w.hs.records.Keys <= mid.hs.records.Keys
    ensures TableOk(mid)
  {
  }

  lemma HalfCarried(cfg: Config, w: World, mid: World, source: Record, d: Decision, amb: Ambient, back: bool)
    requires Ready(cfg, w, source, amb) && d == Decide(cfg, w, source, amb.newCid) && d.Write?
    requires HalfDone(cfg, w, mid, source, d, TargetOf(d, amb), amb, back)
    ensures AllCarried(cfg.tables, mid)
  {
    var from, to := source.source, Other(source.source);
    DecisionParts(cfg, w, source, amb.newCid);
    WinnerAdmissible(cfg, w, source, d.link);
    OneWriteCarried(cfg.tables, to, w.Side(to), mid.Side(to), TargetOf(d, amb), d.winner.fields, amb.now);
    if back {
      OneWriteCarried(cfg.tables, from, w.Side(from), mid.Side(from), source.sourceId, d.winner.fields, amb.later);
    }
  }

  // ----- the winner of the retry -----

  /** The one way a retry goes wrong: the merged content happens to be what the link last recorded
      for the target, so the retry takes the target for unchanged and writes the source over it. */
  predicate Misread(cfg: Config, source: Record, d: Decision)
    requires d.Write?
  {
    var to := Other(source.source);
    && to in d.link.hashes && d.link.hashes[to] == HashOf(cfg, d.winner.fields)
    && HashOf(cfg, d.winner.fields) != HashOf(cfg, source.fields)
  }

  /** Only a field merge can misread. */
  lemma OnlyMergesMisread(cfg: Config, w: World, source: Record, amb: Ambient)
    requires Decide(cfg, w, source, amb.newCid).Write?
    requires Misread(cfg, source, Decide(cfg, w, source, amb.newCid))
    ensures cfg.strategy == FieldMerge && cfg.readCounterpart
  {
    DecisionParts(cfg, w, source, amb.newCid);
  }

  /** Resolving again against the winner, written later than both snapshots, is the winner. */
  lemma WinnerAgain(cfg: Config, w: World, mid: World, source: Record, d: Decision, t: Id, amb: Ambient, link: Link)
    requires d.Write? && d.winner == Winner(cfg, w, source, d.link)
    requires HalfDone(cfg, w, mid, source, d, t, amb, false)
    requires Other(source.source) in link.ids && link.ids[Other(source.source)] == t && link.hashes == d.link.hashes
    requires Other(source.source) in d.link.ids ==> d.link.ids[Other(source.source)] == t
    requires amb.now >= source.modifiedAt
    requires t in w.Side(Other(source.source)).records ==> amb.now >= w.Side(Other(source.source)).records[t].modifiedAt
    ensures Misread(cfg, source, d) ==> Winner(cfg, mid, source, link).fields == source.fields
    ensures !Misread(cfg, source, d) ==> HashOf(cfg, Winner(cfg, mid, source, link).fields) == HashOf(cfg, d.winner.fields)
    ensures !Misread(cfg, source, d) ==>
              Winner(cfg, mid, source, link).fields == d.winner.fields
              || HashOf(cfg, source.fields) == HashOf(cfg, d.winner.fields)
  {
    var to := Other(source.source);
    var first, second := Contender(cfg, w, to, d.link), Contender(cfg, mid, to, link);
    if second.Some? {
      assert second.value == Record(d.winner.fields, to, t, amb.now);
      if first.Some? {
        ResolveAbsorbs(PolicyOf(cfg), source, first.value, amb.now);
        assert second.value == first.value.(fields := d.winner.fields, modifiedAt := amb.now);
      } else {
        ResolveAgreed(PolicyOf(cfg), source, second.value);
      }
    }
  }

  /** After the write-back both records hold the winner, so that is what a retry resolves to. */
  lemma WinnerAfterWriteBack(cfg: Config, w: World, mid: World, source: Record, again: Record, d: Decision, t: Id, amb: Ambient, link: Link)
    requires d.Write? && HalfDone(cfg, w, mid, source, d, t, amb, true)
    requires again.source == source.source && again.fields == d.winner.fields
    requires Other(source.source) in link.ids && link.ids[Other(source.source)] == t
    ensures Winner(cfg, mid, again, link).fields == d.winner.fields
  {
    var contender := Contender(cfg, mid, Other(source.source), link);
    if contender.Some? {
      ResolveAgreed(PolicyOf(cfg), again, contender.value);
    }
  }

  // ----- the retry -----

  /** The located link and the winner of the retry decide what it does. */
  lemma RetryDecision(cfg: Config, mid: World, source: Record, again: Record, d: Decision, t: Id, newCid: Cid)
    requires d.Write? && FoundAgain(cfg, mid, source, again, d, t, newCid) && again.source == source.source
    ensures var d2, from, link := Decide(cfg, mid, again, newCid), source.source, FindOrCreateLink(cfg, mid, again, newCid).link;
            var winner := Winner(cfg, mid, again, link);
            && (d2.Write? ==> d2.target == Some(t) && d2.winner == winner)
            && (d2.Write? || LacksRequired(cfg, Other(from), winner.fields)
                || (from in d.link.hashes && d.link.hashes[from] == HashOf(cfg, again.fields)))
  {
  }

  lemma RetryEnds(cfg: Config, mid: World, again: Record, amb: Ambient, t: Id)
    requires Settled(cfg.tables) && Ready(cfg, mid, again, amb)
    requires var d2 := Decide(cfg, mid, again, amb.newCid); d2.Write? ==> d2.target == Some(t)
    ensures var d2, after := Decide(cfg, mid, again, amb.newCid), ReconcileNow(cfg, mid, again.source, again.sourceId, amb);
            && (d2.Write? ==> EndsAs(cfg, after, again.source, again.sourceId, t, HashOf(cfg, d2.winner.fields),
                                     mid.Side(Other(again.source)).records.Keys + {t}))
            && (!d2.Write? ==> after == mid)
  {
    ReconcileIsStep(cfg, mid, again, amb);
    var d2, after := Decide(cfg, mid, again, amb.newCid), ReconcileNow(cfg, mid, again.source, again.sourceId, amb);
    if d2.Write? {
      StepEnds(cfg, mid, after, again, d2, t, amb);
    }
  }

  /** The half-done world is ready for the retry. */
  lemma HalfReady(cfg: Config, w: World, mid: World, source: Record, again: Record, d: Decision, amb: Ambient, back: bool, amb2: Ambient)
    requires Settled(cfg.tables) && KeySurvives(cfg, w, source)
    requires Ready(cfg, w, source, amb) && d == Decide(cfg, w, source, amb.newCid) && d.Write?
    requires TargetFindable(cfg, source, d)
    requires HalfDone(cfg, w, mid, source, d, TargetOf(d, amb), amb, back)
    requires Current(cfg, mid, again) && again.source == source.source && again.sourceId == source.sourceId
    requires FreshIds(mid, Other(source.source), amb2)
    ensures again.fields == if back then d.winner.fields else source.fields
    ensures Ready(cfg, mid, again, amb2) && FoundAgain(cfg, mid, source, again, d, TargetOf(d, amb), amb2.newCid)
  {
    assert again.fields == if back then d.winner.fields else source.fields;
    LocatedAgain(cfg, w, mid, source, again, d, amb, back, amb2.newCid);
    HalfTable(w, mid);
    HalfCarried(cfg, w, mid, source, d, amb, back);
  }

  /** What the half-done world itself holds. */
  lemma HalfDigests(cfg: Config, w: World, mid: World, source: Record, d: Decision, t: Id, amb: Ambient, back: bool)
    requires d.Write? && Current(cfg, w, source) && HalfDone(cfg, w, mid, source, d, t, amb, back)
    ensures DigestAt(cfg, mid, source.source, source.sourceId)
            == Some(HashOf(cfg, if back then d.winner.fields else source.fields))
    ensures DigestAt(cfg, mid, Other(source.source), t) == Some(HashOf(cfg, d.winner.fields))
    ensures mid.Side(Other(source.source)).records.Keys == w.Side(Other(source.source)).records.Keys + {t}
  {
  }

  /** Cut off after the target write, the retry ends as the whole run does unless it misreads. */
  lemma RetryFromTarget(cfg: Config, w: World, mid: World, source: Record, d: Decision, amb: Ambient, amb2: Ambient)
    requires Settled(cfg.tables) && Ready(cfg, w, source, amb) && d.Write?
    requires HalfDone(cfg, w, mid, source, d, TargetOf(d, amb), amb, false)
    requires Ready(cfg, mid, source, amb2) && FoundAgain(cfg, mid, source, source, d, TargetOf(d, amb), amb2.newCid)
    requires d.winner == Winner(cfg, w, source, d.link) && !LacksRequired(cfg, Other(source.source), d.winner.fields)
    requires d.target == if Other(source.source) in d.link.ids then Some(d.link.ids[Other(source.source)]) else None
    requires !(source.source in d.link.hashes && d.link.hashes[source.source] == HashOf(cfg, source.fields))
    requires amb.now >= source.modifiedAt
    requires var to, t := Other(source.source), TargetOf(d, amb);
             t in w.Side(to).records ==> amb.now >= w.Side(to).records[t].modifiedAt
    ensures var to, t := Other(source.source), TargetOf(d, amb);
            EndsAs(cfg, ReconcileNow(cfg, mid, source.source, source.sourceId, amb2), source.source, source.sourceId, t,
                   HashOf(cfg, d.winner.fields), w.Side(to).records.Keys + {t})
            <==> !Misread(cfg, source, d)
  {
    var t, link := TargetOf(d, amb), FindOrCreateLink(cfg, mid, source, amb2.newCid).link;
    WinnerAgain(cfg, w, mid, source, d, t, amb, link);
    RetryDecision(cfg, mid, source, source, d, t, amb2.newCid);
    RetryEnds(cfg, mid, source, amb2, t);
    HalfDigests(cfg, w, mid, source, d, t, amb, false);
  }

  /** Cut off after the write-back, the retry always ends as the whole run does. */
  lemma RetryFromWriteBack(cfg: Config, w: World, mid: World, source: Record, again: Record, d: Decision, amb: Ambient, amb2: Ambient)
    requires Settled(cfg.tables) && Current(cfg, w, source) && d.Write?
    requires HalfDone(cfg, w, mid, source, d, TargetOf(d, amb), amb, true)
    requires Ready(cfg, mid, again, amb2) && FoundAgain(cfg, mid, source, again, d, TargetOf(d, amb), amb2.newCid)
    requires again.source == source.source && again.sourceId == source.sourceId && again.fields == d.winner.fields
    ensures var to, t := Other(source.source), TargetOf(d, amb);
            EndsAs(cfg, ReconcileNow(cfg, mid, source.source, source.sourceId, amb2), source.source, source.sourceId, t,
                   HashOf(cfg, d.winner.fields), w.Side(to).records.Keys + {t})
  {
    var t, link := TargetOf(d, amb), FindOrCreateLink(cfg, mid, again, amb2.newCid).link;
    WinnerAfterWriteBack(cfg, w, mid, source, again, d, t, amb, link);
    RetryDecision(cfg, mid, source, again, d, t, amb2.newCid);
    RetryEnds(cfg, mid, again, amb2, t);
    HalfDigests(cfg, w, mid, source, d, t, amb, true);
  }

  // ----- the theorem -----

  /** The clock of the target's write is no earlier than either record's last change. */
  predicate ClockMovesOn(w: World, source: Record, t: Id, amb: Ambient) {
    var to := Other(source.source);
    amb.now >= source.modifiedAt
    && (t in w.Side(to).records ==> amb.now >= w.Side(to).records[t].modifiedAt)
  }

  /** A retry after a cut leaves both records with the winner's digest and creates no further
      record -- what the uncut run leaves -- except in exactly one case: cut off right after the
      target write, and misread. */
  lemma CrashRetryEquivalence(cfg: Config, w: World, source: Record, amb: Ambient, cut: Cut, amb2: Ambient)
    requires Settled(cfg.tables) && KeySurvives(cfg, w, source)
    requires Ready(cfg, w, source, amb) && Decide(cfg, w, source, amb.newCid).Write?
    requires var d := Decide(cfg, w, source, amb.newCid);
             && TargetFindable(cfg, source, d) && ClockMovesOn(w, source, TargetOf(d, amb), amb)
             && FreshIds(CutWorld(cfg, w, source, d, amb, cut), Other(source.source), amb2)
    ensures var d, from, id := Decide(cfg, w, source, amb.newCid), source.source, source.sourceId;
            var t, h := TargetOf(d, amb), HashOf(cfg, d.winner.fields);
            var ids := w.Side(Other(from)).records.Keys + {t};
            && EndsAs(cfg, Reconcile(cfg, w, source, amb).0, from, id, t, h, ids)
            && (EndsAs(cfg, ReconcileNow(cfg, CutWorld(cfg, w, source, d, amb, cut), from, id, amb2), from, id, t, h, ids)
                <==> !(cut == TargetWritten && Misread(cfg, source, d)))
  {
    var d, whole := Decide(cfg, w, source, amb.newCid), Reconcile(cfg, w, source, amb).0;
    assert StepOk(cfg, w, whole, source, d, TargetOf(d, amb), amb) && whole == CutWorld(cfg, w, source, d, amb, LinkStored) by {
      ReconcileIsStep(cfg, w, source, amb);
    }
    StepEnds(cfg, w, whole, source, d, TargetOf(d, amb), amb);
    if cut == LinkStored {
      RetryAfterEnd(cfg, w, whole, source, d, amb, amb2);
    } else {
      RetryFromHalf(cfg, w, source, d, amb, cut, amb2);
    }
  }

  /** A run that got all the way is not repeated. */
  lemma RetryAfterEnd(cfg: Config, w: World, whole: World, source: Record, d: Decision, amb: Ambient, amb2: Ambient)
    requires d.Write? && StepOk(cfg, w, whole, source, d, TargetOf(d, amb), amb)
    ensures ReconcileNow(cfg, whole, source.source, source.sourceId, amb2) == whole
  {
    StepSyncsPair(cfg, w, whole, source, d, TargetOf(d, amb), amb);
    SyncedIsEcho(cfg, whole, Snapshot(cfg.tables, source.source, whole.Side(source.source), source.sourceId), amb2);
  }

  lemma RetryFromHalf(cfg: Config, w: World, source: Record, d: Decision, amb: Ambient, cut: Cut, amb2: Ambient)
    requires Settled(cfg.tables) && KeySurvives(cfg, w, source)
    requires Ready(cfg, w, source, amb) && d == Decide(cfg, w, source, amb.newCid) && d.Write?
    requires TargetFindable(cfg, source, d) && ClockMovesOn(w, source, TargetOf(d, amb), amb)
    requires cut != LinkStored && FreshIds(CutWorld(cfg, w, source, d, amb, cut), Other(source.source), amb2)
    ensures var t := TargetOf(d, amb);
            EndsAs(cfg, ReconcileNow(cfg, CutWorld(cfg, w, source, d, amb, cut), source.source, source.sourceId, amb2),
                   source.source, source.sourceId, t, HashOf(cfg, d.winner.fields), w.Side(Other(source.source)).records.Keys + {t})
            <==> !(cut == TargetWritten && Misread(cfg, source, d))
  {
    var mid, back := CutWorld(cfg, w, source, d, amb, cut), cut == WrittenBack && WritesBack(cfg, source, d);
    CutHalfDone(cfg, w, source, d, amb, cut, mid, back);
    var again := Snapshot(cfg.tables, source.source, mid.Side(source.source), source.sourceId);
    HalfReady(cfg, w, mid, source, again, d, amb, back, amb2);
    if back {
      RetryFromWriteBack(cfg, w, mid, source, again, d, amb, amb2);
    } else {
      assert again == source;
      DecisionParts(cfg, w, source, amb.newCid);
      WriteNotLacking(cfg, w, source, amb.newCid);
      RetryFromTarget(cfg, w, mid, source, d, amb, amb2);
    }
  }

  lemma CutHalfDone(cfg: Config, w: World, source: Record, d: Decision, amb: Ambient, cut: Cut, mid: World, back: bool)
    requires Settled(cfg.tables) && Ready(cfg, w, source, amb) && d == Decide(cfg, w, source, amb.newCid) && d.Write?
    requires cut != LinkStored && mid == CutWorld(cfg, w, source, d, amb, cut)
    requires back == (cut == WrittenBack && WritesBack(cfg, source, d))
    ensures HalfDone(cfg, w, mid, source, d, TargetOf(d, amb), amb, back)
    ensures source.sourceId in mid.Side(source.source).records
    ensures !back ==> (Misread(cfg, source, d) ==> cut == TargetWritten)
  {
    DecisionShape(cfg, w, source, amb);
    DecisionParts(cfg, w, source, amb.newCid);
    WinnerAdmissible(cfg, w, source, d.link);
    CutIsHalf(cfg, w, source, d, amb);
  }

  lemma WriteNotLacking(cfg: Config, w: World, source: Record, newCid: Cid)
    requires Decide(cfg, w, source, newCid).Write?
    ensures !LacksRequired(cfg, Other(source.source), Decide(cfg, w, source, newCid).winner.fields)
  {
  }

  // ----- in terms of contents -----

  /** Both records of the pair hold the contents `f`, as text. */
  ghost predicate PairHolds(cfg: Config, w: World, from: SystemId, id: Id, t: Id, f: Fields) {
    Holds(cfg, w, from, id, f) && Holds(cfg, w, Other(from), t, f)
  }

  ghost predicate Holds(cfg: Config, w: World, s: SystemId, id: Id, f: Fields) {
    id in w.Side(s).records && Normal(cfg.tables.host, Canon(cfg.tables, s, w.Side(s), id)) == Normal(cfg.tables.host, f)
  }

  /** The digest of `f` collides with neither record's. */
  ghost predicate PairFaithful(cfg: Config, w: World, from: SystemId, id: Id, t: Id, f: Fields) {
    Faithful(cfg, w, from, id, f) && Faithful(cfg, w, Other(from), t, f)
  }

  ghost predicate Faithful(cfg: Config, w: World, s: SystemId, id: Id, f: Fields) {
    id in w.Side(s).records ==> CollisionFree(cfg.tables.host, f, Canon(cfg.tables, s, w.Side(s), id))
  }

  lemma DigestHolds(cfg: Config, w: World, s: SystemId, id: Id, f: Fields)
    requires DigestAt(cfg, w, s, id) == Some(HashOf(cfg, f)) && Faithful(cfg, w, s, id, f)
    requires Unambiguous(cfg.tables.host, f) && f.Keys == Names(cfg.tables.Rules(s))
    ensures Holds(cfg, w, s, id, f)
  {
    EqualHashes(cfg.tables.host, f, Canon(cfg.tables, s, w.Side(s), id));
  }

  lemma EndHolds(cfg: Config, w: World, from: SystemId, id: Id, t: Id, f: Fields, ids: set<Id>)
    requires EndsAs(cfg, w, from, id, t, HashOf(cfg, f), ids) && PairFaithful(cfg, w, from, id, t, f)
    requires Unambiguous(cfg.tables.host, f) && f.Keys == Names(cfg.tables.Rules(from)) == Names(cfg.tables.Rules(Other(from)))
    ensures PairHolds(cfg, w, from, id, t, f)
  {
    DigestHolds(cfg, w, from, id, f);
    DigestHolds(cfg, w, Other(from), t, f);
  }

  lemma WinnerNames(cfg: Config, w: World, source: Record, amb: Ambient)
    requires Settled(cfg.tables) && Ready(cfg, w, source, amb) && Decide(cfg, w, source, amb.newCid).Write?
    ensures Decide(cfg, w, source, amb.newCid).winner.fields.Keys
            == Names(cfg.tables.Rules(source.source)) == Names(cfg.tables.Rules(Other(source.source)))
  {
    DecisionParts(cfg, w, source, amb.newCid);
    WinnerAdmissible(cfg, w, source, Decide(cfg, w, source, amb.newCid).link);
  }

  /** Where the digest can be trusted, the uncut run and the cut and retried one leave the winner's
      contents in both records. */
  lemma CrashRetryContents(cfg: Config, w: World, source: Record, amb: Ambient, cut: Cut, amb2: Ambient)
    requires Settled(cfg.tables) && KeySurvives(cfg, w, source)
    requires Ready(cfg, w, source, amb) && Decide(cfg, w, source, amb.newCid).Write?
    requires var d := Decide(cfg, w, source, amb.newCid);
             && TargetFindable(cfg, source, d) && ClockMovesOn(w, source, TargetOf(d, amb), amb)
             && FreshIds(CutWorld(cfg, w, source, d, amb, cut), Other(source.source), amb2)
             && !(cut == TargetWritten && Misread(cfg, source, d))
    requires var d, from, id := Decide(cfg, w, source, amb.newCid), source.source, source.sourceId;
             var whole, retried := Reconcile(cfg, w, source, amb).0, ReconcileNow(cfg, CutWorld(cfg, w, source, d, amb, cut), from, id, amb2);
             && Unambiguous(cfg.tables.host, d.winner.fields)
             && PairFaithful(cfg, whole, from, id, TargetOf(d, amb), d.winner.fields)
             && PairFaithful(cfg, retried, from, id, TargetOf(d, amb), d.winner.fields)
    ensures var d, from, id := Decide(cfg, w, source, amb.newCid), source.source, source.sourceId;
            var whole, retried := Reconcile(cfg, w, source, amb).0, ReconcileNow(cfg, CutWorld(cfg, w, source, d, amb, cut), from, id, amb2);
            && PairHolds(cfg, whole, from, id, TargetOf(d, amb), d.winner.fields)
            && PairHolds(cfg, retried, from, id, TargetOf(d, amb), d.winner.fields)
  {
    var d, from, id := Decide(cfg, w, source, amb.newCid), source.source, source.sourceId;
    var whole, retried := Reconcile(cfg, w, source, amb).0, ReconcileNow(cfg, CutWorld(cfg, w, source, d, amb, cut), from, id, amb2);
    var t, ids := TargetOf(d, amb), w.Side(Other(from)).records.Keys + {TargetOf(d, amb)};
    CrashRetryEquivalence(cfg, w, source, amb, cut, amb2);
    WinnerNames(cfg, w, source, amb);
    EndHolds(cfg, whole, from, id, t, d.winner.fields, ids);
    EndHolds(cfg, retried, from, id, t, d.winner.fields, ids);
  }

  // ----- when a retry makes a second record -----

  /** Without a link and without a key the retry makes another record. */
  lemma RetryDuplicates(cfg: Config, w: World, mid: World, source: Record, d: Decision, amb: Ambient, amb2: Ambient)
    requires Settled(cfg.tables) && Ready(cfg, w, source, amb) && d == Decide(cfg, w, source, amb.newCid) && d.Write?
    requires HalfDone(cfg, w, mid, source, d, TargetOf(d, amb), amb, false) && TableOk(mid)
    requires !TargetFindable(cfg, source, d) && FreshIds(mid, Other(source.source), amb2)
    ensures amb2.newId in ReconcileNow(cfg, mid, source.source, source.sourceId, amb2).Side(Other(source.source)).records
    ensures amb2.newId !in w.Side(Other(source.source)).records.Keys + {TargetOf(d, amb)}
  {
    BlindDecision(cfg, w, mid, source, d, amb, amb2);
    HalfCarried(cfg, w, mid, source, d, amb, false);
    ReconcileIsStep(cfg, mid, source, amb2);
    var d2, after := Decide(cfg, mid, source, amb2.newCid), ReconcileNow(cfg, mid, source.source, source.sourceId, amb2);
    StepEnds(cfg, mid, after, source, d2, amb2.newId, amb2);
  }

  lemma BlindDecision(cfg: Config, w: World, mid: World, source: Record, d: Decision, amb: Ambient, amb2: Ambient)
    requires TableOk(w) && d == Decide(cfg, w, source, amb.newCid) && d.Write?
    requires mid.table == w.table && !TargetFindable(cfg, source, d)
    ensures MatchOk(cfg, mid, source)
    ensures Decide(cfg, mid, source, amb2.newCid).Write? && Decide(cfg, mid, source, amb2.newCid).target == None
  {
    DecisionParts(cfg, w, source, amb.newCid);
    WriteNotLacking(cfg, w, source, amb.newCid);
  }

  /** After a cut that left the target written, the retry creates no second record exactly when
      the target can be found again: through a link or through the natural key. */
  lemma OneTargetExactly(cfg: Config, w: World, source: Record, amb: Ambient, amb2: Ambient)
    requires Settled(cfg.tables) && KeySurvives(cfg, w, source)
    requires Ready(cfg, w, source, amb) && Decide(cfg, w, source, amb.newCid).Write?
    requires var d := Decide(cfg, w, source, amb.newCid);
             FreshIds(CutWorld(cfg, w, source, d, amb, TargetWritten), Other(source.source), amb2)
    ensures var d, to := Decide(cfg, w, source, amb.newCid), Other(source.source);
            var retried := ReconcileNow(cfg, CutWorld(cfg, w, source, d, amb, TargetWritten), source.source, source.sourceId, amb2);
            retried.Side(to).records.Keys == w.Side(to).records.Keys + {TargetOf(d, amb)} <==> TargetFindable(cfg, source, d)
  {
    var d := Decide(cfg, w, source, amb.newCid);
    var mid := CutWorld(cfg, w, source, d, amb, TargetWritten);
    CutHalfDone(cfg, w, source, d, amb, TargetWritten, mid, false);
    if TargetFindable(cfg, source, d) {
      HalfReady(cfg, w, mid, source, source, d, amb, false, amb2);
      RetryDecision(cfg, mid, source, source, d, TargetOf(d, amb), amb2.newCid);
      RetryEnds(cfg, mid, source, amb2, TargetOf(d, amb));
      HalfDigests(cfg, w, mid, source, d, TargetOf(d, amb), amb, false);
    } else {
      HalfTable(w, mid);
      RetryDuplicates(cfg, w, mid, source, d, amb, amb2);
    }
  }

  // ----- a misread does happen -----

  /** A pair last synced as x = 1, y = 1; since then Salesforce has cleared x, and Hubspot had
      changed y to 2. */
  function MisreadWorld(host: Host): World {
    PairWorld(CLEARED.fields, 2, CHANGED.fields, 1, Hash(host, TwoFields(Str("1"), Str("1"))))
  }

  const CLEARED := SfRecord(TwoFields(Null, Str("1")), 2)
  const CHANGED := HsRecord(TwoFields(Str("1"), Str("2")), 1)

  function MergeConfig(host: Host): Config { PlainConfig(host, FieldMerge) }

  /** The merge restores x from Hubspot and keeps y from Salesforce: the content last synced. */
  lemma MergeMisreads(host: Host, amb: Ambient)
    requires Hash(host, CLEARED.fields) != Hash(host, TwoFields(Str("1"), Str("1")))
    requires Hash(host, CHANGED.fields) != Hash(host, TwoFields(Str("1"), Str("1")))
    ensures var cfg, w := MergeConfig(host), MisreadWorld(host);
            var d := Decide(cfg, w, CLEARED, amb.newCid);
            TableOk(w) && Current(cfg, w, CLEARED) && d.Write? && Misread(cfg, CLEARED, d)
  {
    var cfg, w, h := MergeConfig(host), MisreadWorld(host), Hash(host, TwoFields(Str("1"), Str("1")));
    PairTable(CLEARED.fields, 2, CHANGED.fields, 1, h);
    PairReads(host, FieldMerge, Null, Str("1"), 2, Str("1"), Str("2"), 1, h);
    MergedBack(host);
    MisreadIf(cfg, w, CLEARED, CHANGED, "c", h, amb.newCid);
  }

  lemma MergedBack(host: Host)
    ensures MergedFields(PolicyOf(MergeConfig(host)), CLEARED, CHANGED) == TwoFields(Str("1"), Str("1"))
  {
    PlainPolicy(host, FieldMerge);
  }

  lemma MisreadIf(cfg: Config, w: World, source: Record, other: Record, cid: Cid, h: string, newCid: Cid)
    requires cfg.strategy == FieldMerge && cfg.readCounterpart && cfg.required == map[]
    requires FindBySource(w.table, source.source, source.sourceId) == Some(cid) && LastSyncedAt(w, cid, h)
    requires Other(source.source) in w.table.links[cid].ids
    requires Peek(cfg, w, Other(source.source), w.table.links[cid].ids[Other(source.source)]) == Some(other)
    requires h == HashOf(cfg, MergedFields(PolicyOf(cfg), source, other)) && HashOf(cfg, source.fields) != h && HashOf(cfg, other.fields) != h
    ensures var d := Decide(cfg, w, source, newCid); d.Write? && Misread(cfg, source, d)
  {
    NewsIsWritten(cfg, w, source, cid, h, newCid);
    MergeWins(cfg, w, source, other, cid, h);
  }

  /** A changed counterpart is merged with the source. */
  lemma MergeWins(cfg: Config, w: World, source: Record, other: Record, cid: Cid, h: string)
    requires cfg.strategy == FieldMerge && cfg.readCounterpart && LastSyncedAt(w, cid, h)
    requires Other(source.source) in w.table.links[cid].ids && HashOf(cfg, other.fields) != h
    requires Peek(cfg, w, Other(source.source), w.table.links[cid].ids[Other(source.source)]) == Some(other)
    ensures Winner(cfg, w, source, w.table.links[cid]).fields == MergedFields(PolicyOf(cfg), source, other)
  {
  }

  /** A linked pair that is alone in its systems meets the hypotheses of the retry theorem. */
  lemma AloneReady(cfg: Config, w: World, source: Record, cid: Cid, t: Id, amb: Ambient)
    requires TableOk(w) && AllCarried(cfg.tables, w)
    requires Current(cfg, w, source) && FindBySource(w.table, source.source, source.sourceId) == Some(cid)
    requires w.table.links.Keys == {cid} && w.Side(Other(source.source)).records.Keys == {t}
    requires amb.newCid != cid && amb.newId != t && amb.fault == NoFault
    ensures Ready(cfg, w, source, amb)
  {
  }

  lemma AloneFresh(cfg: Config, w: World, source: Record, d: Decision, cid: Cid, t: Id, amb: Ambient, amb2: Ambient)
    requires d.Write? && d.target == Some(t)
    requires w.table.links.Keys == {cid} && w.Side(Other(source.source)).records.Keys == {t}
    requires amb2.newCid != cid && amb2.newId != t && amb2.fault == NoFault
    ensures FreshIds(CutWorld(cfg, w, source, d, amb, TargetWritten), Other(source.source), amb2)
  {
    CutKeys(cfg, w, source, d, amb);
  }

  lemma AloneTarget(cfg: Config, w: World, source: Record, cid: Cid, t: Id, newCid: Cid)
    requires TableOk(w) && FindBySource(w.table, source.source, source.sourceId) == Some(cid)
    requires w.Side(Other(source.source)).records.Keys == {t} && Decide(cfg, w, source, newCid).Write?
    ensures Decide(cfg, w, source, newCid).target == Some(t)
  {
    DecisionParts(cfg, w, source, newCid);
    assert Live(w, w.table.links[cid]);
  }

  /** A run cut off after the target write has written the target and stored no link. */
  lemma CutKeys(cfg: Config, w: World, source: Record, d: Decision, amb: Ambient)
    requires d.Write?
    ensures var mid, to := CutWorld(cfg, w, source, d, amb, TargetWritten), Other(source.source);
            mid.table == w.table && mid.Side(to).records.Keys == w.Side(to).records.Keys + {TargetOf(d, amb)}
  {
  }

  /** Cut off after the target write and retried, the run does not end as the whole run does. */
  ghost predicate Diverges(cfg: Config, w: World, source: Record, amb: Ambient, amb2: Ambient) {
    var d, from, id := Decide(cfg, w, source, amb.newCid), source.source, source.sourceId;
    d.Write? &&
    var t, h := TargetOf(d, amb), HashOf(cfg, d.winner.fields);
    var ids := w.Side(Other(from)).records.Keys + {t};
    && EndsAs(cfg, Reconcile(cfg, w, source, amb).0, from, id, t, h, ids)
    && !EndsAs(cfg, ReconcileNow(cfg, CutWorld(cfg, w, source, d, amb, TargetWritten), from, id, amb2), from, id, t, h, ids)
  }

  lemma MisreadDiverges(cfg: Config, w: World, source: Record, amb: Ambient, amb2: Ambient)
    requires Settled(cfg.tables) && KeySurvives(cfg, w, source)
    requires Ready(cfg, w, source, amb) && Decide(cfg, w, source, amb.newCid).Write?
    requires var d := Decide(cfg, w, source, amb.newCid);
             && TargetFindable(cfg, source, d) && ClockMovesOn(w, source, TargetOf(d, amb), amb) && Misread(cfg, source, d)
             && FreshIds(CutWorld(cfg, w, source, d, amb, TargetWritten), Other(source.source), amb2)
    ensures Diverges(cfg, w, source, amb, amb2)
  {
    CrashRetryEquivalence(cfg, w, source, amb, TargetWritten, amb2);
  }

  lemma AloneDiverges(cfg: Config, w: World, source: Record, cid: Cid, t: Id, amb: Ambient, amb2: Ambient)
    requires Settled(cfg.tables) && TableOk(w) && AllCarried(cfg.tables, w)
    requires Current(cfg, w, source) && FindBySource(w.table, source.source, source.sourceId) == Some(cid)
    requires w.table.links.Keys == {cid} && w.Side(Other(source.source)).records.Keys == {t}
    requires amb.newCid != cid && amb2.newCid != cid && amb.newId != t && amb2.newId != t
    requires amb.fault == NoFault && amb2.fault == NoFault && ClockMovesOn(w, source, t, amb)
    requires var d := Decide(cfg, w, source, amb.newCid); d.Write? && Misread(cfg, source, d)
    ensures Diverges(cfg, w, source, amb, amb2)
  {
    AloneReady(cfg, w, source, cid, t, amb);
    AloneTarget(cfg, w, source, cid, t, amb.newCid);
    AloneFresh(cfg, w, source, Decide(cfg, w, source, amb.newCid), cid, t, amb, amb2);
    MisreadDiverges(cfg, w, source, amb, amb2);
  }

  /** So there are runs that, cut off after the target write and retried, do not end as the whole
      run does: the pair above, with any new identifiers and a clock that moves on. */
  lemma RetryDiverges(host: Host, amb: Ambient, amb2: Ambient)
    requires Hash(host, CLEARED.fields) != Hash(host, TwoFields(Str("1"), Str("1")))
    requires Hash(host, CHANGED.fields) != Hash(host, TwoFields(Str("1"), Str("1")))
    requires amb.newCid != "c" && amb2.newCid != "c" && amb.newId != "b" && amb2.newId != "b"
    requires amb.fault == NoFault && amb2.fault == NoFault && amb.now >= 2
    ensures Diverges(MergeConfig(host), MisreadWorld(host), CLEARED, amb, amb2)
  {
    var w, h := MisreadWorld(host), Hash(host, TwoFields(Str("1"), Str("1")));
    PlainSettled(host);
    AlwaysAllCarried(PlainTables(host), w);
    MergeMisreads(host, amb);
    PairTable(CLEARED.fields, 2, CHANGED.fields, 1, h);
    AloneDiverges(MergeConfig(host), w, CLEARED, "c", "b", amb, amb2);
  }
}

/** Natural keys over whole runs: when the link table stays one-to-one, why no duplicate is ever
    made, and what a seed in both directions leaves behind. */
module NaturalKeys {
  import opened Canonical
  import opened Mapping
  import opened IdMap
  import opened Connector
  import opened Reconciler
  import opened Protocol

  // ----- exactly when one reconciliation keeps the table one-to-one -----

  lemma RelinkBreaks(t: LinkTable, c: Cid, link: Link, from: SystemId, before: Id)
    requires SourceExact(t) && c in t.links && from in t.links[c].ids && t.links[c].ids[from] == before
    requires from in link.ids && link.ids[from] != before
    ensures !SourceExact(Index(t, c, link))
  {
    var e := NativeKey(from, before);
    assert t.bySource[e] == c;
    assert e in Index(t, c, link).bySource;
  }

  lemma SharedBreaks(t: LinkTable, c: Cid, link: Link, to: SystemId, other: Cid)
    requires SourceExact(t) && c != other && other in t.links
    requires to in link.ids && to in t.links[other].ids && t.links[other].ids[to] == link.ids[to]
    ensures !SourceExact(Index(t, c, link))
  {
    var e := NativeKey(to, link.ids[to]);
    assert Index(t, c, link).bySource[e] == c;
    assert Index(t, c, link).links[other] == t.links[other];
  }

  /** A reconciliation that writes keeps the link table one-to-one exactly when the match check
      passed before it. */
  lemma OneToOneExactly(cfg: Config, w: World, source: Record, amb: Ambient)
    requires TableOk(w) && Current(cfg, w, source) && FreshIds(w, Other(source.source), amb)
    requires Reconcile(cfg, w, source, amb).1 == Done
    ensures SourceExact(Reconcile(cfg, w, source, amb).0.table) <==> MatchOk(cfg, w, source)
  {
    var d := Decide(cfg, w, source, amb.newCid);
    DecisionParts(cfg, w, source, amb.newCid);
    if MatchOk(cfg, w, source) {
      DecisionShape(cfg, w, source, amb);
      StepKeepsIndex(w, source, d, TargetOf(d, amb), amb, FinalLink(cfg, source, d, TargetOf(d, amb), amb));
    } else {
      BadMatchBreaks(cfg, w, source, d, amb);
    }
  }

  /** A failed match check re-points a stored link or shares a linked record. */
  lemma BadMatch(cfg: Config, w: World, source: Record, newCid: Cid)
    requires TableOk(w) && newCid !in w.table.links && !MatchOk(cfg, w, source)
    requires FindOrCreateLink(cfg, w, source, newCid).Found?
    ensures var l, from, to := FindOrCreateLink(cfg, w, source, newCid), source.source, Other(source.source);
            || (l.cid in w.table.links && w.table.links[l.cid].ids[from] != source.sourceId)
            || (l.cid == newCid && to in l.link.ids && Linked(w, to, l.link.ids[to]))
  {
    var key := KeyFor(cfg, source.fields).value;
    if FindByKey(w.table, key) == None {
      BadCandidate(cfg, w, source, newCid, key);
    } else {
      BadFiling(cfg, w, source, newCid, key);
    }
  }

  /** Either the only candidate is linked already, */
  lemma BadCandidate(cfg: Config, w: World, source: Record, newCid: Cid, key: string)
    requires FindBySource(w.table, source.source, source.sourceId) == None
    requires KeyFor(cfg, source.fields) == Some(key) && FindByKey(w.table, key) == None
    requires exists id :: id in Matches(cfg, w, Other(source.source), key) && Linked(w, Other(source.source), id)
    requires FindOrCreateLink(cfg, w, source, newCid).Found?
    ensures var l, to := FindOrCreateLink(cfg, w, source, newCid), Other(source.source);
            l.cid == newCid && to in l.link.ids && Linked(w, to, l.link.ids[to])
  {
    var to := Other(source.source);
    var found := Matches(cfg, w, to, key);
    var id :| id in found && Linked(w, to, id);
    assert found != {};
    assert |found| == 1;
  }

  /** or the key is filed under a link that has another record of the source's side. */
  lemma BadFiling(cfg: Config, w: World, source: Record, newCid: Cid, key: string)
    requires TableOk(w) && FindBySource(w.table, source.source, source.sourceId) == None
    requires KeyFor(cfg, source.fields) == Some(key) && FindByKey(w.table, key).Some?
    ensures var l, from := FindOrCreateLink(cfg, w, source, newCid), source.source;
            l.Found? && l.cid in w.table.links && from in w.table.links[l.cid].ids && w.table.links[l.cid].ids[from] != source.sourceId
  {
    var cid := FindByKey(w.table, key).value;
    assert Live(w, w.table.links[cid]) && (source.source == Salesforce || source.source == Hubspot);
    LookupExact(w.table, source.source, source.sourceId, cid);
  }

  lemma BadLinkBreaks(w: World, source: Record, cid: Cid, found: Link, link: Link)
    requires TableOk(w)
    requires var from, to := source.source, Other(source.source);
             || (cid in w.table.links && w.table.links[cid].ids[from] != source.sourceId)
             || (cid !in w.table.links && to in found.ids && Linked(w, to, found.ids[to]))
    requires var from, to := source.source, Other(source.source);
             from in link.ids && link.ids[from] == source.sourceId
             && (to in found.ids ==> to in link.ids && link.ids[to] == found.ids[to])
    ensures !SourceExact(Index(w.table, cid, link))
  {
    var from, to := source.source, Other(source.source);
    if cid in w.table.links {
      RelinkBreaks(w.table, cid, link, from, w.table.links[cid].ids[from]);
    } else {
      SharedBreaks(w.table, cid, link, to, FindBySource(w.table, to, found.ids[to]).value);
    }
  }

  lemma BadMatchBreaks(cfg: Config, w: World, source: Record, d: Decision, amb: Ambient)
    requires TableOk(w) && FreshIds(w, Other(source.source), amb) && !MatchOk(cfg, w, source)
    requires d.Write? && FindOrCreateLink(cfg, w, source, amb.newCid) == Found(d.cid, d.link)
    requires d.target == if Other(source.source) in d.link.ids then Some(d.link.ids[Other(source.source)]) else None
    ensures !SourceExact(AfterLink(cfg, w, source, d, TargetOf(d, amb), amb).table)
  {
    BadMatch(cfg, w, source, amb.newCid);
    FinalIds(cfg, source, d, amb);
    BadLinkBreaks(w, source, d.cid, d.link, FinalLink(cfg, source, d, TargetOf(d, amb), amb));
  }

  lemma FinalIds(cfg: Config, source: Record, d: Decision, amb: Ambient)
    requires d.Write? && d.target == if Other(source.source) in d.link.ids then Some(d.link.ids[Other(source.source)]) else None
    ensures var link, from, to := FinalLink(cfg, source, d, TargetOf(d, amb), amb), source.source, Other(source.source);
            && from in link.ids && link.ids[from] == source.sourceId
            && (to in d.link.ids ==> to in link.ids && link.ids[to] == d.link.ids[to])
  {
  }

  // ----- key discipline -----

  /** The natural key of every record of one system. */
  function KeyMap(cfg: Config, s: SystemId, crm: Crm): map<Id, Option<string>> {
    map id | id in crm.records :: KeyFor(cfg, Canon(cfg.tables, s, crm, id))
  }

  /** Every record has a key and no two share one. */
  ghost predicate Unique(keys: map<Id, Option<string>>) {
    && (forall id :: id in keys ==> keys[id].Some?)
    && (forall a, b :: a in keys && b in keys && keys[a] == keys[b] ==> a == b)
  }

  /** Both records of a link have the same key, and the link is filed under no other. */
  ghost predicate LinkKeyed(sf: map<Id, Option<string>>, hs: map<Id, Option<string>>, link: Link) {
    && Salesforce in link.ids && link.ids[Salesforce] in sf
    && Hubspot in link.ids && link.ids[Hubspot] in hs
    && sf[link.ids[Salesforce]] == hs[link.ids[Hubspot]]
    && forall k :: k in link.keys ==> sf[link.ids[Salesforce]] == Some(k)
  }

  /** Links join equal keys, and the key index files keys only under links that have them. */
  ghost predicate TableKeyed(t: LinkTable, sf: map<Id, Option<string>>, hs: map<Id, Option<string>>) {
    && (forall c :: c in t.links ==> LinkKeyed(sf, hs, t.links[c]))
    && (forall k :: k in t.byKey ==> t.byKey[k] in t.links && k in t.links[t.byKey[k]].keys)
  }

  ghost predicate KeysOk(cfg: Config, w: World) {
    var sf, hs := KeyMap(cfg, Salesforce, w.sf), KeyMap(cfg, Hubspot, w.hs);
    TableOk(w) && Unique(sf) && Unique(hs) && TableKeyed(w.table, sf, hs)
  }

  /** The record of side `s` that a link filed under `key` holds is the one with that key. */
  lemma FiledUnder(t: LinkTable, sf: map<Id, Option<string>>, hs: map<Id, Option<string>>, key: string, s: SystemId, id: Id)
    requires TableKeyed(t, sf, hs) && Unique(sf) && Unique(hs) && FindByKey(t, key).Some?
    requires var m := if s == Salesforce then sf else hs; id in m && m[id] == Some(key)
    ensures s in t.links[t.byKey[key]].ids && t.links[t.byKey[key]].ids[s] == id
  {
    assert LinkKeyed(sf, hs, t.links[t.byKey[key]]);
  }

  /** A linked record's partner has its key, so it is the only record there that does. */
  lemma PartnerHasKey(t: LinkTable, sf: map<Id, Option<string>>, hs: map<Id, Option<string>>, c: Cid, s: SystemId, mine: Id, id: Id)
    requires TableKeyed(t, sf, hs) && Unique(sf) && Unique(hs) && c in t.links
    requires Other(s) in t.links[c].ids && t.links[c].ids[Other(s)] == id
    requires var m, n := if s == Salesforce then sf else hs, if s == Salesforce then hs else sf;
             mine in m && id in n && m[mine] == n[id]
    ensures s in t.links[c].ids && t.links[c].ids[s] == mine
  {
    assert LinkKeyed(sf, hs, t.links[c]);
  }

  /** With disciplined keys the match check always passes: a record that is not linked shares its
      key with no stored link and with no linked record. */
  lemma KeysMatchOk(cfg: Config, w: World, source: Record)
    requires KeysOk(cfg, w) && Current(cfg, w, source)
    ensures MatchOk(cfg, w, source)
  {
    var from, to, id := source.source, Other(source.source), source.sourceId;
    var sf, hs := KeyMap(cfg, Salesforce, w.sf), KeyMap(cfg, Hubspot, w.hs);
    var m, n := if from == Salesforce then sf else hs, if from == Salesforce then hs else sf;
    assert id in m && m[id] == KeyFor(cfg, source.fields);
    var key := m[id].value;
    if !Linked(w, from, id) {
      if FindByKey(w.table, key).Some? {
        FiledUnder(w.table, sf, hs, key, from, id);
      }
      forall x | x in Matches(cfg, w, to, key) ensures !Linked(w, to, x) {
        assert x in n && n[x] == Some(key);
        if Linked(w, to, x) {
          PartnerHasKey(w.table, sf, hs, FindBySource(w.table, to, x).value, from, id, x);
        }
      }
    }
  }

  // ----- a reconciliation keeps the discipline -----

  function SideKeys(cfg: Config, w: World, s: SystemId): map<Id, Option<string>> {
    KeyMap(cfg, s, w.Side(s))
  }

  /** An existing target has the key of the source, and a new one is made only when no record of
      the other system has it. */
  lemma TargetKey(cfg: Config, w: World, source: Record, amb: Ambient)
    requires KeysOk(cfg, w) && Ready(cfg, w, source, amb)
    requires Decide(cfg, w, source, amb.newCid).Write?
    ensures var d, n := Decide(cfg, w, source, amb.newCid), SideKeys(cfg, w, Other(source.source));
            var key := KeyFor(cfg, source.fields);
            && key.Some? && SideKeys(cfg, w, source.source)[source.sourceId] == key
            && (d.target.Some? ==> d.target.value in n && n[d.target.value] == key)
            && (d.target == None ==> forall x :: x in n ==> n[x] != key)
            && d.link.keys <= {key.value}
            && (d.cid in w.table.links ==> d.link.keys == w.table.links[d.cid].keys)
  {
    var d, from := Decide(cfg, w, source, amb.newCid), source.source;
    assert SideKeys(cfg, w, from)[source.sourceId] == KeyFor(cfg, source.fields);
    DecisionShape(cfg, w, source, amb);
    DecisionParts(cfg, w, source, amb.newCid);
    if Linked(w, from, source.sourceId) {
      LinkedTargetKey(cfg, w, source, d.link, d.cid);
    } else {
      MatchesHaveKey(cfg, w, Other(from), KeyFor(cfg, source.fields).value);
      NewLinkTarget(cfg, w, source, amb.newCid);
    }
  }

  /** A stored link's target has the key of its source, and the link is filed under no other. */
  lemma LinkedTargetKey(cfg: Config, w: World, source: Record, link: Link, cid: Cid)
    requires KeysOk(cfg, w) && Current(cfg, w, source) && cid in w.table.links && w.table.links[cid] == link
    requires source.source in link.ids && link.ids[source.source] == source.sourceId
    ensures var n, to, key := SideKeys(cfg, w, Other(source.source)), Other(source.source), KeyFor(cfg, source.fields);
            && key.Some? && to in link.ids && link.ids[to] in n && n[link.ids[to]] == key && link.keys <= {key.value}
  {
    assert SideKeys(cfg, w, source.source)[source.sourceId] == KeyFor(cfg, source.fields);
    PairKeys(w.table, KeyMap(cfg, Salesforce, w.sf), KeyMap(cfg, Hubspot, w.hs), cid, source.source, source.sourceId);
  }

  /** The same in terms of key maps alone. */
  lemma PairKeys(t: LinkTable, sf: map<Id, Option<string>>, hs: map<Id, Option<string>>, cid: Cid, s: SystemId, id: Id)
    requires TableKeyed(t, sf, hs) && Unique(sf) && Unique(hs) && cid in t.links
    requires s in t.links[cid].ids && t.links[cid].ids[s] == id
    ensures var m, n := if s == Salesforce then sf else hs, if s == Salesforce then hs else sf;
            var link, to := t.links[cid], Other(s);
            && to in link.ids && id in m && link.ids[to] in n && n[link.ids[to]] == m[id] && m[id].Some? && link.keys <= {m[id].value}
  {
    assert LinkKeyed(sf, hs, t.links[cid]);
  }

  lemma MatchesHaveKey(cfg: Config, w: World, s: SystemId, key: string)
    ensures forall x :: x in Matches(cfg, w, s, key) <==> x in SideKeys(cfg, w, s) && SideKeys(cfg, w, s)[x] == Some(key)
  {
  }

  lemma NewLinkTarget(cfg: Config, w: World, source: Record, newCid: Cid)
    requires MatchOk(cfg, w, source) && !Linked(w, source.source, source.sourceId)
    requires KeyFor(cfg, source.fields).Some? && FindOrCreateLink(cfg, w, source, newCid).Found?
    ensures var link, to := FindOrCreateLink(cfg, w, source, newCid).link, Other(source.source);
            var found := Matches(cfg, w, to, KeyFor(cfg, source.fields).value);
            && link.keys == {KeyFor(cfg, source.fields).value}
            && (to in link.ids ==> link.ids[to] in found)
            && (to !in link.ids ==> found == {})
  {
  }

  lemma SameFieldNames(cfg: Config, w: World, source: Record, to: SystemId, id: Id)
    requires Settled(cfg.tables) && Current(cfg, w, source) && id in w.Side(to).records
    ensures Canon(cfg.tables, to, w.Side(to), id).Keys == source.fields.Keys
  {
    assert Names(cfg.tables.Rules(to)) == Names(cfg.tables.Rules(source.source));
  }

  /** The winner has the key of the source. */
  lemma WinnerKey(cfg: Config, w: World, source: Record, amb: Ambient)
    requires Settled(cfg.tables) && SafeKey(cfg, KeyFor(cfg, source.fields))
    requires KeysOk(cfg, w) && Ready(cfg, w, source, amb)
    requires Decide(cfg, w, source, amb.newCid).Write?
    ensures KeyFor(cfg, Decide(cfg, w, source, amb.newCid).winner.fields) == KeyFor(cfg, source.fields)
  {
    var d, to := Decide(cfg, w, source, amb.newCid), Other(source.source);
    DecisionParts(cfg, w, source, amb.newCid);
    var contender := Contender(cfg, w, to, d.link);
    if contender.Some? {
      TargetKey(cfg, w, source, amb);
      SameFieldNames(cfg, w, source, to, d.link.ids[to]);
      ResolvedKey(cfg, source, contender.value);
    }
  }

  lemma OneWriteKeys(cfg: Config, s: SystemId, before: Crm, after: Crm, id: Id, fields: Fields, now: Time)
    requires OneWrite(cfg.tables, s, before, after, id, fields, now)
    ensures KeyMap(cfg, s, after) == KeyMap(cfg, s, before)[id := KeyFor(cfg, fields)]
  {
  }

  /** Every source-side record keeps its key, and the written record has the key of the winner. */
  lemma StepKeys(cfg: Config, w: World, after: World, source: Record, d: Decision, t: Id, amb: Ambient)
    requires d.Write? && Effected(cfg, w, after, source, d, t, amb)
    requires source.sourceId in w.Side(source.source).records
    requires SideKeys(cfg, w, source.source)[source.sourceId] == KeyFor(cfg, source.fields)
    requires KeyFor(cfg, d.winner.fields) == KeyFor(cfg, source.fields)
    ensures SideKeys(cfg, after, source.source) == SideKeys(cfg, w, source.source)
  {
    var from := source.source;
    if WritesBack(cfg, source, d) {
      OneWriteKeys(cfg, from, w.Side(from), after.Side(from), source.sourceId, d.winner.fields, amb.later);
      SameEntry(SideKeys(cfg, w, from), source.sourceId, KeyFor(cfg, source.fields));
    }
  }

  lemma SameEntry(m: map<Id, Option<string>>, id: Id, key: Option<string>)
    requires id in m && m[id] == key
    ensures m[id := key] == m
  {
  }

  lemma StepTargetKeys(cfg: Config, w: World, after: World, source: Record, d: Decision, t: Id, amb: Ambient)
    requires d.Write? && Effected(cfg, w, after, source, d, t, amb)
    ensures SideKeys(cfg, after, Other(source.source)) == SideKeys(cfg, w, Other(source.source))[t := KeyFor(cfg, d.winner.fields)]
  {
    var to := Other(source.source);
    OneWriteKeys(cfg, to, w.Side(to), after.Side(to), t, d.winner.fields, amb.now);
  }

  /** The discipline in terms of key maps alone: one more entry on one side, one link stored. */
  lemma TableStaysKeyed(t: LinkTable, cid: Cid, link: Link,
                        sf: map<Id, Option<string>>, hs: map<Id, Option<string>>,
                        sf': map<Id, Option<string>>, hs': map<Id, Option<string>>)
    requires TableKeyed(t, sf, hs) && LinkKeyed(sf', hs', link)
    requires forall x :: x in sf ==> x in sf' && sf'[x] == sf[x]
    requires forall x :: x in hs ==> x in hs' && hs'[x] == hs[x]
    requires cid in t.links ==> t.links[cid].keys <= link.keys
    ensures TableKeyed(Index(t, cid, link), sf', hs')
  {
    forall c | c in Index(t, cid, link).links ensures LinkKeyed(sf', hs', Index(t, cid, link).links[c]) {
      if c != cid { assert LinkKeyed(sf, hs, t.links[c]); }
    }
  }

  lemma UniqueWith(keys: map<Id, Option<string>>, id: Id, key: Option<string>)
    requires Unique(keys) && key.Some?
    requires (id in keys && keys[id] == key) || forall x :: x in keys ==> keys[x] != key
    ensures Unique(keys[id := key]) && forall x :: x in keys ==> keys[id := key][x] == keys[x] || x == id
  {
  }

  /** Once the keys after a step are known, the discipline follows from the maps. */
  lemma StepKeepsKeys(cfg: Config, w: World, after: World, source: Record, d: Decision, link: Link, t: Id, key: Option<string>)
    requires KeysOk(cfg, w) && TableOk(after) && d.Write?
    requires after.table == Index(w.table, d.cid, link)
    requires var m, n := SideKeys(cfg, w, source.source), SideKeys(cfg, w, Other(source.source));
             && SideKeys(cfg, after, source.source) == m && SideKeys(cfg, after, Other(source.source)) == n[t := key]
             && source.sourceId in m && m[source.sourceId] == key && key.Some? && link.keys <= {key.value}
             && (if t in n then n[t] == key else forall x :: x in n ==> n[x] != key)
    requires source.source in link.ids && link.ids[source.source] == source.sourceId
    requires Other(source.source) in link.ids && link.ids[Other(source.source)] == t
    requires d.cid in w.table.links ==> w.table.links[d.cid].keys <= link.keys
    ensures KeysOk(cfg, after)
  {
    var from, to := source.source, Other(source.source);
    UniqueWith(SideKeys(cfg, w, to), t, key);
    StoredLinkKeyed(w, after, source, d.cid, link, t, key,
                    SideKeys(cfg, w, from), SideKeys(cfg, w, to), SideKeys(cfg, after, from), SideKeys(cfg, after, to));
  }

  /** Reconciling keeps keys present and unique on each side and links keyed. */
  lemma ReconcileKeepsKeys(cfg: Config, w: World, source: Record, amb: Ambient)
    requires Settled(cfg.tables) && SafeKey(cfg, KeyFor(cfg, source.fields))
    requires KeysOk(cfg, w) && Ready(cfg, w, source, amb)
    requires Decide(cfg, w, source, amb.newCid).Write?
    ensures var d, after := Decide(cfg, w, source, amb.newCid), Reconcile(cfg, w, source, amb).0;
            && KeysOk(cfg, after)
            && SideKeys(cfg, after, source.source) == SideKeys(cfg, w, source.source)
            && SideKeys(cfg, after, Other(source.source))
               == SideKeys(cfg, w, Other(source.source))[TargetOf(d, amb) := KeyFor(cfg, source.fields)]
  {
    var d, after := Decide(cfg, w, source, amb.newCid), Reconcile(cfg, w, source, amb).0;
    var t := TargetOf(d, amb);
    assert StepOk(cfg, w, after, source, d, t, amb) by { ReconcileIsStep(cfg, w, source, amb); }
    TargetKey(cfg, w, source, amb);
    WinnerKey(cfg, w, source, amb);
    KeysAfter(cfg, w, after, source, d, t, amb);
    assert TableOk(after) by { StepKeepsTable(cfg, w, after, source, d, t, amb); }
    StepKeepsKeys(cfg, w, after, source, d, FinalLink(cfg, source, d, t, amb), t, KeyFor(cfg, source.fields));
  }

  /** Every source-side key stays, and the target gets the source's key. */
  lemma KeysAfter(cfg: Config, w: World, after: World, source: Record, d: Decision, t: Id, amb: Ambient)
    requires StepOk(cfg, w, after, source, d, t, amb) && d.Write?
    requires SideKeys(cfg, w, source.source)[source.sourceId] == KeyFor(cfg, source.fields)
    requires KeyFor(cfg, d.winner.fields) == KeyFor(cfg, source.fields)
    ensures SideKeys(cfg, after, source.source) == SideKeys(cfg, w, source.source)
    ensures SideKeys(cfg, after, Other(source.source)) == SideKeys(cfg, w, Other(source.source))[t := KeyFor(cfg, source.fields)]
  {
    StepKeys(cfg, w, after, source, d, t, amb);
    StepTargetKeys(cfg, w, after, source, d, t, amb);
  }

  lemma StoredLinkKeyed(w: World, after: World, source: Record, cid: Cid, link: Link, t: Id, key: Option<string>,
                        m: map<Id, Option<string>>, n: map<Id, Option<string>>,
                        m': map<Id, Option<string>>, n': map<Id, Option<string>>)
    requires var s := source.source;
             TableKeyed(w.table, if s == Salesforce then m else n, if s == Salesforce then n else m)
    requires after.table == Index(w.table, cid, link)
    requires m' == m && n' == n[t := key] && (t in n ==> n[t] == key)
    requires source.sourceId in m && m[source.sourceId] == key && key.Some? && link.keys <= {key.value}
    requires source.source in link.ids && link.ids[source.source] == source.sourceId
    requires Other(source.source) in link.ids && link.ids[Other(source.source)] == t
    requires cid in w.table.links ==> w.table.links[cid].keys <= link.keys
    ensures var s := source.source;
            TableKeyed(after.table, if s == Salesforce then m' else n', if s == Salesforce then n' else m')
  {
    if source.source == Salesforce {
      TableStaysKeyed(w.table, cid, link, m, n, m', n');
    } else {
      TableStaysKeyed(w.table, cid, link, n, m, n', m');
    }
  }
}

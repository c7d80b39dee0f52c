/** The event that the engine's own write causes: exactly when it is recognized as an echo, and what
    it does when it is not. Nothing is asked of the tables here. */
module Echoes {
  import opened Canonical
  import opened Mapping
  import opened ContentHash
  import opened IdMap
  import opened Connector
  import opened Reconciler
  import opened Protocol

  /** What the target stores under an id before it is written. */
  function Stored(w: World, s: SystemId, id: Id): Fields {
    if id in w.Side(s).records then w.Side(s).records[id].values else map[]
  }

  /** What the target reads as once `fields` have been written over what it stored. */
  function ReadBack(cfg: Config, w: World, s: SystemId, id: Id, fields: Fields): Fields {
    ToCanonical(cfg.tables, s, Stored(w, s, id) + FromCanonical(cfg.tables, s, fields))
  }

  /** The written record as its event's handler reads it. */
  function Event(cfg: Config, w: World, source: Record, d: Decision, t: Id, amb: Ambient): Record
    requires d.Write?
  {
    var to := Other(source.source);
    Record(ReadBack(cfg, w, to, t, d.winner.fields), to, t, amb.now)
  }

  lemma EventIsRead(cfg: Config, w: World, source: Record, d: Decision, t: Id, amb: Ambient)
    requires d.Write?
    ensures var to := Other(source.source);
            Peek(cfg, AfterLink(cfg, w, source, d, t, amb), to, t) == Some(Event(cfg, w, source, d, t, amb))
  {
  }

  /** The stored link under which the event's handler finds itself. */
  lemma EventIsLinked(cfg: Config, w: World, source: Record, d: Decision, t: Id, amb: Ambient)
    requires d.Write?
    ensures var after, link := AfterLink(cfg, w, source, d, t, amb), FinalLink(cfg, source, d, t, amb);
            && FindBySource(after.table, Other(source.source), t) == Some(d.cid) && after.table.links[d.cid] == link
            && link.ids[source.source] == source.sourceId
            && link.hashes[Other(source.source)] == HashOf(cfg, d.winner.fields)
  {
    StoredUnder(w.table, d.cid, FinalLink(cfg, source, d, t, amb), Other(source.source), t);
  }

  /** A linked record's delivery is an echo exactly when its content is the one recorded. */
  lemma LinkedEcho(cfg: Config, w: World, event: Record, cid: Cid, amb: Ambient)
    requires FindBySource(w.table, event.source, event.sourceId) == Some(cid)
    requires event.source in w.table.links[cid].hashes
    ensures Reconcile(cfg, w, event, amb).1 == Echo <==> HashOf(cfg, event.fields) == w.table.links[cid].hashes[event.source]
  {
  }

  /** The event of a write is an echo exactly when the target reads the written record with the
      digest of what was written. */
  lemma EchoExactly(cfg: Config, w: World, source: Record, d: Decision, t: Id, amb: Ambient, amb2: Ambient)
    requires d.Write?
    ensures var after, to := AfterLink(cfg, w, source, d, t, amb), Other(source.source);
            && Peek(cfg, after, to, t) == Some(Event(cfg, w, source, d, t, amb))
            && (Reconcile(cfg, after, Event(cfg, w, source, d, t, amb), amb2).1 == Echo
                <==> HashOf(cfg, ReadBack(cfg, w, to, t, d.winner.fields)) == HashOf(cfg, d.winner.fields))
  {
    EventIsRead(cfg, w, source, d, t, amb);
    EventIsLinked(cfg, w, source, d, t, amb);
    LinkedEcho(cfg, AfterLink(cfg, w, source, d, t, amb), Event(cfg, w, source, d, t, amb), d.cid, amb2);
  }

  /** As it always does when the target carries what was written. */
  lemma CarriedIsEcho(cfg: Config, w: World, source: Record, d: Decision, t: Id, amb: Ambient, amb2: Ambient)
    requires d.Write? && Flat(cfg.tables.Rules(Other(source.source))) && Carries(cfg.tables, Other(source.source), d.winner.fields)
    ensures Reconcile(cfg, AfterLink(cfg, w, source, d, t, amb), Event(cfg, w, source, d, t, amb), amb2).1 == Echo
  {
    EchoExactly(cfg, w, source, d, t, amb, amb2);
    WriteThenRead(cfg.tables, Other(source.source), Stored(w, Other(source.source), t), d.winner.fields);
  }

  // ----- when it is no echo -----

  /** The source's record has the content that the run recorded for it. */
  ghost predicate SourceUnchanged(cfg: Config, w: World, source: Record, d: Decision, t: Id, amb: Ambient)
    requires d.Write?
  {
    var from, after := source.source, AfterLink(cfg, w, source, d, t, amb);
    && source.sourceId in after.Side(from).records
    && HashOf(cfg, Canon(cfg.tables, from, after.Side(from), source.sourceId)) == FinalLink(cfg, source, d, t, amb).hashes[from]
  }

  /** So it has whenever the run did not write it back. */
  lemma NotWrittenBack(cfg: Config, w: World, source: Record, d: Decision, t: Id, amb: Ambient)
    requires d.Write? && Current(cfg, w, source) && !WritesBack(cfg, source, d)
    ensures SourceUnchanged(cfg, w, source, d, t, amb)
  {
  }

  /** A linked record with news, whose counterpart has the recorded content, wins under every
      strategy and is written over it. */
  lemma NewsOverwrites(cfg: Config, w: World, event: Record, cid: Cid, amb: Ambient)
    requires FindBySource(w.table, event.source, event.sourceId) == Some(cid) && amb.fault == NoFault
    requires var link, to := w.table.links[cid], Other(event.source);
             && event.source in link.hashes && link.hashes[event.source] != HashOf(cfg, event.fields)
             && to in link.ids && link.ids[to] in w.Side(to).records
             && to in link.hashes && link.hashes[to] == HashOf(cfg, Canon(cfg.tables, to, w.Side(to), link.ids[to]))
    ensures var (after, outcome) := Reconcile(cfg, w, event, amb);
            var to := Other(event.source);
            if LacksRequired(cfg, to, event.fields) then after == w && outcome == Refused(MissingRequired)
            else
              && outcome == Done && after.Side(event.source) == w.Side(event.source)
              && after.Side(to) == Upsert(cfg.tables, to, w.Side(to), w.table.links[cid].ids[to], event.fields, amb.now)
  {
    var link := w.table.links[cid];
    assert Winner(cfg, w, event, link) == event;
    WinsAlone(cfg, w, event, cid, amb);
  }

  lemma WinsAlone(cfg: Config, w: World, event: Record, cid: Cid, amb: Ambient)
    requires FindBySource(w.table, event.source, event.sourceId) == Some(cid) && amb.fault == NoFault
    requires Winner(cfg, w, event, w.table.links[cid]) == event && Other(event.source) in w.table.links[cid].ids
    requires event.source in w.table.links[cid].hashes && w.table.links[cid].hashes[event.source] != HashOf(cfg, event.fields)
    ensures var (after, outcome) := Reconcile(cfg, w, event, amb);
            var to, link := Other(event.source), w.table.links[cid];
            if LacksRequired(cfg, to, event.fields) then after == w && outcome == Refused(MissingRequired)
            else
              && outcome == Done && after.Side(event.source) == w.Side(event.source)
              && after.Side(to) == Upsert(cfg.tables, to, w.Side(to), link.ids[to], event.fields, amb.now)
  {
  }

  /** When the event of a write is no echo and the source has not changed since, what the target
      reads back is written over the source, whatever the strategy, unless that would leave a
      required field blank. */
  lemma LostEchoOverwrites(cfg: Config, w: World, source: Record, d: Decision, t: Id, amb: Ambient, amb2: Ambient)
    requires d.Write? && SourceUnchanged(cfg, w, source, d, t, amb) && amb2.fault == NoFault
    requires HashOf(cfg, ReadBack(cfg, w, Other(source.source), t, d.winner.fields)) != HashOf(cfg, d.winner.fields)
    ensures var from, to, mid := source.source, Other(source.source), AfterLink(cfg, w, source, d, t, amb);
            var back := ReadBack(cfg, w, to, t, d.winner.fields);
            var (after, outcome) := Reconcile(cfg, mid, Event(cfg, w, source, d, t, amb), amb2);
            if LacksRequired(cfg, from, back) then after == mid && outcome == Refused(MissingRequired)
            else
              && outcome == Done && after.Side(to) == mid.Side(to)
              && after.Side(from) == Upsert(cfg.tables, from, mid.Side(from), source.sourceId, back, amb2.now)
  {
    EventIsLinked(cfg, w, source, d, t, amb);
    NewsOverwrites(cfg, AfterLink(cfg, w, source, d, t, amb), Event(cfg, w, source, d, t, amb), d.cid, amb2);
  }

  // ----- field by field -----

  /** The target does not write the field of its rule `i`. */
  ghost predicate NotSent(cfg: Config, s: SystemId, fields: Fields, i: nat)
    requires i < |cfg.tables.Rules(s)|
  {
    Unwritten(cfg.tables.Rules(s), fields, cfg.tables.Rules(s)[i].native)
  }

  /** The target reads that field with the text of `fields` already. */
  predicate HeldAlike(cfg: Config, w: World, s: SystemId, id: Id, fields: Fields, i: nat)
    requires i < |cfg.tables.Rules(s)|
  {
    var c := cfg.tables.Rules(s)[i].canonical;
    Text(cfg.tables.host, Lookup(ToCanonical(cfg.tables, s, Stored(w, s, id)), c)) == Text(cfg.tables.host, Lookup(fields, c))
  }

  /** It reads it with that text after the write. */
  predicate ComesBack(cfg: Config, w: World, s: SystemId, id: Id, fields: Fields, i: nat)
    requires i < |cfg.tables.Rules(s)|
  {
    var c := cfg.tables.Rules(s)[i].canonical;
    Text(cfg.tables.host, Lookup(ReadBack(cfg, w, s, id, fields), c)) == Text(cfg.tables.host, Lookup(fields, c))
  }

  /** A field that is not sent comes back exactly when the target holds it alike. */
  lemma NotSentComesBack(cfg: Config, w: World, s: SystemId, id: Id, fields: Fields, i: nat)
    requires OncePerField(cfg.tables.Rules(s)) && i < |cfg.tables.Rules(s)| && NotSent(cfg, s, fields, i)
    ensures ComesBack(cfg, w, s, id, fields, i) <==> HeldAlike(cfg, w, s, id, fields, i)
  {
    UnwrittenReads(cfg.tables, s, Stored(w, s, id), fields, i);
  }

  lemma NormalByFields(cfg: Config, w: World, s: SystemId, id: Id, fields: Fields)
    requires fields.Keys == Names(cfg.tables.Rules(s))
    ensures Normal(cfg.tables.host, ReadBack(cfg, w, s, id, fields)) == Normal(cfg.tables.host, fields)
            <==> forall i :: 0 <= i < |cfg.tables.Rules(s)| ==> ComesBack(cfg, w, s, id, fields, i)
  {
    var host, rules, back := cfg.tables.host, cfg.tables.Rules(s), ReadBack(cfg, w, s, id, fields);
    assert back.Keys == fields.Keys;
    if forall i :: 0 <= i < |rules| ==> ComesBack(cfg, w, s, id, fields, i) {
      forall c | c in fields ensures Text(host, back[c]) == Text(host, fields[c]) {
        var i :| 0 <= i < |rules| && rules[i].canonical == c;
        assert ComesBack(cfg, w, s, id, fields, i);
      }
    }
    if Normal(host, back) == Normal(host, fields) {
      forall i | 0 <= i < |rules| ensures ComesBack(cfg, w, s, id, fields, i) {
        assert rules[i].canonical in fields;
        assert Normal(host, back)[rules[i].canonical] == Normal(host, fields)[rules[i].canonical];
      }
    }
  }

  /** Every field that is sent comes back. */
  ghost predicate SentComeBack(cfg: Config, w: World, s: SystemId, id: Id, fields: Fields) {
    forall i :: 0 <= i < |cfg.tables.Rules(s)| && !NotSent(cfg, s, fields, i) ==> ComesBack(cfg, w, s, id, fields, i)
  }

  /** As it does through distinct rules that carry it. */
  lemma CarriedComesBack(cfg: Config, w: World, s: SystemId, id: Id, fields: Fields, i: nat)
    requires Distinct(cfg.tables.Rules(s)) && i < |cfg.tables.Rules(s)| && IsWritten(cfg.tables.Rules(s)[i], fields)
    requires var r := cfg.tables.Rules(s)[i]; ReadValue(cfg.tables, s, r, WriteValue(cfg.tables, s, r, fields[r.canonical])) == fields[r.canonical]
    ensures ComesBack(cfg, w, s, id, fields, i)
  {
    WrittenReads(cfg.tables, s, Stored(w, s, id), fields, i);
  }

  /** What is written comes back with its texts exactly when the target already holds every field
      that is not sent. */
  lemma BackByFields(cfg: Config, w: World, s: SystemId, id: Id, fields: Fields)
    requires OncePerField(cfg.tables.Rules(s)) && fields.Keys == Names(cfg.tables.Rules(s)) && SentComeBack(cfg, w, s, id, fields)
    ensures Normal(cfg.tables.host, ReadBack(cfg, w, s, id, fields)) == Normal(cfg.tables.host, fields)
            <==> forall i :: 0 <= i < |cfg.tables.Rules(s)| && NotSent(cfg, s, fields, i) ==> HeldAlike(cfg, w, s, id, fields, i)
  {
    NormalByFields(cfg, w, s, id, fields);
    forall i | 0 <= i < |cfg.tables.Rules(s)| && NotSent(cfg, s, fields, i)
      ensures ComesBack(cfg, w, s, id, fields, i) <==> HeldAlike(cfg, w, s, id, fields, i)
    {
      NotSentComesBack(cfg, w, s, id, fields, i);
    }
  }

  /** So, where the digest can be trusted, the event of a write is an echo exactly when the target
      already held the text of every field that it was not sent. */
  lemma EchoByFields(cfg: Config, w: World, source: Record, d: Decision, t: Id, amb: Ambient, amb2: Ambient)
    requires d.Write? && OncePerField(cfg.tables.Rules(Other(source.source)))
    requires d.winner.fields.Keys == Names(cfg.tables.Rules(Other(source.source)))
    requires SentComeBack(cfg, w, Other(source.source), t, d.winner.fields)
    requires Unambiguous(cfg.tables.host, d.winner.fields)
    requires CollisionFree(cfg.tables.host, d.winner.fields, ReadBack(cfg, w, Other(source.source), t, d.winner.fields))
    ensures var to := Other(source.source);
            Reconcile(cfg, AfterLink(cfg, w, source, d, t, amb), Event(cfg, w, source, d, t, amb), amb2).1 == Echo
            <==> forall i :: 0 <= i < |cfg.tables.Rules(to)| && NotSent(cfg, to, d.winner.fields, i) ==>
                   HeldAlike(cfg, w, to, t, d.winner.fields, i)
  {
    var to, f := Other(source.source), d.winner.fields;
    EchoExactly(cfg, w, source, d, t, amb, amb2);
    BackByFields(cfg, w, to, t, f);
    SameDigest(cfg, f, ReadBack(cfg, w, to, t, f));
  }

  lemma SameDigest(cfg: Config, f: Fields, g: Fields)
    requires f.Keys == g.Keys && Unambiguous(cfg.tables.host, f) && CollisionFree(cfg.tables.host, f, g)
    ensures HashOf(cfg, f) == HashOf(cfg, g) <==> Normal(cfg.tables.host, f) == Normal(cfg.tables.host, g)
  {
    if HashOf(cfg, f) == HashOf(cfg, g) { EqualHashes(cfg.tables.host, f, g); }
    if Normal(cfg.tables.host, f) == Normal(cfg.tables.host, g) { HashOfNormal(cfg.tables.host, f, g); }
  }

  /** And once a lost echo has been handled, a field that was not sent has its text in the source
      exactly when the target already held it. */
  lemma FieldSurvivesExactly(cfg: Config, w: World, source: Record, d: Decision, t: Id, amb: Ambient, amb2: Ambient, i: nat)
    requires d.Write? && SourceUnchanged(cfg, w, source, d, t, amb) && amb2.fault == NoFault
    requires HashOf(cfg, ReadBack(cfg, w, Other(source.source), t, d.winner.fields)) != HashOf(cfg, d.winner.fields)
    requires !LacksRequired(cfg, source.source, ReadBack(cfg, w, Other(source.source), t, d.winner.fields))
    requires OncePerField(cfg.tables.Rules(Other(source.source))) && i < |cfg.tables.Rules(Other(source.source))|
    requires NotSent(cfg, Other(source.source), d.winner.fields, i)
    requires Flat(cfg.tables.Rules(source.source))
    requires Carries(cfg.tables, source.source, ReadBack(cfg, w, Other(source.source), t, d.winner.fields))
    ensures var from, to, c := source.source, Other(source.source), cfg.tables.Rules(Other(source.source))[i].canonical;
            var after := Reconcile(cfg, AfterLink(cfg, w, source, d, t, amb), Event(cfg, w, source, d, t, amb), amb2).0;
            && source.sourceId in after.Side(from).records
            && (Text(cfg.tables.host, Lookup(Canon(cfg.tables, from, after.Side(from), source.sourceId), c))
                == Text(cfg.tables.host, Lookup(d.winner.fields, c))
                <==> HeldAlike(cfg, w, to, t, d.winner.fields, i))
  {
    var from, to, mid := source.source, Other(source.source), AfterLink(cfg, w, source, d, t, amb);
    LostEchoOverwrites(cfg, w, source, d, t, amb, amb2);
    UpsertReadsBack(cfg.tables, from, mid.Side(from), source.sourceId, ReadBack(cfg, w, to, t, d.winner.fields), amb2.now);
    NotSentComesBack(cfg, w, to, t, d.winner.fields, i);
  }
}

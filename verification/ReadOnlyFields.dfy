/** A field that one system only reads: what becomes of an edit of it on the other side. */
module ReadOnlyFields {
  import opened Canonical
  import opened Mapping
  import opened Conflict
  import opened ContentHash
  import opened IdMap
  import opened Connector
  import opened Reconciler
  import opened Protocol
  import opened SmallWorlds
  import opened Echoes

  /** Salesforce never writes x, as with the company name of the shipped contact. */
  function OneSided(host: Host): Tables {
    PlainTables(host).(salesforce := [X_READ, Plain("y", "y")])
  }

  function OneSidedConfig(host: Host, strategy: Strategy): Config { PlainConfig(host, strategy).(tables := OneSided(host)) }

  lemma FillTwo(r: FieldRule, q: FieldRule, fields: Fields, value: FieldRule -> FieldValue)
    ensures FillCanonical([r, q], value) == map[r.canonical := value(r)][q.canonical := value(q)]
    ensures var first: Fields := if IsWritten(r, fields) then map[r.native := value(r)] else map[];
            FillNative([r, q], fields, value) == if IsWritten(q, fields) then first[q.native := value(q)] else first
  {
    assert [r, q][..1] == [r] && [r][..0] == [];
    assert FillCanonical([r], value) == map[r.canonical := value(r)];
    assert FillNative([r], fields, value) == if IsWritten(r, fields) then map[r.native := value(r)] else map[];
  }

  /** Reading and writing these fields changes no value. */
  lemma PlainValues(host: Host, s: SystemId, r: FieldRule, v: FieldValue)
    requires r.toCanonical == r.fromCanonical == Identity
    ensures ReadValue(OneSided(host), s, r, v) == v && WriteValue(OneSided(host), s, r, v) == v
  {
    Unmapped(OneSided(host), s, r, v);
  }

  const X_READ := Plain("x", "x").(readOnly := true)

  lemma Undotted()
    ensures !Dotted("x") && !Dotted("y") && "x" != "y"
  {
    assert "x"[0] != "y"[0];
  }

  lemma SalesforceWrites(host: Host, x: FieldValue, y: FieldValue)
    ensures FromCanonical(OneSided(host), Salesforce, TwoFields(x, y)) == map["y" := y]
  {
    var tb, f := OneSided(host), TwoFields(x, y);
    Undotted();
    FillTwo(X_READ, Plain("y", "y"), f, Writer(tb, Salesforce, f));
    PlainValues(host, Salesforce, Plain("y", "y"), y);
  }

  lemma SalesforceReads(host: Host, native: Fields)
    ensures ToCanonical(OneSided(host), Salesforce, native) == TwoFields(Lookup(native, "x"), Lookup(native, "y"))
  {
    var tb := OneSided(host);
    Undotted();
    FillTwo(X_READ, Plain("y", "y"), native, Reader(tb, Salesforce, native));
    PlainValues(host, Salesforce, X_READ, Lookup(native, "x"));
    PlainValues(host, Salesforce, Plain("y", "y"), Lookup(native, "y"));
  }

  lemma HubspotMaps(host: Host, x: FieldValue, y: FieldValue)
    ensures FromCanonical(OneSided(host), Hubspot, TwoFields(x, y)) == TwoFields(x, y)
    ensures ToCanonical(OneSided(host), Hubspot, TwoFields(x, y)) == TwoFields(x, y)
  {
    var tb, f := OneSided(host), TwoFields(x, y);
    Undotted();
    FillTwo(Plain("x", "x"), Plain("y", "y"), f, Writer(tb, Hubspot, f));
    FillTwo(Plain("x", "x"), Plain("y", "y"), f, Reader(tb, Hubspot, f));
    PlainValues(host, Hubspot, Plain("x", "x"), x);
    PlainValues(host, Hubspot, Plain("y", "y"), y);
  }

  // ----- a lost value -----

  /** HubSpot's record as a user has just written it. */
  function Edited(x: FieldValue, y: FieldValue, at: Time): Record { HsRecord(TwoFields(x, y), at) }

  /** A decision to write it to Salesforce as it is. */
  ghost predicate SendsEdit(cfg: Config, w: World, source: Record, d: Decision, t: Id, amb: Ambient) {
    && d.Write? && d.winner == source && source.source == Hubspot
    && Reconcile(cfg, w, source, amb) == (AfterLink(cfg, w, source, d, t, amb), Done)
  }

  lemma SentBack(host: Host, strategy: Strategy, w: World, x: FieldValue, y: FieldValue, t: Id)
    ensures ReadBack(OneSidedConfig(host, strategy), w, Salesforce, t, TwoFields(x, y))
            == TwoFields(Lookup(Stored(w, Salesforce, t), "x"), y)
  {
    var merged := Stored(w, Salesforce, t) + map["y" := y];
    SalesforceWrites(host, x, y);
    SalesforceReads(host, merged);
    assert "x"[0] != "y"[0];
    assert Lookup(merged, "x") == Lookup(Stored(w, Salesforce, t), "x");
  }

  /** Both deliveries: the edit's, and that of the event which its write to Salesforce causes. */
  function BothDeliveries(cfg: Config, w: World, t: Id, amb: Ambient, amb2: Ambient): World {
    ReconcileNow(cfg, ReconcileNow(cfg, w, Hubspot, "b", amb), Salesforce, t, amb2)
  }

  /** One engine write on each side, and x in HubSpot is what Salesforce held. */
  ghost predicate Reverted(cfg: Config, w: World, after: World, x: FieldValue, y: FieldValue) {
    && Writes(after) == Writes(w) + 2
    && "b" in after.hs.records && Canon(cfg.tables, Hubspot, after.hs, "b") == TwoFields(x, y)
  }

  lemma WritesCounted(cfg: Config, w: World, source: Record, d: Decision, t: Id, amb: Ambient)
    requires d.Write? && d.winner == source && source.source == Hubspot
    ensures AfterLink(cfg, w, source, d, t, amb).hs == w.hs
    ensures |AfterLink(cfg, w, source, d, t, amb).sf.written| == |w.sf.written| + 1
    ensures !WritesBack(cfg, source, d)
  {
  }

  lemma OneUpsert(host: Host, strategy: Strategy, crm: Crm, x: FieldValue, y: FieldValue, z: FieldValue, at: Time, now: Time)
    requires "b" in crm.records && crm.records["b"] == Native(TwoFields(x, y), at)
    ensures var cfg := OneSidedConfig(host, strategy);
            var after := Upsert(cfg.tables, Hubspot, crm, "b", TwoFields(z, y), now);
            && |after.written| == |crm.written| + 1 && "b" in after.records
            && Canon(cfg.tables, Hubspot, after, "b") == TwoFields(z, y)
  {
    HubspotMaps(host, z, y);
    assert TwoFields(x, y) + TwoFields(z, y) == TwoFields(z, y);
  }

  /** Salesforce's value of x, or null where it has none, is written over an edit that gives x another
      text for the digest, under every strategy. */
  lemma EditReverted(host: Host, strategy: Strategy, w: World, x: FieldValue, y: FieldValue, at: Time, d: Decision, t: Id, amb: Ambient, amb2: Ambient)
    requires var cfg := OneSidedConfig(host, strategy);
             Current(cfg, w, Edited(x, y, at)) && SendsEdit(cfg, w, Edited(x, y, at), d, t, amb)
    requires "b" in w.hs.records && w.hs.records["b"] == Native(TwoFields(x, y), at)
    requires var z := Lookup(Stored(w, Salesforce, t), "x"); Hash(host, TwoFields(z, y)) != Hash(host, TwoFields(x, y))
    requires amb2.fault == NoFault
    ensures var cfg := OneSidedConfig(host, strategy);
            Reverted(cfg, w, BothDeliveries(cfg, w, t, amb, amb2), Lookup(Stored(w, Salesforce, t), "x"), y)
  {
    var cfg, source, z := OneSidedConfig(host, strategy), Edited(x, y, at), Lookup(Stored(w, Salesforce, t), "x");
    var mid := AfterLink(cfg, w, source, d, t, amb);
    SentBack(host, strategy, w, x, y, t);
    WritesCounted(cfg, w, source, d, t, amb);
    NotWrittenBack(cfg, w, source, d, t, amb);
    EventIsRead(cfg, w, source, d, t, amb);
    LostEchoOverwrites(cfg, w, source, d, t, amb, amb2);
    OneUpsert(host, strategy, mid.hs, x, y, z, at, amb2.now);
  }

  // ----- it happens to a new record -----

  /** A user has created one record in HubSpot; nothing else is there. */
  function Begun(x: FieldValue, y: FieldValue, at: Time): World {
    World(EMPTY_CRM, Crm(["b"], map["b" := Native(TwoFields(x, y), at)], [], []), EMPTY_TABLE)
  }

  lemma FirstDecision(cfg: Config, w: World, source: Record, amb: Ambient)
    requires cfg.keyFields == [] && cfg.required == map[] && w.table == EMPTY_TABLE && source.source == Hubspot && amb.fault == NoFault
    ensures SendsEdit(cfg, w, source, Write(amb.newCid, Link(map[Hubspot := source.sourceId], map[], map[], {}), None, source), amb.newId, amb)
  {
  }

  /** One user write, two engine writes, and the value the user entered is gone. */
  lemma ReadOnlyErases(host: Host, strategy: Strategy, x: FieldValue, y: FieldValue, at: Time, amb: Ambient, amb2: Ambient)
    requires Hash(host, TwoFields(Null, y)) != Hash(host, TwoFields(x, y)) && amb.fault == NoFault && amb2.fault == NoFault
    ensures var cfg, w := OneSidedConfig(host, strategy), Begun(x, y, at);
            Reverted(cfg, w, BothDeliveries(cfg, w, amb.newId, amb, amb2), Null, y)
  {
    var cfg, w := OneSidedConfig(host, strategy), Begun(x, y, at);
    var d := Write(amb.newCid, Link(map[Hubspot := "b"], map[], map[], {}), None, Edited(x, y, at));
    HubspotMaps(host, x, y);
    FirstDecision(cfg, w, Edited(x, y, at), amb);
    EditReverted(host, strategy, w, x, y, at, d, amb.newId, amb, amb2);
  }

  // ----- and to an edit of a linked one -----

  /** The pair was in step at (x, y); then a user has set x to another value in HubSpot. */
  function EditedPair(host: Host, x: FieldValue, x': FieldValue, y: FieldValue, at: Time, bt: Time): World {
    PairWorld(TwoFields(x, y), at, TwoFields(x', y), bt, Hash(host, TwoFields(x, y)))
  }

  lemma EditDecision(cfg: Config, w: World, source: Record, other: Record, h: string, amb: Ambient)
    requires OnePair(w, h) && cfg.required == map[] && amb.fault == NoFault
    requires source.source == Hubspot && source.sourceId == "b" && Salesforce in w.table.links["c"].ids && w.table.links["c"].ids[Salesforce] == "a"
    requires Peek(cfg, w, Salesforce, "a") == Some(other) && HashOf(cfg, other.fields) == h && HashOf(cfg, source.fields) != h
    ensures SendsEdit(cfg, w, source, Write("c", w.table.links["c"], Some("a"), source), "a", amb)
  {
    EditDecides(cfg, w, source, other, h, amb.newCid);
    DecidedRun(cfg, w, source, amb);
  }

  lemma EditDecides(cfg: Config, w: World, source: Record, other: Record, h: string, newCid: Cid)
    requires OnePair(w, h) && cfg.required == map[]
    requires source.source == Hubspot && source.sourceId == "b" && Salesforce in w.table.links["c"].ids && w.table.links["c"].ids[Salesforce] == "a"
    requires Peek(cfg, w, Salesforce, "a") == Some(other) && HashOf(cfg, other.fields) == h && HashOf(cfg, source.fields) != h
    ensures Decide(cfg, w, source, newCid) == Write("c", w.table.links["c"], Some("a"), source)
  {
  }

  /** With no fault a decision to write is carried out. */
  lemma DecidedRun(cfg: Config, w: World, source: Record, amb: Ambient)
    requires Decide(cfg, w, source, amb.newCid).Write? && amb.fault == NoFault
    ensures var d := Decide(cfg, w, source, amb.newCid);
            Reconcile(cfg, w, source, amb) == (AfterLink(cfg, w, source, d, if d.target.Some? then d.target.value else amb.newId, amb), Done)
  {
  }

  /** The edit is undone: Salesforce's event brings back the value it was never sent. */
  lemma ReadOnlyReverts(host: Host, strategy: Strategy, x: FieldValue, x': FieldValue, y: FieldValue, at: Time, bt: Time, amb: Ambient, amb2: Ambient)
    requires Hash(host, TwoFields(x, y)) != Hash(host, TwoFields(x', y)) && amb.fault == NoFault && amb2.fault == NoFault
    ensures var cfg, w := OneSidedConfig(host, strategy), EditedPair(host, x, x', y, at, bt);
            Reverted(cfg, w, BothDeliveries(cfg, w, "a", amb, amb2), x, y)
  {
    var cfg, w, h := OneSidedConfig(host, strategy), EditedPair(host, x, x', y, at, bt), Hash(host, TwoFields(x, y));
    PairTable(TwoFields(x, y), at, TwoFields(x', y), bt, h);
    HubspotMaps(host, x', y);
    SalesforceReads(host, TwoFields(x, y));
    EditDecision(cfg, w, Edited(x', y, bt), SfRecord(TwoFields(x, y), at), h, amb);
    EditReverted(host, strategy, w, x', y, bt, Write("c", w.table.links["c"], Some("a"), Edited(x', y, bt)), "a", amb, amb2);
  }
}

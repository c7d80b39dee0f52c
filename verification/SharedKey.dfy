/** Two records of one system with the same natural key: how the second takes over the link of the
    first. */
module SharedKey {
  import opened Canonical
  import opened Strings
  import opened Conflict
  import opened ContentHash
  import opened IdMap
  import opened Connector
  import opened Reconciler
  import opened Protocol
  import opened NaturalKeys
  import opened SmallWorlds

  /** An unlinked record whose key is filed under a link that has other content for its side is
      reconciled through that link, and the links are no longer one-to-one. */
  lemma SecondTakesOver(cfg: Config, w: World, source: Record, cid: Cid, key: string, amb: Ambient)
    requires TableOk(w) && Current(cfg, w, source) && FreshIds(w, Other(source.source), amb)
    requires TakesOver(cfg, w, source, cid, key)
    requires !LacksRequired(cfg, Other(source.source), Winner(cfg, w, source, TakenLink(w, source, cid, key)).fields)
    ensures Reconcile(cfg, w, source, amb).1 == Done
    ensures !SourceExact(Reconcile(cfg, w, source, amb).0.table)
  {
    assert !MatchOk(cfg, w, source);
    assert Reconcile(cfg, w, source, amb).1 == Done by {
      TakeOverWrites(cfg, w, source, cid, key, amb);
    }
    OneToOneExactly(cfg, w, source, amb);
  }

  /** The stored link with the record's own id and key put in. */
  function TakenLink(w: World, source: Record, cid: Cid, key: string): Link
    requires cid in w.table.links
  {
    var link := w.table.links[cid];
    link.(ids := link.ids[source.source := source.sourceId], keys := link.keys + {key})
  }

  /** The record is unlinked, but its key is filed under a link with other content for its side. */
  predicate TakesOver(cfg: Config, w: World, source: Record, cid: Cid, key: string) {
    && FindBySource(w.table, source.source, source.sourceId) == None
    && KeyFor(cfg, source.fields) == Some(key) && FindByKey(w.table, key) == Some(cid)
    && source.source in w.table.links[cid].hashes
    && w.table.links[cid].hashes[source.source] != HashOf(cfg, source.fields)
  }

  lemma TakeOverWrites(cfg: Config, w: World, source: Record, cid: Cid, key: string, amb: Ambient)
    requires amb.fault == NoFault && TakesOver(cfg, w, source, cid, key)
    requires !LacksRequired(cfg, Other(source.source), Winner(cfg, w, source, TakenLink(w, source, cid, key)).fields)
    ensures Reconcile(cfg, w, source, amb).1 == Done
  {
  }

  // ----- it happens -----

  function KeyConfig(host: Host): Config { PlainConfig(host, FieldMerge).(keyFields := ["x"]) }

  function Keyed(k: string, y: string): Fields { TwoFields(Str(k), Str(y)) }

  function JoinedKey(k: string): string { JoinKey(["x"], [k]) }

  /** Salesforce holds two records with the key text k, one of them synced with the only HubSpot
      record. */
  function KeyWorld(host: Host, k: string): World {
    var h := Hash(host, Keyed(k, "1"));
    World(Crm(["a", "b"], map["a" := Native(Keyed(k, "1"), 0), "b" := Native(Keyed(k, "2"), 0)], [], []),
          Crm(["t"], map["t" := Native(Keyed(k, "1"), 0)], [], []),
          Index(EMPTY_TABLE, "c", Link(map[Salesforce := "a", Hubspot := "t"], map[Salesforce := h, Hubspot := h], map[], {JoinedKey(k)})))
  }

  function Latecomer(k: string): Record { Record(Keyed(k, "2"), Salesforce, "b", 0) }

  lemma NormalText(host: Host, k: string)
    requires k != "" && Lower(Trim(k)) == k
    ensures Criterion(host, "x", Str(k)) == Some(k)
  {
    assert |"x"| != |"domain"|;
  }

  lemma OneFieldKey(host: Host, field: string, f: Fields, k: string)
    requires Criterion(host, field, Lookup(f, field)) == Some(k)
    ensures NaturalKey(host, [field], f) == Some(JoinKey([field], [k]))
  {
    CriteriaAt(host, [field], f, [k]);
  }

  lemma KeyOfLatecomer(host: Host, k: string)
    requires k != "" && Lower(Trim(k)) == k
    ensures NaturalKey(host, ["x"], Keyed(k, "2")) == Some(JoinedKey(k))
  {
    NormalText(host, k);
    OneFieldKey(host, "x", Keyed(k, "2"), k);
  }

  lemma KeyTable(host: Host, k: string)
    ensures var w := KeyWorld(host, k);
            TableOk(w) && FindByKey(w.table, JoinedKey(k)) == Some("c") && !Linked(w, Salesforce, "b")
  {
    var w := KeyWorld(host, k);
    SingleLinkTable(w, "c", w.table.links["c"]);
    KeyEntry(host, k);
  }

  lemma KeyEntry(host: Host, k: string)
    ensures var w := KeyWorld(host, k); FindByKey(w.table, JoinedKey(k)) == Some("c") && !Linked(w, Salesforce, "b")
  {
  }

  lemma KeyFacts(host: Host, k: string)
    ensures var w := KeyWorld(host, k);
            && w.table.links.Keys == {"c"} && w.hs.records.Keys == {"t"}
            && Salesforce in w.table.links["c"].hashes && w.table.links["c"].hashes[Salesforce] == Hash(host, Keyed(k, "1"))
  {
  }

  lemma KeySnapshot(host: Host, k: string)
    ensures Peek(KeyConfig(host), KeyWorld(host, k), Salesforce, "b") == Some(Latecomer(k))
  {
    PlainReads(host, Str(k), Str("2"));
  }

  lemma KeyTakenOver(host: Host, k: string)
    requires k != "" && Lower(Trim(k)) == k && Hash(host, Keyed(k, "1")) != Hash(host, Keyed(k, "2"))
    ensures TakesOver(KeyConfig(host), KeyWorld(host, k), Latecomer(k), "c", JoinedKey(k))
  {
    KeyTable(host, k);
    KeyOfLatecomer(host, k);
    KeyFacts(host, k);
  }

  lemma KeyFresh(host: Host, k: string, amb: Ambient)
    requires amb.newCid != "c" && amb.newId != "t" && amb.fault == NoFault
    ensures FreshIds(KeyWorld(host, k), Hubspot, amb)
  {
    KeyFacts(host, k);
  }

  /** So one-to-one links cannot be had without the match check: in this world, with any key text
      that is its own normal form, it fails, the run goes through, and the first record's index
      entry is left pointing at the second record's link. */
  lemma SharedKeyBreaks(host: Host, k: string, amb: Ambient)
    requires k != "" && Lower(Trim(k)) == k && Hash(host, Keyed(k, "1")) != Hash(host, Keyed(k, "2"))
    requires amb.newCid != "c" && amb.newId != "t" && amb.fault == NoFault
    ensures var cfg, w := KeyConfig(host), KeyWorld(host, k);
            && TableOk(w) && Current(cfg, w, Latecomer(k))
            && Reconcile(cfg, w, Latecomer(k), amb).1 == Done
            && !SourceExact(Reconcile(cfg, w, Latecomer(k), amb).0.table)
  {
    KeyTable(host, k);
    KeySnapshot(host, k);
    KeyTakenOver(host, k);
    KeyFresh(host, k, amb);
    SecondTakesOver(KeyConfig(host), KeyWorld(host, k), Latecomer(k), "c", JoinedKey(k), amb);
  }
}

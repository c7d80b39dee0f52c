/** The smallest interesting worlds, for concrete runs: two plain fields on both sides, and one
    linked pair of records. */
module SmallWorlds {
  import opened Canonical
  import opened Mapping
  import opened Conflict
  import opened IdMap
  import opened Connector
  import opened Reconciler
  import opened Protocol

  function TwoFields(x: FieldValue, y: FieldValue): Fields { map["x" := x, "y" := y] }

  function PlainTables(host: Host): Tables {
    var rules := [Plain("x", "x"), Plain("y", "y")];
    Tables(host, rules, rules, [])
  }

  function PlainConfig(host: Host, strategy: Strategy): Config {
    Config(PlainTables(host), [], strategy, Salesforce, true, map[])
  }

  /** Salesforce's record "a" and HubSpot's record "b", last synced at digest `h`. */
  function PairWorld(f: Fields, at: Time, g: Fields, bt: Time, h: string): World {
    World(Crm(["a"], map["a" := Native(f, at)], [], []),
          Crm(["b"], map["b" := Native(g, bt)], [], []),
          Index(EMPTY_TABLE, "c", Link(map[Salesforce := "a", Hubspot := "b"], map[Salesforce := h, Hubspot := h], map[], {})))
  }

  function SfRecord(f: Fields, at: Time): Record { Record(f, Salesforce, "a", at) }

  function HsRecord(g: Fields, bt: Time): Record { Record(g, Hubspot, "b", bt) }

  lemma PlainReads(host: Host, x: FieldValue, y: FieldValue)
    ensures forall s :: ToCanonical(PlainTables(host), s, TwoFields(x, y)) == TwoFields(x, y)
  {
  }

  lemma PlainSettled(host: Host)
    ensures Settled(PlainTables(host)) && AlwaysCarried(PlainTables(host))
  {
    assert "x"[0] != "y"[0];
    assert Flat(PlainTables(host).salesforce);
    MatchedSettled(PlainTables(host));
  }

  lemma {:induction false} NoOwners(rules: seq<FieldRule>)
    requires forall r :: r in rules ==> r.owner == None
    ensures OwnersOf(rules) == map[]
  {
    if rules != [] {
      assert rules[|rules| - 1] in rules;
      NoOwners(rules[..|rules| - 1]);
    }
  }

  lemma PlainPolicy(host: Host, strategy: Strategy)
    ensures PolicyOf(PlainConfig(host, strategy)) == Policy(strategy, Salesforce, map[])
  {
    NoOwners(PlainTables(host).salesforce + PlainTables(host).hubspot);
  }

  lemma SingleLinkTable(w: World, cid: Cid, link: Link)
    requires w.table == Index(EMPTY_TABLE, cid, link) && Live(w, link) && Agreed(link)
    ensures TableOk(w) && forall s :: s in link.ids ==> FindBySource(w.table, s, link.ids[s]) == Some(cid)
  {
    IndexNewIds(EMPTY_TABLE, cid, link);
    assert w.table.links.Keys == {cid} && w.table.links[cid] == link;
  }

  /** The link recorded the digest `h` for both sides. */
  ghost predicate LastSyncedAt(w: World, cid: Cid, h: string) {
    cid in w.table.links && forall s: SystemId :: s in w.table.links[cid].hashes && w.table.links[cid].hashes[s] == h
  }

  /** Records "a" and "b" are alone in their systems and linked under "c". */
  ghost predicate OnePair(w: World, h: string) {
    && TableOk(w) && FindBySource(w.table, Salesforce, "a") == FindBySource(w.table, Hubspot, "b") == Some("c")
    && w.table.links.Keys == {"c"} && w.sf.records.Keys == {"a"} && w.hs.records.Keys == {"b"}
    && LastSyncedAt(w, "c", h)
  }

  lemma PairTable(f: Fields, at: Time, g: Fields, bt: Time, h: string)
    ensures OnePair(PairWorld(f, at, g, bt, h), h)
  {
    var w := PairWorld(f, at, g, bt, h);
    SingleLinkTable(w, "c", w.table.links["c"]);
    forall s: SystemId ensures s in w.table.links["c"].hashes && w.table.links["c"].hashes[s] == h {
      assert s == Salesforce || s == Hubspot;
    }
  }

  lemma PairReads(host: Host, strategy: Strategy, x: FieldValue, y: FieldValue, at: Time, x': FieldValue, y': FieldValue, bt: Time, h: string)
    ensures var cfg, w := PlainConfig(host, strategy), PairWorld(TwoFields(x, y), at, TwoFields(x', y'), bt, h);
            && Peek(cfg, w, Salesforce, "a") == Some(SfRecord(TwoFields(x, y), at))
            && Peek(cfg, w, Hubspot, "b") == Some(HsRecord(TwoFields(x', y'), bt))
  {
    PlainReads(host, x, y);
    PlainReads(host, x', y');
  }

  /** Either record of the pair is ready to be reconciled. */
  lemma PairReady(cfg: Config, w: World, source: Record, amb: Ambient)
    requires AlwaysCarried(cfg.tables) && Settled(cfg.tables)
    requires TableOk(w) && Current(cfg, w, source) && Linked(w, source.source, source.sourceId)
    requires FreshIds(w, Other(source.source), amb)
    ensures Ready(cfg, w, source, amb)
  {
    AlwaysAllCarried(cfg.tables, w);
  }

  /** A linked record with news is written when nothing is required. */
  lemma NewsIsWritten(cfg: Config, w: World, source: Record, cid: Cid, h: string, newCid: Cid)
    requires cfg.required == map[] && FindBySource(w.table, source.source, source.sourceId) == Some(cid)
    requires LastSyncedAt(w, cid, h) && h != HashOf(cfg, source.fields)
    ensures var d := Decide(cfg, w, source, newCid);
            d.Write? && d.link == w.table.links[cid] && d.winner == Winner(cfg, w, source, d.link)
  {
  }
}

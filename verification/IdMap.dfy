/** The id map: natural keys, links between native ids, and the two indexes over them
    (src/core/idMap.ts), for one canonical object type. */
module IdMap {
  import opened Canonical
  import opened Strings
  import JoinedText

  type Cid = string

  // ----- natural keys -----

  /** How the text of a key field is normalized. */
  function NormalizeKeyValue(host: Host, field: string, raw: string): string {
    if field == "domain" then host.keyDomain(raw) else PlainText(raw)
  }

  /** Apart from domains, two texts give one key value exactly when they differ in case and in the
      blanks around them alone. */
  lemma KeyValueExactly(host: Host, field: string, before: string, a: string, after: string, left: string, b: string, right: string)
    requires field != "domain" && Bare(a) && Bare(b)
    requires Blank(before) && Blank(after) && Blank(left) && Blank(right)
    ensures NormalizeKeyValue(host, field, before + a + after) == NormalizeKeyValue(host, field, left + b + right)
            <==> |a| == |b| && forall i :: 0 <= i < |a| ==> LowerChar(a[i]) == LowerChar(b[i])
  {
    TrimAround(before, a, after);
    TrimAround(left, b, right);
    SameLower(a, b);
  }

  lemma SameLower(a: string, b: string)
    ensures Lower(a) == Lower(b) <==> |a| == |b| && forall i :: 0 <= i < |a| ==> LowerChar(a[i]) == LowerChar(b[i])
  {
    if Lower(a) == Lower(b) {
      forall i | 0 <= i < |a| ensures LowerChar(a[i]) == LowerChar(b[i]) {
        assert Lower(a)[i] == LowerChar(a[i]) && Lower(b)[i] == LowerChar(b[i]);
      }
    }
  }

  /** Two domains do exactly when they have one host. */
  lemma KeyDomainExactly(host: Host, a: string, b: string)
    ensures NormalizeKeyValue(host, "domain", a) == NormalizeKeyValue(host, "domain", b) <==> host.keyDomain(a) == host.keyDomain(b)
  {
  }

  /** The normalized key value of one field; a value that is not text or a number, or that
      normalizes to nothing, gives no key. */
  function Criterion(host: Host, field: string, v: FieldValue): Option<string> {
    if !v.Str? && !v.Num? then None
    else
      var value := NormalizeKeyValue(host, field, Text(host, v));
      if value == "" then None else Some(value)
  }

  /** Null and booleans give no key, and a number gives that of its text. */
  lemma NumbersKeyed(host: Host, field: string, v: FieldValue)
    ensures v.Null? || v.Bool? ==> Criterion(host, field, v) == None
    ensures v.Num? ==> Criterion(host, field, v) == Criterion(host, field, Str(host.numText(v.number)))
  {
  }

  /** A text gives no key exactly when it is blank, or as a domain when it has no host. */
  lemma TextsKeyed(host: Host, field: string, s: string)
    ensures Criterion(host, field, Str(s)) == None <==> if field == "domain" then host.keyDomain(s) == "" else Blank(s)
  {
    NormalizedAway(s);
    KeyedText(host, field, s);
  }

  lemma KeyedText(host: Host, field: string, s: string)
    ensures Criterion(host, field, Str(s)) == None <==> NormalizeKeyValue(host, field, s) == ""
  {
  }

  lemma NormalizedAway(s: string)
    ensures PlainText(s) == "" <==> Blank(s)
  {
    TrimmedAway(s);
    assert |Lower(Trim(s))| == |Trim(s)|;
  }

  /** The normalized values along the configured key fields. */
  function Criteria(host: Host, keyFields: seq<string>, f: Fields): Option<seq<string>> {
    if forall i :: 0 <= i < |keyFields| ==> Criterion(host, keyFields[i], Lookup(f, keyFields[i])).Some? then
      Some(seq(|keyFields|, i requires 0 <= i < |keyFields| =>
        Criterion(host, keyFields[i], Lookup(f, keyFields[i])).value))
    else None
  }

  /** `field:value` for every criterion, joined with bars. */
  function JoinKey(keyFields: seq<string>, values: seq<string>): string
    requires |keyFields| == |values|
  {
    JoinedText.Encode(':', keyFields, values)
  }

  /** The stable key a record is matched by, if it has one. */
  function NaturalKey(host: Host, keyFields: seq<string>, f: Fields): Option<string> {
    if keyFields == [] then None
    else match Criteria(host, keyFields, f)
      case None => None
      case Some(values) => Some(JoinKey(keyFields, values))
  }

  /** The criteria loop of `naturalKeyQuery`. */
  method NaturalKeyQuery(host: Host, keyFields: seq<string>, f: Fields) returns (key: Option<string>)
    ensures key == NaturalKey(host, keyFields, f)
  {
    var values: seq<string> := [];
    for i := 0 to |keyFields|
      invariant |values| == i
      invariant forall j :: 0 <= j < i ==>
                  Criterion(host, keyFields[j], Lookup(f, keyFields[j])) == Some(values[j])
    {
      match Criterion(host, keyFields[i], Lookup(f, keyFields[i])) {
        case None => return None;
        case Some(value) => values := values + [value];
      }
    }
    if |keyFields| == 0 {
      return None;
    }
    assert Criteria(host, keyFields, f).value == values;
    return Some(JoinKey(keyFields, values));
  }

  /** All records with this joined key have the same normalized value in every key field. */
  ghost predicate KeyDetermines(host: Host, keyFields: seq<string>, key: string) {
    forall f: Fields, g: Fields ::
      NaturalKey(host, keyFields, f) == Some(key) && NaturalKey(host, keyFields, g) == Some(key) ==>
      Criteria(host, keyFields, f) == Criteria(host, keyFields, g)
  }

  lemma CriteriaAt(host: Host, keyFields: seq<string>, f: Fields, values: seq<string>)
    requires |values| == |keyFields|
    ensures Criteria(host, keyFields, f) == Some(values) <==>
            forall i :: 0 <= i < |keyFields| ==> Criterion(host, keyFields[i], Lookup(f, keyFields[i])) == Some(values[i])
  {
    if forall i :: 0 <= i < |keyFields| ==> Criterion(host, keyFields[i], Lookup(f, keyFields[i])) == Some(values[i]) {
      assert Criteria(host, keyFields, f).value == values;
    }
  }

  ghost predicate Mixes(f: Fields, a: Fields, b: Fields) {
    a.Keys == b.Keys == f.Keys && forall c :: c in f ==> f[c] == a[c] || f[c] == b[c]
  }

  /** When the key determines its values, any field-wise mix of two records with it has it too. */
  lemma MixedKey(host: Host, keyFields: seq<string>, a: Fields, b: Fields, f: Fields)
    requires Mixes(f, a, b)
    requires NaturalKey(host, keyFields, a).Some? && NaturalKey(host, keyFields, a) == NaturalKey(host, keyFields, b)
    requires KeyDetermines(host, keyFields, NaturalKey(host, keyFields, a).value)
    ensures NaturalKey(host, keyFields, f) == NaturalKey(host, keyFields, a)
  {
    var values := Criteria(host, keyFields, a).value;
    assert Criteria(host, keyFields, b) == Some(values);
    CriteriaAt(host, keyFields, a, values);
    CriteriaAt(host, keyFields, b, values);
    CriteriaAt(host, keyFields, f, values);
  }

  // ----- links and their indexes -----

  /** The memory of one cross-system record: per system its native id, the digest last seen or
      written there and the time it was seen. */
  datatype Link = Link(
    ids: map<SystemId, Id>,
    hashes: map<SystemId, string>,
    modifiedAt: map<SystemId, Time>,
    keys: set<string>)

  /** What the source index is keyed by: a native id within its system. */
  datatype NativeKey = NativeKey(system: SystemId, id: Id)

  datatype LinkTable = LinkTable(
    links: map<Cid, Link>,
    bySource: map<NativeKey, Cid>,
    byKey: map<string, Cid>)

  const EMPTY_TABLE := LinkTable(map[], map[], map[])

  /** `links.get(index.get(...))`: an index entry whose link is gone finds nothing. */
  function FindBySource(t: LinkTable, s: SystemId, id: Id): Option<Cid> {
    if NativeKey(s, id) in t.bySource && t.bySource[NativeKey(s, id)] in t.links then Some(t.bySource[NativeKey(s, id)]) else None
  }

  function FindByKey(t: LinkTable, key: string): Option<Cid> {
    if key in t.byKey && t.byKey[key] in t.links then Some(t.byKey[key]) else None
  }

  /** The index entries one link contributes. */
  function SideEntry(cid: Cid, link: Link, s: SystemId): map<NativeKey, Cid> {
    if s in link.ids then map[NativeKey(s, link.ids[s]) := cid] else map[]
  }

  function SourceEntries(cid: Cid, link: Link): (m: map<NativeKey, Cid>)
    ensures forall e :: e in m <==> e.system in link.ids && link.ids[e.system] == e.id
    ensures forall e :: e in m ==> m[e] == cid
  {
    var m := SideEntry(cid, link, Salesforce) + SideEntry(cid, link, Hubspot);
    assert forall e: NativeKey :: e.system == Salesforce || e.system == Hubspot;
    m
  }

  function KeyEntries(cid: Cid, link: Link): map<string, Cid> {
    map k | k in link.keys :: cid
  }

  function Index(t: LinkTable, cid: Cid, link: Link): LinkTable {
    LinkTable(t.links[cid := link], t.bySource + SourceEntries(cid, link), t.byKey + KeyEntries(cid, link))
  }

  /** Links and the source index describe each other exactly: every id of every link is indexed
      to that link, and every index entry is the current id of the link it names. */
  ghost predicate SourceExact(t: LinkTable) {
    && (forall c, s :: c in t.links && s in t.links[c].ids ==>
          NativeKey(s, t.links[c].ids[s]) in t.bySource && t.bySource[NativeKey(s, t.links[c].ids[s])] == c)
    && (forall e :: e in t.bySource ==>
          t.bySource[e] in t.links && e.system in t.links[t.bySource[e]].ids && t.links[t.bySource[e]].ids[e.system] == e.id)
  }

  /** With an exact index, links are one-to-one: no native id belongs to two of them. */
  lemma ExactIsOneToOne(t: LinkTable, c: Cid, d: Cid, s: SystemId)
    requires SourceExact(t) && c in t.links && d in t.links && s in t.links[c].ids && s in t.links[d].ids
    requires t.links[c].ids[s] == t.links[d].ids[s]
    ensures c == d
  {
    assert t.bySource[NativeKey(s, t.links[c].ids[s])] == c;
    assert t.bySource[NativeKey(s, t.links[d].ids[s])] == d;
  }

  /** And a lookup finds a link exactly when it lists the id. */
  lemma LookupExact(t: LinkTable, s: SystemId, id: Id, c: Cid)
    requires SourceExact(t)
    ensures FindBySource(t, s, id) == Some(c) <==> c in t.links && s in t.links[c].ids && t.links[c].ids[s] == id
  {
    if c in t.links && s in t.links[c].ids && t.links[c].ids[s] == id {
      assert t.bySource[NativeKey(s, t.links[c].ids[s])] == c;
    }
  }

  /** Re-indexing a stored link whose ids have not changed keeps the index exact. */
  lemma IndexSameIds(t: LinkTable, cid: Cid, link: Link)
    requires SourceExact(t) && cid in t.links && link.ids == t.links[cid].ids
    ensures SourceExact(Index(t, cid, link))
    ensures Index(t, cid, link).bySource == t.bySource
  {
    EntriesIndexed(t, cid, link);
    var after := Index(t, cid, link);
    assert after.bySource == t.bySource;
    SameIdsExact(t, after);
  }

  lemma SameIdsExact(t: LinkTable, after: LinkTable)
    requires SourceExact(t) && after.bySource == t.bySource && after.links.Keys == t.links.Keys
    requires forall c :: c in t.links ==> after.links[c].ids == t.links[c].ids
    ensures SourceExact(after)
  {
  }

  lemma EntriesIndexed(t: LinkTable, cid: Cid, link: Link)
    requires SourceExact(t) && cid in t.links && link.ids == t.links[cid].ids
    ensures forall e :: e in SourceEntries(cid, link) ==> e in t.bySource && t.bySource[e] == cid
  {
  }

  /** So does indexing a new link whose ids no stored link has. */
  lemma IndexNewIds(t: LinkTable, cid: Cid, link: Link)
    requires SourceExact(t) && cid !in t.links
    requires forall s :: s in link.ids ==> NativeKey(s, link.ids[s]) !in t.bySource
    ensures SourceExact(Index(t, cid, link))
  {
    var after := Index(t, cid, link);
    forall e | e in after.bySource
      ensures after.bySource[e] in after.links && e.system in after.links[after.bySource[e]].ids
      ensures after.links[after.bySource[e]].ids[e.system] == e.id
    {
      if e !in SourceEntries(cid, link) { assert e in t.bySource && t.bySource[e] != cid; }
    }
    forall c, s | c in after.links && s in after.links[c].ids
      ensures NativeKey(s, after.links[c].ids[s]) in after.bySource && after.bySource[NativeKey(s, after.links[c].ids[s])] == c
    {
      if c != cid { assert NativeKey(s, t.links[c].ids[s]) in t.bySource; }
    }
  }

  // ----- the key index -----

  /** A key is indexed exactly when a stored link has it, and then to one that does. */
  ghost predicate KeysFiled(t: LinkTable) {
    && (forall c, k :: c in t.links && k in t.links[c].keys ==> k in t.byKey)
    && (forall k :: k in t.byKey ==> t.byKey[k] in t.links && k in t.links[t.byKey[k]].keys)
  }

  /** A search by key comes back empty exactly when no stored link has the key, and otherwise with a
      link that does. */
  lemma KeyLookup(t: LinkTable, key: string)
    requires KeysFiled(t)
    ensures FindByKey(t, key) == None <==> forall c :: c in t.links ==> key !in t.links[c].keys
    ensures FindByKey(t, key).Some? ==> FindByKey(t, key).value in t.links && key in t.links[FindByKey(t, key).value].keys
  {
    if key in t.byKey { assert key in t.links[t.byKey[key]].keys; }
  }

  /** Storing a link that keeps the keys it had keeps the index in order, and its keys lead to it. */
  lemma IndexFilesKeys(t: LinkTable, cid: Cid, link: Link)
    requires KeysFiled(t) && (cid in t.links ==> t.links[cid].keys <= link.keys)
    ensures KeysFiled(Index(t, cid, link))
    ensures forall k :: k in link.keys ==> FindByKey(Index(t, cid, link), k) == Some(cid)
  {
    var after := Index(t, cid, link);
    forall k | k in after.byKey ensures after.byKey[k] in after.links && k in after.links[after.byKey[k]].keys {
      if k !in link.keys { assert k in t.byKey && after.byKey[k] == t.byKey[k]; }
    }
    forall c, k | c in after.links && k in after.links[c].keys ensures k in after.byKey {
      if c != cid { assert k in t.byKey; }
    }
  }

  // ----- the store -----

  /** Indexing saved links one after another, as `init` does after a restart. */
  function Rebuild(entries: seq<(Cid, Link)>): LinkTable {
    if entries == [] then EMPTY_TABLE
    else
      var e := entries[|entries| - 1];
      Index(Rebuild(entries[..|entries| - 1]), e.0, e.1)
  }

  class FileIdMapStore {
    var links: map<Cid, Link>
    var sourceIndex: map<NativeKey, Cid>
    var naturalIndex: map<string, Cid>

    ghost function Table(): LinkTable
      reads this
    {
      LinkTable(links, sourceIndex, naturalIndex)
    }

    constructor ()
      ensures Table() == EMPTY_TABLE
    {
      links, sourceIndex, naturalIndex := map[], map[], map[];
    }

    /** Reloads the saved links and rebuilds both indexes from them. */
    method Init(saved: seq<(Cid, Link)>)
      requires Table() == EMPTY_TABLE
      modifies this
      ensures Table() == Rebuild(saved)
    {
      for i := 0 to |saved|
        invariant Table() == Rebuild(saved[..i])
      {
        IndexLink(saved[i].0, saved[i].1);
        assert saved[..i + 1][..i] == saved[..i];
      }
      assert saved[..|saved|] == saved;
    }

    method BySource(s: SystemId, id: Id) returns (cid: Option<Cid>)
      ensures cid == FindBySource(Table(), s, id)
    {
      if NativeKey(s, id) in sourceIndex && sourceIndex[NativeKey(s, id)] in links {
        return Some(sourceIndex[NativeKey(s, id)]);
      }
      return None;
    }

    method ByNaturalKey(key: string) returns (cid: Option<Cid>)
      ensures cid == FindByKey(Table(), key)
    {
      if key in naturalIndex && naturalIndex[key] in links {
        return Some(naturalIndex[key]);
      }
      return None;
    }

    method UpsertLink(cid: Cid, link: Link)
      modifies this
      ensures Table() == Index(old(Table()), cid, link)
    {
      IndexLink(cid, link);
    }

    method IndexLink(cid: Cid, link: Link)
      modifies this
      ensures Table() == Index(old(Table()), cid, link)
    {
      links := links[cid := link];
      IndexIds(cid, link);
      IndexKeys(cid, link);
    }

    method IndexIds(cid: Cid, link: Link)
      modifies this`sourceIndex
      ensures sourceIndex == old(sourceIndex) + SourceEntries(cid, link)
    {
      if Salesforce in link.ids {
        sourceIndex := sourceIndex[NativeKey(Salesforce, link.ids[Salesforce]) := cid];
      }
      if Hubspot in link.ids {
        sourceIndex := sourceIndex[NativeKey(Hubspot, link.ids[Hubspot]) := cid];
      }
    }

    method IndexKeys(cid: Cid, link: Link)
      modifies this`naturalIndex
      ensures naturalIndex == old(naturalIndex) + KeyEntries(cid, link)
    {
      var keys := link.keys;
      while keys != {}
        invariant keys <= link.keys
        invariant naturalIndex.Keys == old(naturalIndex).Keys + (link.keys - keys)
        invariant forall k :: k in naturalIndex ==>
                    naturalIndex[k] == if k in link.keys && k !in keys then cid else old(naturalIndex)[k]
        decreases |keys|
      {
        var key :| key in keys;
        naturalIndex := naturalIndex[key := cid];
        keys := keys - {key};
      }
      assert naturalIndex == old(naturalIndex) + KeyEntries(cid, link);
    }
  }

  // ----- restarts -----

  function Cids(entries: seq<(Cid, Link)>): set<Cid> {
    set e | e in entries :: e.0
  }

  /** `entries` are links of the table, none of them twice. */
  ghost predicate Saves(entries: seq<(Cid, Link)>, t: LinkTable) {
    && (forall i, j :: 0 <= i < j < |entries| ==> entries[i].0 != entries[j].0)
    && (forall e :: e in entries ==> e.0 in t.links && t.links[e.0] == e.1)
  }

  /** The part of the source index that belongs to some of the links. */
  ghost function SourcePart(t: LinkTable, cs: set<Cid>): map<NativeKey, Cid> {
    map e | e in t.bySource && t.bySource[e] in cs :: t.bySource[e]
  }

  lemma EntriesOf(t: LinkTable, cid: Cid)
    requires SourceExact(t) && cid in t.links
    ensures forall e :: e in SourceEntries(cid, t.links[cid]) <==> e in t.bySource && t.bySource[e] == cid
  {
  }

  lemma SourcePartGrows(t: LinkTable, cs: set<Cid>, cid: Cid)
    requires SourceExact(t) && cid in t.links
    ensures SourcePart(t, cs + {cid}) == SourcePart(t, cs) + SourceEntries(cid, t.links[cid])
  {
    EntriesOf(t, cid);
    var grown, entries := SourcePart(t, cs + {cid}), SourceEntries(cid, t.links[cid]);
    assert forall e :: e in grown <==> e in SourcePart(t, cs) || e in entries;
  }

  lemma {:induction false} RebuildRestricts(entries: seq<(Cid, Link)>, t: LinkTable)
    requires SourceExact(t) && Saves(entries, t)
    ensures Rebuild(entries).links == map c | c in Cids(entries) && c in t.links :: t.links[c]
    ensures Rebuild(entries).bySource == SourcePart(t, Cids(entries))
  {
    if entries != [] {
      var before, last := entries[..|entries| - 1], entries[|entries| - 1];
      SavesSplit(entries, t);
      RebuildRestricts(before, t);
      SourcePartGrows(t, Cids(before), last.0);
    }
  }

  lemma SavesSplit(entries: seq<(Cid, Link)>, t: LinkTable)
    requires Saves(entries, t) && entries != []
    ensures var before, last := entries[..|entries| - 1], entries[|entries| - 1];
            Saves(before, t) && Cids(entries) == Cids(before) + {last.0} && last.0 in t.links && t.links[last.0] == last.1
  {
    var before, last := entries[..|entries| - 1], entries[|entries| - 1];
    assert entries == before + [last] && last in entries;
  }

  /** After a restart the rebuilt source index is the one that was lost, provided it was exact. */
  lemma RestartKeepsIndex(entries: seq<(Cid, Link)>, t: LinkTable)
    requires SourceExact(t) && Saves(entries, t) && Cids(entries) == t.links.Keys
    ensures Rebuild(entries).links == t.links && Rebuild(entries).bySource == t.bySource
  {
    RebuildRestricts(entries, t);
    AllSaved(t);
    WholePart(t);
  }

  lemma AllSaved(t: LinkTable)
    ensures (map c | c in t.links.Keys && c in t.links :: t.links[c]) == t.links
  {
  }

  lemma WholePart(t: LinkTable)
    requires SourceExact(t)
    ensures SourcePart(t, t.links.Keys) == t.bySource
  {
  }

  /** The rebuilt key index is in order too. */
  lemma {:induction false} RestartFilesKeys(entries: seq<(Cid, Link)>, t: LinkTable)
    requires SourceExact(t) && Saves(entries, t)
    ensures KeysFiled(Rebuild(entries))
  {
    if entries != [] {
      var before, last := entries[..|entries| - 1], entries[|entries| - 1];
      SavesSplit(entries, t);
      RestartFilesKeys(before, t);
      RebuildRestricts(before, t);
      assert last.0 !in Cids(before);
      IndexFilesKeys(Rebuild(before), last.0, last.1);
    }
  }
}

/** One CRM as the engine sees it: the connector contract (src/core/connector.ts) and the
    in-memory CRM that implements it (src/connectors/mock/mockConnector.ts). */
module Connector {
  import opened Canonical
  import opened Mapping
  import IdMap

  /** A native-shaped record and the time of its last change. */
  datatype Native = Native(values: Fields, modifiedAt: Time)

  /** The records of one system in insertion order, and the logs of the change events the system
      has emitted for connector writes and removals. */
  datatype Crm = Crm(order: seq<Id>, records: map<Id, Native>, written: seq<Id>, removed: seq<Id>)

  const EMPTY_CRM := Crm([], map[], [], [])

  const PAGE_SIZE := 100

  /** The insertion order lists every stored id exactly once. */
  ghost predicate WellFormed(crm: Crm) {
    && (forall id :: id in crm.order <==> id in crm.records)
    && (forall i, j :: 0 <= i < j < |crm.order| ==> crm.order[i] != crm.order[j])
  }

  /** The canonical fields a stored record reads as. */
  function Canon(tb: Tables, s: SystemId, crm: Crm, id: Id): Fields
    requires id in crm.records
  {
    ToCanonical(tb, s, crm.records[id].values)
  }

  function Snapshot(tb: Tables, s: SystemId, crm: Crm, id: Id): Record
    requires id in crm.records
  {
    Record(Canon(tb, s, crm, id), s, id, crm.records[id].modifiedAt)
  }

  function Read(tb: Tables, s: SystemId, crm: Crm, id: Id): Option<Record> {
    if id in crm.records then Some(Snapshot(tb, s, crm, id)) else None
  }

  function Upsert(tb: Tables, s: SystemId, crm: Crm, id: Id, fields: Fields, now: Time): Crm {
    var existing: Fields := if id in crm.records then crm.records[id].values else map[];
    Crm(if id in crm.records then crm.order else crm.order + [id],
        crm.records[id := Native(existing + FromCanonical(tb, s, fields), now)],
        crm.written + [id],
        crm.removed)
  }

  function Without(order: seq<Id>, id: Id): (r: seq<Id>)
    ensures forall x :: x in r <==> x in order && x != id
  {
    if order == [] then []
    else if order[0] == id then Without(order[1..], id)
    else [order[0]] + Without(order[1..], id)
  }

  function Remove(crm: Crm, id: Id): Crm {
    Crm(Without(crm.order, id), crm.records - {id}, crm.written, crm.removed + [id])
  }

  function KeyOf(tb: Tables, keyFields: seq<string>, s: SystemId, crm: Crm, id: Id): Option<string>
    requires id in crm.records
  {
    IdMap.NaturalKey(tb.host, keyFields, Canon(tb, s, crm, id))
  }

  /** Every record of the system that has the given natural key. */
  function Candidates(tb: Tables, keyFields: seq<string>, s: SystemId, crm: Crm, key: string): set<Id> {
    set id | id in crm.records && KeyOf(tb, keyFields, s, crm, id) == Some(key)
  }

  function Snapshots(tb: Tables, s: SystemId, crm: Crm, ids: seq<Id>): (r: seq<Record>)
    requires forall id :: id in ids ==> id in crm.records
    ensures |r| == |ids|
  {
    if ids == [] then [] else
      assert ids[|ids| - 1] in ids;
      Snapshots(tb, s, crm, ids[..|ids| - 1]) + [Snapshot(tb, s, crm, ids[|ids| - 1])]
  }

  lemma SnapshotsExtend(tb: Tables, s: SystemId, crm: Crm, ids: seq<Id>, id: Id)
    requires id in crm.records && forall x :: x in ids ==> x in crm.records
    ensures Snapshots(tb, s, crm, ids + [id]) == Snapshots(tb, s, crm, ids) + [Snapshot(tb, s, crm, id)]
  {
    assert (ids + [id])[..|ids|] == ids;
  }

  /** The members of a set along an order of ids. */
  function InOrder(order: seq<Id>, ids: set<Id>): (r: seq<Id>)
    ensures forall id :: id in r <==> id in order && id in ids
  {
    if order == [] then [] else
      var n := |order| - 1;
      assert order == order[..n] + [order[n]];
      InOrder(order[..n], ids) + (if order[n] in ids then [order[n]] else [])
  }

  lemma InOrderExtend(order: seq<Id>, n: nat, ids: set<Id>)
    requires n < |order|
    ensures InOrder(order[..n + 1], ids) == InOrder(order[..n], ids) + (if order[n] in ids then [order[n]] else [])
  {
    assert order[..n + 1][..n] == order[..n];
  }

  function ToSet(ids: seq<Id>): set<Id> { set id | id in ids }

  /** Scanning an order without repetitions meets each member once. */
  lemma {:induction false} InOrderCount(order: seq<Id>, ids: set<Id>)
    requires forall i, j :: 0 <= i < j < |order| ==> order[i] != order[j]
    ensures |InOrder(order, ids)| == |ids * ToSet(order)|
  {
    if order == [] {
      assert ids * ToSet(order) == {};
    } else {
      var n := |order| - 1;
      var before, last := order[..n], order[n];
      InOrderCount(before, ids);
      OneMore(order, ids);
    }
  }

  lemma OneMore(order: seq<Id>, ids: set<Id>)
    requires order != [] && order[|order| - 1] !in order[..|order| - 1]
    ensures |ids * ToSet(order)| == |ids * ToSet(order[..|order| - 1])| + if order[|order| - 1] in ids then 1 else 0
  {
    var before, last := order[..|order| - 1], order[|order| - 1];
    assert order == before + [last];
    if last in ids {
      assert ids * ToSet(order) == ids * ToSet(before) + {last};
    } else {
      assert ids * ToSet(order) == ids * ToSet(before);
    }
  }

  lemma CandidateCount(tb: Tables, keyFields: seq<string>, s: SystemId, crm: Crm, key: string)
    requires WellFormed(crm)
    ensures |InOrder(crm.order, Candidates(tb, keyFields, s, crm, key))| == |Candidates(tb, keyFields, s, crm, key)|
  {
    var cs := Candidates(tb, keyFields, s, crm, key);
    InOrderCount(crm.order, cs);
    assert cs * ToSet(crm.order) == cs;
  }

  /** Which records a listing returns: those changed at or after `since` that meet the
      condition, in insertion order. */
  predicate Listed(crm: Crm, since: Option<Time>, condition: Native -> bool, id: Id) {
    && id in crm.records
    && (since == None || crm.records[id].modifiedAt >= since.value)
    && condition(crm.records[id])
  }

  function Filter(crm: Crm, since: Option<Time>, condition: Native -> bool, order: seq<Id>): (r: seq<Id>)
    ensures forall id :: id in r <==> id in order && Listed(crm, since, condition, id)
  {
    if order == [] then []
    else
      var rest := Filter(crm, since, condition, order[..|order| - 1]);
      var last := order[|order| - 1];
      if Listed(crm, since, condition, last) then rest + [last] else rest
  }

  function Listing(crm: Crm, since: Option<Time>, condition: Native -> bool): seq<Id> {
    Filter(crm, since, condition, crm.order)
  }

  function Min(a: int, b: int): int { if a <= b then a else b }

  /** The ids on the page that starts at offset `start` of a listing. */
  function PageIds(all: seq<Id>, start: nat): (r: seq<Id>)
    ensures forall id :: id in r ==> id in all
  {
    if start >= |all| then [] else all[start..Min(start + PAGE_SIZE, |all|)]
  }

  function NextCursor(all: seq<Id>, start: nat): Option<nat> {
    if start + PAGE_SIZE < |all| then Some(start + PAGE_SIZE) else None
  }

  // ----- what a write leaves behind -----

  /** `after` is `before` with record `id` now reading as `fields`, changed at `now`, and one more
      emitted event; every other record is as it was. */
  ghost predicate OneWrite(tb: Tables, s: SystemId, before: Crm, after: Crm, id: Id, fields: Fields, now: Time) {
    && after.records.Keys == before.records.Keys + {id}
    && (forall x :: x in before.records && x != id ==> after.records[x] == before.records[x])
    && Canon(tb, s, after, id) == fields && after.records[id].modifiedAt == now
    && after.written == before.written + [id] && after.removed == before.removed
  }

  /** Fields that the system carries read back as they were written, and every other record is left
      alone. */
  lemma UpsertReadsBack(tb: Tables, s: SystemId, crm: Crm, id: Id, fields: Fields, now: Time)
    requires Flat(tb.Rules(s)) && Carries(tb, s, fields)
    ensures OneWrite(tb, s, crm, Upsert(tb, s, crm, id, fields, now), id, fields, now)
  {
    var existing: Fields := if id in crm.records then crm.records[id].values else map[];
    WriteThenRead(tb, s, existing, fields);
  }

  lemma {:induction false} WithoutDistinct(order: seq<Id>, id: Id)
    requires forall i, j :: 0 <= i < j < |order| ==> order[i] != order[j]
    ensures var r := Without(order, id); forall i, j :: 0 <= i < j < |r| ==> r[i] != r[j]
  {
    if order != [] {
      WithoutDistinct(order[1..], id);
      assert order[0] !in order[1..];
      assert order[0] !in Without(order[1..], id);
    }
  }

  lemma RemoveValid(crm: Crm, id: Id)
    requires WellFormed(crm)
    ensures WellFormed(Remove(crm, id))
  {
    WithoutDistinct(crm.order, id);
    assert Remove(crm, id).order == Without(crm.order, id);
  }

  // ----- the in-memory CRM -----

  class MockConnector {
    const system: SystemId
    const tables: Tables
    const keyFields: seq<string>
    var order: seq<Id>
    var records: map<Id, Native>
    var written: seq<Id>
    var removed: seq<Id>

    ghost function State(): Crm
      reads this
    {
      Crm(order, records, written, removed)
    }

    ghost predicate Valid()
      reads this
    {
      WellFormed(State())
    }

    constructor (system: SystemId, tables: Tables, keyFields: seq<string>)
      ensures Valid() && State() == EMPTY_CRM
      ensures this.system == system && this.tables == tables && this.keyFields == keyFields
    {
      this.system, this.tables, this.keyFields := system, tables, keyFields;
      order, records, written, removed := [], map[], [], [];
    }

    method ReadRecord(id: Id) returns (r: Option<Record>)
      ensures r == Read(tables, system, State(), id)
    {
      if id !in records {
        return None;
      }
      var fields := ToCanonicalFields(tables, system, records[id].values);
      return Some(Record(fields, system, id, records[id].modifiedAt));
    }

    /** Every record that shares the key, in insertion order. */
    method FindByNaturalKey(key: string) returns (found: seq<Record>)
      requires Valid()
      ensures found == Snapshots(tables, system, State(),
                                 InOrder(order, Candidates(tables, keyFields, system, State(), key)))
    {
      found := [];
      ghost var matches := Candidates(tables, keyFields, system, State(), key);
      ghost var ids: seq<Id> := [];
      for n := 0 to |order|
        invariant ids == InOrder(order[..n], matches)
        invariant found == Snapshots(tables, system, State(), ids)
      {
        assert order[n] in order;
        InOrderExtend(order, n, matches);
        var record := ReadRecord(order[n]);
        var own := IdMap.NaturalKeyQuery(tables.host, keyFields, record.value.fields);
        assert own == Some(key) <==> order[n] in matches;
        if own == Some(key) {
          SnapshotsExtend(tables, system, State(), ids, order[n]);
          found := found + [record.value];
          ids := ids + [order[n]];
        }
      }
      assert order[..|order|] == order;
    }

    method UpsertRecord(id: Id, fields: Fields, now: Time)
      requires Valid()
      modifies this
      ensures Valid() && State() == Upsert(tables, system, old(State()), id, fields, now)
    {
      var native := FromCanonicalFields(tables, system, fields);
      var existing: Fields := map[];
      if id in records {
        existing := records[id].values;
      } else {
        order := order + [id];
      }
      records := records[id := Native(existing + native, now)];
      written := written + [id];
    }

    method RemoveRecord(id: Id)
      requires Valid()
      modifies this
      ensures Valid() && State() == Remove(old(State()), id)
    {
      RemoveValid(State(), id);
      order := Without(order, id);
      records := records - {id};
      removed := removed + [id];
    }

    method ListIds(since: Option<Time>, condition: Native -> bool) returns (all: seq<Id>)
      ensures all == Listing(State(), since, condition)
    {
      all := [];
      for n := 0 to |order|
        invariant all == Filter(State(), since, condition, order[..n])
      {
        assert order[..n + 1][..n] == order[..n];
        if Listed(Crm(order, records, written, removed), since, condition, order[n]) {
          all := all + [order[n]];
        }
      }
      assert order[..|order|] == order;
    }

    method ReadAll(ids: seq<Id>) returns (page: seq<Record>)
      requires forall id :: id in ids ==> id in records
      ensures page == Snapshots(tables, system, State(), ids)
    {
      page := [];
      for n := 0 to |ids|
        invariant page == Snapshots(tables, system, State(), ids[..n])
      {
        assert ids[n] in ids && ids[..n + 1] == ids[..n] + [ids[n]];
        SnapshotsExtend(tables, system, State(), ids[..n], ids[n]);
        var record := ReadRecord(ids[n]);
        page := page + [record.value];
      }
      assert ids[..|ids|] == ids;
    }

    /** One page of a listing and the cursor of the next. */
    method List(cursor: Option<nat>, since: Option<Time>, condition: Native -> bool)
      returns (page: seq<Record>, next: Option<nat>)
      ensures var all := Listing(State(), since, condition);
              var start := if cursor == None then 0 else cursor.value;
              && page == Snapshots(tables, system, State(), PageIds(all, start))
              && next == NextCursor(all, start)
    {
      var all := ListIds(since, condition);
      var start := if cursor == None then 0 else cursor.value;
      page := ReadAll(PageIds(all, start));
      next := NextCursor(all, start);
    }
  }
}

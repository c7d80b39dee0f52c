/** The reconciler (src/engine/reconciler.ts): how one canonical snapshot becomes agreement
    between two systems. The functions give each operation's effect on the whole world; the
    class below performs the same operations on the stores. */
module Reconciler {
  import opened Canonical
  import opened Strings
  import opened Mapping
  import opened ContentHash
  import opened Conflict
  import opened IdMap
  import opened Connector

  datatype Config = Config(
    tables: Tables,
    keyFields: seq<string>,
    strategy: Strategy,
    sourceOfTruth: SystemId,
    readCounterpart: bool,
    required: map<SystemId, set<string>>)

  /** Both systems and the link table. */
  datatype World = World(sf: Crm, hs: Crm, table: LinkTable)
  {
    function Side(s: SystemId): Crm { if s == Salesforce then sf else hs }

    function With(s: SystemId, crm: Crm): World {
      if s == Salesforce then this.(sf := crm) else this.(hs := crm)
    }
  }

  /** What the surroundings supply to one run: fresh identifiers, the clock at the two writes, and
      how the target answers the first write. */
  datatype Fault = NoFault | Rejects | Duplicate(property: string, owner: Id, again: bool)

  datatype Ambient = Ambient(newCid: Cid, newId: Id, now: Time, later: Time, fault: Fault)

  datatype Refusal = AmbiguousKey(count: nat) | MissingRequired | WriteFailed

  datatype Outcome = Echo | Done | Refused(reason: Refusal)

  // ----- reading -----

  function HashOf(cfg: Config, f: Fields): string { Hash(cfg.tables.host, f) }

  function KeyFor(cfg: Config, f: Fields): Option<string> { NaturalKey(cfg.tables.host, cfg.keyFields, f) }

  function Peek(cfg: Config, w: World, s: SystemId, id: Id): Option<Record> {
    Read(cfg.tables, s, w.Side(s), id)
  }

  function Matches(cfg: Config, w: World, s: SystemId, key: string): set<Id> {
    Candidates(cfg.tables, cfg.keyFields, s, w.Side(s), key)
  }

  lemma OneMember(ids: set<Id>, a: Id, b: Id)
    requires |ids| == 1 && a in ids && b in ids
    ensures a == b
  {
    assert |ids - {a}| == 0;
    assert b == a || b in ids - {a};
  }

  function Only(ids: set<Id>): (id: Id)
    requires |ids| == 1
    ensures ids == {id}
  {
    assert forall a, b :: a in ids && b in ids ==> a == b by {
      forall a, b | a in ids && b in ids ensures a == b { OneMember(ids, a, b); }
    }
    assert ids != {};
    var id :| id in ids;
    assert ids == {id};
    id
  }

  /** A listing of one match is the snapshot of the only match. */
  lemma OnlySnapshot(cfg: Config, w: World, to: SystemId, ids: seq<Id>, matches: set<Id>)
    requires |ids| == 1 && |matches| == 1 && ids[0] in matches && forall id :: id in ids ==> id in w.Side(to).records
    ensures Only(matches) in w.Side(to).records
    ensures Snapshots(cfg.tables, to, w.Side(to), ids) == [Snapshot(cfg.tables, to, w.Side(to), Only(matches))]
  {
    assert ids == [] + [ids[0]];
  }

  // ----- the link -----

  datatype Located = Found(cid: Cid, link: Link) | Ambiguous(count: nat)

  /** The link a snapshot belongs to: by native id, by natural key, or a new one that already
      points at the only record of the other system with the same key. */
  function FindOrCreateLink(cfg: Config, w: World, source: Record, newCid: Cid): Located {
    var from, to := source.source, Other(source.source);
    match FindBySource(w.table, from, source.sourceId)
    case Some(cid) => Found(cid, w.table.links[cid])
    case None =>
      match KeyFor(cfg, source.fields)
      case None => Found(newCid, Link(map[from := source.sourceId], map[], map[], {}))
      case Some(key) =>
        match FindByKey(w.table, key)
        case Some(cid) =>
          var link := w.table.links[cid];
          Found(cid, link.(ids := link.ids[from := source.sourceId], keys := link.keys + {key}))
        case None =>
          var found := Matches(cfg, w, to, key);
          var link := Link(map[from := source.sourceId], map[], map[], {key});
          if |found| > 1 then Ambiguous(|found|)
          else if |found| == 1 then Found(newCid, link.(ids := link.ids[to := Only(found)]))
          else Found(newCid, link)
  }

  // ----- the winner -----

  function OwnersOf(rules: seq<FieldRule>): map<string, SystemId> {
    if rules == [] then map[]
    else
      var r := rules[|rules| - 1];
      var before := OwnersOf(rules[..|rules| - 1]);
      if r.owner.Some? then before[r.canonical := r.owner.value] else before
  }

  function PolicyOf(cfg: Config): Policy {
    Policy(cfg.strategy, cfg.sourceOfTruth, OwnersOf(cfg.tables.salesforce + cfg.tables.hubspot))
  }

  /** The last rule for a field that names an owner decides who owns it. */
  lemma {:induction false} LastRuleOwns(rules: seq<FieldRule>, i: nat)
    requires i < |rules| && rules[i].owner.Some?
    requires forall j :: i < j < |rules| && rules[j].canonical == rules[i].canonical ==> rules[j].owner == None
    ensures rules[i].canonical in OwnersOf(rules) && OwnersOf(rules)[rules[i].canonical] == rules[i].owner.value
  {
    var n := |rules| - 1;
    if i < n {
      forall j | i < j < n && rules[..n][j].canonical == rules[..n][i].canonical ensures rules[..n][j].owner == None {
        assert rules[..n][j] == rules[j];
      }
      LastRuleOwns(rules[..n], i);
      assert rules[n].canonical == rules[i].canonical ==> rules[n].owner == None;
    }
  }

  /** Without such a rule nobody does. */
  lemma {:induction false} NoRuleNoOwner(rules: seq<FieldRule>, c: string)
    requires forall j :: 0 <= j < |rules| && rules[j].canonical == c ==> rules[j].owner == None
    ensures c !in OwnersOf(rules)
  {
    if rules != [] {
      var n := |rules| - 1;
      forall j | 0 <= j < n && rules[..n][j].canonical == c ensures rules[..n][j].owner == None {
        assert rules[..n][j] == rules[j];
      }
      NoRuleNoOwner(rules[..n], c);
    }
  }

  /** The policy of a run: the configured strategy and system, and as owner of a field the system
      named by the last rule for it among the Salesforce rules followed by the HubSpot rules. */
  lemma PolicyInForce(cfg: Config, i: nat)
    requires var rules := cfg.tables.salesforce + cfg.tables.hubspot;
             && i < |rules| && rules[i].owner.Some?
             && forall j :: i < j < |rules| && rules[j].canonical == rules[i].canonical ==> rules[j].owner == None
    ensures var policy, rule := PolicyOf(cfg), (cfg.tables.salesforce + cfg.tables.hubspot)[i];
            && policy.strategy == cfg.strategy && policy.sourceOfTruth == cfg.sourceOfTruth
            && rule.canonical in policy.owners && policy.owners[rule.canonical] == rule.owner.value
  {
    LastRuleOwns(cfg.tables.salesforce + cfg.tables.hubspot, i);
  }

  /** The counterpart that has changed since it was last synced, if there is one to consult. */
  function Contender(cfg: Config, w: World, to: SystemId, link: Link): Option<Record> {
    if !cfg.readCounterpart || to !in link.ids then None
    else match Peek(cfg, w, to, link.ids[to])
      case None => None
      case Some(counterpart) =>
        if to in link.hashes && link.hashes[to] == HashOf(cfg, counterpart.fields) then None else Some(counterpart)
  }

  function Winner(cfg: Config, w: World, source: Record, link: Link): Record {
    match Contender(cfg, w, Other(source.source), link)
    case None => source
    case Some(counterpart) => Resolve(source, counterpart, PolicyOf(cfg)).winner
  }

  // ----- the checks before writing -----

  predicate IsBlank(v: Option<FieldValue>) {
    v == None || v == Some(Null) || v == Some(Str(""))
  }

  function Payload(m: Fields, name: string): Option<FieldValue> {
    if name in m then Some(m[name]) else None
  }

  predicate LeavesBlank(required: set<string>, payload: Fields, r: FieldRule) {
    && !r.readOnly && !Dotted(r.native)
    && Lower(r.native) in required
    && IsBlank(Payload(payload, r.native))
  }

  /** A mapped, writable field that the target requires would be written blank. */
  predicate LacksRequired(cfg: Config, to: SystemId, fields: Fields) {
    && to in cfg.required
    && exists r :: r in cfg.tables.Rules(to) && LeavesBlank(cfg.required[to], FromCanonical(cfg.tables, to, fields), r)
  }

  // ----- the decision -----

  datatype Decision =
    | Suppress
    | Refuse(reason: Refusal)
    | Write(cid: Cid, link: Link, target: Option<Id>, winner: Record)

  /** Everything that happens before the first external write. */
  function Decide(cfg: Config, w: World, source: Record, newCid: Cid): Decision {
    var from, to := source.source, Other(source.source);
    match FindOrCreateLink(cfg, w, source, newCid)
    case Ambiguous(count) => Refuse(AmbiguousKey(count))
    case Found(cid, link) =>
      if from in link.hashes && link.hashes[from] == HashOf(cfg, source.fields) then Suppress
      else
        var winner := Winner(cfg, w, source, link);
        if LacksRequired(cfg, to, winner.fields) then Refuse(MissingRequired)
        else Write(cid, link, if to in link.ids then Some(link.ids[to]) else None, winner)
  }

  // ----- the effects -----

  /** The vendor's property belongs to a canonical field of the natural key. */
  predicate IsKeyProperty(cfg: Config, to: SystemId, property: string) {
    var i := FirstRule(cfg.tables.Rules(to), property);
    i < |cfg.tables.Rules(to)| && cfg.tables.Rules(to)[i].canonical in cfg.keyFields
  }

  function FirstRule(rules: seq<FieldRule>, property: string): (i: nat)
    ensures i <= |rules|
  {
    if rules == [] || Lower(rules[0].native) == Lower(property) then 0
    else 1 + FirstRule(rules[1..], property)
  }

  /** The first rule that writes the property, whatever its case, fills a field of the natural key. */
  ghost predicate NamesKeyField(cfg: Config, to: SystemId, property: string) {
    var rules := cfg.tables.Rules(to);
    exists i :: 0 <= i < |rules| && rules[i].canonical in cfg.keyFields && FirstNamed(rules, property, i)
  }

  predicate FirstNamed(rules: seq<FieldRule>, property: string, i: nat) {
    && i < |rules| && Lower(rules[i].native) == Lower(property)
    && forall j :: 0 <= j < i ==> Lower(rules[j].native) != Lower(property)
  }

  lemma {:induction false} FirstRuleNames(rules: seq<FieldRule>, property: string, i: nat)
    ensures FirstRule(rules, property) == i < |rules| <==> FirstNamed(rules, property, i)
  {
    if rules != [] && Lower(rules[0].native) != Lower(property) {
      if i > 0 {
        FirstRuleNames(rules[1..], property, i - 1);
        ShiftedRules(rules, property, i);
      }
    }
  }

  lemma ShiftedRules(rules: seq<FieldRule>, property: string, i: nat)
    requires rules != [] && Lower(rules[0].native) != Lower(property) && i > 0
    ensures FirstNamed(rules[1..], property, i - 1) <==> FirstNamed(rules, property, i)
  {
    if FirstNamed(rules[1..], property, i - 1) {
      forall j | 0 <= j < i ensures Lower(rules[j].native) != Lower(property) {
        if j > 0 { assert rules[1..][j - 1] == rules[j]; }
      }
    }
  }

  lemma KeyPropertyExactly(cfg: Config, to: SystemId, property: string)
    ensures IsKeyProperty(cfg, to, property) <==> NamesKeyField(cfg, to, property)
  {
    var rules := cfg.tables.Rules(to);
    forall i: nat ensures FirstRule(rules, property) == i < |rules| <==> FirstNamed(rules, property, i) {
      FirstRuleNames(rules, property, i);
    }
  }

  /** The record the write ends up in: the linked one, a new one, or -- when the target reports
      that another record already owns the key value -- that record. None if the write fails. */
  function WrittenId(cfg: Config, to: SystemId, target: Option<Id>, amb: Ambient): Option<Id> {
    match amb.fault
    case NoFault => Some(if target.Some? then target.value else amb.newId)
    case Rejects => None
    case Duplicate(property, owner, again) =>
      if IsKeyProperty(cfg, to, property) && target != Some(owner) && !again then Some(owner) else None
  }

  predicate WritesBack(cfg: Config, source: Record, d: Decision)
    requires d.Write?
  {
    d.winner != source && HashOf(cfg, d.winner.fields) != HashOf(cfg, source.fields) && source.source in d.link.ids
  }

  function FinalLink(cfg: Config, source: Record, d: Decision, id: Id, amb: Ambient): Link
    requires d.Write?
  {
    var from, to := source.source, Other(source.source);
    var won, seen := HashOf(cfg, d.winner.fields), HashOf(cfg, source.fields);
    Link(d.link.ids[to := id][from := source.sourceId],
         d.link.hashes[to := won][from := if WritesBack(cfg, source, d) then won else seen],
         d.link.modifiedAt[to := amb.now][from := source.modifiedAt],
         d.link.keys)
  }

  function AfterTarget(cfg: Config, w: World, source: Record, d: Decision, id: Id, amb: Ambient): World
    requires d.Write?
  {
    var to := Other(source.source);
    w.With(to, Upsert(cfg.tables, to, w.Side(to), id, d.winner.fields, amb.now))
  }

  function AfterWriteBack(cfg: Config, w: World, source: Record, d: Decision, id: Id, amb: Ambient): World
    requires d.Write?
  {
    var from := source.source;
    var w1 := AfterTarget(cfg, w, source, d, id, amb);
    if WritesBack(cfg, source, d) then
      w1.With(from, Upsert(cfg.tables, from, w1.Side(from), d.link.ids[from], d.winner.fields, amb.later))
    else w1
  }

  function AfterLink(cfg: Config, w: World, source: Record, d: Decision, id: Id, amb: Ambient): World
    requires d.Write?
  {
    var w2 := AfterWriteBack(cfg, w, source, d, id, amb);
    w2.(table := Index(w2.table, d.cid, FinalLink(cfg, source, d, id, amb)))
  }

  /** One whole run. */
  function Reconcile(cfg: Config, w: World, source: Record, amb: Ambient): (World, Outcome) {
    var d := Decide(cfg, w, source, amb.newCid);
    match d
    case Suppress => (w, Echo)
    case Refuse(reason) => (w, Refused(reason))
    case Write(_, _, target, _) =>
      match WrittenId(cfg, Other(source.source), target, amb)
      case None => (w, Refused(WriteFailed))
      case Some(id) => (AfterLink(cfg, w, source, d, id, amb), Done)
  }

  // ----- previewing -----

  datatype Action = Create | Update | Match | Skip | Conflict | AmbiguousMatch | Failed

  datatype Warning = SharedKey(count: nat) | NoKey | WillBeLinked | Failure(reason: Refusal)

  datatype FieldDiff = FieldDiff(source: Option<FieldValue>, target: Option<FieldValue>)

  datatype Plan = Plan(
    cid: Option<Cid>,
    from: SystemId,
    sourceId: Id,
    targetId: Option<Id>,
    key: Option<string>,
    action: Action,
    diff: map<string, FieldDiff>,
    warnings: seq<Warning>)

  function DiffFields(a: Fields, b: Fields): map<string, FieldDiff> {
    map c | c in a.Keys + b.Keys && Payload(a, c) != Payload(b, c) :: FieldDiff(Payload(a, c), Payload(b, c))
  }

  function KnownLink(cfg: Config, w: World, source: Record): Option<Cid> {
    match FindBySource(w.table, source.source, source.sourceId)
    case Some(cid) => Some(cid)
    case None =>
      match KeyFor(cfg, source.fields)
      case None => None
      case Some(key) => FindByKey(w.table, key)
  }

  function StoredLink(w: World, cid: Option<Cid>): Option<Link> {
    if cid.Some? && cid.value in w.table.links then Some(w.table.links[cid.value]) else None
  }

  predicate Reaches(link: Option<Link>, to: SystemId) { link.Some? && to in link.value.ids }

  /** The linked record on the other side, when it still exists. */
  function LinkedTarget(cfg: Config, w: World, to: SystemId, link: Option<Link>): Option<Record> {
    if Reaches(link, to) then Peek(cfg, w, to, link.value.ids[to]) else None
  }

  predicate ChangedAfterSync(cfg: Config, to: SystemId, link: Option<Link>, target: Record) {
    link.Some? && to in link.value.hashes && HashOf(cfg, target.fields) != link.value.hashes[to]
  }

  function ComparePlan(cfg: Config, source: Record, cid: Option<Cid>, link: Option<Link>, target: Record, matched: bool): Plan {
    var to := Other(source.source);
    var diff := DiffFields(source.fields, target.fields);
    Plan(cid, source.source, source.sourceId, Some(target.sourceId), KeyFor(cfg, source.fields),
         if diff == map[] then Skip
         else if ChangedAfterSync(cfg, to, link, target) then Conflict
         else if matched && !Reaches(link, to) then Match
         else Update,
         diff, if matched then [WillBeLinked] else [])
  }

  function CreatePlan(cfg: Config, source: Record, cid: Option<Cid>): Plan {
    var key := KeyFor(cfg, source.fields);
    Plan(cid, source.source, source.sourceId, None, key, Create,
         map c | c in source.fields :: FieldDiff(Some(source.fields[c]), None),
         if key.Some? then [] else [NoKey])
  }

  /** Without a linked target: what the records of the other system with the same key decide. */
  function MatchPlan(cfg: Config, w: World, source: Record, cid: Option<Cid>, link: Option<Link>, key: string): Plan {
    var to := Other(source.source);
    var found := Matches(cfg, w, to, key);
    if |found| > 1 then
      Plan(cid, source.source, source.sourceId, None, Some(key), AmbiguousMatch, map[], [SharedKey(|found|)])
    else if |found| == 1 then
      ComparePlan(cfg, source, cid, link, Snapshot(cfg.tables, to, w.Side(to), Only(found)), true)
    else CreatePlan(cfg, source, cid)
  }

  function Preview(cfg: Config, w: World, source: Record): Plan {
    var key := KeyFor(cfg, source.fields);
    var cid := KnownLink(cfg, w, source);
    var link := StoredLink(w, cid);
    match LinkedTarget(cfg, w, Other(source.source), link)
    case Some(target) => ComparePlan(cfg, source, cid, link, target, false)
    case None =>
      if key == None then CreatePlan(cfg, source, cid) else MatchPlan(cfg, w, source, cid, link, key.value)
  }

  // ----- deletions -----

  /** The record a deletion is propagated to: the linked counterpart, if there is one. */
  function Counterpart(w: World, s: SystemId, id: Id): Option<Id> {
    match FindBySource(w.table, s, id)
    case None => None
    case Some(cid) =>
      if Other(s) in w.table.links[cid].ids then Some(w.table.links[cid].ids[Other(s)]) else None
  }

  function PropagateDelete(w: World, s: SystemId, id: Id): World {
    match Counterpart(w, s, id)
    case None => w
    case Some(target) => w.With(Other(s), Remove(w.Side(Other(s)), target))
  }

  // ----- the class -----

  class ReconcilerService {
    const cfg: Config
    const sf: MockConnector
    const hs: MockConnector
    const idMap: FileIdMapStore

    ghost function State(): World
      reads this, sf, hs, idMap
    {
      World(sf.State(), hs.State(), idMap.Table())
    }

    ghost predicate Valid()
      reads this, sf, hs, idMap
    {
      && sf != hs && sf.Valid() && hs.Valid()
      && sf.system == Salesforce && hs.system == Hubspot
      && sf.tables == hs.tables == cfg.tables
      && sf.keyFields == hs.keyFields == cfg.keyFields
    }

    constructor (cfg: Config, sf: MockConnector, hs: MockConnector, idMap: FileIdMapStore)
      requires sf != hs && sf.Valid() && hs.Valid()
      requires sf.system == Salesforce && hs.system == Hubspot
      requires sf.tables == hs.tables == cfg.tables && sf.keyFields == hs.keyFields == cfg.keyFields
      ensures Valid() && this.cfg == cfg && this.sf == sf && this.hs == hs && this.idMap == idMap
    {
      this.cfg, this.sf, this.hs, this.idMap := cfg, sf, hs, idMap;
    }

    function Connector(s: SystemId): MockConnector {
      if s == Salesforce then sf else hs
    }

    /** The search of one system by natural key: how many records match, and the only one. */
    method Search(to: SystemId, key: string) returns (found: nat, only: Option<Record>)
      requires Valid()
      ensures found == |Matches(cfg, State(), to, key)|
      ensures only == if found == 1 then Some(Snapshot(cfg.tables, to, State().Side(to), Only(Matches(cfg, State(), to, key))))
                      else None
    {
      ghost var matches := Matches(cfg, State(), to, key);
      CandidateCount(cfg.tables, cfg.keyFields, to, State().Side(to), key);
      ghost var ids := InOrder(State().Side(to).order, matches);
      var candidates := Connector(to).FindByNaturalKey(key);
      found, only := |candidates|, None;
      if |candidates| == 1 {
        OnlySnapshot(cfg, State(), to, ids, matches);
        only := Some(candidates[0]);
      }
    }

    method FindOrCreate(source: Record, newCid: Cid) returns (located: Located)
      requires Valid()
      ensures located == FindOrCreateLink(cfg, State(), source, newCid)
    {
      var from, to := source.source, Other(source.source);
      var existing := idMap.BySource(from, source.sourceId);
      if existing.Some? {
        return Found(existing.value, idMap.links[existing.value]);
      }
      var query := NaturalKeyQuery(cfg.tables.host, cfg.keyFields, source.fields);
      if query == None {
        return Found(newCid, Link(map[from := source.sourceId], map[], map[], {}));
      }
      var byKey := idMap.ByNaturalKey(query.value);
      if byKey.Some? {
        var link := idMap.links[byKey.value];
        link := link.(ids := link.ids[from := source.sourceId]);
        link := link.(keys := link.keys + {query.value});
        return Found(byKey.value, link);
      }
      var link := Link(map[from := source.sourceId], map[], map[], {query.value});
      var found, only := Search(to, query.value);
      if found > 1 {
        return Ambiguous(found);
      }
      if only.Some? {
        link := link.(ids := link.ids[to := only.value.sourceId]);
      }
      return Found(newCid, link);
    }

    /** The winner: the source itself, or the resolution against a counterpart that has changed. */
    method Contend(source: Record, link: Link) returns (winner: Record)
      requires Valid()
      ensures winner == Winner(cfg, State(), source, link)
    {
      var to := Other(source.source);
      winner := source;
      if cfg.readCounterpart && to in link.ids {
        var counterpart := Connector(to).ReadRecord(link.ids[to]);
        if counterpart.Some? {
          var changed := !(to in link.hashes && link.hashes[to] == HashOf(cfg, counterpart.value.fields));
          if changed {
            winner := ResolveBoth(source, counterpart.value, PolicyOf(cfg));
          }
        }
      }
    }

    /** `checkRequiredFields`: the native names that the target requires and would be left blank. */
    method CheckRequired(to: SystemId, fields: Fields) returns (missing: seq<string>)
      ensures missing == [] <==> !LacksRequired(cfg, to, fields)
    {
      missing := [];
      var rules := cfg.tables.Rules(to);
      if to !in cfg.required {
        return;
      }
      var payload := FromCanonicalFields(cfg.tables, to, fields);
      for i := 0 to |rules|
        invariant missing == [] <==> forall j :: 0 <= j < i ==> !LeavesBlank(cfg.required[to], payload, rules[j])
      {
        if LeavesBlank(cfg.required[to], payload, rules[i]) {
          missing := missing + [rules[i].native];
        }
      }
    }

    /** The write to the target, re-pointed once to the record that owns the natural key when the
        target reports one. */
    method WriteTarget(to: SystemId, target: Option<Id>, winner: Record, amb: Ambient) returns (written: Option<Id>)
      requires Valid()
      modifies Connector(to)
      ensures Valid()
      ensures written == WrittenId(cfg, to, target, amb)
      ensures written == None ==> State() == old(State())
      ensures written.Some? ==>
                State() == old(State()).With(to, Upsert(cfg.tables, to, old(State()).Side(to), written.value, winner.fields, amb.now))
    {
      match amb.fault
      case NoFault =>
        written := Some(if target.Some? then target.value else amb.newId);
        Connector(to).UpsertRecord(written.value, winner.fields, amb.now);
      case Rejects =>
        written := None;
      case Duplicate(property, owner, again) =>
        written := None;
        if IsKeyProperty(cfg, to, property) && target != Some(owner) && !again {
          written := Some(owner);
          Connector(to).UpsertRecord(owner, winner.fields, amb.now);
        }
    }

    /** The write-back and the bookkeeping after the target has been written. */
    method Settle(source: Record, d: Decision, id: Id, amb: Ambient)
      requires Valid() && d.Write?
      modifies Connector(source.source), idMap
      ensures Valid()
      ensures State().Side(Other(source.source)) == old(State()).Side(Other(source.source))
      ensures State().Side(source.source) ==
              if WritesBack(cfg, source, d)
              then Upsert(cfg.tables, source.source, old(State()).Side(source.source), d.link.ids[source.source],
                          d.winner.fields, amb.later)
              else old(State()).Side(source.source)
      ensures State().table == Index(old(State()).table, d.cid, FinalLink(cfg, source, d, id, amb))
    {
      var from, to := source.source, Other(source.source);
      var ids, hashes, modifiedAt := d.link.ids, d.link.hashes, d.link.modifiedAt;
      ids := ids[to := id];
      hashes := hashes[to := HashOf(cfg, d.winner.fields)];
      modifiedAt := modifiedAt[to := amb.now];
      if d.winner != source && HashOf(cfg, d.winner.fields) != HashOf(cfg, source.fields) && from in d.link.ids {
        Connector(from).UpsertRecord(ids[from], d.winner.fields, amb.later);
        hashes := hashes[from := HashOf(cfg, d.winner.fields)];
      } else {
        hashes := hashes[from := HashOf(cfg, source.fields)];
      }
      ids := ids[from := source.sourceId];
      modifiedAt := modifiedAt[from := source.modifiedAt];
      idMap.UpsertLink(d.cid, Link(ids, hashes, modifiedAt, d.link.keys));
    }

    /** `reconcile`, step by step: it has exactly the effect of the function above. */
    method ReconcileRecord(source: Record, amb: Ambient) returns (outcome: Outcome)
      requires Valid()
      modifies sf, hs, idMap
      ensures Valid()
      ensures (State(), outcome) == Reconcile(cfg, old(State()), source, amb)
    {
      var from, to := source.source, Other(source.source);
      var located := FindOrCreate(source, amb.newCid);
      if located.Ambiguous? {
        return Refused(AmbiguousKey(located.count));
      }
      var link := located.link;
      if from in link.hashes && link.hashes[from] == HashOf(cfg, source.fields) {
        return Echo;
      }
      var winner := Contend(source, link);
      var missing := CheckRequired(to, winner.fields);
      if missing != [] {
        return Refused(MissingRequired);
      }
      var targetId := if to in link.ids then Some(link.ids[to]) else None;
      var d := Write(located.cid, link, targetId, winner);
      assert d == Decide(cfg, old(State()), source, amb.newCid);
      var written := WriteTarget(to, targetId, winner, amb);
      if written == None {
        return Refused(WriteFailed);
      }
      Settle(source, d, written.value, amb);
      assert State() == AfterLink(cfg, old(State()), source, d, written.value, amb);
      return Done;
    }

    /** `propagateDelete`: fails only when there is a record to remove and its system is out of
        reach. */
    method PropagateDeletion(s: SystemId, id: Id, unreachable: bool) returns (ok: bool)
      requires Valid()
      modifies sf, hs
      ensures Valid()
      ensures ok <==> !(unreachable && Counterpart(old(State()), s, id).Some?)
      ensures State() == if ok then PropagateDelete(old(State()), s, id) else old(State())
    {
      var cid := idMap.BySource(s, id);
      if cid == None {
        return true;
      }
      var link := idMap.links[cid.value];
      if Other(s) !in link.ids {
        return true;
      }
      if unreachable {
        return false;
      }
      Connector(Other(s)).RemoveRecord(link.ids[Other(s)]);
      return true;
    }

    /** `preview`: reads only. */
    method PreviewRecord(source: Record) returns (plan: Plan)
      requires Valid()
      ensures plan == Preview(cfg, State(), source)
    {
      var from, to := source.source, Other(source.source);
      var query := NaturalKeyQuery(cfg.tables.host, cfg.keyFields, source.fields);
      var cid := idMap.BySource(from, source.sourceId);
      if cid == None && query.Some? {
        cid := idMap.ByNaturalKey(query.value);
      }
      assert cid == KnownLink(cfg, State(), source);
      var link := if cid == None then None else Some(idMap.links[cid.value]);
      if Reaches(link, to) {
        var target := Connector(to).ReadRecord(link.value.ids[to]);
        if target.Some? {
          return ComparePlan(cfg, source, cid, link, target.value, false);
        }
      }
      if query == None {
        return CreatePlan(cfg, source, cid);
      }
      plan := PreviewMatch(source, cid, link, query.value);
    }

    /** The rest of a preview that has no linked target. */
    method PreviewMatch(source: Record, cid: Option<Cid>, link: Option<Link>, key: string) returns (plan: Plan)
      requires Valid()
      ensures plan == MatchPlan(cfg, State(), source, cid, link, key)
    {
      var found, only := Search(Other(source.source), key);
      if found > 1 {
        return Plan(cid, source.source, source.sourceId, None, Some(key), AmbiguousMatch, map[], [SharedKey(found)]);
      } else if only.Some? {
        return ComparePlan(cfg, source, cid, link, only.value, true);
      }
      return CreatePlan(cfg, source, cid);
    }
  }
}

/** Conflict resolution between two snapshots of one record (src/core/conflict.ts). */
module Conflict {
  import opened Canonical

  datatype Strategy = SourceOfTruth | LastWriteWins | FieldMerge

  /** The strategy in force, the system it may name, and the per-field owners. */
  datatype Policy = Policy(strategy: Strategy, sourceOfTruth: SystemId, owners: map<string, SystemId>)

  datatype Reason = BySource(system: SystemId) | ByTime | ByField

  datatype Resolution = Resolution(winner: Record, reason: Reason)

  function PickBySystem(a: Record, b: Record, s: SystemId): Record {
    if a.source == s then a else b
  }

  function Newer(a: Record, b: Record): Record {
    if a.modifiedAt >= b.modifiedAt then a else b
  }

  /** The first of the two that is not null. */
  function Coalesce(v: FieldValue, w: FieldValue): FieldValue {
    if v != Null then v else w
  }

  function MergedValue(policy: Policy, a: Record, b: Record, c: string): FieldValue {
    var av, bv := Lookup(a.fields, c), Lookup(b.fields, c);
    if c in policy.owners then
      (if a.source == policy.owners[c] then Coalesce(av, bv) else Coalesce(bv, av))
    else if a.modifiedAt >= b.modifiedAt then Coalesce(av, bv)
    else Coalesce(bv, av)
  }

  function MergedFields(policy: Policy, a: Record, b: Record): Fields {
    map c | c in a.fields.Keys + b.fields.Keys :: MergedValue(policy, a, b, c)
  }

  function Resolve(a: Record, b: Record, policy: Policy): Resolution {
    match policy.strategy
    case SourceOfTruth => Resolution(PickBySystem(a, b, policy.sourceOfTruth), BySource(policy.sourceOfTruth))
    case LastWriteWins => Resolution(Newer(a, b), ByTime)
    case FieldMerge => Resolution(Newer(a, b).(fields := MergedFields(policy, a, b)), ByField)
  }

  /** One round of the key loop: the value chosen for one field. */
  method ChooseField(policy: Policy, a: Record, b: Record, key: string) returns (value: FieldValue)
    ensures value == MergedValue(policy, a, b, key)
  {
    var aFirst := a.modifiedAt >= b.modifiedAt;
    var primary, secondary := if aFirst then a else b, if aFirst then b else a;
    if key in policy.owners {
      var owned := if a.source == policy.owners[key] then a else b;
      var fallback := if a.source == policy.owners[key] then b else a;
      return Coalesce(Lookup(owned.fields, key), Lookup(fallback.fields, key));
    }
    var pv, sv := Lookup(primary.fields, key), Lookup(secondary.fields, key);
    return if pv != Null then pv else sv;
  }

  /** The key loop of `fieldMerge`. */
  method MergeLoop(policy: Policy, a: Record, b: Record) returns (fields: Fields)
    ensures fields == MergedFields(policy, a, b)
  {
    fields := map[];
    var keys := a.fields.Keys + b.fields.Keys;
    ghost var target := MergedFields(policy, a, b);
    while keys != {}
      invariant forall c :: c in target <==> c in keys || c in fields
      invariant forall c :: c in fields ==> fields[c] == target[c]
      decreases |keys|
    {
      var key :| key in keys;
      var value := ChooseField(policy, a, b, key);
      fields := fields[key := value];
      keys := keys - {key};
    }
  }

  /** `resolve`, on two snapshots that are both there. */
  method ResolveBoth(a: Record, b: Record, policy: Policy) returns (winner: Record)
    ensures winner == Resolve(a, b, policy).winner
  {
    if policy.strategy == SourceOfTruth {
      return PickBySystem(a, b, policy.sourceOfTruth);
    } else if policy.strategy == LastWriteWins {
      return Newer(a, b);
    }
    var fields := MergeLoop(policy, a, b);
    winner := Newer(a, b).(fields := fields);
  }

  // ----- what each strategy promises -----

  /** Under source of truth the record of the named system wins, whichever of the two it is. */
  lemma SystemWins(policy: Policy, a: Record, b: Record)
    requires policy.strategy == SourceOfTruth && a.source != b.source
    ensures var r := Resolve(a, b, policy);
            && r.winner in {a, b} && r.winner.source == policy.sourceOfTruth
            && r.reason == BySource(policy.sourceOfTruth)
  {
  }

  /** Under last write wins the later record wins, and of two equally late ones the first. */
  lemma NewerWins(policy: Policy, a: Record, b: Record)
    requires policy.strategy == LastWriteWins
    ensures var r := Resolve(a, b, policy);
            && r.winner in {a, b} && r.reason == ByTime
            && (a.modifiedAt > b.modifiedAt ==> r.winner == a)
            && (a.modifiedAt < b.modifiedAt ==> r.winner == b)
            && (a.modifiedAt == b.modifiedAt ==> r.winner == a)
  {
  }

  /** The two records of a resolution, told apart by what one of them is. */
  predicate Sides(a: Record, b: Record, one: Record, other: Record) {
    (one == a && other == b) || (one == b && other == a)
  }

  /** Under field merge an owned field has the owner's value, and the other's only where that is null. */
  lemma OwnerWins(policy: Policy, a: Record, b: Record, own: Record, other: Record, c: string)
    requires policy.strategy == FieldMerge && a.source != b.source && Sides(a, b, own, other)
    requires c in policy.owners && policy.owners[c] == own.source && c in a.fields.Keys + b.fields.Keys
    ensures var f := Resolve(a, b, policy).winner.fields;
            && c in f
            && (Lookup(own.fields, c) != Null ==> f[c] == Lookup(own.fields, c))
            && (Lookup(own.fields, c) == Null ==> f[c] == Lookup(other.fields, c))
  {
  }

  /** A field that nobody owns has the later record's value, and the other's only where that is null. */
  lemma LaterFieldWins(policy: Policy, a: Record, b: Record, later: Record, earlier: Record, c: string)
    requires policy.strategy == FieldMerge && Sides(a, b, later, earlier) && c !in policy.owners
    requires later.modifiedAt > earlier.modifiedAt || (later.modifiedAt == earlier.modifiedAt && later == a)
    requires c in a.fields.Keys + b.fields.Keys
    ensures var f := Resolve(a, b, policy).winner.fields;
            && c in f
            && (Lookup(later.fields, c) != Null ==> f[c] == Lookup(later.fields, c))
            && (Lookup(later.fields, c) == Null ==> f[c] == Lookup(earlier.fields, c))
  {
  }

  /** A merge has the fields of both records and passes for the later of the two. */
  lemma MergePassesForLater(policy: Policy, a: Record, b: Record, later: Record, earlier: Record)
    requires policy.strategy == FieldMerge && Sides(a, b, later, earlier)
    requires later.modifiedAt > earlier.modifiedAt || (later.modifiedAt == earlier.modifiedAt && later == a)
    ensures var r := Resolve(a, b, policy);
            && r.winner == later.(fields := r.winner.fields) && r.reason == ByField
            && r.winner.fields.Keys == a.fields.Keys + b.fields.Keys
  {
  }

  /** A merge never blanks a field that either side holds, and never invents a value. */
  lemma MergeKeepsData(policy: Policy, a: Record, b: Record, c: string)
    requires c in a.fields.Keys + b.fields.Keys
    ensures var v := MergedFields(policy, a, b)[c];
            && (v == Null <==> Lookup(a.fields, c) == Null && Lookup(b.fields, c) == Null)
            && v in {Lookup(a.fields, c), Lookup(b.fields, c)}
  {
  }

  /** Every field of a resolution comes from one of the two snapshots. */
  lemma WinnerFromInputs(policy: Policy, a: Record, b: Record)
    requires a.fields.Keys == b.fields.Keys
    ensures var f := Resolve(a, b, policy).winner.fields;
            f.Keys == a.fields.Keys && forall c :: c in f ==> f[c] == a.fields[c] || f[c] == b.fields[c]
  {
  }

  // ----- does the order of delivery matter? -----

  /** Nothing is left to the tie-break of equal timestamps. */
  ghost predicate OrderFree(policy: Policy, a: Record, b: Record) {
    match policy.strategy
    case SourceOfTruth => true
    case LastWriteWins => a.modifiedAt != b.modifiedAt || a.fields == b.fields
    case FieldMerge =>
      a.modifiedAt != b.modifiedAt
      || forall c :: c in a.fields && c in b.fields && c !in policy.owners ==>
           a.fields[c] == Null || b.fields[c] == Null || a.fields[c] == b.fields[c]
  }

  /** Resolving in either order gives the same fields exactly when the tie-break has nothing to
      decide. */
  lemma ResolveSymmetric(policy: Policy, a: Record, b: Record)
    requires a.source != b.source
    ensures OrderFree(policy, a, b) <==>
            Resolve(a, b, policy).winner.fields == Resolve(b, a, policy).winner.fields
  {
    if policy.strategy == FieldMerge {
      var ab, ba := MergedFields(policy, a, b), MergedFields(policy, b, a);
      assert ab.Keys == ba.Keys;
      if OrderFree(policy, a, b) {
        forall c | c in ab ensures ab[c] == ba[c] { }
      } else {
        var c :| c in a.fields && c in b.fields && c !in policy.owners
          && a.fields[c] != Null && b.fields[c] != Null && a.fields[c] != b.fields[c];
        assert ab[c] != ba[c];
      }
    }
  }

  /** Once the winner has been written to the other side at a time no earlier than either
      snapshot, resolving again against it changes nothing. */
  lemma ResolveAbsorbs(policy: Policy, a: Record, b: Record, now: Time)
    requires a.source != b.source && now >= a.modifiedAt && now >= b.modifiedAt
    ensures var w := Resolve(a, b, policy).winner.fields;
            Resolve(a, b.(fields := w, modifiedAt := now), policy).winner.fields == w
  {
    var w := Resolve(a, b, policy).winner.fields;
    if policy.strategy == FieldMerge {
      var again := MergedFields(policy, a, b.(fields := w, modifiedAt := now));
      assert again.Keys == w.Keys;
      forall c | c in w ensures again[c] == w[c] { }
    }
  }

  /** Two snapshots with the same fields resolve to those fields, whatever the strategy. */
  lemma ResolveAgreed(policy: Policy, a: Record, b: Record)
    requires a.fields == b.fields
    ensures Resolve(a, b, policy).winner.fields == a.fields
  {
    if policy.strategy == FieldMerge {
      assert MergedFields(policy, a, b) == a.fields;
    }
  }
}

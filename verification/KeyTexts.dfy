/** Composite natural keys: when a joined key determines the values it was built from, and what a
    field-by-field merge does to a key that does not. */
module KeyTexts {
  import opened Canonical
  import opened Strings
  import opened JoinedText
  import opened IdMap
  import opened Conflict

  /** Over plain field names, the joined key determines the normalized values exactly when none of
      them contains a neighbouring separator. */
  lemma JoinedKeyExact(keyFields: seq<string>, values: seq<string>)
    requires |keyFields| == |values| && PlainNames(':', keyFields)
    ensures Separable(':', keyFields, values) <==>
            forall us: seq<string> :: |us| == |keyFields| && JoinKey(keyFields, us) == JoinKey(keyFields, values) ==> us == values
  {
    JoinExact(':', keyFields, values);
  }

  /** So a record with separable key values shares its key only with records that have the same. */
  lemma SeparableDetermines(host: Host, keyFields: seq<string>, f: Fields)
    requires keyFields != [] && PlainNames(':', keyFields)
    requires Criteria(host, keyFields, f).Some? && Separable(':', keyFields, Criteria(host, keyFields, f).value)
    ensures NaturalKey(host, keyFields, f).Some? && KeyDetermines(host, keyFields, NaturalKey(host, keyFields, f).value)
  {
    var values := Criteria(host, keyFields, f).value;
    JoinedKeyExact(keyFields, values);
    forall g: Fields, h: Fields |
        NaturalKey(host, keyFields, g) == Some(JoinKey(keyFields, values)) && NaturalKey(host, keyFields, h) == Some(JoinKey(keyFields, values))
      ensures Criteria(host, keyFields, g) == Criteria(host, keyFields, h)
    {
      assert Criteria(host, keyFields, g).value == values == Criteria(host, keyFields, h).value;
    }
  }

  // ----- keys that always determine their values -----

  predicate IsUpper(c: char) { 'A' <= c <= 'Z' }

  /** A lower-cased value contains no separator whose name has an upper-case letter. */
  lemma LowerNoSeparator(s: string, name: string, k: nat)
    requires k < |name| && IsUpper(name[k])
    ensures !Contains(Lower(s), Separator(':', name))
  {
    var v := Lower(s);
    assert forall i :: 0 <= i < |v| ==> !IsUpper(v[i]);
    UpperSeparates(v, name, k);
  }

  lemma UpperSeparates(v: string, name: string, k: nat)
    requires k < |name| && IsUpper(name[k]) && forall i :: 0 <= i < |v| ==> !IsUpper(v[i])
    ensures !Contains(v, Separator(':', name))
  {
    forall p: nat ensures !At(v, Separator(':', name), p) {
      UpperNotAt(v, name, k, p);
    }
  }

  lemma UpperNotAt(v: string, name: string, k: nat, p: nat)
    requires k < |name| && IsUpper(name[k]) && forall i :: 0 <= i < |v| ==> !IsUpper(v[i])
    ensures !At(v, Separator(':', name), p)
  {
    var sep := Separator(':', name);
    if p + |sep| <= |v| {
      assert sep[k + 1] == name[k] && v[p..p + |sep|][k + 1] == v[p + k + 1];
    }
  }

  /** Every field name after the first has an upper-case letter, as lower-cased values never do. */
  ghost predicate CamelTail(keyFields: seq<string>) {
    && (forall i :: 0 <= i < |keyFields| ==> keyFields[i] != "domain")
    && (forall i :: 0 < i < |keyFields| ==> HasUpper(keyFields[i]))
  }

  predicate HasUpper(name: string) { exists k :: 0 <= k < |name| && IsUpper(name[k]) }

  lemma CamelSeparable(host: Host, keyFields: seq<string>, f: Fields, values: seq<string>)
    requires CamelTail(keyFields) && |values| == |keyFields| && Criteria(host, keyFields, f) == Some(values)
    ensures Separable(':', keyFields, values)
  {
    CriteriaAt(host, keyFields, f, values);
    forall i, j | 0 <= i < |keyFields| && 0 < j < |keyFields| ensures !Contains(values[i], Separator(':', keyFields[j])) {
      CriterionNoSeparator(host, keyFields[i], Lookup(f, keyFields[i]), values[i], keyFields[j]);
    }
  }

  lemma CriterionNoSeparator(host: Host, field: string, v: FieldValue, value: string, name: string)
    requires field != "domain" && Criterion(host, field, v) == Some(value) && HasUpper(name)
    ensures !Contains(value, Separator(':', name))
  {
    NormalizedNoSeparator(host, field, Text(host, v), name);
  }

  lemma NormalizedNoSeparator(host: Host, field: string, raw: string, name: string)
    requires field != "domain" && HasUpper(name)
    ensures !Contains(NormalizeKeyValue(host, field, raw), Separator(':', name))
  {
    var k :| 0 <= k < |name| && IsUpper(name[k]);
    LowerNoSeparator(Trim(raw), name, k);
  }

  /** Such keys determine their values, whatever the values are. */
  lemma CamelKeysDetermine(host: Host, keyFields: seq<string>, key: string)
    requires PlainNames(':', keyFields) && CamelTail(keyFields)
    ensures KeyDetermines(host, keyFields, key)
  {
    forall f: Fields, g: Fields |
        NaturalKey(host, keyFields, f) == Some(key) && NaturalKey(host, keyFields, g) == Some(key)
      ensures Criteria(host, keyFields, f) == Criteria(host, keyFields, g)
    {
      CamelSeparable(host, keyFields, f, Criteria(host, keyFields, f).value);
      SeparableDetermines(host, keyFields, f);
    }
  }

  /** The shipped deal key. */
  lemma DealKeysDetermine(host: Host, key: string)
    ensures KeyDetermines(host, ["name", "closeDate"], key)
  {
    var ks := ["name", "closeDate"];
    assert ks[1][5] == 'D';
    assert HasUpper(ks[1]);
    assert |ks[0]| == 4 && |ks[1]| == 9 && |"domain"| == 6;
    CamelKeysDetermine(host, ks, key);
  }

  /** A single key field, as shipped for contacts and companies. */
  lemma SingleKeysDetermine(host: Host, field: string, key: string)
    ensures KeyDetermines(host, [field], key)
  {
    forall f: Fields, g: Fields |
        NaturalKey(host, [field], f) == Some(key) && NaturalKey(host, [field], g) == Some(key)
      ensures Criteria(host, [field], f) == Criteria(host, [field], g)
    {
      SameSingle(field, Criteria(host, [field], f).value, Criteria(host, [field], g).value);
    }
  }

  lemma SameSingle(field: string, a: seq<string>, b: seq<string>)
    requires |a| == |b| == 1 && JoinKey([field], a) == JoinKey([field], b)
    ensures a == b
  {
    var h := field + [':'];
    assert JoinKey([field], a) == h + a[0] && JoinKey([field], b) == h + b[0];
    assert a[0] == (h + a[0])[|h|..] == (h + b[0])[|h|..] == b[0];
  }

  // ----- exactly when mixing records keeps their key -----

  /** The record cut down to its key fields. */
  function KeyPart(keyFields: seq<string>, f: Fields): Fields {
    map c | c in keyFields :: Lookup(f, c)
  }

  lemma KeyPartSame(host: Host, keyFields: seq<string>, f: Fields)
    ensures Criteria(host, keyFields, KeyPart(keyFields, f)) == Criteria(host, keyFields, f)
    ensures NaturalKey(host, keyFields, KeyPart(keyFields, f)) == NaturalKey(host, keyFields, f)
  {
    var p := KeyPart(keyFields, f);
    forall i | 0 <= i < |keyFields| ensures Lookup(p, keyFields[i]) == Lookup(f, keyFields[i]) {
      assert keyFields[i] in keyFields;
    }
    if Criteria(host, keyFields, f).Some? {
      CriteriaAt(host, keyFields, f, Criteria(host, keyFields, f).value);
      CriteriaAt(host, keyFields, p, Criteria(host, keyFields, f).value);
    }
  }

  /** Every field-wise mix of two records with the key has the key. */
  ghost predicate MixesKeepKey(host: Host, keyFields: seq<string>, key: string) {
    forall f: Fields, g: Fields, m: Fields ::
      NaturalKey(host, keyFields, f) == Some(key) && NaturalKey(host, keyFields, g) == Some(key) && Mixes(m, f, g) ==>
      NaturalKey(host, keyFields, m) == Some(key)
  }

  /** The first place where two lists differ. */
  lemma {:induction false} FirstUnequal(vs: seq<string>, us: seq<string>) returns (i: nat)
    requires |vs| == |us| && vs != us
    ensures i < |vs| && vs[..i] == us[..i] && vs[i] != us[i]
  {
    if vs[0] != us[0] {
      i := 0;
    } else {
      assert vs == [vs[0]] + vs[1..] && us == [us[0]] + us[1..];
      var k := FirstUnequal(vs[1..], us[1..]);
      i := k + 1;
      assert vs[..i] == [vs[0]] + vs[1..][..k] && us[..i] == [us[0]] + us[1..][..k];
    }
  }

  /** The values that one field takes from `vs` and all others from `us`. */
  function Mixed(keyFields: seq<string>, vs: seq<string>, us: seq<string>, c: string): (ms: seq<string>)
    requires |vs| == |us| == |keyFields|
    ensures |ms| == |keyFields|
  {
    seq(|keyFields|, j requires 0 <= j < |keyFields| => if keyFields[j] == c then vs[j] else us[j])
  }

  lemma MixedCriteria(host: Host, keyFields: seq<string>, f: Fields, g: Fields, vs: seq<string>, us: seq<string>, c: string)
    requires |vs| == |us| == |keyFields| && c in f
    requires Criteria(host, keyFields, f) == Some(vs) && Criteria(host, keyFields, g) == Some(us)
    ensures Criteria(host, keyFields, g[c := f[c]]) == Some(Mixed(keyFields, vs, us, c))
  {
    var m, ms := g[c := f[c]], Mixed(keyFields, vs, us, c);
    CriteriaAt(host, keyFields, f, vs);
    CriteriaAt(host, keyFields, g, us);
    forall j | 0 <= j < |keyFields| ensures Criterion(host, keyFields[j], Lookup(m, keyFields[j])) == Some(ms[j]) {
      assert Lookup(m, keyFields[j]) == if keyFields[j] == c then Lookup(f, c) else Lookup(g, keyFields[j]);
    }
    CriteriaAt(host, keyFields, m, ms);
  }

  /** Taking one key field from the other record changes the length of the key. */
  lemma MixedLength(keyFields: seq<string>, vs: seq<string>, us: seq<string>, i: nat)
    requires |vs| == |us| == |keyFields| && i < |keyFields| && |vs[i]| != |us[i]|
    requires forall j :: 0 <= j < |keyFields| && keyFields[j] == keyFields[i] ==> |vs[j]| == |vs[i]| && |us[j]| == |us[i]|
    ensures JoinKey(keyFields, Mixed(keyFields, vs, us, keyFields[i])) != JoinKey(keyFields, us)
  {
    var ms := Mixed(keyFields, vs, us, keyFields[i]);
    if |us[i]| < |vs[i]| { LongerTotal(us, ms, i); } else { LongerTotal(ms, us, i); }
    EncodeLength(':', keyFields, ms, us);
  }

  lemma RepeatedField(host: Host, keyFields: seq<string>, f: Fields, vs: seq<string>, i: nat)
    requires |vs| == |keyFields| && i < |keyFields| && Criteria(host, keyFields, f) == Some(vs)
    ensures forall j :: 0 <= j < |keyFields| && keyFields[j] == keyFields[i] ==> vs[j] == vs[i]
  {
    CriteriaAt(host, keyFields, f, vs);
  }

  lemma OneFieldMixed(host: Host, keyFields: seq<string>, f: Fields, g: Fields, vs: seq<string>, us: seq<string>, i: nat)
    requires |vs| == |us| == |keyFields| && i < |keyFields| && keyFields[i] in f
    requires Criteria(host, keyFields, f) == Some(vs) && Criteria(host, keyFields, g) == Some(us)
    requires |vs[i]| != |us[i]|
    ensures NaturalKey(host, keyFields, g[keyFields[i] := f[keyFields[i]]]) != Some(JoinKey(keyFields, us))
  {
    MixedCriteria(host, keyFields, f, g, vs, us, keyFields[i]);
    RepeatedField(host, keyFields, f, vs, i);
    RepeatedField(host, keyFields, g, us, i);
    MixedLength(keyFields, vs, us, i);
  }

  /** A key survives every field-wise mix exactly when it determines the values it stands for. */
  lemma MixesKeepKeyExactly(host: Host, keyFields: seq<string>, key: string)
    ensures MixesKeepKey(host, keyFields, key) <==> KeyDetermines(host, keyFields, key)
  {
    if KeyDetermines(host, keyFields, key) {
      forall f: Fields, g: Fields, m: Fields |
          NaturalKey(host, keyFields, f) == Some(key) && NaturalKey(host, keyFields, g) == Some(key) && Mixes(m, f, g)
        ensures NaturalKey(host, keyFields, m) == Some(key)
      {
        MixedKey(host, keyFields, f, g, m);
      }
    }
    if MixesKeepKey(host, keyFields, key) {
      forall f: Fields, g: Fields |
          NaturalKey(host, keyFields, f) == Some(key) && NaturalKey(host, keyFields, g) == Some(key)
        ensures Criteria(host, keyFields, f) == Criteria(host, keyFields, g)
      {
        SameCriteria(host, keyFields, key, f, g);
      }
    }
  }

  lemma SameCriteria(host: Host, keyFields: seq<string>, key: string, f: Fields, g: Fields)
    requires MixesKeepKey(host, keyFields, key)
    requires NaturalKey(host, keyFields, f) == Some(key) && NaturalKey(host, keyFields, g) == Some(key)
    ensures Criteria(host, keyFields, f) == Criteria(host, keyFields, g)
  {
    KeyPartSame(host, keyFields, f);
    KeyPartSame(host, keyFields, g);
    SamePart(host, keyFields, key, KeyPart(keyFields, f), KeyPart(keyFields, g),
             Criteria(host, keyFields, f).value, Criteria(host, keyFields, g).value);
  }

  lemma SamePart(host: Host, keyFields: seq<string>, key: string, p: Fields, q: Fields, vs: seq<string>, us: seq<string>)
    requires MixesKeepKey(host, keyFields, key)
    requires |vs| == |us| == |keyFields| && p.Keys == q.Keys && forall c :: c in keyFields ==> c in p
    requires Criteria(host, keyFields, p) == Some(vs) && Criteria(host, keyFields, q) == Some(us)
    requires NaturalKey(host, keyFields, p) == Some(key) && NaturalKey(host, keyFields, q) == Some(key)
    ensures vs == us
  {
    if vs != us {
      var i := UnequalLength(keyFields, vs, us);
      var m := q[keyFields[i] := p[keyFields[i]]];
      OneFieldMixed(host, keyFields, p, q, vs, us, i);
      MixKept(host, keyFields, key, p, q, m);
    }
  }

  lemma UnequalLength(keyFields: seq<string>, vs: seq<string>, us: seq<string>) returns (i: nat)
    requires |vs| == |us| == |keyFields| && vs != us && JoinKey(keyFields, vs) == JoinKey(keyFields, us)
    ensures i < |vs| && |vs[i]| != |us[i]| && keyFields[i] in keyFields
  {
    i := FirstUnequal(vs, us);
    if |vs[i]| == |us[i]| { FirstDifference(':', keyFields, vs, us, i); }
  }

  lemma MixKept(host: Host, keyFields: seq<string>, key: string, f: Fields, g: Fields, m: Fields)
    requires MixesKeepKey(host, keyFields, key) && Mixes(m, f, g)
    requires NaturalKey(host, keyFields, f) == Some(key) && NaturalKey(host, keyFields, g) == Some(key)
    ensures NaturalKey(host, keyFields, m) == Some(key)
  {
  }

  // ----- a merge that changes the key -----

  /** Text that normalizing leaves alone. */
  ghost predicate Bare(s: string) {
    s != "" && forall i :: 0 <= i < |s| ==> !IsUpper(s[i]) && !IsSpace(s[i])
  }

  lemma BareIsNormal(host: Host, field: string, s: string)
    requires Bare(s) && field != "domain"
    ensures Criterion(host, field, Str(s)) == Some(s)
  {
    assert NormalizeKeyValue(host, field, s) == s by {
      BareIsTrimmed(s);
      BareIsLower(s);
    }
  }

  lemma BareIsTrimmed(s: string)
    requires Bare(s)
    ensures Trim(s) == s
  {
    assert !IsSpace(s[0]) && !IsSpace(s[|s| - 1]);
    assert TrimStart(s) == s && TrimEnd(s) == s;
  }

  lemma BareIsLower(s: string)
    requires Bare(s)
    ensures Lower(s) == s
  {
    assert forall i :: 0 <= i < |s| ==> Lower(s)[i] == s[i];
  }

  lemma NameMarkIsBare()
    ensures Bare("|name:")
  {
  }

  const CITY_AND_NAME := ["city", "name"]

  function Place(city: string, name: string): Fields { map["city" := Str(city), "name" := Str(name)] }

  lemma PlaceCriteria(host: Host, city: string, name: string)
    requires Bare(city) && Bare(name)
    ensures Criteria(host, CITY_AND_NAME, Place(city, name)) == Some([city, name])
  {
    assert |"domain"| == 6 && |"city"| == 4 && |"name"| == 4;
    BareIsNormal(host, "city", city);
    BareIsNormal(host, "name", name);
    CriteriaAt(host, CITY_AND_NAME, Place(city, name), [city, name]);
  }

  lemma SamePlaceKey(u: string, v: string, w: string)
    ensures JoinKey(CITY_AND_NAME, [u + "|name:" + v, w]) == JoinKey(CITY_AND_NAME, [u, v + "|name:" + w])
  {
    var a, b := [u + "|name:" + v, w], [u, v + "|name:" + w];
    assert CITY_AND_NAME[1..] == ["name"] && a[1..] == [w] && b[1..] == [v + "|name:" + w];
    assert JoinKey(["name"], [w]) == "name:" + w && JoinKey(["name"], [v + "|name:" + w]) == "name:" + (v + "|name:" + w);
    assert "city" + [':'] + (u + "|name:" + v) + "|" + ("name:" + w) == "city" + [':'] + u + "|" + ("name:" + (v + "|name:" + w));
  }

  /** The Salesforce record owns the city and the HubSpot record the name. */
  const SPLIT_OWNERS := map["city" := Salesforce, "name" := Hubspot]

  lemma PlacesMerge(policy: Policy, a: Record, b: Record, city: string, name: string, city': string, name': string)
    requires policy.strategy == FieldMerge && policy.owners == SPLIT_OWNERS
    requires a.source == Salesforce && b.source == Hubspot && a.fields == Place(city, name) && b.fields == Place(city', name')
    ensures Resolve(a, b, policy).winner.fields == b.fields["city" := a.fields["city"]]
  {
  }

  /** A key of two fields that does not determine its values is lost in a merge: two records that
      share it resolve to a record with another one. */
  lemma MergeChangesKey(host: Host, policy: Policy, a: Record, b: Record, u: string, v: string, w: string)
    requires Bare(u) && Bare(v) && Bare(w) && policy.strategy == FieldMerge && policy.owners == SPLIT_OWNERS
    requires a.source == Salesforce && a.fields == Place(u + "|name:" + v, w)
    requires b.source == Hubspot && b.fields == Place(u, v + "|name:" + w)
    ensures var key := NaturalKey(host, CITY_AND_NAME, a.fields);
            && key.Some? && NaturalKey(host, CITY_AND_NAME, b.fields) == key
            && NaturalKey(host, CITY_AND_NAME, Resolve(a, b, policy).winner.fields) != key
  {
    NameMarkIsBare();
    PlaceCriteria(host, u + "|name:" + v, w);
    PlaceCriteria(host, u, v + "|name:" + w);
    SamePlaceKey(u, v, w);
    PlacesMerge(policy, a, b, u + "|name:" + v, w, u, v + "|name:" + w);
    OneFieldMixed(host, CITY_AND_NAME, a.fields, b.fields, [u + "|name:" + v, w], [u, v + "|name:" + w], 0);
  }
}

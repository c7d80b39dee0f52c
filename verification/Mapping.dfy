/** Field mapping: native records to canonical fields and back (src/core/mapping.ts), for one
    canonical object type. */
module Mapping {
  import opened Canonical
  import opened Strings

  datatype Transform =
    | Identity | Domain | Lowercase | Trimmed | Number | Boolean
    | YesNo | TrueFalse | IsoDate | EpochMillis | Phone

  datatype FieldRule = FieldRule(
    canonical: string,
    native: string,
    toCanonical: Transform,
    fromCanonical: Transform,
    readOnly: bool,
    owner: Option<SystemId>)

  datatype ValueMapping = ValueMapping(
    canonicalField: string,
    canonicalValue: string,
    salesforceValue: Option<string>,
    hubspotValue: Option<string>)

  /** The mapping tables in force for the object type. */
  datatype Tables = Tables(
    host: Host,
    salesforce: seq<FieldRule>,
    hubspot: seq<FieldRule>,
    values: seq<ValueMapping>)
  {
    function Rules(s: SystemId): seq<FieldRule> {
      if s == Salesforce then salesforce else hubspot
    }
  }

  function SideValue(m: ValueMapping, s: SystemId): Option<string> {
    if s == Salesforce then m.salesforceValue else m.hubspotValue
  }

  // ----- transforms -----

  function ToDomain(host: Host, v: FieldValue): FieldValue {
    if !v.Str? || v.text == "" then v else Str(host.hostOf(v.text))
  }

  function Apply(host: Host, t: Transform, v: FieldValue): FieldValue {
    match t
    case Identity => v
    case Domain => ToDomain(host, v)
    case Lowercase => if v.Str? then Str(PlainText(v.text)) else v
    case Trimmed => if v.Str? then Str(Trim(v.text)) else v
    case Number =>
      (match v
       case Null => Null
       case Num(_) => v
       case Bool(b) => Num(if b then 1.0 else 0.0)
       case Str(s) =>
         if s == "" then Null
         else match host.parseNumber(s) case Some(n) => Num(n) case None => Null)
    case Boolean =>
      (match v
       case Null => v
       case Bool(_) => v
       case Str(s) => Bool(Lower(s) in ["true", "1", "yes"])
       case Num(n) => Bool(n != 0.0))
    case YesNo =>
      (match v
       case Bool(b) => Str(if b then "yes" else "no")
       case Str(s) => Bool(Lower(s) in ["yes", "true", "1"])
       case _ => v)
    case TrueFalse =>
      (match v
       case Bool(b) => Str(if b then "true" else "false")
       case Str(s) => Bool(Lower(s) == "true")
       case _ => v)
    case IsoDate =>
      (match v
       case Str(s) => (match host.parseDate(s) case Some(ms) => Str(host.isoText(ms)) case None => v)
       case Num(n) => (match host.dateOfNumber(n) case Some(ms) => Str(host.isoText(ms)) case None => v)
       case _ => v)
    case EpochMillis =>
      (match v
       case Num(n) => (match host.dateOfNumber(n) case Some(ms) => Str(host.isoText(ms)) case None => v)
       case Str(s) => (match host.parseDate(s) case Some(ms) => Num(ms as real) case None => v)
       case _ => v)
    case Phone => if v.Str? then Str(PhoneText(v.text)) else v
  }

  // ----- what the transforms make of a value -----

  /** Blanks around a text are dropped, and so is its case where it is lower-cased. */
  lemma TextsCleaned(host: Host, before: string, s: string, after: string)
    requires Blank(before) && Blank(after) && Bare(s)
    ensures Apply(host, Trimmed, Str(before + s + after)) == Str(s)
    ensures Apply(host, Lowercase, Str(before + s + after)) == Str(Lower(s))
  {
    TextTransforms(host, before + s + after);
    TrimAround(before, s, after);
  }

  /** A phone number keeps its digits and plus signs, in order, and nothing else. */
  lemma PhonesCleaned(host: Host, a: string, c: char, b: string, s: string)
    ensures !IsPhoneChar(c) ==> Apply(host, Phone, Str(a + [c] + b)) == Apply(host, Phone, Str(a + b))
    ensures (forall x :: x in s ==> IsPhoneChar(x)) ==> Apply(host, Phone, Str(s)) == Str(s)
  {
    PhoneCleaned(host, a + [c] + b);
    PhoneCleaned(host, a + b);
    PhoneCleaned(host, s);
    if !IsPhoneChar(c) { PhoneCharsWithout(a, c, b); }
    if forall x :: x in s ==> IsPhoneChar(x) { PhoneCharsFixed(s); }
  }

  lemma PhoneCleaned(host: Host, s: string)
    ensures Apply(host, Phone, Str(s)) == Str(PhoneChars(s))
  {
    TextTransforms(host, s);
    PhoneCharsTrimmed(s);
  }

  lemma TextTransforms(host: Host, s: string)
    ensures Apply(host, Phone, Str(s)) == Str(PhoneText(s))
    ensures Apply(host, Trimmed, Str(s)) == Str(Trim(s)) && Apply(host, Lowercase, Str(s)) == Str(PlainText(s))
  {
  }

  /** Texts of one host are one domain. */
  lemma DomainsRead(host: Host, a: string, b: string)
    requires a != "" && b != ""
    ensures Apply(host, Domain, Str(a)) == Apply(host, Domain, Str(b)) <==> host.hostOf(a) == host.hostOf(b)
  {
  }

  /** A text that spells a number becomes it, any other text null; booleans count as one and zero. */
  lemma NumbersRead(host: Host, s: string, n: real)
    ensures s != "" && host.parseNumber(s) == Some(n) ==> Apply(host, Number, Str(s)) == Num(n)
    ensures s == "" || host.parseNumber(s) == None ==> Apply(host, Number, Str(s)) == Null
    ensures Apply(host, Number, Bool(true)) == Num(1.0) && Apply(host, Number, Bool(false)) == Num(0.0)
  {
  }

  /** The texts that count as true, in whatever case. */
  lemma BooleansRead(host: Host, s: string, n: real)
    ensures Apply(host, Boolean, Str(s)) == Bool(Says(s, "true") || Says(s, "1") || Says(s, "yes"))
    ensures Apply(host, YesNo, Str(s)) == Bool(Says(s, "true") || Says(s, "1") || Says(s, "yes"))
    ensures Apply(host, TrueFalse, Str(s)) == Bool(Says(s, "true"))
    ensures Apply(host, Boolean, Num(n)) == Bool(false) <==> n == 0.0
    ensures Apply(host, YesNo, Bool(true)) == Str("yes") && Apply(host, YesNo, Bool(false)) == Str("no")
    ensures Apply(host, TrueFalse, Bool(true)) == Str("true") && Apply(host, TrueFalse, Bool(false)) == Str("false")
  {
    SaysExactly(s, "true");
    SaysExactly(s, "1");
    SaysExactly(s, "yes");
  }

  /** Where ISO texts and numbers are read back as the instants they stand for, dates in either form
      become ISO texts, and milliseconds come back from them. */
  lemma DatesRead(host: Host, ms: int, s: string)
    requires host.parseDate(host.isoText(ms)) == Some(ms) && host.dateOfNumber(ms as real) == Some(ms)
    ensures Apply(host, EpochMillis, Apply(host, EpochMillis, Num(ms as real))) == Num(ms as real)
    ensures Apply(host, IsoDate, Num(ms as real)) == Apply(host, EpochMillis, Num(ms as real)) == Str(host.isoText(ms))
    ensures host.parseDate(s) == Some(ms) ==> Apply(host, IsoDate, Str(s)) == Str(host.isoText(ms))
    ensures host.parseDate(s) == None ==> Apply(host, IsoDate, Str(s)) == Apply(host, EpochMillis, Str(s)) == Str(s)
  {
  }

  /** Cleaning a value twice is cleaning it once. */
  lemma CleanersIdempotent(host: Host, v: FieldValue, t: Transform)
    requires t in {Identity, Lowercase, Trimmed, Number, Boolean, Phone}
    ensures Apply(host, t, Apply(host, t, v)) == Apply(host, t, v)
  {
    if v.Str? {
      match t
      case Lowercase => LowerTrimIdempotent(v.text);
      case Trimmed => TrimIdempotent(v.text);
      case Phone =>
        var p := PhoneChars(Trim(v.text));
        TrimOfPhone(p);
        PhoneCharsFixed(p);
      case _ =>
    }
  }

  /** The two enumeration encodings are their own inverse on canonical booleans, and on native
      strings they normalize to one of the two literals. */
  lemma EnumerationsInvert(host: Host, b: bool, s: string)
    ensures Apply(host, YesNo, Apply(host, YesNo, Bool(b))) == Bool(b)
    ensures Apply(host, TrueFalse, Apply(host, TrueFalse, Bool(b))) == Bool(b)
    ensures Apply(host, YesNo, Apply(host, YesNo, Str(s))) in {Str("yes"), Str("no")}
    ensures Apply(host, TrueFalse, Apply(host, TrueFalse, Str(s))) in {Str("true"), Str("false")}
  {
    LiteralsAreLower();
  }

  lemma LiteralsAreLower()
    ensures Lower("yes") == "yes" && Lower("no") == "no" && Lower("true") == "true" && Lower("false") == "false"
  {
  }

  // ----- value mappings: the first row that matches decides -----

  /** Index of the first row that maps native value `u` of side `s`, or |rows|. */
  function FirstNative(rows: seq<ValueMapping>, s: SystemId, c: string, u: string): (i: nat)
    ensures i <= |rows|
    ensures i < |rows| ==> rows[i].canonicalField == c && SideValue(rows[i], s) == Some(u)
    ensures forall j :: 0 <= j < i ==> !(rows[j].canonicalField == c && SideValue(rows[j], s) == Some(u))
  {
    if rows == [] then 0
    else if rows[0].canonicalField == c && SideValue(rows[0], s) == Some(u) then 0
    else 1 + FirstNative(rows[1..], s, c, u)
  }

  /** Index of the first row for canonical value `v`, or |rows|. */
  function FirstCanonical(rows: seq<ValueMapping>, c: string, v: string): (i: nat)
    ensures i <= |rows|
    ensures i < |rows| ==> rows[i].canonicalField == c && rows[i].canonicalValue == v
    ensures forall j :: 0 <= j < i ==> !(rows[j].canonicalField == c && rows[j].canonicalValue == v)
  {
    if rows == [] then 0
    else if rows[0].canonicalField == c && rows[0].canonicalValue == v then 0
    else 1 + FirstCanonical(rows[1..], c, v)
  }

  function ToCanonicalText(rows: seq<ValueMapping>, s: SystemId, c: string, u: string): string {
    var i := FirstNative(rows, s, c, u);
    if i < |rows| then rows[i].canonicalValue else u
  }

  function FromCanonicalText(rows: seq<ValueMapping>, s: SystemId, c: string, v: string): string {
    var i := FirstCanonical(rows, c, v);
    if i < |rows| && SideValue(rows[i], s).Some? then SideValue(rows[i], s).value else v
  }

  function ToCanonicalValue(rows: seq<ValueMapping>, s: SystemId, c: string, v: FieldValue): FieldValue {
    if v.Str? then Str(ToCanonicalText(rows, s, c, v.text)) else v
  }

  function FromCanonicalValue(rows: seq<ValueMapping>, s: SystemId, c: string, v: FieldValue): FieldValue {
    if v.Str? then Str(FromCanonicalText(rows, s, c, v.text)) else v
  }

  predicate ReadsAs(row: ValueMapping, s: SystemId, c: string, u: string) {
    row.canonicalField == c && SideValue(row, s) == Some(u)
  }

  /** A lookup in the configured rows: the row that gives `v` its native code is the first to read
      that code; or `v` is written as it is, and the first row to read it, if any, reads it as `v`. */
  predicate ReadsBack(rows: seq<ValueMapping>, s: SystemId, c: string, v: string) {
    var j := FirstCanonical(rows, c, v);
    if j < |rows| && SideValue(rows[j], s).Some? then
      forall i :: 0 <= i < j ==> !ReadsAs(rows[i], s, c, SideValue(rows[j], s).value)
    else
      var i := FirstNative(rows, s, c, v); i < |rows| ==> rows[i].canonicalValue == v
  }

  /** Writing a canonical text and reading it back returns it exactly when it passes the lookup. */
  lemma ValueMappingRoundTrip(rows: seq<ValueMapping>, s: SystemId, c: string, v: string)
    ensures ReadsBack(rows, s, c, v) <==> ToCanonicalText(rows, s, c, FromCanonicalText(rows, s, c, v)) == v
  {
    var j := FirstCanonical(rows, c, v);
    if j < |rows| && SideValue(rows[j], s).Some? {
      var u := SideValue(rows[j], s).value;
      var k := FirstNative(rows, s, c, u);
      assert ReadsAs(rows[j], s, c, u);
      if k < j { assert ReadsAs(rows[k], s, c, u); }
    }
  }

  /** No two rows of the field have the same native code. */
  predicate DistinctCodes(rows: seq<ValueMapping>, s: SystemId, c: string) {
    forall i, j :: 0 <= i < j < |rows| && rows[i].canonicalField == rows[j].canonicalField == c && SideValue(rows[i], s).Some? ==>
      SideValue(rows[i], s) != SideValue(rows[j], s)
  }

  /** With distinct codes every value that has a code round-trips, and a value that has no row does
      so exactly when it is not itself the code of another. */
  lemma DistinctCodesRoundTrip(rows: seq<ValueMapping>, s: SystemId, c: string, v: string)
    requires DistinctCodes(rows, s, c)
    ensures var j := FirstCanonical(rows, c, v);
            && (j < |rows| && SideValue(rows[j], s).Some? ==> ReadsBack(rows, s, c, v))
            && (j == |rows| ==> (ReadsBack(rows, s, c, v) <==> forall i :: 0 <= i < |rows| ==> !ReadsAs(rows[i], s, c, v)))
  {
    var k := FirstNative(rows, s, c, v);
    if k < |rows| { assert ReadsAs(rows[k], s, c, v); }
  }

  // ----- the two translations -----

  predicate Dotted(path: string) { '.' in path }

  /** The raw value a rule reads. A dotted path walks nested objects, which a flat record does
      not have. */
  function RawValue(native: Fields, path: string): FieldValue {
    if Dotted(path) then Null else Lookup(native, path)
  }

  /** What one rule reads from a raw native value. */
  function ReadValue(tb: Tables, s: SystemId, r: FieldRule, raw: FieldValue): FieldValue {
    ToCanonicalValue(tb.values, s, r.canonical, Apply(tb.host, r.toCanonical, raw))
  }

  /** What one rule writes for a canonical value. */
  function WriteValue(tb: Tables, s: SystemId, r: FieldRule, v: FieldValue): FieldValue {
    Apply(tb.host, r.fromCanonical, FromCanonicalValue(tb.values, s, r.canonical, v))
  }

  /** The canonical fields a table covers. */
  function Names(rules: seq<FieldRule>): set<string> {
    set r | r in rules :: r.canonical
  }

  /** Fills every rule's canonical field, later rules over earlier ones. */
  function FillCanonical(rules: seq<FieldRule>, value: FieldRule -> FieldValue): (out: Fields)
    ensures out.Keys == Names(rules)
  {
    if rules == [] then map[]
    else
      assert rules == rules[..|rules| - 1] + [rules[|rules| - 1]];
      FillCanonical(rules[..|rules| - 1], value)[rules[|rules| - 1].canonical := value(rules[|rules| - 1])]
  }

  predicate IsWritten(r: FieldRule, fields: Fields) {
    !r.readOnly && r.canonical in fields && !Dotted(r.native)
  }

  /** Fills the native field of every rule that is written, later rules over earlier ones. */
  function FillNative(rules: seq<FieldRule>, fields: Fields, value: FieldRule -> FieldValue): (out: Fields) {
    if rules == [] then map[]
    else
      var r := rules[|rules| - 1];
      var before := FillNative(rules[..|rules| - 1], fields, value);
      if IsWritten(r, fields) then before[r.native := value(r)] else before
  }

  function Reader(tb: Tables, s: SystemId, native: Fields): FieldRule -> FieldValue {
    (r: FieldRule) => ReadValue(tb, s, r, RawValue(native, r.native))
  }

  function Writer(tb: Tables, s: SystemId, fields: Fields): FieldRule -> FieldValue {
    (r: FieldRule) => WriteValue(tb, s, r, Lookup(fields, r.canonical))
  }

  function ToCanonical(tb: Tables, s: SystemId, native: Fields): Fields {
    FillCanonical(tb.Rules(s), Reader(tb, s, native))
  }

  function FromCanonical(tb: Tables, s: SystemId, fields: Fields): Fields {
    FillNative(tb.Rules(s), fields, Writer(tb, s, fields))
  }

  /** One round of the loop of `toCanonicalFields`. */
  method ReadOne(tb: Tables, s: SystemId, rule: FieldRule, native: Fields) returns (value: FieldValue)
    ensures value == Reader(tb, s, native)(rule)
  {
    var raw := RawValue(native, rule.native);
    var transformed := Apply(tb.host, rule.toCanonical, raw);
    value := ToCanonicalValue(tb.values, s, rule.canonical, transformed);
  }

  /** The field loop of `toCanonicalFields`. */
  method ToCanonicalFields(tb: Tables, s: SystemId, native: Fields) returns (out: Fields)
    ensures out == ToCanonical(tb, s, native)
  {
    out := map[];
    var rules := tb.Rules(s);
    ghost var reader := Reader(tb, s, native);
    for i := 0 to |rules|
      invariant out == FillCanonical(rules[..i], reader)
    {
      var value := ReadOne(tb, s, rules[i], native);
      out := out[rules[i].canonical := value];
      assert rules[..i + 1][..i] == rules[..i];
    }
    assert rules[..|rules|] == rules;
  }

  /** One round of the loop of `fromCanonicalFields`, for a rule that is written. */
  method WriteOne(tb: Tables, s: SystemId, rule: FieldRule, fields: Fields) returns (value: FieldValue)
    requires rule.canonical in fields
    ensures value == Writer(tb, s, fields)(rule)
  {
    var unmapped := FromCanonicalValue(tb.values, s, rule.canonical, fields[rule.canonical]);
    value := Apply(tb.host, rule.fromCanonical, unmapped);
  }

  /** The field loop of `fromCanonicalFields`. */
  method FromCanonicalFields(tb: Tables, s: SystemId, fields: Fields) returns (out: Fields)
    ensures out == FromCanonical(tb, s, fields)
  {
    out := map[];
    var rules := tb.Rules(s);
    ghost var writer := Writer(tb, s, fields);
    for i := 0 to |rules|
      invariant out == FillNative(rules[..i], fields, writer)
    {
      var rule := rules[i];
      assert rules[..i + 1][..i] == rules[..i];
      if rule.readOnly || rule.canonical !in fields || Dotted(rule.native) {
        continue;
      }
      var value := WriteOne(tb, s, rule, fields);
      out := out[rule.native := value];
    }
    assert rules[..|rules|] == rules;
  }

  /** Values are mapped in canonical and native terms: on reading, the first row that names the cleaned
      text decides; on writing, the first row that names the canonical text does, before anything
      else is made of it. */
  lemma RowsDecide(tb: Tables, s: SystemId, r: FieldRule, raw: FieldValue, u: string, v: string, i: nat)
    requires i < |tb.values| && tb.values[i].canonicalField == r.canonical
    ensures Apply(tb.host, r.toCanonical, raw) == Str(u) && SideValue(tb.values[i], s) == Some(u)
            && (forall j :: 0 <= j < i && tb.values[j].canonicalField == r.canonical ==> SideValue(tb.values[j], s) != Some(u)) ==>
              ReadValue(tb, s, r, raw) == Str(tb.values[i].canonicalValue)
    ensures tb.values[i].canonicalValue == v && SideValue(tb.values[i], s) == Some(u)
            && (forall j :: 0 <= j < i && tb.values[j].canonicalField == r.canonical ==> tb.values[j].canonicalValue != v) ==>
              WriteValue(tb, s, r, Str(v)) == Apply(tb.host, r.fromCanonical, Str(u))
  {
  }

  /** Without a row for it a text is read as it is cleaned. */
  lemma NoRowReads(tb: Tables, s: SystemId, r: FieldRule, raw: FieldValue)
    requires forall j :: 0 <= j < |tb.values| ==> tb.values[j].canonicalField != r.canonical
    ensures ReadValue(tb, s, r, raw) == Apply(tb.host, r.toCanonical, raw)
    ensures WriteValue(tb, s, r, raw) == Apply(tb.host, r.fromCanonical, raw)
  {
  }

  // ----- the round trip -----

  /** No two rules share a canonical name. */
  ghost predicate OncePerField(rules: seq<FieldRule>) {
    forall i, j :: 0 <= i < j < |rules| ==> rules[i].canonical != rules[j].canonical
  }

  /** No two rules share a canonical or a native name. */
  ghost predicate Distinct(rules: seq<FieldRule>) {
    forall i, j :: 0 <= i < j < |rules| ==> rules[i].canonical != rules[j].canonical && rules[i].native != rules[j].native
  }

  /** Every rule is flat and writable, and no two share a canonical or a native name. */
  ghost predicate Flat(rules: seq<FieldRule>) {
    && (forall i :: 0 <= i < |rules| ==> !rules[i].readOnly && !Dotted(rules[i].native))
    && Distinct(rules)
  }

  /** Side `s` gives back every value of `fields` that it is handed. */
  ghost predicate Carries(tb: Tables, s: SystemId, fields: Fields) {
    && fields.Keys == Names(tb.Rules(s))
    && (forall i :: 0 <= i < |tb.Rules(s)| && tb.Rules(s)[i].canonical in fields ==>
          var r := tb.Rules(s)[i];
          ReadValue(tb, s, r, WriteValue(tb, s, r, fields[r.canonical])) == fields[r.canonical])
  }

  lemma {:induction false} FillCanonicalAt(rules: seq<FieldRule>, value: FieldRule -> FieldValue, i: nat)
    requires OncePerField(rules) && i < |rules|
    ensures rules[i].canonical in FillCanonical(rules, value)
    ensures FillCanonical(rules, value)[rules[i].canonical] == value(rules[i])
  {
    var n := |rules| - 1;
    if i < n {
      assert rules[..n][i] == rules[i] && rules[n].canonical != rules[i].canonical;
      FillCanonicalAt(rules[..n], value, i);
    }
  }

  lemma {:induction false} FillNativeAt(rules: seq<FieldRule>, fields: Fields, value: FieldRule -> FieldValue, i: nat)
    requires Distinct(rules) && i < |rules| && IsWritten(rules[i], fields)
    ensures rules[i].native in FillNative(rules, fields, value)
    ensures FillNative(rules, fields, value)[rules[i].native] == value(rules[i])
  {
    var n := |rules| - 1;
    if i < n {
      assert rules[..n][i] == rules[i] && rules[n].native != rules[i].native;
      FillNativeAt(rules[..n], fields, value, i);
    }
  }

  /** No rule writes this native name. */
  ghost predicate Unwritten(rules: seq<FieldRule>, fields: Fields, native: string) {
    forall j :: 0 <= j < |rules| && IsWritten(rules[j], fields) ==> rules[j].native != native
  }

  lemma {:induction false} UnwrittenStays(rules: seq<FieldRule>, fields: Fields, value: FieldRule -> FieldValue, native: string)
    requires Unwritten(rules, fields, native)
    ensures native !in FillNative(rules, fields, value)
  {
    if rules != [] {
      var n := |rules| - 1;
      assert forall j :: 0 <= j < n ==> rules[..n][j] == rules[j];
      UnwrittenStays(rules[..n], fields, value, native);
    }
  }

  /** A field whose native name no rule writes reads after a write as it did before. */
  lemma UnwrittenReads(tb: Tables, s: SystemId, existing: Fields, fields: Fields, i: nat)
    requires OncePerField(tb.Rules(s)) && i < |tb.Rules(s)| && Unwritten(tb.Rules(s), fields, tb.Rules(s)[i].native)
    ensures var c, back := tb.Rules(s)[i].canonical, ToCanonical(tb, s, existing + FromCanonical(tb, s, fields));
            c in back && c in ToCanonical(tb, s, existing) && back[c] == ToCanonical(tb, s, existing)[c]
  {
    var rules, merged := tb.Rules(s), existing + FromCanonical(tb, s, fields);
    UnwrittenStays(rules, fields, Writer(tb, s, fields), rules[i].native);
    FillCanonicalAt(rules, Reader(tb, s, merged), i);
    FillCanonicalAt(rules, Reader(tb, s, existing), i);
    assert RawValue(merged, rules[i].native) == RawValue(existing, rules[i].native);
  }

  /** A field that is written and carried reads after the write as it was written. */
  lemma WrittenReads(tb: Tables, s: SystemId, existing: Fields, fields: Fields, i: nat)
    requires Distinct(tb.Rules(s)) && i < |tb.Rules(s)| && IsWritten(tb.Rules(s)[i], fields)
    requires var r := tb.Rules(s)[i]; ReadValue(tb, s, r, WriteValue(tb, s, r, fields[r.canonical])) == fields[r.canonical]
    ensures var c, back := tb.Rules(s)[i].canonical, ToCanonical(tb, s, existing + FromCanonical(tb, s, fields));
            c in back && back[c] == fields[c]
  {
    var rules, merged := tb.Rules(s), existing + FromCanonical(tb, s, fields);
    FillNativeAt(rules, fields, Writer(tb, s, fields), i);
    FillCanonicalAt(rules, Reader(tb, s, merged), i);
  }

  /** Reading back what was written over any existing record returns the canonical fields. */
  lemma WriteThenRead(tb: Tables, s: SystemId, existing: Fields, fields: Fields)
    requires Flat(tb.Rules(s)) && Carries(tb, s, fields)
    ensures ToCanonical(tb, s, existing + FromCanonical(tb, s, fields)) == fields
  {
    var rules := tb.Rules(s);
    var merged := existing + FromCanonical(tb, s, fields);
    var back := ToCanonical(tb, s, merged);
    forall c | c in fields ensures c in back && back[c] == fields[c] {
      assert c in Names(rules);
      var i :| 0 <= i < |rules| && rules[i].canonical == c;
      WrittenReads(tb, s, existing, fields, i);
    }
    assert back.Keys == fields.Keys;
  }

  /** A rule gives a value back when its transforms undo each other on the native value and the
      value-mapping rows read the value back. */
  lemma RuleRetraction(tb: Tables, s: SystemId, r: FieldRule, v: FieldValue)
    requires v.Str? ==> ReadsBack(tb.values, s, r.canonical, v.text)
    requires var u := FromCanonicalValue(tb.values, s, r.canonical, v);
             Apply(tb.host, r.toCanonical, Apply(tb.host, r.fromCanonical, u)) == u
    ensures ReadValue(tb, s, r, WriteValue(tb, s, r, v)) == v
  {
    if v.Str? { ValueMappingRoundTrip(tb.values, s, r.canonical, v.text); }
  }

  // ----- settled tables -----

  /** Both tables are flat and cover the same canonical fields. */
  ghost predicate Settled(tb: Tables) {
    && Flat(tb.salesforce) && Flat(tb.hubspot)
    && Names(tb.salesforce) == Names(tb.hubspot)
  }

  /** Field maps that both sides carry. */
  ghost predicate Admissible(tb: Tables, fields: Fields) {
    Carries(tb, Salesforce, fields) && Carries(tb, Hubspot, fields)
  }

  /** Whatever a rule reads on one side, the rule for the same field on side `s` gives back. */
  ghost predicate ReadsCarried(tb: Tables, from: SystemId, s: SystemId) {
    forall i, j, raw ::
      0 <= i < |tb.Rules(from)| && 0 <= j < |tb.Rules(s)| && tb.Rules(from)[i].canonical == tb.Rules(s)[j].canonical ==>
      var v := ReadValue(tb, from, tb.Rules(from)[i], raw);
      ReadValue(tb, s, tb.Rules(s)[j], WriteValue(tb, s, tb.Rules(s)[j], v)) == v
  }

  /** Tables that give back everything either system can hold. */
  ghost predicate AlwaysCarried(tb: Tables) {
    forall a, b :: ReadsCarried(tb, a, b)
  }

  lemma ReadsAdmissible(tb: Tables, from: SystemId, native: Fields)
    requires Settled(tb) && AlwaysCarried(tb)
    ensures Admissible(tb, ToCanonical(tb, from, native))
  {
    ReadsCarriedOver(tb, from, Salesforce, native);
    ReadsCarriedOver(tb, from, Hubspot, native);
  }

  lemma ReadsCarriedOver(tb: Tables, from: SystemId, s: SystemId, native: Fields)
    requires Settled(tb) && ReadsCarried(tb, from, s)
    ensures Carries(tb, s, ToCanonical(tb, from, native))
  {
    var f := ToCanonical(tb, from, native);
    var theirs, ours := tb.Rules(from), tb.Rules(s);
    forall j | 0 <= j < |ours| && ours[j].canonical in f
      ensures ReadValue(tb, s, ours[j], WriteValue(tb, s, ours[j], f[ours[j].canonical])) == f[ours[j].canonical]
    {
      assert ours[j].canonical in Names(theirs);
      var i :| 0 <= i < |theirs| && theirs[i].canonical == ours[j].canonical;
      FillCanonicalAt(theirs, Reader(tb, from, native), i);
    }
  }

  // ----- the shipped tables (src/core/defaultObjects.ts) -----

  function Plain(canonical: string, native: string): FieldRule {
    FieldRule(canonical, native, Identity, Identity, false, None)
  }

  /** A rule that cleans what it reads and writes values as they are. */
  function Cleaned(canonical: string, native: string, t: Transform): FieldRule {
    FieldRule(canonical, native, t, Identity, false, None)
  }

  function CompanyTables(host: Host): Tables {
    Tables(host,
      [Plain("name", "Name"), Cleaned("domain", "Website", Domain), Plain("phone", "Phone"), Plain("industry", "Industry"),
       Plain("employeeCount", "NumberOfEmployees"), Plain("ownerId", "OwnerId")],
      [Plain("name", "name"), Cleaned("domain", "domain", Domain), Plain("phone", "phone"), Plain("industry", "industry"),
       Plain("employeeCount", "numberofemployees"), Plain("ownerId", "hubspot_owner_id")],
      [])
  }

  /** The contact rules that write both ways: all but the company name, which Salesforce only reads. */
  function ContactTables(host: Host): Tables {
    Tables(host,
      [Plain("firstName", "FirstName"), Plain("lastName", "LastName"), Plain("email", "Email"), Plain("phone", "Phone"),
       Plain("title", "Title"), Plain("ownerId", "OwnerId")],
      [Plain("firstName", "firstname"), Plain("lastName", "lastname"), Plain("email", "email"), Plain("phone", "phone"),
       Plain("title", "jobtitle"), Plain("ownerId", "hubspot_owner_id")],
      [])
  }

  /** The deal rules that write both ways: all but the pipeline, which Salesforce only reads. */
  function DealTables(host: Host): Tables {
    Tables(host,
      [Plain("name", "Name"), Plain("amount", "Amount"), Cleaned("stage", "StageName", Lowercase),
       Plain("closeDate", "CloseDate"), Plain("ownerId", "OwnerId")],
      [Plain("name", "dealname"), Plain("amount", "amount"), Cleaned("stage", "dealstage", Lowercase),
       Plain("closeDate", "closedate"), Plain("ownerId", "hubspot_owner_id")],
      [])
  }

  ghost predicate HostOfIdempotent(host: Host) {
    forall t :: host.hostOf(t) != "" ==> host.hostOf(host.hostOf(t)) == host.hostOf(t)
  }

  /** The two rules for one field clean alike and write plainly. */
  predicate Matched(r: FieldRule, q: FieldRule) {
    && r.canonical == q.canonical && r.toCanonical == q.toCanonical && r.toCanonical in {Identity, Domain, Lowercase}
    && r.fromCanonical == q.fromCanonical == Identity
  }

  predicate MatchedRules(tb: Tables) {
    && tb.values == [] && |tb.salesforce| == |tb.hubspot|
    && forall i :: 0 <= i < |tb.salesforce| ==> Matched(tb.salesforce[i], tb.hubspot[i])
  }

  /** A rule that reads through an idempotent cleaner and writes values as they are gives back
      whatever a rule with the same cleaner has read. */
  lemma CleanRetraction(tb: Tables, from: SystemId, s: SystemId, r: FieldRule, q: FieldRule, raw: FieldValue)
    requires tb.values == [] && Matched(r, q) && (r.toCanonical == Domain ==> HostOfIdempotent(tb.host))
    ensures var v := ReadValue(tb, from, r, raw);
            ReadValue(tb, s, q, WriteValue(tb, s, q, v)) == v
  {
    var v := ReadValue(tb, from, r, raw);
    Unmapped(tb, from, r, raw);
    Unmapped(tb, s, q, v);
    CleanedTwice(tb.host, r.toCanonical, raw);
  }

  lemma CleanedTwice(host: Host, t: Transform, raw: FieldValue)
    requires t in {Identity, Domain, Lowercase} && (t == Domain ==> HostOfIdempotent(host))
    ensures Apply(host, t, Apply(host, t, raw)) == Apply(host, t, raw)
  {
    if t != Domain { CleanersIdempotent(host, raw, t); }
  }

  /** Without value mappings a rule only transforms. */
  lemma Unmapped(tb: Tables, s: SystemId, r: FieldRule, v: FieldValue)
    requires tb.values == []
    ensures ReadValue(tb, s, r, v) == Apply(tb.host, r.toCanonical, v)
    ensures r.fromCanonical == Identity ==> WriteValue(tb, s, r, v) == v
  {
  }

  /** Flat tables of matched rules are settled and give back all they read. */
  lemma MatchedSettled(tb: Tables)
    requires MatchedRules(tb) && Flat(tb.salesforce) && Flat(tb.hubspot)
    requires (exists r :: r in tb.salesforce && r.toCanonical == Domain) ==> HostOfIdempotent(tb.host)
    ensures Settled(tb) && AlwaysCarried(tb)
  {
    var a, b := tb.salesforce, tb.hubspot;
    assert Names(a) == Names(b) by {
      forall r | r in a ensures r.canonical in Names(b) {
        var i :| 0 <= i < |a| && a[i] == r;
        assert b[i] in b && Matched(a[i], b[i]);
      }
      forall r | r in b ensures r.canonical in Names(a) {
        var i :| 0 <= i < |b| && b[i] == r;
        assert a[i] in a && Matched(a[i], b[i]);
      }
    }
    forall from: SystemId, s: SystemId ensures ReadsCarried(tb, from, s) {
      MatchedCarried(tb, from, s);
    }
  }

  lemma SamePlace(tb: Tables, from: SystemId, s: SystemId, i: nat, j: nat)
    requires MatchedRules(tb) && Flat(tb.salesforce) && Flat(tb.hubspot)
    requires i < |tb.Rules(from)| && j < |tb.Rules(s)| && tb.Rules(from)[i].canonical == tb.Rules(s)[j].canonical
    ensures i == j && tb.salesforce[i].toCanonical == tb.Rules(from)[i].toCanonical
    ensures Matched(tb.Rules(from)[i], tb.Rules(s)[j])
  {
    assert Matched(tb.salesforce[i], tb.hubspot[i]);
    assert i == j by { assert tb.Rules(s)[i].canonical == tb.Rules(from)[i].canonical; }
  }

  lemma MatchedCarried(tb: Tables, from: SystemId, s: SystemId)
    requires MatchedRules(tb) && Flat(tb.salesforce) && Flat(tb.hubspot)
    requires (exists r :: r in tb.salesforce && r.toCanonical == Domain) ==> HostOfIdempotent(tb.host)
    ensures ReadsCarried(tb, from, s)
  {
    forall i, j, raw | 0 <= i < |tb.Rules(from)| && 0 <= j < |tb.Rules(s)|
        && tb.Rules(from)[i].canonical == tb.Rules(s)[j].canonical
      ensures var v := ReadValue(tb, from, tb.Rules(from)[i], raw);
              ReadValue(tb, s, tb.Rules(s)[j], WriteValue(tb, s, tb.Rules(s)[j], v)) == v
    {
      SamePlace(tb, from, s, i, j);
      assert tb.salesforce[i] in tb.salesforce;
      CleanRetraction(tb, from, s, tb.Rules(from)[i], tb.Rules(s)[j], raw);
    }
  }

  /** The company object as shipped. */
  lemma CompanySettled(host: Host)
    requires HostOfIdempotent(host)
    ensures Settled(CompanyTables(host)) && AlwaysCarried(CompanyTables(host))
  {
    CompanyFlat(host);
    MatchedSettled(CompanyTables(host));
  }

  lemma CompanyFlat(host: Host)
    ensures var tb := CompanyTables(host); Flat(tb.salesforce) && Flat(tb.hubspot)
  {
    SalesforceNatives();
    HubspotNatives();
    CompanySides(host);
  }

  lemma CompanySides(host: Host)
    ensures Distinct(CompanyTables(host).salesforce) && Distinct(CompanyTables(host).hubspot)
  {
    assert "phone"[0] == 'p' && "Phone"[0] == 'P';
  }

  /** The contact object, on the fields that write both ways. */
  lemma ContactSettled(host: Host)
    ensures Settled(ContactTables(host)) && AlwaysCarried(ContactTables(host))
  {
    ContactFlat(host);
    MatchedSettled(ContactTables(host));
  }

  lemma ContactFlat(host: Host)
    ensures var tb := ContactTables(host); Flat(tb.salesforce) && Flat(tb.hubspot)
  {
    SalesforceNatives();
    HubspotNatives();
    ContactSides(host);
  }

  lemma ContactSides(host: Host)
    ensures Distinct(ContactTables(host).salesforce) && Distinct(ContactTables(host).hubspot)
  {
    assert "email"[0] == 'e' && "phone"[0] == 'p' && "title"[0] == 't' && "lastname"[0] == 'l' && "jobtitle"[0] == 'j';
    assert "Email"[0] == 'E' && "Phone"[0] == 'P' && "Title"[0] == 'T';
  }

  /** The deal object, on the fields that write both ways. */
  lemma DealSettled(host: Host)
    ensures Settled(DealTables(host)) && AlwaysCarried(DealTables(host))
  {
    DealFlat(host);
    MatchedSettled(DealTables(host));
  }

  lemma DealFlat(host: Host)
    ensures var tb := DealTables(host); Flat(tb.salesforce) && Flat(tb.hubspot)
  {
    SalesforceNatives();
    HubspotNatives();
    DealSides(host);
  }

  lemma DealSides(host: Host)
    ensures Distinct(DealTables(host).salesforce) && Distinct(DealTables(host).hubspot)
  {
    assert "StageName"[0] == 'S' && "CloseDate"[0] == 'C' && "dealstage"[0] == 'd' && "closedate"[0] == 'c';
  }

  lemma SalesforceNatives()
    ensures !Dotted("Name") && !Dotted("Website") && !Dotted("Phone") && !Dotted("Industry") && !Dotted("NumberOfEmployees")
    ensures !Dotted("FirstName") && !Dotted("LastName") && !Dotted("Email") && !Dotted("Title") && !Dotted("OwnerId")
    ensures !Dotted("Amount") && !Dotted("StageName") && !Dotted("CloseDate")
  {
  }

  lemma HubspotNatives()
    ensures !Dotted("name") && !Dotted("domain") && !Dotted("phone") && !Dotted("industry") && !Dotted("numberofemployees")
    ensures !Dotted("firstname") && !Dotted("lastname") && !Dotted("email") && !Dotted("jobtitle") && !Dotted("hubspot_owner_id")
    ensures !Dotted("dealname") && !Dotted("amount") && !Dotted("dealstage") && !Dotted("closedate")
  {
  }
}

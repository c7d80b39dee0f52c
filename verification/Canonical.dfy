/** The neutral vocabulary every other module speaks: systems, scalar values, canonical
    field maps and the runtime functions this model leaves open. */
module Canonical {

  datatype Option<+T> = None | Some(value: T)

  datatype SystemId = Salesforce | Hubspot

  function Other(s: SystemId): (o: SystemId)
    ensures o != s
  {
    if s == Salesforce then Hubspot else Salesforce
  }

  /** A vendor-agnostic scalar. Numbers are exact; NaN and the infinities never reach a record. */
  datatype FieldValue = Null | Str(text: string) | Num(number: real) | Bool(flag: bool)

  type Fields = map<string, FieldValue>
  type Id = string
  type Time = int

  /** A canonical snapshot together with its provenance. */
  datatype Record = Record(fields: Fields, source: SystemId, sourceId: Id, modifiedAt: Time)

  /** Runtime functions used by the source and left uninterpreted here. `sha` is the truncated
      SHA-256 digest, `hostOf` the URL host extraction of the `domain` transform, `keyDomain`
      the one of the natural-key normalizer. */
  datatype Host = Host(
    sha: string -> string,
    numText: real -> string,
    hostOf: string -> string,
    keyDomain: string -> string,
    parseNumber: string -> Option<real>,
    parseDate: string -> Option<int>,
    dateOfNumber: real -> Option<int>,
    isoText: int -> string)

  lemma SubsetSize<T>(a: set<T>, b: set<T>)
    requires a <= b
    ensures |a| <= |b|
  {
    assert b == a + (b - a);
  }

  /** What a template literal prints for a value, with null printed as nothing. */
  function Text(host: Host, v: FieldValue): string {
    match v
    case Null => ""
    case Str(s) => s
    case Num(n) => host.numText(n)
    case Bool(b) => if b then "true" else "false"
  }

  /** The value stored under a field, where a field that is not there reads as null. */
  function Lookup(f: Fields, c: string): FieldValue {
    if c in f then f[c] else Null
  }

  /** The text of every field: what two field maps share when their hashes agree. */
  function Normal(host: Host, f: Fields): map<string, string> {
    map c | c in f :: Text(host, f[c])
  }
}

/** The registry of canonical objects and the keys it hands out (src/core/objectRegistry.ts). */
module ObjectRegistry {
  import opened Canonical
  import opened Strings

  datatype Registration = Registration(
    canonicalObject: string,
    title: string,
    salesforceObject: Option<string>,
    hubspotObject: Option<string>)

  // ----- the base of a key -----

  predicate IsKeyChar(c: char) { 'a' <= c <= 'z' || '0' <= c <= '9' }

  /** Every run of other characters becomes one underscore. */
  function Underscored(s: string): (r: string)
    ensures forall c :: c in r ==> IsKeyChar(c) || c == '_'
    ensures forall i :: 0 <= i < |r| - 1 ==> r[i] != '_' || r[i + 1] != '_'
    ensures r != [] && s != [] ==> (r[0] == '_' <==> !IsKeyChar(s[0]))
    ensures s != [] ==> r != []
  {
    if s == "" then ""
    else
      var rest := Underscored(s[1..]);
      if IsKeyChar(s[0]) then [s[0]] + rest
      else if rest != "" && rest[0] == '_' then rest
      else "_" + rest
  }

  function DropFront(s: string): (r: string)
    ensures |r| <= |s| && r == s[|s| - |r|..]
    ensures r == "" || r[0] != '_'
  {
    if s != "" && s[0] == '_' then DropFront(s[1..]) else s
  }

  function DropBack(s: string): (r: string)
    ensures |r| <= |s| && r == s[..|r|]
    ensures r == "" || r[|r| - 1] != '_'
  {
    if s != "" && s[|s| - 1] == '_' then DropBack(s[..|s| - 1]) else s
  }

  /** The key a label turns into before it is made unique. */
  function BaseKey(name: string): string {
    var key := DropBack(DropFront(Underscored(Lower(Trim(name)))));
    if key == "" then "object" else key
  }

  /** Lower-case letters, digits and single underscores. */
  predicate KeyText(key: string) {
    && (forall c :: c in key ==> IsKeyChar(c) || c == '_')
    && (forall i :: 0 <= i < |key| - 1 ==> key[i] != '_' || key[i + 1] != '_')
  }

  lemma PartOfKeyText(s: string, r: string, k: nat)
    requires KeyText(s) && k + |r| <= |s| && r == s[k..k + |r|]
    ensures KeyText(r)
  {
    assert forall i :: 0 <= i < |r| ==> r[i] == s[k + i];
  }

  lemma TrimmedKeyText(u: string)
    requires KeyText(u)
    ensures KeyText(DropBack(DropFront(u)))
    ensures DropBack(DropFront(u)) != "" ==> CleanEnds(DropBack(DropFront(u)))
  {
    TrimmedPart(u, DropFront(u), DropBack(DropFront(u)));
  }

  lemma TrimmedPart(u: string, f: string, key: string)
    requires KeyText(u) && |f| <= |u| && f == u[|u| - |f|..] && |key| <= |f| && key == f[..|key|]
    requires (f == "" || f[0] != '_') && (key == "" || key[|key| - 1] != '_')
    ensures KeyText(key) && (key != "" ==> CleanEnds(key))
  {
    PartOfKeyText(u, f, |u| - |f|);
    PartOfKeyText(f, key, 0);
  }

  /** Neither empty nor with an underscore at either end. */
  predicate CleanEnds(key: string) { key != "" && key[0] != '_' && key[|key| - 1] != '_' }

  lemma DefaultKey()
    ensures KeyText("object") && CleanEnds("object")
  {
  }

  lemma UnderscoredKeyText(s: string)
    ensures KeyText(Underscored(s))
  {
  }

  lemma BaseKeyWellShaped(name: string)
    ensures KeyText(BaseKey(name)) && CleanEnds(BaseKey(name))
  {
    DefaultKey();
    var u := Underscored(Lower(Trim(name)));
    assert KeyText(u) by { UnderscoredKeyText(Lower(Trim(name))); }
    TrimmedKeyText(u);
  }

  // ----- what a key keeps of the name -----

  /** Keys are made of small letters and digits, and underscores between them. */
  lemma KeyCharacters(c: char)
    ensures IsKeyChar(c) <==> (exists i :: 0 <= i < 26 && LETTERS[i] == c) || c in DIGITS
  {
    SmallLetter(c);
    if '0' <= c <= '9' { assert DIGITS[c as int - '0' as int] == c; }
  }

  /** The letters and digits of a text, in order. */
  function KeyChars(s: string): string {
    if s == "" then "" else (if IsKeyChar(s[0]) then [s[0]] else "") + KeyChars(s[1..])
  }

  lemma {:induction false} KeyCharsAppend(a: string, b: string)
    ensures KeyChars(a + b) == KeyChars(a) + KeyChars(b)
  {
    if a == "" {
      assert a + b == b;
    } else {
      var first := if IsKeyChar(a[0]) then [a[0]] else "";
      KeyCharsAppend(a[1..], b);
      assert KeyChars(a + b) == first + KeyChars(a[1..] + b) by { assert (a + b)[1..] == a[1..] + b; }
      InARow(first, KeyChars(a[1..]), KeyChars(b));
    }
  }

  lemma InARow(a: string, b: string, c: string)
    ensures a + (b + c) == (a + b) + c
  {
  }

  lemma {:induction false} UnderscoredKeeps(s: string)
    ensures KeyChars(Underscored(s)) == KeyChars(s)
  {
    if s != "" {
      var rest := Underscored(s[1..]);
      UnderscoredKeeps(s[1..]);
      assert ([s[0]] + rest)[1..] == rest && ("_" + rest)[1..] == rest;
    }
  }

  lemma {:induction false} DropFrontKeeps(s: string)
    ensures KeyChars(DropFront(s)) == KeyChars(s)
  {
    if s != "" && s[0] == '_' { DropFrontKeeps(s[1..]); }
  }

  lemma {:induction false} DropBackKeeps(s: string)
    ensures KeyChars(DropBack(s)) == KeyChars(s)
  {
    if s != "" && s[|s| - 1] == '_' {
      var n := |s| - 1;
      DropBackKeeps(s[..n]);
      KeyCharsAppend(s[..n], "_");
      assert s == s[..n] + "_" && KeyChars("_") == "";
    }
  }

  lemma LowerAppend(a: string, b: string)
    ensures Lower(a + b) == Lower(a) + Lower(b)
  {
  }

  lemma {:induction false} TrimStartKeeps(s: string)
    ensures KeyChars(Lower(TrimStart(s))) == KeyChars(Lower(s))
  {
    if s != "" && IsSpace(s[0]) { TrimStartKeeps(s[1..]); }
  }

  lemma {:induction false} TrimEndKeeps(s: string)
    ensures KeyChars(Lower(TrimEnd(s))) == KeyChars(Lower(s))
  {
    if s != "" && IsSpace(s[|s| - 1]) {
      TrimEndKeeps(s[..|s| - 1]);
      LastSpaceDropped(s);
    }
  }

  lemma LastSpaceDropped(s: string)
    requires s != "" && IsSpace(s[|s| - 1])
    ensures KeyChars(Lower(s)) == KeyChars(Lower(s[..|s| - 1]))
  {
    assert s == s[..|s| - 1] + [s[|s| - 1]];
    SpaceDropped(s[..|s| - 1], s[|s| - 1]);
  }

  lemma SpaceDropped(s: string, c: char)
    requires IsSpace(c)
    ensures KeyChars(Lower(s + [c])) == KeyChars(Lower(s))
  {
    LowerAppend(s, [c]);
    KeyCharsAppend(Lower(s), Lower([c]));
    NoKeyChar(Lower([c]));
    assert KeyChars(Lower(s)) + "" == KeyChars(Lower(s));
  }

  lemma NoKeyChar(s: string)
    requires |s| == 1 && !IsKeyChar(s[0])
    ensures KeyChars(s) == ""
  {
    assert s[1..] == "";
  }

  /** A key keeps every letter and digit of the name, in order and in lower case; a name without any
      is called object. */
  lemma BaseKeyKeeps(name: string)
    ensures KeyChars(Lower(name)) == "" ==> BaseKey(name) == "object"
    ensures KeyChars(Lower(name)) != "" ==> KeyChars(BaseKey(name)) == KeyChars(Lower(name))
  {
    var u := Underscored(Lower(Trim(name)));
    var key := DropBack(DropFront(u));
    TrimStartKeeps(name);
    TrimEndKeeps(TrimStart(name));
    UnderscoredKeeps(Lower(Trim(name)));
    DropFrontKeeps(u);
    DropBackKeeps(DropFront(u));
    if key != "" {
      UnderscoredKeyText(Lower(Trim(name)));
      TrimmedKeyText(u);
      SomeKeyChar(key);
    }
  }

  lemma SomeKeyChar(key: string)
    requires KeyText(key) && CleanEnds(key)
    ensures KeyChars(key) != ""
  {
    assert key[0] in key && IsKeyChar(key[0]);
  }

  lemma {:induction false} UnderscoredFixed(s: string)
    requires KeyText(s)
    ensures Underscored(s) == s
  {
    if s != "" {
      assert s == [s[0]] + s[1..];
      PartOfKeyText(s, s[1..], 1);
      UnderscoredFixed(s[1..]);
    }
  }

  lemma LowerFixed(s: string)
    requires forall i :: 0 <= i < |s| ==> LowerChar(s[i]) == s[i]
    ensures Lower(s) == s
  {
  }

  /** A name that is a key already is its own key. */
  lemma KeyIsItsKey(key: string)
    requires KeyText(key) && CleanEnds(key)
    ensures BaseKey(key) == key
  {
    assert Trim(key) == key by {
      assert key[0] in key && key[|key| - 1] in key;
      NothingToTrim(key);
    }
    assert Lower(key) == key by {
      forall i | 0 <= i < |key| ensures LowerChar(key[i]) == key[i] { assert key[i] in key; }
      LowerFixed(key);
    }
    UnderscoredFixed(key);
  }

  // ----- decimal suffixes -----

  function Digit(d: nat): char
    requires d < 10
  {
    "0123456789"[d]
  }

  function Decimal(n: nat): (r: string)
    ensures r != ""
  {
    if n < 10 then [Digit(n)] else Decimal(n / 10) + [Digit(n % 10)]
  }

  lemma DigitInjective(a: nat, b: nat)
    requires a < 10 && b < 10 && Digit(a) == Digit(b)
    ensures a == b
  {
  }

  /** Different numbers are written differently. */
  lemma {:induction false} DecimalInjective(a: nat, b: nat)
    requires Decimal(a) == Decimal(b)
    ensures a == b
  {
    var s := Decimal(a);
    if a < 10 && b < 10 {
      DigitInjective(a, b);
    } else if a >= 10 && b >= 10 {
      assert Decimal(a)[..|s| - 1] == Decimal(a / 10);
      assert Decimal(b)[..|s| - 1] == Decimal(b / 10);
      DecimalInjective(a / 10, b / 10);
      assert Decimal(a)[|s| - 1] == Digit(a % 10) && Decimal(b)[|s| - 1] == Digit(b % 10);
      DigitInjective(a % 10, b % 10);
    }
  }

  /** What a numeral stands for. */
  function Numeral(s: string): int {
    if s == "" then 0 else 10 * Numeral(s[..|s| - 1]) + (s[|s| - 1] as int - '0' as int)
  }

  /** A number is written in decimal digits that stand for it. */
  lemma {:induction false} DecimalReads(n: nat)
    ensures Numeral(Decimal(n)) == n && forall c :: c in Decimal(n) ==> '0' <= c <= '9'
  {
    if n >= 10 {
      DecimalReads(n / 10);
      assert Decimal(n)[..|Decimal(n)| - 1] == Decimal(n / 10);
    }
  }

  function Suffixed(base: string, n: nat): string { base + "_" + Decimal(n) }

  lemma SuffixesDiffer(base: string, a: nat, b: nat)
    requires Suffixed(base, a) == Suffixed(base, b)
    ensures a == b
  {
    var h := base + "_";
    assert Suffixed(base, a) == h + Decimal(a) && Suffixed(base, b) == h + Decimal(b);
    assert Decimal(a) == (h + Decimal(a))[|h|..] == (h + Decimal(b))[|h|..] == Decimal(b);
    DecimalInjective(a, b);
  }

  // ----- pigeonhole -----

  /** The candidate keys from suffix 2 up to, but not including, `n`. */
  function Tried(base: string, n: nat): set<string> {
    set k | 2 <= k < n :: Suffixed(base, k)
  }

  lemma {:induction false} TriedCount(base: string, n: nat)
    requires n >= 2
    ensures |Tried(base, n)| == n - 2
  {
    if n == 2 {
      assert Tried(base, n) == {};
    } else {
      TriedCount(base, n - 1);
      TriedGrows(base, n);
      NotTried(base, n - 1);
      OneMoreTried(Tried(base, n - 1), Tried(base, n), Suffixed(base, n - 1));
    }
  }

  lemma OneMoreTried(before: set<string>, after: set<string>, key: string)
    requires after == before + {key} && key !in before
    ensures |after| == |before| + 1
  {
  }

  lemma TriedGrows(base: string, n: nat)
    requires n > 2
    ensures Tried(base, n) == Tried(base, n - 1) + {Suffixed(base, n - 1)}
  {
  }

  lemma NotTried(base: string, n: nat)
    ensures Suffixed(base, n) !in Tried(base, n)
  {
    forall k | 2 <= k < n ensures Suffixed(base, k) != Suffixed(base, n) {
      if Suffixed(base, k) == Suffixed(base, n) { SuffixesDiffer(base, k, n); }
    }
  }

  /** Only as many suffixes can be taken as there are registered objects. */
  lemma TakenBound(keys: set<string>, base: string, n: nat)
    requires n >= 2 && base in keys && forall k: nat :: 2 <= k < n ==> Suffixed(base, k) in keys
    ensures n - 1 <= |keys|
  {
    TriedCount(base, n);
    var taken := Tried(base, n) + {base};
    assert base !in Tried(base, n) by {
      assert forall k :: 2 <= k < n ==> |Suffixed(base, k)| > |base|;
    }
    assert |taken| == n - 1;
    SubsetSize(taken, keys);
  }

  // ----- the registry -----

  /** The key a label is given: its base, or the base with the least free suffix. */
  ghost predicate IsLeastFree(keys: set<string>, base: string, key: string) {
    if base !in keys then key == base
    else exists n: nat :: n >= 2 && key == Suffixed(base, n) && forall k: nat :: 2 <= k < n ==> Suffixed(base, k) in keys
  }

  class Registry {
    var entries: map<string, Registration>

    constructor ()
      ensures entries == map[]
    {
      entries := map[];
    }

    method Register(r: Registration)
      modifies this
      ensures entries == old(entries)[r.canonicalObject := r]
    {
      entries := entries[r.canonicalObject := r];
    }

    method Configure(registrations: seq<Registration>)
      modifies this
      ensures entries == Configured(registrations)
    {
      entries := map[];
      for n := 0 to |registrations|
        invariant entries == Configured(registrations[..n])
      {
        assert registrations[..n + 1][..n] == registrations[..n];
        entries := entries[registrations[n].canonicalObject := registrations[n]];
      }
      assert registrations[..|registrations|] == registrations;
    }

    /** The suffix loop: it ends within as many probes as there are entries, at the least suffix
        that is free. */
    method FreeSuffix(base: string) returns (suffix: nat)
      requires base in entries
      ensures 2 <= suffix <= |entries.Keys| + 1
      ensures Suffixed(base, suffix) !in entries
      ensures forall k: nat :: 2 <= k < suffix ==> Suffixed(base, k) in entries
    {
      suffix := 2;
      TakenBound(entries.Keys, base, suffix);
      while Suffixed(base, suffix) in entries
        invariant 2 <= suffix <= |entries.Keys| + 1
        invariant forall k: nat :: 2 <= k < suffix ==> Suffixed(base, k) in entries
        decreases |entries.Keys| + 1 - suffix
      {
        suffix := suffix + 1;
        TakenBound(entries.Keys, base, suffix);
      }
    }

    /** `slugifyCanonicalObject`. */
    method Slugify(name: string) returns (key: string)
      ensures key !in entries && IsLeastFree(entries.Keys, BaseKey(name), key)
    {
      key := BaseKey(name);
      if key in entries {
        var suffix := FreeSuffix(key);
        key := Suffixed(key, suffix);
      }
    }

    /** Registering a label under the key it is given never overwrites an entry. */
    method RegisterNamed(name: string) returns (key: string)
      modifies this
      ensures key !in old(entries) && entries == old(entries)[key := Registration(key, name, None, None)]
    {
      key := Slugify(name);
      Register(Registration(key, name, None, None));
    }

    /** So any number of labels, equal ones included, end up registered side by side. */
    method RegisterAll(names: seq<string>) returns (keys: seq<string>)
      modifies this
      ensures |keys| == |names|
      ensures forall k :: k in old(entries) ==> k in entries && entries[k] == old(entries)[k]
      ensures forall i :: 0 <= i < |keys| ==> keys[i] !in old(entries) && keys[i] in entries && entries[keys[i]].title == names[i]
      ensures forall i, j :: 0 <= i < j < |keys| ==> keys[i] != keys[j]
    {
      keys := [];
      for n := 0 to |names|
        invariant |keys| == n
        invariant forall k :: k in old(entries) ==> k in entries && entries[k] == old(entries)[k]
        invariant forall i :: 0 <= i < n ==> keys[i] !in old(entries) && keys[i] in entries && entries[keys[i]].title == names[i]
        invariant forall i, j :: 0 <= i < j < n ==> keys[i] != keys[j]
      {
        var key := RegisterNamed(names[n]);
        keys := keys + [key];
      }
    }
  }

  /** The entries that a list of registrations leaves, later ones over earlier ones. */
  function Configured(registrations: seq<Registration>): map<string, Registration> {
    if registrations == [] then map[]
    else
      var last := registrations[|registrations| - 1];
      Configured(registrations[..|registrations| - 1])[last.canonicalObject := last]
  }

  /** No later registration in the list has the same key. */
  predicate LastFor(registrations: seq<Registration>, i: nat) {
    i < |registrations| && forall j :: i < j < |registrations| ==> registrations[j].canonicalObject != registrations[i].canonicalObject
  }

  /** The last registration of a key is the one that stands. */
  lemma {:induction false} LastStands(registrations: seq<Registration>, i: nat)
    requires LastFor(registrations, i)
    ensures registrations[i].canonicalObject in Configured(registrations)
    ensures Configured(registrations)[registrations[i].canonicalObject] == registrations[i]
  {
    var n := |registrations| - 1;
    if i < n {
      assert registrations[n].canonicalObject != registrations[i].canonicalObject;
      forall j | i < j < n ensures registrations[..n][j].canonicalObject != registrations[..n][i].canonicalObject {
        assert registrations[..n][j] == registrations[j];
      }
      LastStands(registrations[..n], i);
    }
  }

  /** And nothing else is registered. */
  lemma {:induction false} NothingElse(registrations: seq<Registration>, key: string)
    requires key in Configured(registrations)
    ensures exists i :: 0 <= i < |registrations| && registrations[i].canonicalObject == key
  {
    var n := |registrations| - 1;
    if registrations[n].canonicalObject != key {
      NothingElse(registrations[..n], key);
      var i :| 0 <= i < n && registrations[..n][i].canonicalObject == key;
      assert registrations[i].canonicalObject == key;
    }
  }
}

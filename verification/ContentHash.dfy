/** The content hash that drives echo suppression (src/core/idMap.ts), and exactly which
    contents its serialization tells apart. */
module ContentHash {
  import opened Canonical
  import opened JoinedText

  // ----- sorting the field names -----

  predicate LexLess(a: string, b: string) {
    b != "" && (a == "" || a[0] < b[0] || (a[0] == b[0] && LexLess(a[1..], b[1..])))
  }

  lemma LexTotal(a: string, b: string)
    ensures a == b || LexLess(a, b) || LexLess(b, a)
  {
    if a != "" && b != "" && a[0] == b[0] {
      LexTotal(a[1..], b[1..]);
      assert a == [a[0]] + a[1..] && b == [b[0]] + b[1..];
    }
  }

  lemma LexAsymmetric(a: string, b: string)
    ensures !(LexLess(a, b) && LexLess(b, a))
  {
  }

  lemma {:induction false} LexTransitive(a: string, b: string, c: string)
    requires LexLess(a, b) && LexLess(b, c)
    ensures LexLess(a, c)
  {
    if a != "" && a[0] == b[0] == c[0] {
      LexTransitive(a[1..], b[1..], c[1..]);
    }
  }

  predicate IsLeast(m: string, ks: set<string>) {
    m in ks && forall k :: k in ks ==> k == m || LexLess(m, k)
  }

  lemma {:induction false} LeastExists(ks: set<string>)
    requires ks != {}
    ensures exists m :: IsLeast(m, ks)
    decreases |ks|
  {
    var x :| x in ks;
    var rest := ks - {x};
    if rest == {} {
      assert ks == {x};
      assert IsLeast(x, ks);
    } else {
      LeastExists(rest);
      var m :| IsLeast(m, rest);
      LexTotal(m, x);
      if LexLess(m, x) {
        assert IsLeast(m, ks);
      } else {
        forall k | k in ks ensures k == x || LexLess(x, k) {
          if k != x && k != m { LexTransitive(x, m, k); }
        }
        assert IsLeast(x, ks);
      }
    }
  }

  function Least(ks: set<string>): (m: string)
    requires ks != {}
    ensures IsLeast(m, ks)
  {
    LeastExists(ks);
    assert forall a, b :: IsLeast(a, ks) && IsLeast(b, ks) ==> a == b by {
      forall a, b | IsLeast(a, ks) && IsLeast(b, ks) ensures a == b { LexAsymmetric(a, b); }
    }
    var m :| IsLeast(m, ks);
    m
  }

  function SortedKeys(ks: set<string>): (r: seq<string>)
    ensures forall k :: k in r <==> k in ks
    ensures forall i, j :: 0 <= i < j < |r| ==> LexLess(r[i], r[j])
    decreases |ks|
  {
    if ks == {} then [] else [Least(ks)] + SortedKeys(ks - {Least(ks)})
  }

  // ----- serialization -----

  /** The text of the values along a key sequence. */
  function Texts(host: Host, f: Fields, ks: seq<string>): (r: seq<string>)
    requires forall k :: k in ks ==> k in f
    ensures |r| == |ks| && forall i :: 0 <= i < |ks| ==> r[i] == Text(host, f[ks[i]])
  {
    seq(|ks|, i requires 0 <= i < |ks| => Text(host, f[ks[i]]))
  }

  function Serialize(host: Host, f: Fields): string {
    var ks := SortedKeys(f.Keys);
    Encode('=', ks, Texts(host, f, ks))
  }

  function Hash(host: Host, f: Fields): string {
    host.sha(Serialize(host, f))
  }

  // ----- which contents the serialization tells apart -----

  /** The digest text determines the values exactly when they are separable. */
  lemma SerializationExact(ks: seq<string>, vs: seq<string>)
    requires |ks| == |vs| && PlainNames('=', ks)
    ensures Separable('=', ks, vs) <==>
            forall us: seq<string> :: |us| == |ks| && Encode('=', ks, us) == Encode('=', ks, vs) ==> us == vs
  {
    JoinExact('=', ks, vs);
  }

  // ----- what equal hashes mean -----

  /** The digest sees texts alone: null passes for the empty text, and numbers and booleans for theirs. */
  lemma OnlyTextsCount(host: Host, f: Fields, c: string, n: real)
    ensures Hash(host, f[c := Null]) == Hash(host, f[c := Str("")])
    ensures Hash(host, f[c := Num(n)]) == Hash(host, f[c := Str(host.numText(n))])
    ensures Hash(host, f[c := Bool(true)]) == Hash(host, f[c := Str("true")])
    ensures Hash(host, f[c := Bool(false)]) == Hash(host, f[c := Str("false")])
  {
    SameText(host, f, c, Null, Str(""));
    SameText(host, f, c, Num(n), Str(host.numText(n)));
    SameText(host, f, c, Bool(true), Str("true"));
    SameText(host, f, c, Bool(false), Str("false"));
  }

  lemma SameText(host: Host, f: Fields, c: string, v: FieldValue, u: FieldValue)
    requires Text(host, v) == Text(host, u)
    ensures Hash(host, f[c := v]) == Hash(host, f[c := u])
  {
    assert Normal(host, f[c := v]) == Normal(host, f[c := u]);
    HashOfNormal(host, f[c := v], f[c := u]);
  }

  /** The digest does not collide on the serializations of the two field maps. */
  ghost predicate CollisionFree(host: Host, f: Fields, g: Fields) {
    Hash(host, f) == Hash(host, g) ==> Serialize(host, f) == Serialize(host, g)
  }

  ghost predicate Unambiguous(host: Host, f: Fields) {
    var ks := SortedKeys(f.Keys);
    PlainNames('=', ks) && Separable('=', ks, Texts(host, f, ks))
  }

  /** Field maps over the same fields with equal hashes have the same text in every field, when
      one of them is unambiguous. */
  lemma EqualHashes(host: Host, f: Fields, g: Fields)
    requires f.Keys == g.Keys && Hash(host, f) == Hash(host, g)
    requires CollisionFree(host, f, g) && Unambiguous(host, f)
    ensures Normal(host, f) == Normal(host, g)
  {
    var ks := SortedKeys(f.Keys);
    SerializationExact(ks, Texts(host, f, ks));
    assert Texts(host, g, ks) == Texts(host, f, ks);
    forall c | c in f ensures Text(host, f[c]) == Text(host, g[c]) {
      var i :| 0 <= i < |ks| && ks[i] == c;
      assert Texts(host, f, ks)[i] == Texts(host, g, ks)[i];
    }
  }

  /** And the hash sees nothing but the text of the fields. */
  lemma HashOfNormal(host: Host, f: Fields, g: Fields)
    requires Normal(host, f) == Normal(host, g)
    ensures Hash(host, f) == Hash(host, g)
  {
    assert f.Keys == Normal(host, f).Keys == g.Keys;
    var ks := SortedKeys(f.Keys);
    forall i | 0 <= i < |ks| ensures Texts(host, f, ks)[i] == Texts(host, g, ks)[i] {
      assert ks[i] in f;
      assert Normal(host, f)[ks[i]] == Normal(host, g)[ks[i]];
    }
    assert Texts(host, f, ks) == Texts(host, g, ks);
  }

  /** A real edit that no digest, however strong, can notice: text moves from one field to the
      next across a separator. */
  lemma MissedEdit(host: Host)
    ensures var f := map["a" := Str("1|b=2"), "b" := Str("3")];
            var g := map["a" := Str("1"), "b" := Str("2|b=3")];
            Hash(host, f) == Hash(host, g) && Normal(host, f) != Normal(host, g)
  {
    var f: Fields := map["a" := Str("1|b=2"), "b" := Str("3")];
    var g: Fields := map["a" := Str("1"), "b" := Str("2|b=3")];
    SortedPair();
    assert f.Keys == {"a", "b"} == g.Keys;
    assert Texts(host, f, ["a", "b"]) == ["1|b=2", "3"] && Texts(host, g, ["a", "b"]) == ["1", "2|b=3"];
    EncodePair("1|b=2", "3");
    EncodePair("1", "2|b=3");
    assert "a=" + "1|b=2" + "|b=" + "3" == "a=" + "1" + "|b=" + "2|b=3";
    assert f["a"] == Str("1|b=2") && g["a"] == Str("1");
    assert Normal(host, f)["a"] == "1|b=2" && Normal(host, g)["a"] == "1";
  }

  lemma SortedPair()
    ensures SortedKeys({"a", "b"}) == ["a", "b"]
  {
    var ks := {"a", "b"};
    assert IsLeast("a", ks);
    LexAsymmetric(Least(ks), "a");
    assert ks - {"a"} == {"b"};
    assert {"b"} - {"b"} == {};
    assert SortedKeys({"b"}) == ["b"] + SortedKeys({"b"} - {"b"});
  }

  lemma EncodePair(x: string, y: string)
    ensures Encode('=', ["a", "b"], [x, y]) == "a=" + x + "|b=" + y
  {
    var ks, vs := ["a", "b"], [x, y];
    assert ks[1..] == ["b"] && vs[1..] == [y];
    assert Encode('=', ["b"], [y]) == "b=" + y;
    assert Encode('=', ks, vs) == "a" + "=" + x + "|" + ("b=" + y);
  }
}

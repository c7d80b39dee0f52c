/** Key-value texts joined with bars, the way both the content digest and the natural key write
    them: when the text determines the values. */
module JoinedText {

  /** A key, the mark and a value, for every key, joined with bars. */
  function Encode(mark: char, ks: seq<string>, vs: seq<string>): string
    requires |ks| == |vs|
  {
    if ks == [] then ""
    else if |ks| == 1 then ks[0] + [mark] + vs[0]
    else ks[0] + [mark] + vs[0] + "|" + Encode(mark, ks[1..], vs[1..])
  }

  predicate At(s: string, t: string, p: nat) {
    p + |t| <= |s| && s[p..p + |t|] == t
  }

  ghost predicate Contains(s: string, t: string) {
    exists p: nat :: At(s, t, p)
  }

  /** What separates the value before key `i` from the value of key `i`. */
  function Separator(mark: char, k: string): string { "|" + k + [mark] }

  /** No name uses the two reserved characters, and names differ. */
  ghost predicate PlainNames(mark: char, ks: seq<string>) {
    && mark != '|'
    && (forall i :: 0 <= i < |ks| ==> '|' !in ks[i] && mark !in ks[i])
    && (forall i, j :: 0 <= i < j < |ks| ==> ks[i] != ks[j])
  }

  /** No value contains the separator before it or the one after it. */
  ghost predicate Separable(mark: char, ks: seq<string>, vs: seq<string>)
    requires |ks| == |vs|
  {
    forall i :: 0 <= i < |ks| ==>
      && (i > 0 ==> !Contains(vs[i], Separator(mark, ks[i])))
      && (i + 1 < |ks| ==> !Contains(vs[i], Separator(mark, ks[i + 1])))
  }

  /** The serialization from the value of key `i` on. */
  function From(mark: char, ks: seq<string>, vs: seq<string>, i: nat): string
    requires |ks| == |vs| && i < |ks|
    decreases |ks| - i
  {
    if i + 1 == |ks| then vs[i] else vs[i] + Separator(mark, ks[i + 1]) + From(mark, ks, vs, i + 1)
  }

  lemma {:induction false} FromDrop(mark: char, ks: seq<string>, vs: seq<string>, i: nat)
    requires |ks| == |vs| && 0 < i < |ks|
    ensures From(mark, ks, vs, i) == From(mark, ks[1..], vs[1..], i - 1)
    decreases |ks| - i
  {
    if i + 1 < |ks| { FromDrop(mark, ks, vs, i + 1); }
  }

  lemma {:induction false} EncodeIsFrom(mark: char, ks: seq<string>, vs: seq<string>)
    requires |ks| == |vs| && ks != []
    ensures Encode(mark, ks, vs) == ks[0] + [mark] + From(mark, ks, vs, 0)
  {
    if |ks| > 1 {
      EncodeIsFrom(mark, ks[1..], vs[1..]);
      FromDrop(mark, ks, vs, 1);
      calc {
        Encode(mark, ks, vs);
        ks[0] + [mark] + vs[0] + "|" + (ks[1] + [mark] + From(mark, ks, vs, 1));
        ks[0] + [mark] + (vs[0] + Separator(mark, ks[1]) + From(mark, ks, vs, 1));
      }
    }
  }

  /** Inside a separator there is no second bar. */
  lemma OneBar(mark: char, s: string, k: string, p: nat, q: nat)
    requires mark != '|' && '|' !in k && At(s, Separator(mark, k), p) && p < q < p + |Separator(mark, k)|
    ensures s[q] != '|'
  {
    var sep := Separator(mark, k);
    assert s[q] == s[p..p + |sep|][q - p] == sep[q - p];
    assert q - p <= |k| ==> sep[q - p] == k[q - p - 1];
  }

  /** Two separators that both stand in one text do not overlap unless they start together. */
  lemma NoOverlap(mark: char, s: string, k: string, p: nat, k': string, p': nat)
    requires mark != '|' && '|' !in k && At(s, Separator(mark, k), p) && At(s, Separator(mark, k'), p') && p < p'
    ensures p + |Separator(mark, k)| <= p'
  {
    assert s[p'] == s[p'..p' + |Separator(mark, k')|][0] == '|';
    if p' < p + |Separator(mark, k)| {
      OneBar(mark, s, k, p, p');
    }
  }

  lemma SeparatorText(mark: char, s: string, k: string, p: nat)
    requires At(s, Separator(mark, k), p) && mark !in k
    ensures forall q :: p < q <= p + |k| ==> s[q] != mark
    ensures forall d {:trigger k[d]} :: 0 <= d < |k| ==> s[p + 1 + d] == k[d]
    ensures s[p + 1 + |k|] == mark
  {
    var sep := Separator(mark, k);
    assert s[p + 1 + |k|] == s[p..p + |sep|][1 + |k|];
    forall d | 0 <= d < |k| ensures s[p + 1 + d] == k[d] {
      assert s[p + 1 + d] == s[p..p + |sep|][1 + d] == sep[1 + d];
    }
    forall q | p < q <= p + |k| ensures s[q] != mark {
      assert s[q] == k[q - p - 1];
    }
  }

  /** Two separators that start at the same place are the same one. */
  lemma SameSeparator(mark: char, s: string, k: string, k': string, p: nat)
    requires mark !in k && mark !in k' && At(s, Separator(mark, k), p) && At(s, Separator(mark, k'), p)
    ensures k == k'
  {
    SeparatorText(mark, s, k, p);
    SeparatorText(mark, s, k', p);
    assert forall d :: 0 <= d < |k| && d < |k'| ==> k[d] == k'[d];
  }

  lemma ContainsPrefix(e: string, v: string, sep: string, p: nat)
    requires v <= e && At(e, sep, p) && p + |sep| <= |v|
    ensures Contains(v, sep)
  {
    assert At(v, sep, p);
  }

  /** A misplaced separator `j` inside the text from value `j` on means the values are not
      separable. */
  lemma {:induction false} Misplaced(mark: char, ks: seq<string>, vs: seq<string>, us: seq<string>, j: nat, x: string)
    requires |ks| == |vs| == |us| && PlainNames(mark, ks) && 0 < j < |ks|
    requires From(mark, ks, vs, j) == x + Separator(mark, ks[j]) + From(mark, ks, us, j)
    ensures !Separable(mark, ks, vs)
    decreases |ks| - j, 1
  {
    var e, sep := From(mark, ks, vs, j), Separator(mark, ks[j]);
    assert At(e, sep, |x|) && vs[j] == e[..|vs[j]|];
    if |x| + |sep| <= |vs[j]| {
      ContainsPrefix(e, vs[j], sep, |x|);
    } else {
      NextSeparator(mark, ks, vs, j);
      if |x| < |vs[j]| {
        NoOverlap(mark, e, ks[j], |x|, ks[j + 1], |vs[j]|);
      } else if |x| == |vs[j]| {
        SameSeparator(mark, e, ks[j], ks[j + 1], |x|);
      } else {
        MisplacedLater(mark, ks, vs, us, j, x);
      }
    }
  }

  /** The next separator stands right after the value. */
  lemma NextSeparator(mark: char, ks: seq<string>, vs: seq<string>, j: nat)
    requires |ks| == |vs| && j + 1 < |ks|
    ensures At(From(mark, ks, vs, j), Separator(mark, ks[j + 1]), |vs[j]|)
    ensures From(mark, ks, vs, j)[|vs[j]| + |Separator(mark, ks[j + 1])|..] == From(mark, ks, vs, j + 1)
  {
    assert From(mark, ks, vs, j) == vs[j] + Separator(mark, ks[j + 1]) + From(mark, ks, vs, j + 1);
  }

  lemma {:induction false} MisplacedLater(mark: char, ks: seq<string>, vs: seq<string>, us: seq<string>, j: nat, x: string)
    requires |ks| == |vs| == |us| && PlainNames(mark, ks) && 0 < j && j + 1 < |ks| && |x| > |vs[j]|
    requires From(mark, ks, vs, j) == x + Separator(mark, ks[j]) + From(mark, ks, us, j)
    ensures !Separable(mark, ks, vs)
    decreases |ks| - j, 0
  {
    var e, sep, next := From(mark, ks, vs, j), Separator(mark, ks[j]), Separator(mark, ks[j + 1]);
    assert At(e, sep, |x|);
    NextSeparator(mark, ks, vs, j);
    NoOverlap(mark, e, ks[j + 1], |vs[j]|, ks[j], |x|);
    var cut := |vs[j]| + |next|;
    TailText(x, sep, us[j], next, From(mark, ks, us, j + 1), cut);
    Misplaced(mark, ks, vs, us, j + 1, x[cut..] + sep + us[j]);
  }

  lemma TailText(x: string, sep: string, u: string, next: string, rest: string, cut: nat)
    requires cut <= |x|
    ensures (x + sep + (u + next + rest))[cut..] == (x[cut..] + sep + u) + next + rest
  {
  }

  /** One decoding step: separable values fix the length of the next value. */
  lemma {:induction false} SameCut(mark: char, ks: seq<string>, vs: seq<string>, us: seq<string>, i: nat)
    requires |ks| == |vs| == |us| && PlainNames(mark, ks) && Separable(mark, ks, vs) && i + 1 < |ks|
    requires From(mark, ks, vs, i) == From(mark, ks, us, i)
    ensures us[i] == vs[i] && From(mark, ks, vs, i + 1) == From(mark, ks, us, i + 1)
  {
    var e := From(mark, ks, vs, i);
    var sep := Separator(mark, ks[i + 1]);
    assert e == vs[i] + sep + From(mark, ks, vs, i + 1) && e == us[i] + sep + From(mark, ks, us, i + 1);
    assert At(e, sep, |vs[i]|) && At(e, sep, |us[i]|);
    assert us[i] == e[..|us[i]|] && vs[i] == e[..|vs[i]|];
    if |us[i]| < |vs[i]| {
      NoOverlap(mark, e, ks[i + 1], |us[i]|, ks[i + 1], |vs[i]|);
      ContainsPrefix(e, vs[i], sep, |us[i]|);
    } else if |vs[i]| < |us[i]| {
      NoOverlap(mark, e, ks[i + 1], |vs[i]|, ks[i + 1], |us[i]|);
      var x := e[|vs[i]| + |sep|..|us[i]|];
      assert From(mark, ks, vs, i + 1) == e[|vs[i]| + |sep|..] == x + sep + From(mark, ks, us, i + 1);
      Misplaced(mark, ks, vs, us, i + 1, x);
    } else {
      assert From(mark, ks, vs, i + 1) == e[|vs[i]| + |sep|..] == From(mark, ks, us, i + 1);
    }
  }

  lemma {:induction false} DecodesUniquely(mark: char, ks: seq<string>, vs: seq<string>, us: seq<string>, i: nat)
    requires |ks| == |vs| == |us| && PlainNames(mark, ks) && Separable(mark, ks, vs) && i < |ks|
    requires From(mark, ks, vs, i) == From(mark, ks, us, i)
    ensures us[i..] == vs[i..]
    decreases |ks| - i
  {
    if i + 1 < |ks| {
      SameCut(mark, ks, vs, us, i);
      DecodesUniquely(mark, ks, vs, us, i + 1);
      assert us[i..] == [us[i]] + us[i + 1..] && vs[i..] == [vs[i]] + vs[i + 1..];
    }
  }

  /** Cutting the text of two neighbouring values at a different separator leaves the whole
      serialization unchanged. */
  lemma {:induction false} Recut(mark: char, ks: seq<string>, vs: seq<string>, us: seq<string>, i: nat, j: nat)
    requires |ks| == |vs| == |us| && j <= i && i + 1 < |ks|
    requires forall m :: 0 <= m < |ks| && m != i && m != i + 1 ==> us[m] == vs[m]
    requires us[i] + Separator(mark, ks[i + 1]) + us[i + 1] == vs[i] + Separator(mark, ks[i + 1]) + vs[i + 1]
    ensures From(mark, ks, us, j) == From(mark, ks, vs, j)
    decreases i - j
  {
    if j < i {
      Recut(mark, ks, vs, us, i, j + 1);
    } else {
      var sep := Separator(mark, ks[i + 1]);
      if i + 2 == |ks| {
      } else {
        SameTail(mark, ks, vs, us, i + 2);
        var tail := Separator(mark, ks[i + 2]) + From(mark, ks, vs, i + 2);
        assert From(mark, ks, vs, i) == (vs[i] + sep + vs[i + 1]) + tail;
        assert From(mark, ks, us, i) == (us[i] + sep + us[i + 1]) + tail;
      }
    }
  }

  lemma {:induction false} SameTail(mark: char, ks: seq<string>, vs: seq<string>, us: seq<string>, i: nat)
    requires |ks| == |vs| == |us| && i < |ks|
    requires forall m :: i <= m < |ks| ==> us[m] == vs[m]
    ensures From(mark, ks, us, i) == From(mark, ks, vs, i)
    decreases |ks| - i
  {
    if i + 1 < |ks| { SameTail(mark, ks, vs, us, i + 1); }
  }

  /** Values that are not separable have a different list of values with the same
      serialization. */
  lemma Ambiguous(mark: char, ks: seq<string>, vs: seq<string>) returns (us: seq<string>)
    requires |ks| == |vs| && !Separable(mark, ks, vs)
    ensures |us| == |vs| && us != vs && Encode(mark, ks, us) == Encode(mark, ks, vs)
  {
    var i :| 0 <= i < |ks| && ((i > 0 && Contains(vs[i], Separator(mark, ks[i])))
                            || (i + 1 < |ks| && Contains(vs[i], Separator(mark, ks[i + 1]))));
    if i + 1 < |ks| && Contains(vs[i], Separator(mark, ks[i + 1])) {
      var p: nat :| At(vs[i], Separator(mark, ks[i + 1]), p);
      us := CutHere(mark, ks, vs, i, p);
    } else {
      var p: nat :| At(vs[i], Separator(mark, ks[i]), p);
      us := CutBefore(mark, ks, vs, i, p);
    }
  }

  /** The text around a separator that a value contains. */
  lemma AroundSeparator(v: string, sep: string, p: nat)
    requires At(v, sep, p)
    ensures v == v[..p] + sep + v[p + |sep|..]
  {
  }

  /** A value that contains the separator after it can be cut there. */
  lemma CutHere(mark: char, ks: seq<string>, vs: seq<string>, i: nat, p: nat) returns (us: seq<string>)
    requires |ks| == |vs| && i + 1 < |ks| && At(vs[i], Separator(mark, ks[i + 1]), p)
    ensures |us| == |vs| && us != vs && Encode(mark, ks, us) == Encode(mark, ks, vs)
  {
    var sep := Separator(mark, ks[i + 1]);
    var a, b := vs[i][..p], vs[i][p + |sep|..];
    AroundSeparator(vs[i], sep, p);
    us := vs[i := a][i + 1 := b + sep + vs[i + 1]];
    assert a + sep + (b + sep + vs[i + 1]) == (a + sep + b) + sep + vs[i + 1];
    assert |us[i]| < |vs[i]|;
    SameEncoding(mark, ks, vs, us, i);
  }

  /** And one that contains the separator before it, there. */
  lemma CutBefore(mark: char, ks: seq<string>, vs: seq<string>, i: nat, p: nat) returns (us: seq<string>)
    requires |ks| == |vs| && 0 < i < |ks| && At(vs[i], Separator(mark, ks[i]), p)
    ensures |us| == |vs| && us != vs && Encode(mark, ks, us) == Encode(mark, ks, vs)
  {
    var sep := Separator(mark, ks[i]);
    var a, b := vs[i][..p], vs[i][p + |sep|..];
    AroundSeparator(vs[i], sep, p);
    us := vs[i - 1 := vs[i - 1] + sep + a][i := b];
    assert (vs[i - 1] + sep + a) + sep + b == vs[i - 1] + sep + (a + sep + b);
    assert |us[i]| < |vs[i]|;
    SameEncoding(mark, ks, vs, us, i - 1);
  }

  lemma SameEncoding(mark: char, ks: seq<string>, vs: seq<string>, us: seq<string>, i: nat)
    requires |ks| == |vs| == |us| && i + 1 < |ks|
    requires forall m :: 0 <= m < |ks| && m != i && m != i + 1 ==> us[m] == vs[m]
    requires us[i] + Separator(mark, ks[i + 1]) + us[i + 1] == vs[i] + Separator(mark, ks[i + 1]) + vs[i + 1]
    ensures Encode(mark, ks, us) == Encode(mark, ks, vs)
  {
    Recut(mark, ks, vs, us, i, 0);
    EncodeIsFrom(mark, ks, us);
    EncodeIsFrom(mark, ks, vs);
  }

  /** The serialization determines the values exactly when they are separable. */
  lemma JoinExact(mark: char, ks: seq<string>, vs: seq<string>)
    requires |ks| == |vs| && PlainNames(mark, ks)
    ensures Separable(mark, ks, vs) <==>
            forall us: seq<string> :: |us| == |ks| && Encode(mark, ks, us) == Encode(mark, ks, vs) ==> us == vs
  {
    if Separable(mark, ks, vs) {
      forall us: seq<string> | |us| == |ks| && Encode(mark, ks, us) == Encode(mark, ks, vs) ensures us == vs {
        if ks != [] {
          EncodeIsFrom(mark, ks, us);
          EncodeIsFrom(mark, ks, vs);
          var h := ks[0] + [mark];
          assert From(mark, ks, us, 0) == Encode(mark, ks, us)[|h|..] && From(mark, ks, vs, 0) == Encode(mark, ks, vs)[|h|..];
          DecodesUniquely(mark, ks, vs, us, 0);
          assert us == us[0..] && vs == vs[0..];
        }
      }
    } else {
      var us := Ambiguous(mark, ks, vs);
    }
  }

  // ----- how long a joined text is -----

  function TotalLength(vs: seq<string>): nat {
    if vs == [] then 0 else |vs[0]| + TotalLength(vs[1..])
  }

  /** Over the same keys, only the lengths of the values tell the lengths of two texts apart. */
  lemma {:induction false} EncodeLength(mark: char, ks: seq<string>, vs: seq<string>, us: seq<string>)
    requires |ks| == |vs| == |us|
    ensures |Encode(mark, ks, vs)| + TotalLength(us) == |Encode(mark, ks, us)| + TotalLength(vs)
  {
    if |ks| == 1 {
      assert vs[1..] == [] && us[1..] == [];
    } else if ks != [] {
      EncodeLength(mark, ks[1..], vs[1..], us[1..]);
    }
  }

  lemma {:induction false} LongerTotal(us: seq<string>, vs: seq<string>, k: nat)
    requires |us| == |vs| && k < |us| && |us[k]| < |vs[k]|
    requires forall i :: 0 <= i < |us| ==> |us[i]| <= |vs[i]|
    ensures TotalLength(us) < TotalLength(vs)
  {
    if k == 0 {
      NoShorterTotal(us[1..], vs[1..]);
    } else {
      LongerTotal(us[1..], vs[1..], k - 1);
    }
  }

  lemma {:induction false} NoShorterTotal(us: seq<string>, vs: seq<string>)
    requires |us| == |vs| && forall i :: 0 <= i < |us| ==> |us[i]| <= |vs[i]|
    ensures TotalLength(us) <= TotalLength(vs)
  {
    if us != [] { NoShorterTotal(us[1..], vs[1..]); }
  }

  /** Two lists of values with one text that agree before place `i` agree there, unless the two
      values differ in length. */
  lemma {:induction false} FirstDifference(mark: char, ks: seq<string>, vs: seq<string>, us: seq<string>, i: nat)
    requires |ks| == |vs| == |us| && i < |ks| && Encode(mark, ks, vs) == Encode(mark, ks, us)
    requires vs[..i] == us[..i] && |vs[i]| == |us[i]|
    ensures vs[i] == us[i]
  {
    var h := ks[0] + [mark];
    if i == 0 {
      assert h + vs[0] <= Encode(mark, ks, vs) && h + us[0] <= Encode(mark, ks, us);
      assert vs[0] == Encode(mark, ks, vs)[|h|..|h| + |vs[0]|] == us[0];
    } else {
      assert vs[0] == vs[..i][0] == us[..i][0] == us[0];
      var p := h + vs[0] + "|";
      assert Encode(mark, ks, vs) == p + Encode(mark, ks[1..], vs[1..]);
      assert Encode(mark, ks, us) == p + Encode(mark, ks[1..], us[1..]);
      assert Encode(mark, ks[1..], vs[1..]) == Encode(mark, ks, vs)[|p|..] == Encode(mark, ks[1..], us[1..]);
      assert vs[1..][..i - 1] == vs[..i][1..] && us[1..][..i - 1] == us[..i][1..];
      FirstDifference(mark, ks[1..], vs[1..], us[1..], i - 1);
    }
  }
}

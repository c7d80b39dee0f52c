/** The string operations the mapping layer and the natural-key normalizer rely on. */
module Strings {

  /** ASCII lower-casing of one character; other characters are left alone. */
  function LowerChar(c: char): char {
    if 'A' <= c <= 'Z' then ((c as int) + 32) as char else c
  }

  function Lower(s: string): (r: string)
    ensures |r| == |s|
    ensures forall i :: 0 <= i < |s| ==> r[i] == LowerChar(s[i])
  {
    if s == "" then "" else [LowerChar(s[0])] + Lower(s[1..])
  }

  /** The characters that JavaScript's trim removes. */
  predicate IsSpace(c: char) {
    || '\t' <= c <= '\r' || c == ' ' || c == '\U{A0}' || c == '\U{1680}' || '\U{2000}' <= c <= '\U{200A}'
    || c == '\U{2028}' || c == '\U{2029}' || c == '\U{202F}' || c == '\U{205F}' || c == '\U{3000}' || c == '\U{FEFF}'
  }

  function TrimStart(s: string): (r: string)
    ensures r == "" || !IsSpace(r[0])
    ensures |r| <= |s| && r == s[|s| - |r|..]
  {
    if s != "" && IsSpace(s[0]) then TrimStart(s[1..]) else s
  }

  function TrimEnd(s: string): (r: string)
    ensures r == "" || !IsSpace(r[|r| - 1])
    ensures |r| <= |s| && r == s[..|r|]
  {
    if s != "" && IsSpace(s[|s| - 1]) then TrimEnd(s[..|s| - 1]) else s
  }

  function Trim(s: string): string { TrimEnd(TrimStart(s)) }

  predicate IsPhoneChar(c: char) { '0' <= c <= '9' || c == '+' }

  /** Removes every character that is neither a digit nor a plus sign. */
  function PhoneChars(s: string): (r: string)
    ensures forall c :: c in r ==> c in s && IsPhoneChar(c)
  {
    if s == "" then "" else (if IsPhoneChar(s[0]) then [s[0]] else "") + PhoneChars(s[1..])
  }

  /** What is kept of a phone number, and of a text whose case does not matter. */
  function PhoneText(s: string): string { PhoneChars(Trim(s)) }

  function PlainText(s: string): string { Lower(Trim(s)) }

  lemma {:induction false} PhoneCharsAppend(a: string, b: string)
    ensures PhoneChars(a + b) == PhoneChars(a) + PhoneChars(b)
  {
    if a == "" {
      assert a + b == b;
    } else {
      PhoneCharsAppend(a[1..], b);
      FirstPhoneChar(a, b);
      TextsInARow(if IsPhoneChar(a[0]) then [a[0]] else "", PhoneChars(a[1..]), PhoneChars(b));
    }
  }

  lemma FirstPhoneChar(a: string, b: string)
    requires a != ""
    ensures PhoneChars(a + b) == (if IsPhoneChar(a[0]) then [a[0]] else "") + PhoneChars(a[1..] + b)
  {
    assert (a + b)[1..] == a[1..] + b;
  }

  lemma TextsInARow(a: string, b: string, c: string)
    ensures a + (b + c) == (a + b) + c
  {
  }

  /** Dropping a character that is neither a digit nor a plus sign makes no difference. */
  lemma PhoneCharsWithout(a: string, c: char, b: string)
    requires !IsPhoneChar(c)
    ensures PhoneChars(a + [c] + b) == PhoneChars(a + b)
  {
    PhoneCharsAppend(a + [c], b);
    PhoneCharsAppend(a, [c]);
    PhoneCharsAppend(a, b);
    assert [c][1..] == "";
    assert PhoneChars(a) + "" == PhoneChars(a);
  }

  lemma {:induction false} PhoneCharsTrimStart(s: string)
    ensures PhoneChars(TrimStart(s)) == PhoneChars(s)
  {
    if s != "" && IsSpace(s[0]) {
      PhoneCharsTrimStart(s[1..]);
      FirstSpaceDropped(s);
    }
  }

  lemma FirstSpaceDropped(s: string)
    requires s != "" && IsSpace(s[0])
    ensures PhoneChars(s) == PhoneChars(s[1..])
  {
    assert "" + PhoneChars(s[1..]) == PhoneChars(s[1..]);
  }

  lemma {:induction false} PhoneCharsTrimEnd(s: string)
    ensures PhoneChars(TrimEnd(s)) == PhoneChars(s)
  {
    if s != "" && IsSpace(s[|s| - 1]) {
      var n := |s| - 1;
      PhoneCharsTrimEnd(s[..n]);
      PhoneCharsWithout(s[..n], s[n], "");
      assert s == s[..n] + [s[n]] + "" && s[..n] + "" == s[..n];
    }
  }

  lemma PhoneCharsTrimmed(s: string)
    ensures PhoneChars(Trim(s)) == PhoneChars(s)
  {
    PhoneCharsTrimStart(s);
    PhoneCharsTrimEnd(TrimStart(s));
  }

  const CAPITALS := "ABCDEFGHIJKLMNOPQRSTUVWXYZ"
  const LETTERS := "abcdefghijklmnopqrstuvwxyz"
  const DIGITS := "0123456789"

  /** The i-th capital becomes the i-th small letter. */
  lemma CapitalsFold(i: nat)
    requires i < 26
    ensures LowerChar(CAPITALS[i]) == LETTERS[i]
  {
  }

  /** And no other character changes. */
  lemma OthersStay(c: char)
    requires LowerChar(c) != c
    ensures exists i :: 0 <= i < 26 && CAPITALS[i] == c
  {
    assert CAPITALS[c as int - 'A' as int] == c;
  }

  lemma SmallLetter(c: char)
    ensures 'a' <= c <= 'z' <==> exists i :: 0 <= i < 26 && LETTERS[i] == c
  {
    if 'a' <= c <= 'z' { assert LETTERS[c as int - 'a' as int] == c; }
  }

  /** Phone numbers are made of digits and plus signs. */
  lemma PhoneCharacters(c: char)
    ensures IsPhoneChar(c) <==> c in DIGITS || c == '+'
  {
    if '0' <= c <= '9' { assert DIGITS[c as int - '0' as int] == c; }
  }

  /** What `trim` takes off besides the space: line ends, tabs and the Unicode spaces. */
  lemma SpacesAreBlank()
    ensures Blank(" \t\n\r\U{B}\U{C}\U{A0}\U{1680}\U{2000}\U{200A}\U{2028}\U{2029}\U{202F}\U{205F}\U{3000}\U{FEFF}")
    ensures forall i :: 0 <= i < 26 ==> !IsSpace(LETTERS[i])
  {
  }

  /** The text is the given lower-case word, in whatever case. */
  predicate Says(s: string, word: string) { |s| == |word| && forall i :: 0 <= i < |s| ==> LowerChar(s[i]) == word[i] }

  lemma SaysExactly(s: string, word: string)
    ensures Lower(s) == word <==> Says(s, word)
  {
  }

  lemma LowerIdempotent(s: string)
    ensures Lower(Lower(s)) == Lower(s)
  {
    var r := Lower(s);
    assert forall i :: 0 <= i < |r| ==> Lower(r)[i] == LowerChar(LowerChar(s[i])) == r[i];
  }

  lemma TrimIdempotent(s: string)
    ensures Trim(Trim(s)) == Trim(s)
  {
    var a := TrimStart(s);
    var t := TrimEnd(a);
    if t != "" {
      assert t[0] == a[0];
      assert TrimStart(t) == t;
    }
  }

  lemma LowerKeepsSpaces(c: char)
    ensures IsSpace(LowerChar(c)) == IsSpace(c)
  {
  }

  /** A trimmed string stays trimmed when lower-cased. */
  lemma LowerTrimIdempotent(s: string)
    ensures Lower(Trim(Lower(Trim(s)))) == Lower(Trim(s))
  {
    TrimIdempotent(s);
    var t := Trim(s);
    var l := Lower(t);
    if t != "" {
      TrimmedEnds(s);
      LowerKeepsSpaces(t[0]);
      LowerKeepsSpaces(t[|t| - 1]);
      NothingToTrim(l);
    }
    LowerIdempotent(t);
  }

  predicate Blank(s: string) { forall i :: 0 <= i < |s| ==> IsSpace(s[i]) }

  /** Without blanks at either end. */
  predicate Bare(s: string) { s == "" || (!IsSpace(s[0]) && !IsSpace(s[|s| - 1])) }

  lemma {:induction false} TrimStartPast(before: string, s: string)
    requires Blank(before)
    ensures TrimStart(before + s) == TrimStart(s)
  {
    if before == "" {
      assert before + s == s;
    } else {
      assert (before + s)[1..] == before[1..] + s;
      TrimStartPast(before[1..], s);
    }
  }

  lemma {:induction false} TrimEndPast(s: string, after: string)
    requires Blank(after)
    ensures TrimEnd(s + after) == TrimEnd(s)
    decreases |after|
  {
    if after == "" {
      assert s + after == s;
    } else {
      var n := |after| - 1;
      assert (s + after)[..|s + after| - 1] == s + after[..n];
      TrimEndPast(s, after[..n]);
    }
  }

  /** Trimming takes off exactly the blanks around a bare text. */
  lemma TrimAround(before: string, s: string, after: string)
    requires Blank(before) && Blank(after) && Bare(s)
    ensures Trim(before + s + after) == s
  {
    assert before + s + after == before + (s + after);
    TrimStartPast(before, s + after);
    if s == "" {
      assert s + after == after && after + "" == after;
      TrimStartPast(after, "");
    } else {
      assert TrimStart(s + after) == s + after;
      TrimEndPast(s, after);
    }
  }

  lemma {:induction false} TrimStartBlank(s: string)
    ensures TrimStart(s) == "" ==> Blank(s)
  {
    if s != "" && IsSpace(s[0]) { TrimStartBlank(s[1..]); }
  }

  lemma {:induction false} TrimEndBlank(s: string)
    ensures TrimEnd(s) == "" ==> Blank(s)
  {
    if s != "" && IsSpace(s[|s| - 1]) { TrimEndBlank(s[..|s| - 1]); }
  }

  /** Nothing is left exactly of a blank text. */
  lemma TrimmedAway(s: string)
    ensures Trim(s) == "" <==> Blank(s)
  {
    if Blank(s) {
      assert s + "" + "" == s;
      TrimAround(s, "", "");
    } else if Trim(s) == "" {
      TrimEndBlank(TrimStart(s));
      TrimStartBlank(s);
    }
  }

  lemma NothingToTrim(s: string)
    requires s != "" && !IsSpace(s[0]) && !IsSpace(s[|s| - 1])
    ensures Trim(s) == s
  {
    assert TrimStart(s) == s;
    assert TrimEnd(s) == s;
  }

  lemma TrimmedEnds(s: string)
    requires Trim(s) != ""
    ensures !IsSpace(Trim(s)[0]) && !IsSpace(Trim(s)[|Trim(s)| - 1])
  {
    var a := TrimStart(s);
    assert Trim(s)[0] == a[0];
  }

  lemma PhoneCharsFixed(s: string)
    requires forall c :: c in s ==> IsPhoneChar(c)
    ensures PhoneChars(s) == s
  {
    if s != "" {
      assert s == [s[0]] + s[1..];
      PhoneCharsFixed(s[1..]);
    }
  }

  lemma TrimOfPhone(s: string)
    requires forall c :: c in s ==> IsPhoneChar(c)
    ensures Trim(s) == s
  {
    if s != "" {
      assert s[0] in s && s[|s| - 1] in s;
      assert !IsSpace(s[0]) && !IsSpace(s[|s| - 1]);
      assert TrimStart(s) == s && TrimEnd(s) == s;
    }
  }
}

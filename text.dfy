/** The JavaScript string operations the pages use: the default `sort` order,
    `toLowerCase`, `includes`, `trim`, `Number(...)` and `toString()`. */
module Text {
  import opened Common

  // ---------------------------------------------------------------------------
  // Default string order of Array.prototype.sort: character by character, and a
  // proper prefix sorts first.

  predicate Below(a: string, b: string) {
    if a == [] then b != []
    else b != [] && (a[0] < b[0] || (a[0] == b[0] && Below(a[1..], b[1..])))
  }

  lemma {:induction false} BelowIrreflexive(a: string)
    ensures !Below(a, a)
  {
    if a != [] {
      BelowIrreflexive(a[1..]);
    }
  }

  lemma {:induction false} BelowTransitive(a: string, b: string, c: string)
    requires Below(a, b) && Below(b, c)
    ensures Below(a, c)
  {
    if a != [] && a[0] == b[0] && b[0] == c[0] {
      BelowTransitive(a[1..], b[1..], c[1..]);
    }
  }

  lemma {:induction false} BelowTotal(a: string, b: string)
    requires a != b
    ensures Below(a, b) || Below(b, a)
  {
    if a != [] && b != [] && a[0] == b[0] {
      assert a == [a[0]] + a[1..] && b == [b[0]] + b[1..];
      BelowTotal(a[1..], b[1..]);
    }
  }

  lemma {:induction false} BelowAsymmetric(a: string, b: string)
    requires Below(a, b)
    ensures !Below(b, a)
  {
    if a != [] && a[0] == b[0] {
      BelowAsymmetric(a[1..], b[1..]);
    }
  }

  /** Strictly ascending in the default sort order (so also free of duplicates). */
  predicate Ascending(s: seq<string>) {
    forall i, j :: 0 <= i < j < |s| ==> Below(s[i], s[j])
  }

  function Insert(x: string, s: seq<string>): (r: seq<string>)
    ensures multiset(r) == multiset(s) + multiset{x}
    ensures Ascending(s) && x !in s ==> Ascending(r)
  {
    if s == [] then [x]
    else if Below(s[0], x) then
      var rest := Insert(x, s[1..]);
      assert s == [s[0]] + s[1..];
      InsertAfterHead(x, s, rest);
      [s[0]] + rest
    else
      InsertBeforeHead(x, s);
      [x] + s
  }

  /** An ascending list stays ascending behind a head below all of it. */
  lemma ConsAscending(h: string, rest: seq<string>)
    requires Ascending(rest) && forall j :: 0 <= j < |rest| ==> Below(h, rest[j])
    ensures Ascending([h] + rest)
  {
    var r := [h] + rest;
    forall i, j | 0 <= i < j < |r| ensures Below(r[i], r[j]) {
      if i == 0 {
        assert r[j] == rest[j - 1];
      } else {
        assert r[i] == rest[i - 1] && r[j] == rest[j - 1];
      }
    }
  }

  /** Every element of `s[1..]` with `x` added lies above the head of an ascending `s`. */
  lemma HeadBelowRest(x: string, s: seq<string>, rest: seq<string>)
    requires s != [] && Below(s[0], x) && Ascending(s)
    requires multiset(rest) == multiset(s[1..]) + multiset{x}
    ensures forall j :: 0 <= j < |rest| ==> Below(s[0], rest[j])
  {
    forall j | 0 <= j < |rest| ensures Below(s[0], rest[j]) {
      var y := rest[j];
      assert y in multiset(rest);
      if y != x {
        assert y in multiset(s[1..]);
        var k :| 0 <= k < |s[1..]| && s[1..][k] == y;
        assert s[k + 1] == y;
      }
    }
  }

  lemma InsertAfterHead(x: string, s: seq<string>, rest: seq<string>)
    requires s != [] && Below(s[0], x)
    requires multiset(rest) == multiset(s[1..]) + multiset{x}
    requires Ascending(s) && x !in s ==> Ascending(rest)
    ensures Ascending(s) && x !in s ==> Ascending([s[0]] + rest)
  {
    if Ascending(s) && x !in s {
      HeadBelowRest(x, s, rest);
      ConsAscending(s[0], rest);
    }
  }

  lemma InsertBeforeHead(x: string, s: seq<string>)
    requires s != [] && !Below(s[0], x)
    ensures Ascending(s) && x !in s ==> Ascending([x] + s)
  {
    if Ascending(s) && x !in s {
      BelowTotal(x, s[0]);
      forall j | 0 <= j < |s| ensures Below(x, s[j]) {
        if j > 0 {
          BelowTransitive(x, s[0], s[j]);
        }
      }
      ConsAscending(x, s);
    }
  }

  /** `keys.sort()` with the default comparator, as an insertion sort. Keys that
      are all different come out strictly ascending, which fixes the result. */
  function Sort(s: seq<string>): (r: seq<string>)
    ensures multiset(r) == multiset(s)
    ensures NoDuplicates(s) ==> Ascending(r)
  {
    if s == [] then []
    else
      var rest := Sort(s[1..]);
      assert s == [s[0]] + s[1..];
      assert NoDuplicates(s) ==> s[0] !in rest by {
        if NoDuplicates(s) {
          assert forall k :: 0 <= k < |s[1..]| ==> s[1..][k] == s[k + 1];
          assert s[0] !in s[1..];
          assert s[0] !in multiset(rest);
        }
      }
      Insert(s[0], rest)
  }

  // ---------------------------------------------------------------------------
  // toLowerCase, includes

  /** Lower-cases the ASCII letters; other characters are left alone. */
  function LowerChar(c: char): char {
    if 'A' <= c <= 'Z' then (c as int + 32) as char else c
  }

  function Lower(s: string): (r: string)
    ensures |r| == |s| && forall i :: 0 <= i < |s| ==> r[i] == LowerChar(s[i])
  {
    if s == [] then [] else [LowerChar(s[0])] + Lower(s[1..])
  }

  /** Lower-casing twice is lower-casing once. */
  lemma LowerIdempotent(s: string)
    ensures Lower(Lower(s)) == Lower(s)
  {
  }

  /** `hay.includes(needle)`. */
  predicate Includes(hay: string, needle: string)
    ensures Includes(hay, needle) ==> |needle| <= |hay|
  {
    needle <= hay || (hay != [] && Includes(hay[1..], needle))
  }

  /** needle occurs in hay starting at position k. */
  predicate OccursAt(hay: string, needle: string, k: nat) {
    k + |needle| <= |hay| && hay[k..k + |needle|] == needle
  }

  /** `includes` holds exactly when the needle occurs at some position. */
  lemma {:induction false} IncludesIffOccurs(hay: string, needle: string)
    ensures Includes(hay, needle) <==> exists k: nat :: OccursAt(hay, needle, k)
  {
    if needle <= hay {
      assert OccursAt(hay, needle, 0);
    } else if hay != [] {
      IncludesIffOccurs(hay[1..], needle);
      OccursInTail(hay, needle);
    }
  }

  /** An occurrence after the first position is an occurrence in the tail, and back. */
  lemma OccursInTail(hay: string, needle: string)
    requires hay != []
    ensures (exists k: nat :: OccursAt(hay[1..], needle, k)) ==> exists k: nat :: OccursAt(hay, needle, k)
    ensures (exists k: nat :: k > 0 && OccursAt(hay, needle, k)) ==> exists k: nat :: OccursAt(hay[1..], needle, k)
  {
    if k: nat :| OccursAt(hay[1..], needle, k) {
      assert hay[1..][k..k + |needle|] == hay[k + 1..k + 1 + |needle|];
      assert OccursAt(hay, needle, k + 1);
    }
    if k: nat :| k > 0 && OccursAt(hay, needle, k) {
      assert hay[1..][k - 1..k - 1 + |needle|] == hay[k..k + |needle|];
      assert OccursAt(hay[1..], needle, k - 1);
    }
  }

  // ---------------------------------------------------------------------------
  // trim

  /** WhiteSpace and LineTerminator code points of ECMAScript (section 12.2 and
      12.3 of ECMA-262), the characters String.prototype.trim removes. */
  predicate IsWhiteSpace(c: char) {
    c == '\t' || c == '\n' || c == '\U{000B}' || c == '\U{000C}' || c == '\r'
    || c == ' ' || c == '\U{00A0}' || c == '\U{1680}'
    || ('\U{2000}' <= c <= '\U{200A}')
    || c == '\U{2028}' || c == '\U{2029}' || c == '\U{202F}' || c == '\U{205F}'
    || c == '\U{3000}' || c == '\U{FEFF}'
  }

  predicate Blank(s: string) {
    forall i :: 0 <= i < |s| ==> IsWhiteSpace(s[i])
  }

  function TrimStart(s: string): (r: string)
    ensures |r| <= |s|
    ensures r == s[|s| - |r|..]
    ensures r == [] || !IsWhiteSpace(r[0])
    ensures Blank(s[..|s| - |r|])
  {
    if s == [] || !IsWhiteSpace(s[0]) then s
    else
      var r := TrimStart(s[1..]);
      assert s[..|s| - |r|] == [s[0]] + s[1..][..|s[1..]| - |r|];
      r
  }

  function TrimEnd(s: string): (r: string)
    ensures |r| <= |s|
    ensures r == s[..|r|]
    ensures r == [] || !IsWhiteSpace(r[|r| - 1])
    ensures Blank(s[|r|..])
  {
    if s == [] || !IsWhiteSpace(s[|s| - 1]) then s
    else
      var r := TrimEnd(s[..|s| - 1]);
      assert s[|r|..] == s[..|s| - 1][|r|..] + [s[|s| - 1]];
      r
  }

  /** r sits in s at position i with only white space around it. */
  predicate Surrounded(s: string, r: string, i: nat) {
    i + |r| <= |s| && s[i..i + |r|] == r && Blank(s[..i]) && Blank(s[i + |r|..])
  }

  /** `s.trim()`: the part of s between its leading and trailing white space. */
  function Trim(s: string): (r: string)
    ensures r == [] || (!IsWhiteSpace(r[0]) && !IsWhiteSpace(r[|r| - 1]))
    ensures exists i: nat :: Surrounded(s, r, i)
  {
    TrimBothEnds(s);
    TrimEnd(TrimStart(s))
  }

  lemma TrimBothEnds(s: string)
    ensures Surrounded(s, TrimEnd(TrimStart(s)), |s| - |TrimStart(s)|)
  {
    SurroundedBy(s, TrimStart(s), TrimEnd(TrimStart(s)));
  }

  /** Cutting white space off the front of s leaves t, and cutting it off the
      back of t leaves r. */
  lemma SurroundedBy(s: string, t: string, r: string)
    requires |t| <= |s| && t == s[|s| - |t|..] && Blank(s[..|s| - |t|])
    requires |r| <= |t| && r == t[..|r|] && Blank(t[|r|..])
    ensures Surrounded(s, r, |s| - |t|)
  {
    var i := |s| - |t|;
    assert r == s[i..][..|r|] == s[i..i + |r|];
    assert t[|r|..] == s[i..][|r|..] == s[i + |r|..];
  }

  /** `s.trim() === ""` exactly when every character of s is white space. */
  lemma TrimEmptyIffBlank(s: string)
    ensures Trim(s) == [] <==> Blank(s)
  {
    var t := TrimStart(s);
    if Trim(s) == [] {
      assert Blank(t[0..]);
      assert s[..|s|] == s;
    } else {
      var r := Trim(s);
      assert r == t[..|r|];
      assert t[0] == r[0];
      assert s[|s| - |t|] == t[0];
    }
  }

  /** Trimming leaves a string alone when neither end is white space. */
  lemma TrimKeeps(s: string)
    requires s != [] && !IsWhiteSpace(s[0]) && !IsWhiteSpace(s[|s| - 1])
    ensures Trim(s) == s
  {
    assert TrimStart(s) == s;
  }

  // ---------------------------------------------------------------------------
  // Number(s) and n.toString() on integers

  function DigitChar(d: nat): (c: char)
    requires d < 10
    ensures '0' <= c <= '9'
  {
    ('0' as int + d) as char
  }

  predicate AllDigits(s: string) {
    forall i :: 0 <= i < |s| ==> '0' <= s[i] <= '9'
  }

  function Digits(n: nat): (r: string)
    ensures |r| > 0 && AllDigits(r)
  {
    if n < 10 then [DigitChar(n)] else Digits(n / 10) + [DigitChar(n % 10)]
  }

  /** `n.toString()` for an integer. */
  function Show(n: int): (r: string)
    ensures |r| > 0
  {
    if n < 0 then "-" + Digits(-n) else Digits(n)
  }

  function DigitsValue(s: string): nat
    requires AllDigits(s)
  {
    if s == [] then 0
    else DigitsValue(s[..|s| - 1]) * 10 + (s[|s| - 1] as int - '0' as int)
  }

  /** A sign and a run of decimal digits. */
  function ParseSigned(t: string): Option<int> {
    if |t| > 0 && AllDigits(t) then Some(DigitsValue(t))
    else if |t| > 1 && t[0] == '+' && AllDigits(t[1..]) then Some(DigitsValue(t[1..]))
    else if |t| > 1 && t[0] == '-' && AllDigits(t[1..]) then Some(0 - DigitsValue(t[1..]) as int)
    else None
  }

  /** `Number(s)` where it yields an integer written in decimal: surrounding
      white space is ignored and a blank string reads as 0. None stands for
      NaN and for every other numeric syntax, which the model does not read. */
  function ParseNumber(s: string): (r: Option<int>)
    ensures Blank(s) ==> r == Some(0)
    ensures var t := Trim(s); t != [] && AllDigits(t) ==> r == Some(DigitsValue(t))
    ensures var t := Trim(s); r.Some? && t != [] ==>
              AllDigits(t) || ((t[0] == '+' || t[0] == '-') && AllDigits(t[1..]))
  {
    TrimEmptyIffBlank(s);
    var t := Trim(s);
    if t == [] then Some(0) else ParseSigned(t)
  }

  lemma {:induction false} DigitsRoundTrip(n: nat)
    ensures DigitsValue(Digits(n)) == n
  {
    if n >= 10 {
      DigitsRoundTrip(n / 10);
      var d := Digits(n / 10) + [DigitChar(n % 10)];
      assert d[..|d| - 1] == Digits(n / 10);
    }
  }

  lemma ParseSignedShow(n: int)
    ensures ParseSigned(Show(n)) == Some(n)
  {
    var s := Show(n);
    if n < 0 {
      var d := Digits(-n);
      assert s[1..] == d;
      DigitsRoundTrip(-n);
      assert s[0] == '-';
      assert !AllDigits(s);
    } else {
      DigitsRoundTrip(n);
    }
  }

  /** Reading back what `toString()` wrote gives the same integer. */
  lemma ParseShow(n: int)
    ensures ParseNumber(Show(n)) == Some(n)
  {
    var s := Show(n);
    assert !IsWhiteSpace(s[0]) && !IsWhiteSpace(s[|s| - 1]) by {
      if n < 0 {
        var d := Digits(-n);
        assert s == "-" + d;
        assert s[|s| - 1] == d[|d| - 1];
      }
    }
    TrimKeeps(s);
    ParseSignedShow(n);
  }
}

/** Shared value types and the array operations the front end relies on
    (Array.prototype.filter, reduce-to-sum, map-replace, slice), each given
    once with the properties the callers depend on. */
module Common {

  datatype Option<+T> = None | Some(value: T) {
    /** `x ?? fallback` in TypeScript: only a missing value falls back. */
    function GetOr(fallback: T): T {
      match this
      case Some(v) => v
      case None => fallback
    }
  }

  function Min(a: int, b: int): int { if a <= b then a else b }

  /** `text || fallback` on an optional string: a missing or empty text falls back. */
  function OrElse(text: Option<string>, fallback: string): (r: string)
    ensures r == fallback || (text.Some? && r == text.value && r != "")
    ensures text.Some? && text.value != "" ==> r == text.value
  {
    if text.Some? && text.value != "" then text.value else fallback
  }

  // ---------------------------------------------------------------------------
  // filter

  /** `s.filter(keep)`: the elements that pass, in their original order. */
  function Filter<T(!new)>(s: seq<T>, keep: T -> bool): (r: seq<T>)
    ensures |r| <= |s|
    ensures forall x :: x in r <==> x in s && keep(x)
  {
    if s == [] then []
    else (if keep(s[0]) then [s[0]] else []) + Filter(s[1..], keep)
  }

  /** Filtering commutes with concatenation, so relative order is kept. */
  lemma {:induction false} FilterAppend<T(!new)>(a: seq<T>, b: seq<T>, keep: T -> bool)
    ensures Filter(a + b, keep) == Filter(a, keep) + Filter(b, keep)
  {
    if a == [] {
      assert a + b == b;
    } else {
      assert (a + b)[1..] == a[1..] + b;
      FilterAppend(a[1..], b, keep);
    }
  }

  /** Two tests that agree on every element select the same elements. */
  lemma {:induction false} FilterSameTest<T(!new)>(s: seq<T>, f: T -> bool, g: T -> bool)
    requires forall x :: x in s ==> f(x) == g(x)
    ensures Filter(s, f) == Filter(s, g)
  {
    if s != [] {
      FilterSameTest(s[1..], f, g);
    }
  }

  /** Every kept element keeps its multiplicity; every dropped one has none. */
  lemma {:induction false} FilterCount<T(!new)>(s: seq<T>, keep: T -> bool, x: T)
    ensures multiset(Filter(s, keep))[x] == if keep(x) then multiset(s)[x] else 0
  {
    if s != [] {
      assert s == [s[0]] + s[1..];
      FilterCount(s[1..], keep, x);
    }
  }

  /** A filter that drops nothing returns its input. */
  lemma {:induction false} FilterKeepsAll<T(!new)>(s: seq<T>, keep: T -> bool)
    requires forall x :: x in s ==> keep(x)
    ensures Filter(s, keep) == s
  {
    if s != [] {
      FilterKeepsAll(s[1..], keep);
    }
  }

  /** The prefix one longer is the prefix with the next element appended. */
  lemma PrefixSnoc<T>(s: seq<T>, i: nat)
    requires i < |s|
    ensures s[..i + 1] == s[..i] + [s[i]]
  {
  }

  // ---------------------------------------------------------------------------
  // Keys of an object filled one key at a time

  predicate NoDuplicates<T(==)>(s: seq<T>) {
    forall i, j :: 0 <= i < j < |s| ==> s[i] != s[j]
  }

  /** Dropping the last element keeps a list free of duplicates, and that element was not among the rest. */
  lemma NoDuplicatesInit<T>(s: seq<T>)
    requires s != [] && NoDuplicates(s)
    ensures NoDuplicates(s[..|s| - 1]) && s[|s| - 1] !in s[..|s| - 1]
  {
    var init := s[..|s| - 1];
    forall i, j | 0 <= i < j < |init| ensures init[i] != init[j] {
      assert init[i] == s[i] && init[j] == s[j];
    }
    forall i | 0 <= i < |init| ensures init[i] != s[|s| - 1] {
      assert init[i] == s[i];
    }
  }

  /** The distinct elements of s in order of first occurrence: the order in
      which `Object.keys` lists keys that were added one at a time. */
  function Dedup<T(==,!new)>(s: seq<T>): (r: seq<T>)
    ensures NoDuplicates(r)
    ensures forall x :: x in r <==> x in s
  {
    if s == [] then []
    else
      var d := Dedup(s[..|s| - 1]);
      assert forall x :: x in s <==> x in s[..|s| - 1] || x == s[|s| - 1] by {
        assert s == s[..|s| - 1] + [s[|s| - 1]];
      }
      if s[|s| - 1] in d then d else d + [s[|s| - 1]]
  }

  /** One more element joins the distinct list unless it is already there. */
  lemma DedupSnoc<T(!new)>(s: seq<T>, x: T)
    ensures Dedup(s + [x]) == if x in Dedup(s) then Dedup(s) else Dedup(s) + [x]
  {
    assert (s + [x])[..|s + [x]| - 1] == s;
  }

  /** `obj[k] = (obj[k] || 0) + a` on an object of numbers: the key order is
      kept in `keys`, the values in `totals`. */
  function Bump(totals: map<string, int>, k: string, a: int): (r: map<string, int>)
    ensures r.Keys == totals.Keys + {k}
    ensures r[k] == (if k in totals then totals[k] else 0) + a
    ensures forall x :: x in totals && x != k ==> r[x] == totals[x]
  {
    totals[k := (if k in totals then totals[k] else 0) + a]
  }

  /** The key list after `obj[k] = ...`: a new key goes last. */
  function AddKey(keys: seq<string>, k: string): (r: seq<string>)
    ensures forall x :: x in r <==> x in keys || x == k
  {
    if k in keys then keys else keys + [k]
  }

  // ---------------------------------------------------------------------------
  // reduce((sum, x) => sum + amount(x), 0)

  function Sum<T>(s: seq<T>, amount: T -> int): int {
    if s == [] then 0 else amount(s[0]) + Sum(s[1..], amount)
  }

  /** With no negative amount, the sum is at least every single amount (and so at least 0). */
  lemma {:induction false} SumCovers<T>(s: seq<T>, amount: T -> int)
    ensures (forall x :: x in s ==> amount(x) >= 0) ==>
              Sum(s, amount) >= 0 && forall x :: x in s ==> amount(x) <= Sum(s, amount)
  {
    if s != [] && forall x :: x in s ==> amount(x) >= 0 {
      assert forall x :: x in s[1..] ==> x in s;
      SumCovers(s[1..], amount);
    }
  }

  lemma {:induction false} SumAppend<T>(a: seq<T>, b: seq<T>, amount: T -> int)
    ensures Sum(a + b, amount) == Sum(a, amount) + Sum(b, amount)
  {
    if a == [] {
      assert a + b == b;
    } else {
      assert (a + b)[1..] == a[1..] + b;
      SumAppend(a[1..], b, amount);
    }
  }

  lemma SumSnoc<T>(s: seq<T>, x: T, amount: T -> int)
    ensures Sum(s + [x], amount) == Sum(s, amount) + amount(x)
  {
    SumAppend(s, [x], amount);
    assert Sum([x], amount) == amount(x) by {
      assert [x][1..] == [];
    }
  }

  /** Two lists whose elements carry the same amounts, position by position, have the same sum. */
  lemma {:induction false} SumPointwise<A, B>(a: seq<A>, fa: A -> int, b: seq<B>, fb: B -> int)
    requires |a| == |b| && forall i :: 0 <= i < |a| ==> fa(a[i]) == fb(b[i])
    ensures Sum(a, fa) == Sum(b, fb)
  {
    if a != [] {
      SumPointwise(a[1..], fa, b[1..], fb);
    }
  }

  /** The opposite test. */
  function Not<T>(keep: T -> bool): T -> bool {
    x => !keep(x)
  }

  /** The amounts that pass a filter and those that do not add up to the whole. */
  lemma {:induction false} SumSplit<T(!new)>(s: seq<T>, keep: T -> bool, amount: T -> int)
    ensures Sum(s, amount) == Sum(Filter(s, keep), amount) + Sum(Filter(s, Not(keep)), amount)
  {
    if s != [] {
      SumSplit(s[1..], keep, amount);
      var k := if keep(s[0]) then [s[0]] else [];
      var d := if !keep(s[0]) then [s[0]] else [];
      SumAppend(k, Filter(s[1..], keep), amount);
      SumAppend(d, Filter(s[1..], Not(keep)), amount);
    }
  }

  // ---------------------------------------------------------------------------
  // Records identified by a string id (`_id` in the server's documents)

  /** The records carrying a given id. */
  function HasId<T>(idOf: T -> string, id: string): T -> bool {
    x => idOf(x) == id
  }

  /** `s.filter(x => idOf(x) !== id)`. */
  function RemoveById<T(!new)>(s: seq<T>, idOf: T -> string, id: string): (r: seq<T>)
    ensures forall x :: x in r <==> x in s && idOf(x) != id
  {
    Filter(s, Not(HasId(idOf, id)))
  }

  /** Removing by id twice removes nothing more. */
  lemma RemoveByIdIdempotent<T(!new)>(s: seq<T>, idOf: T -> string, id: string)
    ensures RemoveById(RemoveById(s, idOf, id), idOf, id) == RemoveById(s, idOf, id)
  {
    FilterKeepsAll(RemoveById(s, idOf, id), Not(HasId(idOf, id)));
  }

  /** Removing by id keeps the relative order of what stays. */
  lemma RemoveByIdSplit<T(!new)>(a: seq<T>, b: seq<T>, idOf: T -> string, id: string)
    ensures RemoveById(a + b, idOf, id) == RemoveById(a, idOf, id) + RemoveById(b, idOf, id)
  {
    FilterAppend(a, b, Not(HasId(idOf, id)));
  }

  /** Adding a record at the front and then removing its id restores the list,
      provided no other record carried that id. */
  lemma PrependThenRemove<T(!new)>(x: T, s: seq<T>, idOf: T -> string)
    requires forall y :: y in s ==> idOf(y) != idOf(x)
    ensures RemoveById([x] + s, idOf, idOf(x)) == s
  {
    FilterKeepsAll(s, Not(HasId(idOf, idOf(x))));
    assert ([x] + s)[1..] == s;
  }

  /** `s.map(x => idOf(x) === idOf(y) ? y : x)`. */
  function ReplaceById<T>(s: seq<T>, idOf: T -> string, y: T): (r: seq<T>)
    ensures |r| == |s|
    ensures forall i :: 0 <= i < |s| ==> r[i] == if idOf(s[i]) == idOf(y) then y else s[i]
  {
    if s == [] then []
    else [if idOf(s[0]) == idOf(y) then y else s[0]] + ReplaceById(s[1..], idOf, y)
  }

  /** The ids along the list, in order. */
  function Ids<T>(s: seq<T>, idOf: T -> string): (r: seq<string>)
    ensures |r| == |s| && forall i :: 0 <= i < |s| ==> r[i] == idOf(s[i])
  {
    seq(|s|, i requires 0 <= i < |s| => idOf(s[i]))
  }

  /** Replacing by id keeps every position's id, and is the identity when no id matches. */
  lemma ReplaceByIdFacts<T>(s: seq<T>, idOf: T -> string, y: T)
    ensures Ids(ReplaceById(s, idOf, y), idOf) == Ids(s, idOf)
    ensures idOf(y) !in Ids(s, idOf) ==> ReplaceById(s, idOf, y) == s
  {
    var r := ReplaceById(s, idOf, y);
    if idOf(y) !in Ids(s, idOf) {
      forall i | 0 <= i < |s| ensures r[i] == s[i] {
        assert Ids(s, idOf)[i] == idOf(s[i]);
      }
    }
  }

  // ---------------------------------------------------------------------------
  // slice

  /** What a page's delete handler dispatches: the id, once the user confirms
      the `window.confirm` prompt (passed in as `confirmed`). */
  function DeleteRequest(id: string, confirmed: bool): (r: Option<string>)
    ensures r.Some? <==> confirmed
    ensures r.Some? ==> r.value == id
  {
    if confirmed then Some(id) else None
  }

  /** `s.slice(start, end)` for non-negative bounds: both are clipped to the length. */
  function Slice<T>(s: seq<T>, start: nat, end: nat): (r: seq<T>)
    ensures |r| <= end - start || (end <= start && r == [])
    ensures start <= end <= |s| ==> r == s[start..end]
    ensures start <= |s| <= end ==> r == s[start..]
    ensures |s| <= start ==> r == []
  {
    var lo := Min(start, |s|);
    var hi := Min(end, |s|);
    if hi <= lo then [] else s[lo..hi]
  }

  /** `s.slice(-n)` for n > 0: the last n elements, or all of them when there are fewer. */
  function TakeLast<T>(s: seq<T>, n: nat): (r: seq<T>)
    requires n > 0
    ensures |r| == Min(n, |s|)
    ensures s == s[..|s| - |r|] + r
  {
    if |s| <= n then s else s[|s| - n..]
  }
}

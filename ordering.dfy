/**
 * The order `np.sort` puts column indices in: positions by value, field names
 * lexicographically by character code. Positions are placed before names, so a
 * list mixing the two is ordered positions first, where numpy would first have
 * turned every entry into a string.
 */
module Ordering {
  import opened Arrays

  /** Lexicographic order on strings, as numpy compares unicode strings. */
  predicate StrLess(s: string, t: string)
    decreases |s|
  {
    if |s| == 0 then |t| > 0
    else if |t| == 0 then false
    else if s[0] != t[0] then s[0] < t[0]
    else StrLess(s[1..], t[1..])
  }

  predicate Less(a: Index, b: Index)
  {
    match (a, b)
    case (Pos(x), Pos(y)) => x < y
    case (Pos(_), Name(_)) => true
    case (Name(_), Pos(_)) => false
    case (Name(s), Name(t)) => StrLess(s, t)
  }

  lemma {:induction false} StrLessIrreflexive(s: string)
    ensures !StrLess(s, s)
  {
    if |s| > 0 {
      StrLessIrreflexive(s[1..]);
    }
  }

  lemma {:induction false} StrLessTransitive(s: string, t: string, u: string)
    requires StrLess(s, t) && StrLess(t, u)
    ensures StrLess(s, u)
    decreases |s|
  {
    if |s| > 0 && |t| > 0 && |u| > 0 && s[0] == t[0] && t[0] == u[0] {
      StrLessTransitive(s[1..], t[1..], u[1..]);
    }
  }

  lemma {:induction false} StrLessTotal(s: string, t: string)
    requires s != t
    ensures StrLess(s, t) || StrLess(t, s)
    decreases |s|
  {
    if |s| > 0 && |t| > 0 && s[0] == t[0] {
      assert s == [s[0]] + s[1..] && t == [t[0]] + t[1..];
      StrLessTotal(s[1..], t[1..]);
    }
  }

  /** `Less` is a strict total order on column indices. */
  lemma LessIsStrictTotalOrder()
    ensures forall a :: !Less(a, a)
    ensures forall a, b, c :: Less(a, b) && Less(b, c) ==> Less(a, c)
    ensures forall a, b :: a != b ==> Less(a, b) || Less(b, a)
  {
    forall a: Index ensures !Less(a, a) {
      if a.Name? { StrLessIrreflexive(a.s); }
    }
    forall a: Index, b: Index, c: Index | Less(a, b) && Less(b, c) ensures Less(a, c) {
      if a.Name? && b.Name? && c.Name? { StrLessTransitive(a.s, b.s, c.s); }
    }
    forall a: Index, b: Index | a != b ensures Less(a, b) || Less(b, a) {
      if a.Name? && b.Name? { StrLessTotal(a.s, b.s); }
    }
  }

  /** Sorted in strictly increasing order, hence without duplicates. */
  predicate StrictlySorted(s: seq<Index>)
  {
    forall i, j :: 0 <= i < j < |s| ==> Less(s[i], s[j])
  }

  /** Inserts `x` into a strictly sorted list unless it is already there. */
  function InsertSorted(x: Index, s: seq<Index>): (r: seq<Index>)
    requires StrictlySorted(s)
    ensures StrictlySorted(r)
    ensures forall y :: y in r <==> y == x || y in s
  {
    LessIsStrictTotalOrder();
    if s == [] then [x]
    else if x == s[0] then s
    else if Less(x, s[0]) then [x] + s
    else
      var rest := InsertSorted(x, s[1..]);
      assert forall y :: y in rest ==> Less(s[0], y);
      [s[0]] + rest
  }

  /** The distinct elements of `xs` in strictly increasing order (`np.sort(list(set(xs)))`). */
  function SortDistinct(xs: seq<Index>): (r: seq<Index>)
    ensures StrictlySorted(r)
    ensures forall y :: y in r <==> y in xs
  {
    if xs == [] then [] else InsertSorted(xs[0], SortDistinct(xs[1..]))
  }

  /** A set has exactly one strictly sorted listing. */
  lemma {:induction false} SortedListingUnique(s: seq<Index>, t: seq<Index>)
    requires StrictlySorted(s) && StrictlySorted(t)
    requires forall y :: y in s <==> y in t
    ensures s == t
    decreases |s|
  {
    LessIsStrictTotalOrder();
    assert s == [] <==> t == [] by {
      if s != [] { assert s[0] in t; }
      if t != [] { assert t[0] in s; }
    }
    if s != [] {
      assert s[0] == t[0] by {
        assert s[0] in t && t[0] in s;
      }
      assert s == [s[0]] + s[1..] && t == [t[0]] + t[1..];
      forall y ensures y in s[1..] <==> y in t[1..] {
        if y in s[1..] { assert Less(s[0], y) && y in t; }
        if y in t[1..] { assert Less(t[0], y) && y in s; }
      }
      SortedListingUnique(s[1..], t[1..]);
    }
  }
}

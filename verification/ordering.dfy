/** Python's ordering of `str` values (lexicographic on code points, a proper
    prefix first) and `sorted(set(...))` on sequences of strings. */
module Ordering {

  /** `a < b` on Python strings. */
  predicate Below(a: string, b: string)
    decreases |a|
  {
    |b| > 0 && (|a| == 0 || a[0] < b[0] || (a[0] == b[0] && Below(a[1..], b[1..])))
  }

  lemma {:induction false} BelowIrreflexive(a: string)
    ensures !Below(a, a)
    decreases |a|
  {
    if |a| > 0 {
      BelowIrreflexive(a[1..]);
    }
  }

  lemma {:induction false} BelowTransitive(a: string, b: string, c: string)
    requires Below(a, b) && Below(b, c)
    ensures Below(a, c)
    decreases |a|
  {
    if |a| > 0 && a[0] == b[0] && b[0] == c[0] {
      BelowTransitive(a[1..], b[1..], c[1..]);
    }
  }

  /** Any two different strings are ordered one way or the other. */
  lemma {:induction false} BelowTotal(a: string, b: string)
    requires a != b
    ensures Below(a, b) || Below(b, a)
    decreases |a|
  {
    if |a| > 0 && |b| > 0 && a[0] == b[0] {
      assert a == [a[0]] + a[1..];
      assert b == [b[0]] + b[1..];
      BelowTotal(a[1..], b[1..]);
    }
  }

  lemma BelowAsymmetric(a: string, b: string)
    ensures Below(a, b) ==> !Below(b, a)
  {
    if Below(a, b) && Below(b, a) {
      BelowTransitive(a, b, a);
      BelowIrreflexive(a);
    }
  }

  /** The elements of a sequence, as a set. */
  function Elems(s: seq<string>): set<string> {
    set x | x in s
  }

  /** Strictly ascending, hence also free of duplicates. */
  predicate StrictlySorted(s: seq<string>) {
    forall i, j :: 0 <= i < j < |s| ==> Below(s[i], s[j])
  }

  lemma SortedTail(s: seq<string>)
    requires StrictlySorted(s) && |s| > 0
    ensures StrictlySorted(s[1..])
    ensures Elems(s[1..]) == Elems(s) - {s[0]}
  {
    BelowIrreflexive(s[0]);
    assert s == [s[0]] + s[1..];
    assert forall k :: 1 <= k < |s| ==> Below(s[0], s[k]);
  }

  /** A strictly ascending sequence has as many elements as its set. */
  lemma {:induction false} SortedCardinality(s: seq<string>)
    requires StrictlySorted(s)
    ensures |Elems(s)| == |s|
    decreases |s|
  {
    if |s| > 0 {
      SortedTail(s);
      SortedCardinality(s[1..]);
      assert s[0] in Elems(s);
    }
  }

  /** Inserts `x` into a strictly ascending sequence, keeping it strictly
      ascending; an `x` already present is not added twice. */
  function Insert(x: string, s: seq<string>): (r: seq<string>)
    requires StrictlySorted(s)
    ensures StrictlySorted(r)
    ensures Elems(r) == Elems(s) + {x}
    decreases |s|
  {
    if |s| == 0 then [x]
    else if x == s[0] then s
    else if Below(x, s[0]) then
      BelowHeadBelowAll(x, s);
      [x] + s
    else
      SortedTail(s);
      BelowTotal(x, s[0]);
      var t := Insert(x, s[1..]);
      assert forall y :: y in Elems(t) ==> Below(s[0], y);
      ElemsBound(s[0], t);
      assert Elems([s[0]] + t) == {s[0]} + Elems(t);
      [s[0]] + t
  }

  lemma BelowHeadBelowAll(x: string, s: seq<string>)
    requires StrictlySorted(s) && |s| > 0 && Below(x, s[0])
    ensures forall k :: 0 <= k < |s| ==> Below(x, s[k])
  {
    forall k | 0 < k < |s|
      ensures Below(x, s[k])
    {
      BelowTransitive(x, s[0], s[k]);
    }
  }

  lemma ElemsBound(lo: string, t: seq<string>)
    requires forall y :: y in Elems(t) ==> Below(lo, y)
    ensures forall k :: 0 <= k < |t| ==> Below(lo, t[k])
  {
    forall k | 0 <= k < |t|
      ensures Below(lo, t[k])
    {
      assert t[k] in Elems(t);
    }
  }

  /** `sorted(set(xs))`: the distinct values of `xs`, strictly ascending. */
  function SortDistinct(xs: seq<string>): (r: seq<string>)
    ensures StrictlySorted(r)
    ensures Elems(r) == Elems(xs)
  {
    if |xs| == 0 then []
    else
      var n := |xs| - 1;
      assert xs == xs[..n] + [xs[n]];
      Insert(xs[n], SortDistinct(xs[..n]))
  }

  /** A strictly ascending sequence is determined by its set of elements:
      sorting cannot depend on the order or multiplicity of its input. */
  lemma {:induction false} SortedUnique(a: seq<string>, b: seq<string>)
    requires StrictlySorted(a) && StrictlySorted(b)
    requires Elems(a) == Elems(b)
    ensures a == b
    decreases |a|
  {
    SortedCardinality(a);
    SortedCardinality(b);
    if |a| > 0 {
      assert a[0] in Elems(b) && b[0] in Elems(a);
      BelowAsymmetric(a[0], b[0]);
      assert a[0] == b[0];
      SortedTail(a);
      SortedTail(b);
      SortedUnique(a[1..], b[1..]);
      assert a == [a[0]] + a[1..];
      assert b == [b[0]] + b[1..];
    }
  }

  lemma SortDistinctOnlyOnElems(xs: seq<string>, ys: seq<string>)
    requires Elems(xs) == Elems(ys)
    ensures SortDistinct(xs) == SortDistinct(ys)
  {
    SortedUnique(SortDistinct(xs), SortDistinct(ys));
  }
}

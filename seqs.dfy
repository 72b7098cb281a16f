/** `Array.prototype.filter` and the flattening of a list of lists, with the
    facts about them that the dashboard's counts and merge rely on. */
module Seqs {

  /** `s.filter(p)`: the elements of `s` that satisfy `p`, in their order. */
  function Filter<T(!new)>(s: seq<T>, p: T -> bool): (r: seq<T>)
    ensures |r| <= |s|
    ensures forall x :: x in r <==> x in s && p(x)
  {
    if s == [] then []
    else if p(s[0]) then [s[0]] + Filter(s[1..], p)
    else Filter(s[1..], p)
  }

  /** The filter keeps every matching element as often as it occurs in `s`,
      and no other: so `Filter(s, p).length` counts the matches. */
  lemma {:induction false} FilterMultiset<T(!new)>(s: seq<T>, p: T -> bool)
    ensures forall x :: multiset(Filter(s, p))[x] == if p(x) then multiset(s)[x] else 0
  {
    if s != [] {
      FilterMultiset(s[1..], p);
      assert s == [s[0]] + s[1..];
    }
  }

  /** Filtering a concatenation filters each part. */
  lemma {:induction false} FilterAppend<T(!new)>(a: seq<T>, b: seq<T>, p: T -> bool)
    ensures Filter(a + b, p) == Filter(a, p) + Filter(b, p)
  {
    if a != [] {
      assert (a + b)[1..] == a[1..] + b;
      FilterAppend(a[1..], b, p);
    } else {
      assert a + b == b;
    }
  }

  /** Filtering by `p` and by its negation `q` splits `s`: the two counts add
      up to the length of `s`. */
  lemma {:induction false} FilterSplit<T(!new)>(s: seq<T>, p: T -> bool, q: T -> bool)
    requires forall x :: q(x) <==> !p(x)
    ensures |Filter(s, p)| + |Filter(s, q)| == |s|
  {
    if s != [] {
      FilterSplit(s[1..], p, q);
    }
  }

  /** A filter that keeps every element returns `s` itself. */
  lemma {:induction false} FilterAll<T(!new)>(s: seq<T>, p: T -> bool)
    requires forall i :: 0 <= i < |s| ==> p(s[i])
    ensures Filter(s, p) == s
  {
    if s != [] {
      assert p(s[0]);
      FilterAll(s[1..], p);
    }
  }

  /** A filter that keeps no element returns the empty list. */
  lemma {:induction false} FilterNone<T(!new)>(s: seq<T>, p: T -> bool)
    requires forall i :: 0 <= i < |s| ==> !p(s[i])
    ensures Filter(s, p) == []
  {
    if s != [] {
      assert !p(s[0]);
      FilterNone(s[1..], p);
    }
  }

  /** The sum of the lengths of the lists in `xss`. */
  function TotalLength<T(!new)>(xss: seq<seq<T>>): nat {
    if xss == [] then 0 else |xss[0]| + TotalLength(xss[1..])
  }

  /** The concatenation of the lists in `xss`, in order; its length is the sum
      of their lengths. */
  function Flatten<T(!new)>(xss: seq<seq<T>>): (r: seq<T>)
    ensures |r| == TotalLength(xss)
  {
    if xss == [] then [] else xss[0] + Flatten(xss[1..])
  }

  /** An element is in the flattened list exactly when it is in one of the parts. */
  lemma {:induction false} InFlatten<T(!new)>(xss: seq<seq<T>>, x: T)
    ensures x in Flatten(xss) <==> exists i :: 0 <= i < |xss| && x in xss[i]
  {
    if xss != [] {
      InFlatten(xss[1..], x);
      if x in Flatten(xss[1..]) {
        var k :| 0 <= k < |xss[1..]| && x in xss[1..][k];
        assert x in xss[k + 1];
      }
      if exists i :: 0 < i < |xss| && x in xss[i] {
        var i :| 0 < i < |xss| && x in xss[i];
        assert x in xss[1..][i - 1];
      }
    }
  }

  /** Flattening a concatenation concatenates the flattened parts. */
  lemma {:induction false} FlattenAppend<T(!new)>(a: seq<seq<T>>, b: seq<seq<T>>)
    ensures Flatten(a + b) == Flatten(a) + Flatten(b)
  {
    if a != [] {
      assert (a + b)[1..] == a[1..] + b;
      FlattenAppend(a[1..], b);
    } else {
      assert a + b == b;
    }
  }

  /** Flattening with one more list at the end appends that list. */
  lemma FlattenSnoc<T(!new)>(a: seq<seq<T>>, xs: seq<T>)
    ensures Flatten(a + [xs]) == Flatten(a) + xs
  {
    FlattenAppend(a, [xs]);
    assert Flatten([xs]) == xs + Flatten([xs][1..]);
  }

  /** If filtering leaves part `i` whole and empties every other part, then
      filtering the flattened list gives part `i`. */
  lemma {:induction false} FilterFlattenSingle<T(!new)>(xss: seq<seq<T>>, p: T -> bool, i: nat)
    requires i < |xss|
    requires Filter(xss[i], p) == xss[i]
    requires forall j :: 0 <= j < |xss| && j != i ==> Filter(xss[j], p) == []
    ensures Filter(Flatten(xss), p) == xss[i]
  {
    FilterAppend(xss[0], Flatten(xss[1..]), p);
    if i == 0 {
      FilterNoneFlatten(xss[1..], p);
    } else {
      FilterFlattenSingle(xss[1..], p, i - 1);
    }
  }

  /** If filtering empties every part, it empties the flattened list. */
  lemma {:induction false} FilterNoneFlatten<T(!new)>(xss: seq<seq<T>>, p: T -> bool)
    requires forall j :: 0 <= j < |xss| ==> Filter(xss[j], p) == []
    ensures Filter(Flatten(xss), p) == []
  {
    if xss != [] {
      FilterAppend(xss[0], Flatten(xss[1..]), p);
      FilterNoneFlatten(xss[1..], p);
    }
  }
}

/** List comprehensions `[f(x) for x in s if p(x)]` as Filter and Map. */
module Seqs {

  function Filter<T>(p: T -> bool, s: seq<T>): (r: seq<T>)
    ensures |r| <= |s|
    ensures forall i :: 0 <= i < |r| ==> p(r[i])
  {
    if s == [] then []
    else if p(s[0]) then [s[0]] + Filter(p, s[1..])
    else Filter(p, s[1..])
  }

  function Map<T, U>(f: T -> U, s: seq<T>): (r: seq<U>)
    ensures |r| == |s|
    ensures forall i :: 0 <= i < |s| ==> r[i] == f(s[i])
  {
    if s == [] then [] else [f(s[0])] + Map(f, s[1..])
  }

  lemma {:induction false} MapAppend<T, U>(f: T -> U, a: seq<T>, b: seq<T>)
    ensures Map(f, a + b) == Map(f, a) + Map(f, b)
  {
    if a == [] {
      assert a + b == b;
    } else {
      assert (a + b)[1..] == a[1..] + b;
      MapAppend(f, a[1..], b);
    }
  }

  lemma {:induction false} FilterMembers<T>(p: T -> bool, s: seq<T>)
    ensures forall x :: x in Filter(p, s) <==> x in s && p(x)
  {
    if s != [] {
      FilterMembers(p, s[1..]);
      assert s == [s[0]] + s[1..];
    }
  }

  lemma {:induction false} FilterAppend<T>(p: T -> bool, a: seq<T>, b: seq<T>)
    ensures Filter(p, a + b) == Filter(p, a) + Filter(p, b)
  {
    if a == [] {
      assert a + b == b;
    } else {
      assert (a + b)[1..] == a[1..] + b;
      FilterAppend(p, a[1..], b);
    }
  }

  /** One more element of the input adds its image, if it passes the filter. */
  lemma MapFilterSnoc<T, U>(f: T -> U, p: T -> bool, s: seq<T>, i: nat)
    requires i < |s|
    ensures Map(f, Filter(p, s[..i + 1])) == Map(f, Filter(p, s[..i])) + (if p(s[i]) then [f(s[i])] else [])
  {
    assert s[..i + 1] == s[..i] + [s[i]];
    FilterAppend(p, s[..i], [s[i]]);
    MapAppend(f, Filter(p, s[..i]), Filter(p, [s[i]]));
    assert [s[i]][1..] == [];
  }

  /** `y` is in the mapped list exactly when some element maps to it. */
  lemma MapMembers<T, U>(f: T -> U, s: seq<T>)
    ensures forall y :: y in Map(f, s) <==> exists x :: x in s && f(x) == y
  {
    forall y | exists x :: x in s && f(x) == y ensures y in Map(f, s) {
      var x :| x in s && f(x) == y;
      var i :| 0 <= i < |s| && s[i] == x;
      assert Map(f, s)[i] == y;
    }
  }

  lemma PermutationRemove<T>(a: seq<T>, b: seq<T>, k: nat)
    requires multiset(a) == multiset(b) && |a| > 0
    requires k < |b| && b[k] == a[0]
    ensures multiset(a[1..]) == multiset(b[..k] + b[k + 1..])
  {
    assert a == [a[0]] + a[1..];
    assert multiset(a[1..]) == multiset(a) - multiset{a[0]};
    RemoveAtMultiset(b, k);
  }

  lemma SplitAt<T>(s: seq<T>, k: nat)
    requires k < |s|
    ensures s == s[..k] + ([s[k]] + s[k + 1..])
  {
  }

  lemma RemoveAtMultiset<T>(s: seq<T>, k: nat)
    requires k < |s|
    ensures multiset(s[..k] + s[k + 1..]) == multiset(s) - multiset{s[k]}
  {
    assert s == s[..k] + [s[k]] + s[k + 1..];
  }

  /** The multiset of what `[f(x) for x in s if p(x)]` produces. */
  ghost function Image<T, U>(f: T -> U, p: T -> bool, s: seq<T>): multiset<U> {
    multiset(Map(f, Filter(p, s)))
  }

  lemma ImageAppend<T, U>(f: T -> U, p: T -> bool, u: seq<T>, v: seq<T>)
    ensures Image(f, p, u + v) == Image(f, p, u) + Image(f, p, v)
  {
    FilterAppend(p, u, v);
    MapAppend(f, Filter(p, u), Filter(p, v));
  }

  lemma ImageRemove<T, U>(f: T -> U, p: T -> bool, s: seq<T>, k: nat)
    requires k < |s|
    ensures Image(f, p, s) == Image(f, p, [s[k]]) + Image(f, p, s[..k] + s[k + 1..])
  {
    SplitAt(s, k);
    ImageAppend(f, p, s[..k], [s[k]] + s[k + 1..]);
    ImageAppend(f, p, [s[k]], s[k + 1..]);
    ImageAppend(f, p, s[..k], s[k + 1..]);
  }

  /** Filtering and mapping two permutations of a list give permutations of each other:
      the comprehension does not depend on the order of its input beyond the order of
      its output. */
  lemma {:induction false} MapFilterPermutation<T, U>(f: T -> U, p: T -> bool, a: seq<T>, b: seq<T>)
    requires multiset(a) == multiset(b)
    ensures Image(f, p, a) == Image(f, p, b)
    decreases |a|
  {
    if a == [] {
      assert |multiset(b)| == 0;
      assert b == [];
    } else {
      assert a[0] in multiset(b);
      var k :| 0 <= k < |b| && b[k] == a[0];
      PermutationRemove(a, b, k);
      MapFilterPermutation(f, p, a[1..], b[..k] + b[k + 1..]);
      ImageRemove(f, p, a, 0);
      assert a[..0] + a[1..] == a[1..];
      ImageRemove(f, p, b, k);
    }
  }
}

/**
 * `Array.prototype.filter`, and the facts about it the components rely on: what it keeps,
 * that it keeps the order, and that two filters in a row are one filter on the conjunction.
 */
module Seqs {

  /** `s.filter(f)` */
  function Filter<T>(s: seq<T>, f: T -> bool): (r: seq<T>)
    ensures |r| <= |s|
    ensures forall i :: 0 <= i < |r| ==> f(r[i])
  {
    if s == [] then []
    else Filter(s[..|s| - 1], f) + (if f(s[|s| - 1]) then [s[|s| - 1]] else [])
  }

  /** `s.filter(f).length` */
  function CountWhere<T>(s: seq<T>, f: T -> bool): nat {
    |Filter(s, f)|
  }

  /** The filter keeps exactly the elements satisfying `f`, each as often as it occurs. */
  lemma {:induction false} FilterMultiset<T>(s: seq<T>, f: T -> bool, x: T)
    ensures multiset(Filter(s, f))[x] == if f(x) then multiset(s)[x] else 0
  {
    if s != [] {
      var init, last := s[..|s| - 1], s[|s| - 1];
      FilterMultiset(init, f, x);
      assert s == init + [last];
    }
  }

  lemma FilterMembership<T>(s: seq<T>, f: T -> bool, x: T)
    ensures x in Filter(s, f) <==> x in s && f(x)
  {
    FilterMultiset(s, f, x);
  }

  /** Order is kept: filtering a concatenation filters each part in place. */
  lemma {:induction false} FilterConcat<T>(a: seq<T>, b: seq<T>, f: T -> bool)
    ensures Filter(a + b, f) == Filter(a, f) + Filter(b, f)
    decreases |b|
  {
    if b == [] {
      assert a + b == a;
    } else {
      assert (a + b)[..|a + b| - 1] == a + b[..|b| - 1];
      FilterConcat(a, b[..|b| - 1], f);
    }
  }

  /** Two kept elements appear in the input in the same order as in the filter's output. */
  lemma {:induction false} FilterOrder<T>(s: seq<T>, f: T -> bool, i: nat, j: nat)
    requires i < j < |Filter(s, f)|
    ensures exists a, b :: 0 <= a < b < |s| && s[a] == Filter(s, f)[i] && s[b] == Filter(s, f)[j]
  {
    var init, last := s[..|s| - 1], s[|s| - 1];
    var r, ri := Filter(s, f), Filter(init, f);
    assert r == ri + (if f(last) then [last] else []);
    if j < |ri| {
      FilterOrder(init, f, i, j);
      var a, b :| 0 <= a < b < |init| && init[a] == ri[i] && init[b] == ri[j];
      assert s[a] == init[a] && s[b] == init[b];
    } else {
      FilterMembership(init, f, ri[i]);
      var a :| 0 <= a < |init| && init[a] == ri[i];
      assert s[a] == init[a] && s[|s| - 1] == r[j];
    }
  }

  /** A filter depends on its predicate only through the values it takes. */
  lemma {:induction false} FilterSame<T>(s: seq<T>, f: T -> bool, g: T -> bool)
    requires forall x :: f(x) == g(x)
    ensures Filter(s, f) == Filter(s, g)
  {
    if s != [] {
      FilterSame(s[..|s| - 1], f, g);
    }
  }

  /** Two filters in a row are one filter on the conjunction of their predicates. */
  lemma {:induction false} FilterTwice<T>(s: seq<T>, f: T -> bool, g: T -> bool, h: T -> bool)
    requires forall x :: h(x) == (f(x) && g(x))
    ensures Filter(Filter(s, f), g) == Filter(s, h)
  {
    if s != [] {
      var init, last := s[..|s| - 1], s[|s| - 1];
      FilterTwice(init, f, g, h);
      FilterConcat(Filter(init, f), if f(last) then [last] else [], g);
      if f(last) {
        assert [last][..0] == [];
      }
    }
  }

  /** A filter every element passes changes nothing. */
  lemma {:induction false} FilterAll<T>(s: seq<T>, f: T -> bool)
    requires forall i :: 0 <= i < |s| ==> f(s[i])
    ensures Filter(s, f) == s
  {
    if s != [] {
      FilterAll(s[..|s| - 1], f);
    }
  }

  /** A predicate and its negation split a sequence: the two counts add up to its length. */
  lemma {:induction false} CountSplits<T>(s: seq<T>, f: T -> bool, g: T -> bool)
    requires forall x :: g(x) == !f(x)
    ensures CountWhere(s, f) + CountWhere(s, g) == |s|
  {
    if s != [] {
      CountSplits(s[..|s| - 1], f, g);
    }
  }

  /** The first element a filter keeps is the first element satisfying its predicate. */
  lemma {:induction false} FilterHead<T>(s: seq<T>, f: T -> bool) returns (i: nat)
    requires Filter(s, f) != []
    ensures i < |s| && f(s[i]) && Filter(s, f)[0] == s[i]
    ensures forall j :: 0 <= j < i ==> !f(s[j])
  {
    var init, last := s[..|s| - 1], s[|s| - 1];
    assert Filter(s, f) == Filter(init, f) + (if f(last) then [last] else []);
    if Filter(init, f) != [] {
      i := FilterHead(init, f);
      assert s[i] == init[i];
      forall j | 0 <= j < i ensures !f(s[j]) {
        assert s[j] == init[j];
      }
    } else {
      forall j | 0 <= j < |init| ensures !f(s[j]) {
        FilterMembership(init, f, init[j]);
        assert s[j] == init[j];
      }
      i := |s| - 1;
    }
  }

  /** A prefix one longer is the shorter prefix and the next element. */
  lemma TakeOneMore<T>(s: seq<T>, k: nat)
    requires k < |s|
    ensures s[..k + 1] == s[..k] + [s[k]]
    ensures |s[..k + 1]| == k + 1 && s[..k + 1][..k] == s[..k] && s[..k + 1][k] == s[k]
  {
  }

  /** A suffix is its first element followed by the next suffix. */
  lemma DropOne<T>(s: seq<T>, k: nat)
    requires k < |s|
    ensures s[k..][0] == s[k] && s[k..][1..] == s[k + 1..]
  {
  }

  // ---------------------------------------------------------------- distinct elements

  predicate NoDuplicates<T(==)>(s: seq<T>) {
    forall i, j :: 0 <= i < j < |s| ==> s[i] != s[j]
  }

  /** In a sequence without duplicates every value occurs at most once. */
  lemma {:induction false} NoDuplicatesAtMostOnce<T>(s: seq<T>, x: T)
    requires NoDuplicates(s)
    ensures multiset(s)[x] <= 1
    ensures x in s ==> multiset(s)[x] == 1
  {
    if s != [] {
      var init, last := s[..|s| - 1], s[|s| - 1];
      NoDuplicatesAtMostOnce(init, x);
      assert s == init + [last];
      if x == last {
        assert x !in init;
      }
    }
  }

  /** Rearranging a sequence without duplicates leaves none. */
  lemma NoDuplicatesPermuted<T>(s: seq<T>, t: seq<T>)
    requires multiset(s) == multiset(t)
    requires NoDuplicates(s)
    ensures NoDuplicates(t)
  {
    forall i, j | 0 <= i < j < |t| ensures t[i] != t[j] {
      NoDuplicatesAtMostOnce(s, t[j]);
      assert t == t[..j] + [t[j]] + t[j + 1..];
      assert t[i] in t[..j];
    }
  }
}

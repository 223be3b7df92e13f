/**
 * `Array.prototype.sort` with a comparator of the form `(a, b) => key(b) - key(a)`: since
 * ES2019 that sort is stable, so its result is the unique stable sort by descending key,
 * which is what insertion sort computes. Also `sort()` without a comparator on strings,
 * which orders them character by character.
 */
module Sorting {
  import Seqs

  /** Insertion of `x` after every element whose key is at least `key(x)`. */
  function Insert<T>(x: T, t: seq<T>, key: T -> int): (r: seq<T>)
    ensures |r| == |t| + 1
  {
    if t == [] then [x]
    else if key(t[0]) < key(x) then [x] + t
    else [t[0]] + Insert(x, t[1..], key)
  }

  function SortDesc<T>(s: seq<T>, key: T -> int): (r: seq<T>)
    ensures |r| == |s|
  {
    if s == [] then [] else Insert(s[|s| - 1], SortDesc(s[..|s| - 1], key), key)
  }

  /** Two elements whose keys increase are swapped. */
  lemma SortSwapsPair<T>(a: T, b: T, key: T -> int)
    requires key(a) < key(b)
    ensures SortDesc([a, b], key) == [b, a]
  {
    assert [a, b][..1] == [a];
    assert [a][..0] == [];
  }

  ghost predicate Descending<T>(s: seq<T>, key: T -> int) {
    forall i, j :: 0 <= i < j < |s| ==> key(s[i]) >= key(s[j])
  }

  /** The elements whose key is `k`, in order. */
  function WithKey<T>(s: seq<T>, key: T -> int, k: int): seq<T> {
    Seqs.Filter(s, x => key(x) == k)
  }

  lemma WithKeyConcat<T>(a: seq<T>, b: seq<T>, key: T -> int, k: int)
    ensures WithKey(a + b, key, k) == WithKey(a, key, k) + WithKey(b, key, k)
  {
    Seqs.FilterConcat(a, b, x => key(x) == k);
  }

  lemma WithKeyCons<T>(x: T, t: seq<T>, key: T -> int, k: int)
    ensures WithKey([x] + t, key, k) == (if key(x) == k then [x] else []) + WithKey(t, key, k)
  {
    WithKeyConcat([x], t, key, k);
    assert [x][..0] == [];
  }

  lemma WithKeyNone<T>(t: seq<T>, key: T -> int, k: int)
    requires forall i :: 0 <= i < |t| ==> key(t[i]) != k
    ensures WithKey(t, key, k) == []
  {
    if t != [] {
      WithKeyNone(t[..|t| - 1], key, k);
    }
  }

  lemma InsertPermutes<T>(x: T, t: seq<T>, key: T -> int)
    ensures multiset(Insert(x, t, key)) == multiset(t) + multiset{x}
  {
    if t != [] && key(t[0]) >= key(x) {
      InsertPermutes(x, t[1..], key);
      assert t == [t[0]] + t[1..];
    }
  }

  lemma InsertDescends<T>(x: T, t: seq<T>, key: T -> int)
    requires Descending(t, key)
    ensures Descending(Insert(x, t, key), key)
  {
    if t != [] && key(t[0]) >= key(x) {
      InsertDescends(x, t[1..], key);
      InsertPermutes(x, t[1..], key);
      var r := Insert(x, t[1..], key);
      forall y | y in r ensures key(t[0]) >= key(y) {
        assert y in multiset(r);
        if y != x {
          assert y in multiset(t[1..]);
        }
      }
      ConsDescends(t[0], r, key);
    }
  }

  /** A head whose key is at least every key of a descending tail keeps it descending. */
  lemma ConsDescends<T>(y: T, r: seq<T>, key: T -> int)
    requires Descending(r, key)
    requires forall z | z in r :: key(y) >= key(z)
    ensures Descending([y] + r, key)
  {
    forall i, j | 0 <= i < j < |[y] + r| ensures key(([y] + r)[i]) >= key(([y] + r)[j]) {
      assert ([y] + r)[j] == r[j - 1];
      if i > 0 {
        assert ([y] + r)[i] == r[i - 1];
      }
    }
  }

  lemma InsertKeepsKeyOrder<T>(x: T, t: seq<T>, key: T -> int, k: int)
    requires Descending(t, key)
    ensures WithKey(Insert(x, t, key), key, k) == WithKey(t, key, k) + (if key(x) == k then [x] else [])
  {
    if t == [] {
      WithKeyCons(x, [], key, k);
    } else if key(t[0]) < key(x) {
      WithKeyCons(x, t, key, k);
      if key(x) == k {
        WithKeyNone(t, key, k);
      }
    } else {
      InsertKeepsKeyOrder(x, t[1..], key, k);
      var r := Insert(x, t[1..], key);
      assert t == [t[0]] + t[1..];
      WithKeyCons(t[0], r, key, k);
      WithKeyCons(t[0], t[1..], key, k);
    }
  }

  /** Dropping elements keeps a descending sequence descending. */
  lemma {:induction false} FilterKeepsDescending<T>(s: seq<T>, key: T -> int, f: T -> bool)
    requires Descending(s, key)
    ensures Descending(Seqs.Filter(s, f), key)
  {
    if s != [] {
      var init, last := s[..|s| - 1], s[|s| - 1];
      var r := Seqs.Filter(init, f);
      FilterKeepsDescending(init, key, f);
      forall x | x in r ensures key(x) >= key(last) {
        Seqs.FilterMembership(init, f, x);
      }
    }
  }

  /** The sort is a permutation of its input. */
  lemma SortPermutes<T>(s: seq<T>, key: T -> int)
    ensures multiset(SortDesc(s, key)) == multiset(s)
  {
    SortFacts(s, key);
  }

  /** The sort orders by non-increasing key. */
  lemma SortDescends<T>(s: seq<T>, key: T -> int)
    ensures Descending(SortDesc(s, key), key)
  {
    SortFacts(s, key);
  }

  /** The sort is stable: the elements sharing a key keep their relative order. */
  lemma SortStable<T>(s: seq<T>, key: T -> int, k: int)
    ensures WithKey(SortDesc(s, key), key, k) == WithKey(s, key, k)
  {
    SortFacts(s, key);
  }

  lemma {:induction false} SortFacts<T>(s: seq<T>, key: T -> int)
    ensures Descending(SortDesc(s, key), key)
    ensures multiset(SortDesc(s, key)) == multiset(s)
    ensures forall k :: WithKey(SortDesc(s, key), key, k) == WithKey(s, key, k)
  {
    if s != [] {
      var init := s[..|s| - 1];
      SortFacts(init, key);
      var x, t := s[|s| - 1], SortDesc(init, key);
      InsertPermutes(x, t, key);
      InsertDescends(x, t, key);
      forall k ensures WithKey(Insert(x, t, key), key, k) == WithKey(s, key, k) {
        InsertKeepsKeyOrder(x, t, key, k);
        WithKeyConcat(init, [x], key, k);
        assert [x][..0] == [];
      }
      assert s == init + [s[|s| - 1]];
    }
  }

  /** Position of the first element with the largest key. */
  function FirstMaxIndex<T>(s: seq<T>, key: T -> int): (m: nat)
    requires s != []
    ensures m < |s|
    ensures forall i :: 0 <= i < |s| ==> key(s[i]) <= key(s[m])
    ensures forall i :: 0 <= i < m ==> key(s[i]) < key(s[m])
  {
    if |s| == 1 then 0
    else
      var m := FirstMaxIndex(s[..|s| - 1], key);
      if key(s[|s| - 1]) > key(s[m]) then |s| - 1 else m
  }

  lemma WithKeyFirst<T>(s: seq<T>, key: T -> int, m: nat)
    requires m < |s|
    requires forall i :: 0 <= i < m ==> key(s[i]) != key(s[m])
    ensures WithKey(s, key, key(s[m])) != [] && WithKey(s, key, key(s[m]))[0] == s[m]
  {
    assert s == s[..m] + ([s[m]] + s[m + 1..]);
    WithKeyConcat(s[..m], [s[m]] + s[m + 1..], key, key(s[m]));
    WithKeyNone(s[..m], key, key(s[m]));
    WithKeyCons(s[m], s[m + 1..], key, key(s[m]));
  }

  /** The head of the stable descending sort is the earliest element of largest key: the
      "first among ties" that `sorted[0]` selects. */
  lemma {:induction false} SortHeadIsFirstMax<T>(s: seq<T>, key: T -> int)
    requires s != []
    ensures SortDesc(s, key)[0] == s[FirstMaxIndex(s, key)]
  {
    var r := SortDesc(s, key);
    var m := FirstMaxIndex(s, key);
    SortFacts(s, key);
    assert r[0] in multiset(s);
    var top := key(s[m]);
    assert key(r[0]) == top by {
      assert s[m] in multiset(r);
      var j :| 0 <= j < |r| && r[j] == s[m];
      var i :| 0 <= i < |s| && s[i] == r[0];
    }
    WithKeyFirst(r, key, 0);
    WithKeyFirst(s, key, m);
  }

  // ---------------------------------------------------------------- sort() on strings

  /** The default string order of `sort()`: character by character, a prefix first. */
  predicate TextLe(a: string, b: string)
    decreases |a|
  {
    a == [] || (b != [] && (a[0] < b[0] || (a[0] == b[0] && TextLe(a[1..], b[1..]))))
  }

  lemma {:induction false} TextLeTotal(a: string, b: string)
    ensures TextLe(a, b) || TextLe(b, a)
    decreases |a|
  {
    if a != [] && b != [] && a[0] == b[0] {
      TextLeTotal(a[1..], b[1..]);
    }
  }

  lemma {:induction false} TextLeTransitive(a: string, b: string, c: string)
    requires TextLe(a, b) && TextLe(b, c)
    ensures TextLe(a, c)
    decreases |a|
  {
    if a != [] && a[0] == b[0] && b[0] == c[0] {
      TextLeTransitive(a[1..], b[1..], c[1..]);
    }
  }

  lemma {:induction false} TextLeAntisymmetric(a: string, b: string)
    requires TextLe(a, b) && TextLe(b, a)
    ensures a == b
    decreases |a|
  {
    if a != [] {
      TextLeAntisymmetric(a[1..], b[1..]);
      assert a == [a[0]] + a[1..] && b == [b[0]] + b[1..];
    }
  }

  ghost predicate Ascending(s: seq<string>) {
    forall i, j :: 0 <= i < j < |s| ==> TextLe(s[i], s[j])
  }

  /** Insertion of `x` before the first element it does not follow. */
  function InsertText(x: string, t: seq<string>): (r: seq<string>)
    ensures multiset(r) == multiset(t) + multiset{x}
  {
    if t == [] then [x]
    else if TextLe(x, t[0]) then [x] + t
    else
      assert t == [t[0]] + t[1..];
      [t[0]] + InsertText(x, t[1..])
  }

  /** `keys.sort()` */
  function SortTexts(s: seq<string>): (r: seq<string>)
    ensures multiset(r) == multiset(s)
  {
    if s == [] then []
    else
      assert s == s[..|s| - 1] + [s[|s| - 1]];
      InsertText(s[|s| - 1], SortTexts(s[..|s| - 1]))
  }

  lemma {:induction false} InsertTextAscends(x: string, t: seq<string>)
    requires Ascending(t)
    ensures Ascending(InsertText(x, t))
  {
    if t != [] {
      if TextLe(x, t[0]) {
        forall j | 0 < j < |t| ensures TextLe(x, t[j]) {
          TextLeTransitive(x, t[0], t[j]);
        }
      } else {
        var rest := InsertText(x, t[1..]);
        InsertTextAscends(x, t[1..]);
        TextLeTotal(x, t[0]);
        forall y | y in rest ensures TextLe(t[0], y) {
          assert y in multiset(rest);
          if y != x {
            assert y in t[1..];
          }
        }
      }
    }
  }

  /** The sorted keys are in ascending order. */
  lemma {:induction false} SortTextsAscends(s: seq<string>)
    ensures Ascending(SortTexts(s))
  {
    if s != [] {
      SortTextsAscends(s[..|s| - 1]);
      InsertTextAscends(s[|s| - 1], SortTexts(s[..|s| - 1]));
    }
  }
}

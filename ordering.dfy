/** Python's `sorted` as the tools use it: strings compare code point by code
    point, two-element rows compare by their first cell and then their
    second, and the sort returns the ordered arrangement of its input. */
module Ordering {
  import opened Text

  // ---------------------------------------------------------------- strings

  /** `a <= b` on Python strings: lexicographic by code point, a proper
      prefix before the longer string. */
  predicate StrLe(a: string, b: string)
    decreases |a|
  {
    |a| == 0 || (|b| > 0 && (a[0] < b[0] || (a[0] == b[0] && StrLe(a[1..], b[1..]))))
  }

  predicate StrLt(a: string, b: string) { StrLe(a, b) && a != b }

  lemma {:induction false} StrLeTotal(a: string, b: string)
    ensures StrLe(a, b) || StrLe(b, a)
  {
    if |a| > 0 && |b| > 0 && a[0] == b[0] {
      StrLeTotal(a[1..], b[1..]);
    }
  }

  lemma {:induction false} StrLeTransitive(a: string, b: string, c: string)
    requires StrLe(a, b) && StrLe(b, c)
    ensures StrLe(a, c)
  {
    if |a| > 0 && a[0] == b[0] && b[0] == c[0] {
      StrLeTransitive(a[1..], b[1..], c[1..]);
    }
  }

  lemma {:induction false} StrLeAntisymmetric(a: string, b: string)
    requires StrLe(a, b) && StrLe(b, a)
    ensures a == b
  {
    if |a| > 0 {
      StrLeAntisymmetric(a[1..], b[1..]);
      assert a == [a[0]] + a[1..] && b == [b[0]] + b[1..];
    }
  }

  // ---------------------------------------------------------------- two-cell rows

  /** Python's comparison of the rows `[x.0, x.1]` and `[y.0, y.1]`. */
  predicate PairLe(x: (string, string), y: (string, string)) {
    StrLt(x.0, y.0) || (x.0 == y.0 && StrLe(x.1, y.1))
  }

  // ---------------------------------------------------------------- orders

  ghost predicate TotalPreorder<T(!new)>(le: (T, T) -> bool) {
    && (forall a, b :: le(a, b) || le(b, a))
    && (forall a, b, c :: le(a, b) && le(b, c) ==> le(a, c))
  }

  ghost predicate Antisymmetric<T(!new)>(le: (T, T) -> bool) {
    forall a, b :: le(a, b) && le(b, a) ==> a == b
  }

  /** Python's string comparison is a total order. */
  lemma StrLeIsTotalOrder()
    ensures TotalPreorder(StrLe) && Antisymmetric(StrLe)
  {
    forall a, b ensures StrLe(a, b) || StrLe(b, a) { StrLeTotal(a, b); }
    forall a, b, c | StrLe(a, b) && StrLe(b, c) ensures StrLe(a, c) { StrLeTransitive(a, b, c); }
    forall a, b | StrLe(a, b) && StrLe(b, a) ensures a == b { StrLeAntisymmetric(a, b); }
  }

  /** So is Python's comparison of `[date, balance]` pairs. */
  lemma PairLeIsTotalOrder()
    ensures TotalPreorder(PairLe) && Antisymmetric(PairLe)
  {
    StrLeIsTotalOrder();
    forall x, y ensures PairLe(x, y) || PairLe(y, x) {
      StrLeTotal(x.0, y.0);
      StrLeTotal(x.1, y.1);
    }
    forall x, y, z | PairLe(x, y) && PairLe(y, z) ensures PairLe(x, z) {
      if x.0 != y.0 && y.0 != z.0 && x.0 == z.0 {
        StrLeAntisymmetric(x.0, y.0);
      }
    }
    forall x: (string, string), y: (string, string) | PairLe(x, y) && PairLe(y, x) ensures x == y {
      if x.0 != y.0 { StrLeAntisymmetric(x.0, y.0); }
    }
  }

  // ---------------------------------------------------------------- sorting

  predicate SortedBy<T>(s: seq<T>, le: (T, T) -> bool) {
    forall i, j :: 0 <= i < j < |s| ==> le(s[i], s[j])
  }

  function Insert<T>(x: T, s: seq<T>, le: (T, T) -> bool): (r: seq<T>)
    ensures multiset(r) == multiset(s) + multiset{x}
    ensures |r| == |s| + 1
  {
    if |s| == 0 then [x]
    else if le(x, s[0]) then [x] + s
    else
      assert s == [s[0]] + s[1..];
      [s[0]] + Insert(x, s[1..], le)
  }

  /** `sorted(s)`: the elements of `s`, each as often as in `s`. */
  function Sort<T>(s: seq<T>, le: (T, T) -> bool): (r: seq<T>)
    ensures multiset(r) == multiset(s)
    ensures |r| == |s|
  {
    if |s| == 0 then []
    else
      assert s == [s[0]] + s[1..];
      Insert(s[0], Sort(s[1..], le), le)
  }

  lemma {:induction false} InsertSorted<T(!new)>(x: T, s: seq<T>, le: (T, T) -> bool)
    requires TotalPreorder(le) && SortedBy(s, le)
    ensures SortedBy(Insert(x, s, le), le)
  {
    if |s| > 0 && !le(x, s[0]) {
      InsertSorted(x, s[1..], le);
      var r := Insert(x, s[1..], le);
      forall k | 0 <= k < |r| ensures le(s[0], r[k]) {
        assert r[k] in multiset(r);
        assert r[k] == x || r[k] in s[1..];
      }
    }
  }

  /** The result of `Sort` is in order. */
  lemma {:induction false} SortSorted<T(!new)>(s: seq<T>, le: (T, T) -> bool)
    requires TotalPreorder(le)
    ensures SortedBy(Sort(s, le), le)
  {
    if |s| > 0 {
      SortSorted(s[1..], le);
      InsertSorted(s[0], Sort(s[1..], le), le);
    }
  }

  lemma SortedHeads<T(!new)>(a: seq<T>, b: seq<T>, le: (T, T) -> bool)
    requires Antisymmetric(le)
    requires SortedBy(a, le) && SortedBy(b, le) && multiset(a) == multiset(b) && |a| > 0
    ensures |b| > 0 && a[0] == b[0]
  {
    assert a[0] in multiset(b);
    assert b[0] in multiset(a);
    var i :| 0 <= i < |b| && b[i] == a[0];
    var j :| 0 <= j < |a| && a[j] == b[0];
    if i > 0 && j > 0 {
      assert le(b[0], b[i]) && le(a[0], a[j]);
    }
  }

  /** Under an antisymmetric order there is only one ordered arrangement of a
      multiset, so `Sort` returns exactly what Python's `sorted` returns. */
  lemma {:induction false} SortedUnique<T(!new)>(a: seq<T>, b: seq<T>, le: (T, T) -> bool)
    requires Antisymmetric(le)
    requires SortedBy(a, le) && SortedBy(b, le) && multiset(a) == multiset(b)
    ensures a == b
  {
    if |a| > 0 {
      SortedHeads(a, b, le);
      TailMultiset(a);
      TailMultiset(b);
      SortedUnique(a[1..], b[1..], le);
    } else {
      assert |b| == |multiset(b)| == 0;
    }
  }

  /** The tail of a nonempty sequence holds its elements less one copy of
      the head. */
  lemma TailMultiset<T>(a: seq<T>)
    requires |a| > 0
    ensures multiset(a[1..]) == multiset(a) - multiset{a[0]}
  {
    assert a == [a[0]] + a[1..];
  }

  lemma {:induction false} InsertDistinct<T>(x: T, s: seq<T>, le: (T, T) -> bool)
    requires Distinct(s) && x !in s
    ensures Distinct(Insert(x, s, le))
  {
    if |s| > 0 && !le(x, s[0]) {
      InsertDistinct(x, s[1..], le);
      var r := Insert(x, s[1..], le);
      assert s[0] !in multiset(r) by { assert s[0] != x && s[0] !in s[1..]; }
    }
  }

  /** Sorting keeps the elements pairwise different if they were. */
  lemma {:induction false} SortDistinct<T>(s: seq<T>, le: (T, T) -> bool)
    requires Distinct(s)
    ensures Distinct(Sort(s, le))
  {
    if |s| > 0 {
      SortDistinct(s[1..], le);
      assert s[0] !in multiset(Sort(s[1..], le)) by { assert s[0] !in s[1..]; }
      InsertDistinct(s[0], Sort(s[1..], le), le);
    }
  }
}

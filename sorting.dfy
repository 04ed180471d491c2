/** Python's `list.sort(key=...)` on string keys: a stable sort by code-point order. */
module Sorting {

  /** Python's `a <= b` on strings: code-point lexicographic order, a prefix first. */
  predicate StrLe(a: string, b: string)
    decreases |a|
  {
    |a| == 0 || (|b| > 0 && (a[0] < b[0] || (a[0] == b[0] && StrLe(a[1..], b[1..]))))
  }

  lemma {:induction false} StrLeRefl(a: string)
    ensures StrLe(a, a)
    decreases |a|
  {
    if |a| > 0 { StrLeRefl(a[1..]); }
  }

  lemma {:induction false} StrLeTotal(a: string, b: string)
    ensures StrLe(a, b) || StrLe(b, a)
    decreases |a|
  {
    if |a| > 0 && |b| > 0 && a[0] == b[0] { StrLeTotal(a[1..], b[1..]); }
  }

  lemma {:induction false} StrLeTrans(a: string, b: string, c: string)
    requires StrLe(a, b) && StrLe(b, c)
    ensures StrLe(a, c)
    decreases |a|
  {
    if |a| > 0 && a[0] == b[0] && b[0] == c[0] { StrLeTrans(a[1..], b[1..], c[1..]); }
  }

  /** Keys in non-decreasing order. */
  ghost predicate Sorted<T>(s: seq<(string, T)>) {
    forall i, j :: 0 <= i < j < |s| ==> StrLe(s[i].0, s[j].0)
  }

  /** The elements whose key is k, in their order. */
  function WithKey<T>(s: seq<(string, T)>, k: string): seq<(string, T)> {
    if |s| == 0 then []
    else WithKey(s[..|s| - 1], k) + (if s[|s| - 1].0 == k then [s[|s| - 1]] else [])
  }

  lemma {:induction false} WithKeyAppend<T>(s: seq<(string, T)>, t: seq<(string, T)>, k: string)
    ensures WithKey(s + t, k) == WithKey(s, k) + WithKey(t, k)
    decreases |t|
  {
    if |t| == 0 {
      assert s + t == s;
    } else {
      assert (s + t)[..|s + t| - 1] == s + t[..|t| - 1];
      WithKeyAppend(s, t[..|t| - 1], k);
    }
  }

  /** Inserts x after every element whose key is at most x's. */
  function Insert<T>(x: (string, T), l: seq<(string, T)>): seq<(string, T)> {
    if |l| == 0 then [x]
    else if StrLe(l[|l| - 1].0, x.0) then l + [x]
    else Insert(x, l[..|l| - 1]) + [l[|l| - 1]]
  }

  /** A stable insertion sort by key. */
  function SortByKey<T>(s: seq<(string, T)>): seq<(string, T)> {
    if |s| == 0 then [] else Insert(s[|s| - 1], SortByKey(s[..|s| - 1]))
  }

  lemma {:induction false} InsertMultiset<T>(x: (string, T), l: seq<(string, T)>)
    ensures multiset(Insert(x, l)) == multiset(l) + multiset{x}
    decreases |l|
  {
    if |l| > 0 && !StrLe(l[|l| - 1].0, x.0) {
      InsertMultiset(x, l[..|l| - 1]);
      assert l == l[..|l| - 1] + [l[|l| - 1]];
    }
  }

  lemma {:induction false} InsertSorted<T>(x: (string, T), l: seq<(string, T)>)
    requires Sorted(l)
    ensures Sorted(Insert(x, l))
    ensures |Insert(x, l)| == |l| + 1
    ensures forall i :: 0 <= i < |Insert(x, l)| ==> Insert(x, l)[i] == x || exists j :: 0 <= j < |l| && Insert(x, l)[i] == l[j]
    decreases |l|
  {
    if |l| == 0 {
    } else if StrLe(l[|l| - 1].0, x.0) {
      var r := l + [x];
      forall i, j | 0 <= i < j < |r| ensures StrLe(r[i].0, r[j].0) {
        if j == |l| && i < |l| - 1 { StrLeTrans(l[i].0, l[|l| - 1].0, x.0); }
      }
    } else {
      var p := l[..|l| - 1];
      var y := l[|l| - 1];
      assert Sorted(p);
      InsertSorted(x, p);
      var q := Insert(x, p);
      var r := q + [y];
      StrLeTotal(y.0, x.0);
      forall i | 0 <= i < |q| ensures StrLe(q[i].0, y.0) {
        if q[i] != x {
          var j :| 0 <= j < |p| && q[i] == p[j];
          assert p[j] == l[j];
        }
      }
      forall i | 0 <= i < |r| ensures r[i] == x || exists j :: 0 <= j < |l| && r[i] == l[j] {
        if i < |q| && q[i] != x {
          var j :| 0 <= j < |p| && q[i] == p[j];
          assert l[j] == p[j];
        } else if i == |q| {
          assert r[i] == l[|l| - 1];
        }
      }
    }
  }

  /** Insertion puts x behind every element of equal key, so each key's elements keep their order. */
  lemma {:induction false} InsertWithKey<T>(x: (string, T), l: seq<(string, T)>, k: string)
    ensures WithKey(Insert(x, l), k) == WithKey(l, k) + (if x.0 == k then [x] else [])
    decreases |l|
  {
    if |l| == 0 {
      assert WithKey([x], k) == WithKey([x][..0], k) + (if x.0 == k then [x] else []);
    } else if StrLe(l[|l| - 1].0, x.0) {
      WithKeyAppend(l, [x], k);
      assert WithKey([x], k) == WithKey([x][..0], k) + (if x.0 == k then [x] else []);
    } else {
      var p := l[..|l| - 1];
      var y := l[|l| - 1];
      InsertWithKey(x, p, k);
      StrLeRefl(x.0);
      assert y.0 != x.0;
      assert (Insert(x, p) + [y])[..|Insert(x, p) + [y]| - 1] == Insert(x, p);
    }
  }

  /** The sort's promise: ordered by key, a permutation of its input, and stable (the elements of
      each key appear in their input order). */
  lemma {:induction false} SortByKeySpec<T>(s: seq<(string, T)>)
    ensures Sorted(SortByKey(s))
    ensures multiset(SortByKey(s)) == multiset(s)
    ensures forall k :: WithKey(SortByKey(s), k) == WithKey(s, k)
    decreases |s|
  {
    if |s| > 0 {
      var p := s[..|s| - 1];
      var x := s[|s| - 1];
      SortByKeySpec(p);
      InsertSorted(x, SortByKey(p));
      InsertMultiset(x, SortByKey(p));
      assert s == p + [x];
      forall k ensures WithKey(SortByKey(s), k) == WithKey(s, k) {
        InsertWithKey(x, SortByKey(p), k);
      }
    }
  }
}

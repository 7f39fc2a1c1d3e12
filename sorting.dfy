/** Python's `list.sort(key=k, reverse=True)` and `sorted(xs, key=k, reverse=True)`:
    a stable sort by descending key (elements with equal keys keep their input
    order). Modelled by a stable insertion sort on sequences. */
module Sorting {

  predicate SortedDesc<T>(s: seq<T>, key: T -> real) {
    forall i, j :: 0 <= i < j < |s| ==> key(s[i]) >= key(s[j])
  }

  /** Inserts `x` in front of the first element whose key is not larger than its own. */
  function Insert<T>(x: T, s: seq<T>, key: T -> real): (r: seq<T>)
    ensures |r| == |s| + 1
  {
    if s == [] || key(x) >= key(s[0]) then [x] + s
    else [s[0]] + Insert(x, s[1..], key)
  }

  function SortDesc<T>(s: seq<T>, key: T -> real): (r: seq<T>)
    ensures |r| == |s|
  {
    if s == [] then [] else Insert(s[0], SortDesc(s[1..], key), key)
  }

  /** The elements of `s` whose key is `k`, in order. */
  function WithKey<T>(s: seq<T>, key: T -> real, k: real): seq<T>
  {
    if s == [] then []
    else (if key(s[0]) == k then [s[0]] else []) + WithKey(s[1..], key, k)
  }

  /** `f` applied to every element, in order. */
  function Project<T, U>(s: seq<T>, f: T -> U): (r: seq<U>)
    ensures |r| == |s|
    ensures forall i :: 0 <= i < |s| ==> r[i] == f(s[i])
  {
    if s == [] then [] else [f(s[0])] + Project(s[1..], f)
  }

  ghost predicate Distinct<U>(s: seq<U>) {
    forall i, j :: 0 <= i < j < |s| ==> s[i] != s[j]
  }

  lemma {:induction false} InsertMultiset<T>(x: T, s: seq<T>, key: T -> real)
    ensures multiset(Insert(x, s, key)) == multiset(s) + multiset{x}
  {
    if s == [] || key(x) >= key(s[0]) {
    } else {
      InsertMultiset(x, s[1..], key);
      assert s == [s[0]] + s[1..];
    }
  }

  lemma {:induction false} InsertSorted<T>(x: T, s: seq<T>, key: T -> real)
    requires SortedDesc(s, key)
    ensures SortedDesc(Insert(x, s, key), key)
  {
    if s == [] || key(x) >= key(s[0]) {
    } else {
      var t := Insert(x, s[1..], key);
      InsertSorted(x, s[1..], key);
      InsertMultiset(x, s[1..], key);
      forall j | 0 <= j < |t| ensures key(s[0]) >= key(t[j]) {
        assert t[j] in multiset(t);
        if t[j] != x {
          assert t[j] in multiset(s[1..]);
          var m :| 0 <= m < |s[1..]| && s[1..][m] == t[j];
          assert s[m + 1] == t[j];
        }
      }
    }
  }

  lemma {:induction false} InsertWithKey<T>(x: T, s: seq<T>, key: T -> real, k: real)
    ensures WithKey(Insert(x, s, key), key, k) == (if key(x) == k then [x] else []) + WithKey(s, key, k)
  {
    if s == [] || key(x) >= key(s[0]) {
      WithKeyCons(x, s, key, k);
    } else {
      var t := Insert(x, s[1..], key);
      InsertWithKey(x, s[1..], key, k);
      WithKeyCons(s[0], t, key, k);
      WithKeyCons(s[0], s[1..], key, k);
      assert s == [s[0]] + s[1..];
    }
  }

  lemma WithKeyCons<T>(a: T, t: seq<T>, key: T -> real, k: real)
    ensures WithKey([a] + t, key, k) == (if key(a) == k then [a] else []) + WithKey(t, key, k)
  {
    assert ([a] + t)[1..] == t;
  }

  lemma {:induction false} InsertProject<T, U>(x: T, s: seq<T>, key: T -> real, f: T -> U)
    ensures multiset(Project(Insert(x, s, key), f)) == multiset(Project(s, f)) + multiset{f(x)}
  {
    if s == [] || key(x) >= key(s[0]) {
      assert Project([x] + s, f) == [f(x)] + Project(s, f);
    } else {
      InsertProject(x, s[1..], key, f);
      assert Project([s[0]] + Insert(x, s[1..], key), f) == [f(s[0])] + Project(Insert(x, s[1..], key), f);
      assert Project(s, f) == [f(s[0])] + Project(s[1..], f);
    }
  }

  /** A sequence with a new head is repetition-free exactly when its tail is
      and does not contain the head. */
  lemma ConsDistinct<U>(a: U, t: seq<U>)
    ensures Distinct([a] + t) <==> Distinct(t) && a !in t
  {
    var s := [a] + t;
    if Distinct(t) && a !in t {
      forall i, j | 0 <= i < j < |s| ensures s[i] != s[j] {
        if i > 0 {
          assert s[i] == t[i - 1] && s[j] == t[j - 1];
        } else {
          assert s[j] == t[j - 1];
        }
      }
    }
    if Distinct(s) {
      forall i, j | 0 <= i < j < |t| ensures t[i] != t[j] {
        assert t[i] == s[i + 1] && t[j] == s[j + 1];
      }
      forall j | 0 <= j < |t| ensures t[j] != a {
        assert t[j] == s[j + 1] && s[0] == a;
      }
    }
  }

  lemma {:induction false} InsertDistinct<T, U>(x: T, s: seq<T>, key: T -> real, f: T -> U)
    requires Distinct(Project(s, f))
    requires f(x) !in Project(s, f)
    ensures Distinct(Project(Insert(x, s, key), f))
  {
    if s == [] || key(x) >= key(s[0]) {
      assert Project([x] + s, f) == [f(x)] + Project(s, f);
      ConsDistinct(f(x), Project(s, f));
    } else {
      var ps := Project(s, f);
      var t := Insert(x, s[1..], key);
      assert ps == [f(s[0])] + Project(s[1..], f);
      ConsDistinct(f(s[0]), Project(s[1..], f));
      InsertDistinct(x, s[1..], key, f);
      InsertProject(x, s[1..], key, f);
      assert f(s[0]) !in multiset(Project(t, f));
      assert Project([s[0]] + t, f) == [f(s[0])] + Project(t, f);
      ConsDistinct(f(s[0]), Project(t, f));
    }
  }

  /** The sorted sequence is non-increasing in the key. */
  lemma {:induction false} SortDescSorted<T>(s: seq<T>, key: T -> real)
    ensures SortedDesc(SortDesc(s, key), key)
  {
    if s != [] {
      SortDescSorted(s[1..], key);
      InsertSorted(s[0], SortDesc(s[1..], key), key);
    }
  }

  /** The sorted sequence is a permutation of the input. */
  lemma {:induction false} SortDescPermutation<T>(s: seq<T>, key: T -> real)
    ensures multiset(SortDesc(s, key)) == multiset(s)
  {
    if s != [] {
      SortDescPermutation(s[1..], key);
      InsertMultiset(s[0], SortDesc(s[1..], key), key);
      assert s == [s[0]] + s[1..];
    }
  }

  /** Stability: for every key value, the elements carrying it appear in the
      output in exactly the order they had in the input. */
  lemma {:induction false} SortDescStable<T>(s: seq<T>, key: T -> real, k: real)
    ensures WithKey(SortDesc(s, key), key, k) == WithKey(s, key, k)
  {
    if s != [] {
      SortDescStable(s[1..], key, k);
      InsertWithKey(s[0], SortDesc(s[1..], key), key, k);
    }
  }

  /** Sorting permutes any projection of the elements in the same way. */
  lemma {:induction false} SortDescProject<T, U>(s: seq<T>, key: T -> real, f: T -> U)
    ensures multiset(Project(SortDesc(s, key), f)) == multiset(Project(s, f))
  {
    if s != [] {
      SortDescProject(s[1..], key, f);
      InsertProject(s[0], SortDesc(s[1..], key), key, f);
      assert Project(s, f) == [f(s[0])] + Project(s[1..], f);
    }
  }

  /** Sorting keeps a projection free of repetitions. */
  lemma {:induction false} SortDescDistinct<T, U>(s: seq<T>, key: T -> real, f: T -> U)
    requires Distinct(Project(s, f))
    ensures Distinct(Project(SortDesc(s, key), f))
  {
    if s != [] {
      var t := SortDesc(s[1..], key);
      assert Project(s, f) == [f(s[0])] + Project(s[1..], f);
      ConsDistinct(f(s[0]), Project(s[1..], f));
      SortDescDistinct(s[1..], key, f);
      SortDescProject(s[1..], key, f);
      assert f(s[0]) !in multiset(Project(t, f));
      InsertDistinct(s[0], t, key, f);
    }
  }
}

/** Order-preserving filtering of sequences, as done by a loop that appends the
    elements passing a test to a fresh list (or by a comprehension with `if`). */
module Subsequences {

  /** The elements of `s` satisfying `keep`, in their order in `s`. */
  function Keep<T>(s: seq<T>, keep: T -> bool): (r: seq<T>)
    ensures |r| <= |s|
  {
    if s == [] then []
    else Keep(s[..|s| - 1], keep) + (if keep(s[|s| - 1]) then [s[|s| - 1]] else [])
  }

  /** `idx` lists, in increasing order, positions of `b` holding the elements of `a`. */
  ghost predicate Embeds<T>(idx: seq<int>, a: seq<T>, b: seq<T>) {
    && |idx| == |a|
    && (forall i :: 0 <= i < |idx| ==> 0 <= idx[i] < |b| && a[i] == b[idx[i]])
    && (forall i, j :: 0 <= i < j < |idx| ==> idx[i] < idx[j])
  }

  /** `a` is `b` with some elements left out, the rest in their original order. */
  ghost predicate IsSubsequence<T>(a: seq<T>, b: seq<T>) {
    exists idx :: Embeds(idx, a, b)
  }

  /** An element is kept exactly when it occurs in the input and passes the test. */
  lemma {:induction false} KeepMembers<T>(s: seq<T>, keep: T -> bool)
    ensures forall x :: x in Keep(s, keep) <==> x in s && keep(x)
  {
    if s != [] {
      var init := s[..|s| - 1];
      KeepMembers(init, keep);
      assert s == init + [s[|s| - 1]];
    }
  }

  /** What is kept is an order-preserving subsequence of the input. */
  lemma {:induction false} KeepIsSubsequence<T>(s: seq<T>, keep: T -> bool)
    ensures IsSubsequence(Keep(s, keep), s)
  {
    var idx := KeepPositions(s, keep);
  }

  lemma {:induction false} KeepPositions<T>(s: seq<T>, keep: T -> bool) returns (idx: seq<int>)
    ensures Embeds(idx, Keep(s, keep), s)
  {
    if s == [] {
      idx := [];
    } else {
      var n := |s| - 1;
      var prev := KeepPositions(s[..n], keep);
      if keep(s[n]) {
        idx := prev + [n];
      } else {
        idx := prev;
      }
    }
  }

  /** A test that every element passes keeps the whole input. */
  lemma {:induction false} KeepAll<T>(s: seq<T>, keep: T -> bool)
    requires forall x :: x in s ==> keep(x)
    ensures Keep(s, keep) == s
  {
    if s != [] {
      KeepAll(s[..|s| - 1], keep);
      assert s == s[..|s| - 1] + [s[|s| - 1]];
    }
  }

  /** A test that no element passes keeps nothing. */
  lemma {:induction false} KeepNone<T>(s: seq<T>, keep: T -> bool)
    requires forall x :: x in s ==> !keep(x)
    ensures Keep(s, keep) == []
  {
    if s != [] {
      KeepNone(s[..|s| - 1], keep);
    }
  }
}

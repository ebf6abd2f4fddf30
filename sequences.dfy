/** Order-preserving selection from a sequence. */
module Sequences {

  /** `a` can be obtained from `b` by deleting elements, keeping the order of the rest. */
  predicate IsSubsequence<T(==)>(a: seq<T>, b: seq<T>)
    decreases |b|
  {
    a == [] ||
    (b != [] &&
      ((a[|a| - 1] == b[|b| - 1] && IsSubsequence(a[..|a| - 1], b[..|b| - 1])) ||
        IsSubsequence(a, b[..|b| - 1])))
  }

  lemma ExtendBoth<T>(a: seq<T>, b: seq<T>, x: T)
    requires IsSubsequence(a, b)
    ensures IsSubsequence(a + [x], b + [x])
  {
    var a', b' := a + [x], b + [x];
    assert a'[..|a'| - 1] == a && b'[..|b'| - 1] == b;
  }

  lemma ExtendRight<T>(a: seq<T>, b: seq<T>, x: T)
    requires IsSubsequence(a, b)
    ensures IsSubsequence(a, b + [x])
  {
    var b' := b + [x];
    assert b'[..|b'| - 1] == b;
  }

  /** A subsequence only holds elements of the sequence it was taken from. */
  lemma {:induction false} SubsequenceMembers<T>(a: seq<T>, b: seq<T>)
    requires IsSubsequence(a, b)
    ensures forall x :: x in a ==> x in b
    decreases |b|
  {
    if a != [] {
      var a', b' := a[..|a| - 1], b[..|b| - 1];
      if a[|a| - 1] == b[|b| - 1] && IsSubsequence(a', b') {
        SubsequenceMembers(a', b');
        assert a == a' + [a[|a| - 1]];
        assert b == b' + [b[|b| - 1]];
      } else {
        SubsequenceMembers(a, b');
        assert b == b' + [b[|b| - 1]];
      }
    }
  }

  /** Taking a subsequence of a subsequence yields a subsequence. */
  lemma {:induction false} SubsequenceTransitive<T>(a: seq<T>, b: seq<T>, c: seq<T>)
    requires IsSubsequence(a, b) && IsSubsequence(b, c)
    ensures IsSubsequence(a, c)
    decreases |c|
  {
    if a != [] {
      var a', b', c' := a[..|a| - 1], b[..|b| - 1], c[..|c| - 1];
      if b[|b| - 1] == c[|c| - 1] && IsSubsequence(b', c') {
        if a[|a| - 1] == b[|b| - 1] && IsSubsequence(a', b') {
          SubsequenceTransitive(a', b', c');
        } else {
          SubsequenceTransitive(a, b', c');
        }
      } else {
        SubsequenceTransitive(a, b, c');
      }
    }
  }

  /** Some occurrence of `x` in `a` comes before some occurrence of `y`. */
  predicate Precedes<T(==)>(a: seq<T>, x: T, y: T) {
    exists p, q :: 0 <= p < q < |a| && a[p] == x && a[q] == y
  }

  lemma PrecedesExtend<T>(a: seq<T>, b: seq<T>, x: T, y: T)
    requires Precedes(a, x, y)
    ensures Precedes(a + b, x, y)
  {
    var p, q :| 0 <= p < q < |a| && a[p] == x && a[q] == y;
    assert (a + b)[p] == x && (a + b)[q] == y;
  }

  lemma PrecedesLast<T>(a: seq<T>, x: T, y: T)
    requires x in a
    ensures Precedes(a + [y], x, y)
  {
    var p :| 0 <= p < |a| && a[p] == x;
    assert (a + [y])[p] == x && (a + [y])[|a|] == y;
  }
}

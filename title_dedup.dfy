/** Removal of meetings whose title was already seen: the first meeting with each title
    is kept, in the order the meetings arrived. */
module TitleDedup {
  import opened Calendar
  import opened Sequences

  /** No meeting before position `i` has the title of `s[i]`. */
  predicate IsFirstOfTitle(s: seq<Meeting>, i: int)
    requires 0 <= i < |s|
  {
    forall j :: 0 <= j < i ==> s[j].title != s[i].title
  }

  /** The meetings among the first `n` of `s` that are the first with their title, in order. */
  function FirstOfEachTitle(s: seq<Meeting>, n: nat): seq<Meeting>
    requires n <= |s|
  {
    if n == 0 then []
    else FirstOfEachTitle(s, n - 1) + (if IsFirstOfTitle(s, n - 1) then [s[n - 1]] else [])
  }

  function Dedup(s: seq<Meeting>): seq<Meeting> {
    FirstOfEachTitle(s, |s|)
  }

  function TitlesOf(s: seq<Meeting>): set<string> {
    set m | m in s :: m.title
  }

  predicate DistinctTitles(s: seq<Meeting>) {
    forall i, j :: 0 <= i < j < |s| ==> s[i].title != s[j].title
  }

  lemma TitlesOfAppend(s: seq<Meeting>, m: Meeting)
    ensures TitlesOf(s + [m]) == TitlesOf(s) + {m.title}
  {
    assert m in s + [m];
    forall t | t in TitlesOf(s)
      ensures t in TitlesOf(s + [m])
    {
      var x :| x in s && x.title == t;
      assert x in s + [m];
    }
  }

  /** The titles of the first `n` meetings of `s`. */
  function PrefixTitles(s: seq<Meeting>, n: nat): set<string>
    requires n <= |s|
  {
    set j | 0 <= j < n :: s[j].title
  }

  lemma PrefixTitlesStep(s: seq<Meeting>, n: nat)
    requires 0 < n <= |s|
    ensures PrefixTitles(s, n) == PrefixTitles(s, n - 1) + {s[n - 1].title}
  {
    forall t | t in PrefixTitles(s, n)
      ensures t in PrefixTitles(s, n - 1) + {s[n - 1].title}
    {
      var j :| 0 <= j < n && s[j].title == t;
      if j < n - 1 {
        assert t in PrefixTitles(s, n - 1);
      }
    }
  }

  /** The kept meetings carry exactly the titles of the meetings seen so far. */
  lemma {:induction false} FirstsTitles(s: seq<Meeting>, n: nat)
    requires n <= |s|
    ensures TitlesOf(FirstOfEachTitle(s, n)) == PrefixTitles(s, n)
  {
    if n > 0 {
      FirstsTitles(s, n - 1);
      PrefixTitlesStep(s, n);
      var r := FirstOfEachTitle(s, n - 1);
      if IsFirstOfTitle(s, n - 1) {
        TitlesOfAppend(r, s[n - 1]);
      } else {
        var j :| 0 <= j < n - 1 && s[j].title == s[n - 1].title;
        assert s[n - 1].title in PrefixTitles(s, n - 1);
        assert FirstOfEachTitle(s, n) == r;
      }
    }
  }

  lemma {:induction false} FirstsDistinct(s: seq<Meeting>, n: nat)
    requires n <= |s|
    ensures DistinctTitles(FirstOfEachTitle(s, n))
  {
    if n > 0 {
      FirstsDistinct(s, n - 1);
      var r := FirstOfEachTitle(s, n - 1);
      if IsFirstOfTitle(s, n - 1) {
        FirstsTitles(s, n - 1);
        forall i | 0 <= i < |r|
          ensures r[i].title != s[n - 1].title
        {
          assert r[i].title in TitlesOf(r);
        }
      }
    }
  }

  lemma {:induction false} FirstsSubsequence(s: seq<Meeting>, n: nat)
    requires n <= |s|
    ensures IsSubsequence(FirstOfEachTitle(s, n), s[..n])
  {
    if n > 0 {
      FirstsSubsequence(s, n - 1);
      var r := FirstOfEachTitle(s, n - 1);
      var prefix, x := s[..n - 1], s[n - 1];
      assert s[..n] == prefix + [x];
      if IsFirstOfTitle(s, n - 1) {
        assert FirstOfEachTitle(s, n) == r + [x];
        ExtendBoth(r, prefix, x);
      } else {
        assert FirstOfEachTitle(s, n) == r;
        ExtendRight(r, prefix, x);
      }
    }
  }

  lemma {:induction false} FirstsAreFirst(s: seq<Meeting>, n: nat)
    requires n <= |s|
    ensures forall m :: m in FirstOfEachTitle(s, n) ==>
      exists i :: 0 <= i < n && s[i] == m && IsFirstOfTitle(s, i)
  {
    if n > 0 {
      FirstsAreFirst(s, n - 1);
    }
  }

  lemma {:induction false} FirstKept(s: seq<Meeting>, n: nat, i: nat)
    requires i < n <= |s| && IsFirstOfTitle(s, i)
    ensures s[i] in FirstOfEachTitle(s, n)
  {
    var r := FirstOfEachTitle(s, n - 1);
    if i < n - 1 {
      FirstKept(s, n - 1, i);
      assert FirstOfEachTitle(s, n)[..|r|] == r;
    } else {
      assert FirstOfEachTitle(s, n) == r + [s[i]];
    }
  }

  /** Two meetings that are each the first with their title are kept in input order. */
  lemma {:induction false} FirstsOrdered(s: seq<Meeting>, n: nat, i: nat, j: nat)
    requires i < j < n <= |s| && IsFirstOfTitle(s, i) && IsFirstOfTitle(s, j)
    ensures Precedes(FirstOfEachTitle(s, n), s[i], s[j])
  {
    var r := FirstOfEachTitle(s, n - 1);
    if j < n - 1 {
      FirstsOrdered(s, n - 1, i, j);
      PrecedesExtend(r, if IsFirstOfTitle(s, n - 1) then [s[n - 1]] else [], s[i], s[j]);
    } else {
      FirstKept(s, n - 1, i);
      PrecedesLast(r, s[i], s[j]);
    }
  }

  /** Deduplication keeps, in their original order, exactly the meetings that are the
      first with their title: the result is a subsequence of the input, no two kept
      meetings share a title, and every input title is still present. */
  lemma DedupSpec(s: seq<Meeting>)
    ensures IsSubsequence(Dedup(s), s)
    ensures DistinctTitles(Dedup(s))
    ensures TitlesOf(Dedup(s)) == TitlesOf(s)
    ensures forall m :: m in Dedup(s) ==> exists i :: 0 <= i < |s| && s[i] == m && IsFirstOfTitle(s, i)
    ensures forall i :: 0 <= i < |s| && IsFirstOfTitle(s, i) ==> s[i] in Dedup(s)
    ensures forall i, j :: 0 <= i < j < |s| && IsFirstOfTitle(s, i) && IsFirstOfTitle(s, j) ==>
      Precedes(Dedup(s), s[i], s[j])
  {
    FirstsSubsequence(s, |s|);
    assert s[..|s|] == s;
    FirstsDistinct(s, |s|);
    FirstsTitles(s, |s|);
    assert TitlesOf(s) == PrefixTitles(s, |s|) by {
      forall t | t in TitlesOf(s)
        ensures t in PrefixTitles(s, |s|)
      {
        var m :| m in s && m.title == t;
        var j :| 0 <= j < |s| && s[j] == m;
      }
    }
    FirstsAreFirst(s, |s|);
    forall i | 0 <= i < |s| && IsFirstOfTitle(s, i)
      ensures s[i] in Dedup(s)
    {
      FirstKept(s, |s|, i);
    }
    forall i, j | 0 <= i < j < |s| && IsFirstOfTitle(s, i) && IsFirstOfTitle(s, j)
      ensures Precedes(Dedup(s), s[i], s[j])
    {
      FirstsOrdered(s, |s|, i, j);
    }
  }

  /** The duplicate-removal loop: a set of seen titles grows alongside the list of kept meetings. */
  method RemoveDuplicateTitles(all: seq<Meeting>) returns (unique: seq<Meeting>)
    ensures unique == Dedup(all)
  {
    unique := [];
    var seenTitles: set<string> := {};
    for i := 0 to |all|
      invariant unique == FirstOfEachTitle(all, i)
      invariant seenTitles == TitlesOf(unique)
    {
      FirstsTitles(all, i);
      if all[i].title !in seenTitles {
        TitlesOfAppend(unique, all[i]);
        unique := unique + [all[i]];
        seenTitles := seenTitles + {all[i].title};
      } else {
        assert !IsFirstOfTitle(all, i);
      }
    }
  }
}

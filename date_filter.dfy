/** The client-side date filter: keep the meetings whose start falls on the target date. */
module DateFilter {
  import opened Calendar
  import opened Sequences

  /** The meeting has a start time, and that start's date is `d`. */
  predicate StartsOn(m: Meeting, d: Date) {
    m.start.Some? && m.start.value.date == d
  }

  function OnDate(s: seq<Meeting>, d: Date): seq<Meeting> {
    if s == [] then []
    else OnDate(s[..|s| - 1], d) + (if StartsOn(s[|s| - 1], d) then [s[|s| - 1]] else [])
  }

  lemma {:induction false} OnDateSubsequence(s: seq<Meeting>, d: Date)
    ensures IsSubsequence(OnDate(s, d), s)
  {
    if s != [] {
      var init := s[..|s| - 1];
      OnDateSubsequence(init, d);
      var r := OnDate(init, d);
      assert s == init + [s[|s| - 1]];
      if StartsOn(s[|s| - 1], d) {
        ExtendBoth(r, init, s[|s| - 1]);
      } else {
        assert OnDate(s, d) == r;
        ExtendRight(r, init, s[|s| - 1]);
      }
    }
  }

  lemma {:induction false} OnDateCounts(s: seq<Meeting>, d: Date)
    ensures forall m :: multiset(OnDate(s, d))[m] == if StartsOn(m, d) then multiset(s)[m] else 0
  {
    if s != [] {
      var init, last := s[..|s| - 1], s[|s| - 1];
      OnDateCounts(init, d);
      assert s == init + [last];
      assert multiset(s) == multiset(init) + multiset{last};
    }
  }

  /** Two meetings that start on `d` keep their relative order through the filter. */
  lemma {:induction false} OnDateOrdered(s: seq<Meeting>, d: Date, i: nat, j: nat)
    requires i < j < |s| && StartsOn(s[i], d) && StartsOn(s[j], d)
    ensures Precedes(OnDate(s, d), s[i], s[j])
  {
    var init := s[..|s| - 1];
    var r := OnDate(init, d);
    if j < |s| - 1 {
      OnDateOrdered(init, d, i, j);
      PrecedesExtend(r, if StartsOn(s[|s| - 1], d) then [s[|s| - 1]] else [], s[i], s[j]);
    } else {
      OnDateSpec(init, d);
      assert init[i] == s[i];
      PrecedesLast(r, s[i], s[j]);
    }
  }

  /** The filter keeps exactly the meetings that start on `d`, each as often as it
      occurs, in their original order; meetings without a start are dropped. */
  lemma OnDateSpec(s: seq<Meeting>, d: Date)
    ensures IsSubsequence(OnDate(s, d), s)
    ensures forall m :: m in OnDate(s, d) <==> m in s && StartsOn(m, d)
    ensures forall m :: multiset(OnDate(s, d))[m] == if StartsOn(m, d) then multiset(s)[m] else 0
  {
    OnDateSubsequence(s, d);
    OnDateCounts(s, d);
    forall m
      ensures m in OnDate(s, d) <==> m in s && StartsOn(m, d)
    {
      assert m in OnDate(s, d) <==> multiset(OnDate(s, d))[m] > 0;
      assert m in s <==> multiset(s)[m] > 0;
    }
  }

  /** The filtering loop, appending each meeting that starts on the target date. */
  method KeepOnDate(meetings: seq<Meeting>, target: Date) returns (filtered: seq<Meeting>)
    ensures filtered == OnDate(meetings, target)
  {
    filtered := [];
    for i := 0 to |meetings|
      invariant filtered == OnDate(meetings[..i], target)
    {
      assert meetings[..i + 1][..i] == meetings[..i];
      var meeting := meetings[i];
      if meeting.start.Some? {
        if meeting.start.value.date == target {
          filtered := filtered + [meeting];
        }
      }
    }
    assert meetings[..|meetings|] == meetings;
  }
}

/** The date lookup of the `/meetings/<date_str>` route: search the literal date string,
    then six reformatted date strings until one finds something, then scan seven generic
    keywords, drop repeated titles and keep the meetings that start on the target date. */
module DateLookup {
  import opened Wrappers
  import opened Calendar
  import opened Sequences
  import opened DateStrings
  import opened TitleDedup
  import opened DateFilter

  /** Result limit of the literal and reformatted date searches. */
  const DATE_LIMIT: nat := 10

  /** Result limit of each keyword search. */
  const KEYWORD_LIMIT: nat := 20

  const KEYWORDS: seq<string> :=
    ["meeting", "interview", "call", "appointment", "session", "discussion", "event"]

  /** An outcome that ends the date strategies: the search raised, or it found meetings. */
  predicate EndsSearch(o: SearchOutcome) {
    o.Failure? || o.value != []
  }

  /** The position of the first outcome that ends the date strategies, or `|os|` if none does. */
  function FirstHit(os: seq<SearchOutcome>): (k: nat)
    ensures k <= |os|
    ensures forall j :: 0 <= j < k ==> os[j] == Success([])
    ensures k < |os| ==> EndsSearch(os[k])
  {
    if os == [] then 0
    else if EndsSearch(os[0]) then 0
    else 1 + FirstHit(os[1..])
  }

  /** All meetings of successful outcomes, concatenated in order. */
  function Concat(os: seq<SearchOutcome>): seq<Meeting>
    requires forall j :: 0 <= j < |os| ==> os[j].Success?
  {
    if os == [] then [] else Concat(os[..|os| - 1]) + os[|os| - 1].value
  }

  /** The outcome and the search calls of a lookup. */
  datatype Lookup = Lookup(outcome: SearchOutcome, log: seq<Query>)

  /** The keyword scan: stops at a search that raises (the lookup then keeps its
      empty list); otherwise deduplicates the concatenated results and filters by date. */
  function KeywordScan(target: Date, search: Search): Lookup {
    var os := Outcomes(KEYWORDS, KEYWORD_LIMIT, search);
    var k := FirstFailure(os);
    if k < |os| then Lookup(Success([]), Queries(KEYWORDS[..k + 1], KEYWORD_LIMIT))
    else Lookup(Success(OnDate(Dedup(Concat(os)), target)), Queries(KEYWORDS, KEYWORD_LIMIT))
  }

  /** What the date lookup returns and which searches it makes, strategy by strategy. */
  function Resolve(dateStr: string, target: CalendarDate, search: Search): Lookup {
    var literal := Query(dateStr, DATE_LIMIT);
    var first := search(dateStr, DATE_LIMIT);
    if EndsSearch(first) then Lookup(first, [literal])
    else
      var formats := DateFormats(target);
      var os := Outcomes(formats, DATE_LIMIT, search);
      var k := FirstHit(os);
      if k < |os| then Lookup(os[k], [literal] + Queries(formats[..k + 1], DATE_LIMIT))
      else
        var scan := KeywordScan(target, search);
        Lookup(scan.outcome, [literal] + Queries(formats, DATE_LIMIT) + scan.log)
  }

  // ---------------------------------------------------------------------------------
  // Properties of the lookup

  /** The literal date string is searched first, and nothing else is searched unless that
      search returned an empty list. */
  lemma LiteralFirst(dateStr: string, target: CalendarDate, search: Search)
    ensures var r := Resolve(dateStr, target, search);
      && |r.log| >= 1 && r.log[0] == Query(dateStr, DATE_LIMIT)
      && (|r.log| > 1 <==> search(dateStr, DATE_LIMIT) == Success([]))
      && (|r.log| == 1 ==> r.outcome == search(dateStr, DATE_LIMIT))
  {
  }

  /** A log made of one query, the format searches up to the first hit, and (when nothing
      hit) further queries: its entries after the first are the formats in order, each
      searched only after every earlier format returned an empty list, and a format that
      ends the search is the first hit and the last entry. */
  lemma {:induction false} FormatSearches(formats: seq<string>, search: Search, first: Query, rest: seq<Query>,
                                          log: seq<Query>)
    requires var os := Outcomes(formats, DATE_LIMIT, search); var k := FirstHit(os);
      log == [first] + Queries(formats[..if k < |os| then k + 1 else k], DATE_LIMIT) + (if k < |os| then [] else rest)
    ensures forall j :: 0 <= j < |formats| && j + 1 < |log| ==>
      && log[j + 1] == Query(formats[j], DATE_LIMIT)
      && (forall i :: 0 <= i < j ==> search(formats[i], DATE_LIMIT) == Success([]))
    ensures forall j :: 0 <= j < |formats| && j + 1 < |log| && EndsSearch(search(formats[j], DATE_LIMIT)) ==>
      |log| == j + 2 && j == FirstHit(Outcomes(formats, DATE_LIMIT, search))
  {
    var os := Outcomes(formats, DATE_LIMIT, search);
    var k := FirstHit(os);
    var n := if k < |os| then k + 1 else k;
    forall j | 0 <= j < |formats| && j + 1 < |log|
      ensures log[j + 1] == Query(formats[j], DATE_LIMIT)
      ensures forall i :: 0 <= i < j ==> search(formats[i], DATE_LIMIT) == Success([])
    {
      assert j < n;
      forall i | 0 <= i < j
        ensures search(formats[i], DATE_LIMIT) == Success([])
      {
        assert os[i] == search(formats[i], DATE_LIMIT);
      }
    }
    forall j | 0 <= j < |formats| && j + 1 < |log| && EndsSearch(search(formats[j], DATE_LIMIT))
      ensures |log| == j + 2 && j == k
    {
      assert os[j] == search(formats[j], DATE_LIMIT);
    }
  }

  /** The reformatted strings are searched in their listed order; each is searched only
      when the literal string and every earlier format returned an empty list, and the
      first format that finds something (or raises) is the last one searched and gives
      the lookup's outcome. */
  lemma FormatsInOrder(dateStr: string, target: CalendarDate, search: Search)
    ensures var r, formats := Resolve(dateStr, target, search), DateFormats(target);
      && |r.log| <= 1 + |formats| + |KEYWORDS|
      && (forall j :: 0 <= j < |formats| && j + 1 < |r.log| ==>
            && r.log[j + 1] == Query(formats[j], DATE_LIMIT)
            && search(dateStr, DATE_LIMIT) == Success([])
            && (forall i :: 0 <= i < j ==> search(formats[i], DATE_LIMIT) == Success([])))
      && (forall j :: 0 <= j < |formats| && j + 1 < |r.log| && EndsSearch(search(formats[j], DATE_LIMIT)) ==>
            |r.log| == j + 2 && r.outcome == search(formats[j], DATE_LIMIT))
  {
    var r, formats := Resolve(dateStr, target, search), DateFormats(target);
    if !EndsSearch(search(dateStr, DATE_LIMIT)) {
      var os := Outcomes(formats, DATE_LIMIT, search);
      var k := FirstHit(os);
      var scan := KeywordScan(target, search);
      assert |scan.log| <= |KEYWORDS|;
      FormatSearches(formats, search, Query(dateStr, DATE_LIMIT), scan.log, r.log);
      if k < |os| {
        assert os[k] == search(formats[k], DATE_LIMIT);
      }
    }
  }

  /** A log that ends with the keyword scan's searches: after `prefix` come the keywords in
      order, each searched only after every earlier keyword search succeeded. */
  lemma {:induction false} KeywordSearches(search: Search, prefix: seq<Query>, log: seq<Query>)
    requires var os := Outcomes(KEYWORDS, KEYWORD_LIMIT, search); var k := FirstFailure(os);
      log == prefix + Queries(KEYWORDS[..if k < |os| then k + 1 else k], KEYWORD_LIMIT)
    ensures |log| <= |prefix| + |KEYWORDS|
    ensures forall j :: 0 <= j < |KEYWORDS| && |prefix| + j < |log| ==>
      && log[|prefix| + j] == Query(KEYWORDS[j], KEYWORD_LIMIT)
      && (forall i :: 0 <= i < j ==> search(KEYWORDS[i], KEYWORD_LIMIT).Success?)
  {
    var os := Outcomes(KEYWORDS, KEYWORD_LIMIT, search);
    forall j | 0 <= j < |KEYWORDS| && |prefix| + j < |log|
      ensures log[|prefix| + j] == Query(KEYWORDS[j], KEYWORD_LIMIT)
      ensures forall i :: 0 <= i < j ==> search(KEYWORDS[i], KEYWORD_LIMIT).Success?
    {
      forall i | 0 <= i < j
        ensures search(KEYWORDS[i], KEYWORD_LIMIT).Success?
      {
        assert os[i] == search(KEYWORDS[i], KEYWORD_LIMIT);
      }
    }
  }

  /** The keyword scan runs only after the literal string and all six formats returned
      empty lists; it searches the seven keywords in order with limit 20, and a keyword
      is searched only when every earlier keyword search succeeded. */
  lemma KeywordsLast(dateStr: string, target: CalendarDate, search: Search)
    ensures var r, formats := Resolve(dateStr, target, search), DateFormats(target);
      var base := 1 + |formats|;
      && |r.log| <= base + |KEYWORDS|
      && (|r.log| > base ==>
            && search(dateStr, DATE_LIMIT) == Success([])
            && (forall j :: 0 <= j < |formats| ==> search(formats[j], DATE_LIMIT) == Success([])))
      && (forall j :: 0 <= j < |KEYWORDS| && base + j < |r.log| ==>
            && r.log[base + j] == Query(KEYWORDS[j], KEYWORD_LIMIT)
            && (forall i :: 0 <= i < j ==> search(KEYWORDS[i], KEYWORD_LIMIT).Success?))
  {
    var r, formats := Resolve(dateStr, target, search), DateFormats(target);
    if !EndsSearch(search(dateStr, DATE_LIMIT)) {
      var os := Outcomes(formats, DATE_LIMIT, search);
      var k := FirstHit(os);
      if k == |os| {
        forall j | 0 <= j < |formats|
          ensures search(formats[j], DATE_LIMIT) == Success([])
        {
          assert os[j] == search(formats[j], DATE_LIMIT);
        }
        KeywordSearches(search, [Query(dateStr, DATE_LIMIT)] + Queries(formats, DATE_LIMIT), r.log);
      }
    }
  }

  /** Conversely, format `j` is searched whenever the literal string and every earlier
      format returned an empty list. */
  lemma FormatReached(dateStr: string, target: CalendarDate, search: Search, j: nat)
    requires j < |DateFormats(target)|
    requires search(dateStr, DATE_LIMIT) == Success([])
    requires forall i :: 0 <= i < j ==> search(DateFormats(target)[i], DATE_LIMIT) == Success([])
    ensures var r := Resolve(dateStr, target, search);
      j + 1 < |r.log| && r.log[j + 1] == Query(DateFormats(target)[j], DATE_LIMIT)
  {
    var formats := DateFormats(target);
    var os := Outcomes(formats, DATE_LIMIT, search);
    forall i | 0 <= i < j
      ensures os[i] == Success([])
    {
      assert os[i] == search(formats[i], DATE_LIMIT);
    }
    assert FirstHit(os) >= j;
    FormatsInOrder(dateStr, target, search);
    KeywordsLast(dateStr, target, search);
  }

  /** Conversely, once the literal string and all six formats returned empty lists,
      keyword `j` is searched whenever every earlier keyword search succeeded. */
  lemma KeywordReached(dateStr: string, target: CalendarDate, search: Search, j: nat)
    requires j < |KEYWORDS|
    requires search(dateStr, DATE_LIMIT) == Success([])
    requires forall i :: 0 <= i < |DateFormats(target)| ==> search(DateFormats(target)[i], DATE_LIMIT) == Success([])
    requires forall i :: 0 <= i < j ==> search(KEYWORDS[i], KEYWORD_LIMIT).Success?
    ensures var r, base := Resolve(dateStr, target, search), 1 + |DateFormats(target)|;
      base + j < |r.log| && r.log[base + j] == Query(KEYWORDS[j], KEYWORD_LIMIT)
  {
    var formats := DateFormats(target);
    var os := Outcomes(formats, DATE_LIMIT, search);
    forall i | 0 <= i < |os|
      ensures os[i] == Success([])
    {
      assert os[i] == search(formats[i], DATE_LIMIT);
    }
    assert FirstHit(os) == |os|;
    var kos := Outcomes(KEYWORDS, KEYWORD_LIMIT, search);
    forall i | 0 <= i < j
      ensures kos[i].Success?
    {
      assert kos[i] == search(KEYWORDS[i], KEYWORD_LIMIT);
    }
    assert FirstFailure(kos) >= j;
    KeywordsLast(dateStr, target, search);
  }

  /** The keyword scan's selection from the collected meetings `all`: meetings that start
      on `d`, with pairwise distinct titles, in collection order; a collected meeting is
      kept exactly when it starts on `d` and is the first collected meeting with its title,
      and two kept meetings appear in the order they were first collected. */
  lemma ScanSelection(all: seq<Meeting>, d: Date)
    ensures var r := OnDate(Dedup(all), d);
      && IsSubsequence(r, all)
      && DistinctTitles(r)
      && (forall m :: m in r <==>
            StartsOn(m, d) && exists i :: 0 <= i < |all| && all[i] == m && IsFirstOfTitle(all, i))
      && forall i, j ::
           (0 <= i < j < |all| && IsFirstOfTitle(all, i) && IsFirstOfTitle(all, j) &&
            StartsOn(all[i], d) && StartsOn(all[j], d)) ==>
           Precedes(r, all[i], all[j])
  {
    var unique := Dedup(all);
    var r := OnDate(unique, d);
    DedupSpec(all);
    OnDateSpec(unique, d);
    SubsequenceTransitive(r, unique, all);
    FilteredStaysDistinct(unique, d);
    forall i, j | 0 <= i < j < |all| && IsFirstOfTitle(all, i) && IsFirstOfTitle(all, j)
                  && StartsOn(all[i], d) && StartsOn(all[j], d)
      ensures Precedes(r, all[i], all[j])
    {
      var p, q :| 0 <= p < q < |unique| && unique[p] == all[i] && unique[q] == all[j];
      OnDateOrdered(unique, d, p, q);
    }
  }

  /** When the keyword scan decides the outcome, the lookup succeeds with the scan's
      selection from the concatenated keyword results (see ScanSelection); if a keyword
      search raised, the list is empty. */
  lemma ScanOutcome(dateStr: string, target: CalendarDate, search: Search)
    ensures var r, os := Resolve(dateStr, target, search), Outcomes(KEYWORDS, KEYWORD_LIMIT, search);
      |r.log| > 1 + |DateFormats(target)| ==>
        && (FirstFailure(os) < |os| ==> r.outcome == Success([]))
        && (FirstFailure(os) == |os| ==> r.outcome == Success(OnDate(Dedup(Concat(os)), target)))
  {
    var r, formats := Resolve(dateStr, target, search), DateFormats(target);
    var first := search(dateStr, DATE_LIMIT);
    if !EndsSearch(first) {
      var fos := Outcomes(formats, DATE_LIMIT, search);
      var k := FirstHit(fos);
      if k < |fos| {
        assert |r.log| == 1 + (k + 1);
      }
    }
  }

  /** Titles are deduplicated before dates are compared: a meeting on the target date is
      dropped when an earlier collected meeting with the same title starts on another day. */
  lemma RecurringTitleOnOtherDayWins()
    ensures var target := Date(2025, 9, 24);
      var earlier := Meeting("a", "Standup", Some(Timestamp(Date(2025, 9, 23), 9, 0, 0)), None, "", "");
      var onTarget := Meeting("b", "Standup", Some(Timestamp(target, 9, 0, 0)), None, "", "");
      StartsOn(onTarget, target) && OnDate(Dedup([earlier, onTarget]), target) == []
  {
    var target := Date(2025, 9, 24);
    var earlier := Meeting("a", "Standup", Some(Timestamp(Date(2025, 9, 23), 9, 0, 0)), None, "", "");
    var onTarget := Meeting("b", "Standup", Some(Timestamp(target, 9, 0, 0)), None, "", "");
    var s := [earlier, onTarget];
    assert s[0].title == s[1].title;
    assert !IsFirstOfTitle(s, 1);
    assert IsFirstOfTitle(s, 0);
    assert FirstOfEachTitle(s, 1) == [earlier];
    assert Dedup(s) == [earlier];
    assert [earlier][..0] == [];
  }

  lemma FilteredStaysDistinct(s: seq<Meeting>, d: Date)
    requires DistinctTitles(s)
    ensures DistinctTitles(OnDate(s, d))
  {
    OnDateSpec(s, d);
    SubsequenceDistinct(OnDate(s, d), s);
  }

  lemma {:induction false} SubsequenceDistinct(a: seq<Meeting>, b: seq<Meeting>)
    requires IsSubsequence(a, b) && DistinctTitles(b)
    ensures DistinctTitles(a)
    decreases |b|
  {
    if a != [] {
      var a', b' := a[..|a| - 1], b[..|b| - 1];
      assert DistinctTitles(b');
      if a[|a| - 1] == b[|b| - 1] && IsSubsequence(a', b') {
        SubsequenceDistinct(a', b');
        SubsequenceMembers(a', b');
        forall i | 0 <= i < |a'|
          ensures a'[i].title != a[|a| - 1].title
        {
          assert a'[i] in b';
          var j :| 0 <= j < |b'| && b'[j] == a'[i];
          assert b[j] == a'[i];
        }
      } else {
        SubsequenceDistinct(a, b');
      }
    }
  }

  // ---------------------------------------------------------------------------------
  // The lookup as the route runs it

  /** The reformatted-date loop: search each format in turn and leave the loop at the first
      that finds meetings; a search that raises ends the lookup. */
  method TryFormats(formats: seq<string>, search: Search) returns (outcome: SearchOutcome, log: seq<Query>)
    ensures var os := Outcomes(formats, DATE_LIMIT, search); var k := FirstHit(os);
      && outcome == (if k < |os| then os[k] else Success([]))
      && log == Queries(formats[..if k < |os| then k + 1 else k], DATE_LIMIT)
  {
    ghost var os := Outcomes(formats, DATE_LIMIT, search);
    outcome := Success([]);
    log := [];
    var i := 0;
    while i < |formats|
      invariant 0 <= i <= |formats|
      invariant forall j :: 0 <= j < i ==> search(formats[j], DATE_LIMIT) == Success([])
      invariant outcome == Success([])
      invariant log == Queries(formats[..i], DATE_LIMIT)
    {
      outcome := search(formats[i], DATE_LIMIT);
      log := log + [Query(formats[i], DATE_LIMIT)];
      assert log == Queries(formats[..i + 1], DATE_LIMIT);
      if EndsSearch(outcome) {
        assert os[i] == outcome;
        assert FirstHit(os) == i;
        break;
      }
      i := i + 1;
    }
    if i == |formats| {
      assert formats[..|formats|] == formats;
      assert forall j :: 0 <= j < |os| ==> os[j] == search(formats[j], DATE_LIMIT);
      assert FirstHit(os) == |os|;
    }
  }

  /** The keyword loop: extend the collected list with each keyword's results; a search
      that raises leaves the loop with its message. */
  method GatherKeywordResults(search: Search) returns (outcome: SearchOutcome, log: seq<Query>)
    ensures var os := Outcomes(KEYWORDS, KEYWORD_LIMIT, search); var k := FirstFailure(os);
      && (k < |os| ==> outcome == Failure(os[k].error) && log == Queries(KEYWORDS[..k + 1], KEYWORD_LIMIT))
      && (k == |os| ==> outcome == Success(Concat(os)) && log == Queries(KEYWORDS, KEYWORD_LIMIT))
  {
    ghost var os := Outcomes(KEYWORDS, KEYWORD_LIMIT, search);
    var allMeetings: seq<Meeting> := [];
    log := [];
    for i := 0 to |KEYWORDS|
      invariant forall j :: 0 <= j < i ==> os[j].Success?
      invariant allMeetings == Concat(os[..i])
      invariant log == Queries(KEYWORDS[..i], KEYWORD_LIMIT)
    {
      var found := search(KEYWORDS[i], KEYWORD_LIMIT);
      log := log + [Query(KEYWORDS[i], KEYWORD_LIMIT)];
      assert log == Queries(KEYWORDS[..i + 1], KEYWORD_LIMIT);
      if found.Failure? {
        assert os[i] == found;
        assert FirstFailure(os) == i;
        return Failure(found.error), log;
      }
      assert os[..i + 1][..i] == os[..i];
      allMeetings := allMeetings + found.value;
    }
    assert os[..|os|] == os;
    assert KEYWORDS[..|KEYWORDS|] == KEYWORDS;
    outcome := Success(allMeetings);
  }

  /** The whole date lookup, strategy after strategy. */
  method FindMeetings(dateStr: string, target: CalendarDate, search: Search)
    returns (outcome: SearchOutcome, log: seq<Query>)
    ensures Lookup(outcome, log) == Resolve(dateStr, target, search)
  {
    // Strategy 1: the literal date string.
    outcome := search(dateStr, DATE_LIMIT);
    log := [Query(dateStr, DATE_LIMIT)];
    if !EndsSearch(outcome) {
      // Strategy 2: the reformatted date strings.
      var formatLog;
      outcome, formatLog := TryFormats(DateFormats(target), search);
      log := log + formatLog;
      if !EndsSearch(outcome) {
        // Strategy 3: scan generic keywords, deduplicate by title, filter by date.
        var gathered, scanLog := GatherKeywordResults(search);
        log := log + scanLog;
        if gathered.Success? {
          var unique := RemoveDuplicateTitles(gathered.value);
          var filtered := KeepOnDate(unique, target);
          outcome := Success(filtered);
        }
      }
    }
  }
}

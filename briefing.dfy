/** The per-meeting briefing record the routes return: the meeting's fields, one attendee
    entry per research result, and a generated summary and preparation questions. */
module Briefing {
  import opened Wrappers
  import opened Calendar

  datatype Attendee = Attendee(displayName: string, email: string, company: string, title: string)

  datatype ResearchResult = ResearchResult(attendee: Attendee, researchSummary: string, foundInfo: bool)

  datatype AttendeeEntry = AttendeeEntry(
    name: string,
    email: string,
    company: string,
    title: string,
    researchSummary: string,
    foundInfo: bool)

  datatype MeetingRecord = MeetingRecord(
    id: string,
    title: string,
    start: Option<Timestamp>,
    end: Option<Timestamp>,
    location: string,
    description: string,
    attendees: seq<AttendeeEntry>,
    researchSummary: string,
    preparationQuestions: string)

  /** The agent's attendee research for a meeting, or the message it raised. */
  type Research = Meeting -> Result<seq<ResearchResult>, string>

  /** A text generator over a meeting and its research (summary or questions), or the message it raised. */
  type Generator = (Meeting, seq<ResearchResult>) -> Result<string, string>

  const SUMMARY_ERROR := "Error generating research summary"
  const QUESTIONS_ERROR := "Error generating preparation questions"

  function EntryFor(r: ResearchResult): AttendeeEntry {
    AttendeeEntry(r.attendee.displayName, r.attendee.email, r.attendee.company, r.attendee.title,
      r.researchSummary, r.foundInfo)
  }

  /** `rec` is the briefing of meeting `m` given its research `rs` and the two generators'
      outcomes: the meeting's own fields, one entry per research result in research order,
      and the generated texts only when both generators succeeded (else both error texts). */
  predicate Describes(rec: MeetingRecord, m: Meeting, rs: seq<ResearchResult>,
                      summary: Result<string, string>, questions: Result<string, string>)
  {
    && rec.id == m.id && rec.title == m.title && rec.start == m.start && rec.end == m.end
    && rec.location == m.location && rec.description == m.description
    && |rec.attendees| == |rs|
    && (forall i :: 0 <= i < |rs| ==> rec.attendees[i] == EntryFor(rs[i]))
    && if summary.Success? && questions.Success? then
         rec.researchSummary == summary.value && rec.preparationQuestions == questions.value
       else
         rec.researchSummary == SUMMARY_ERROR && rec.preparationQuestions == QUESTIONS_ERROR
  }

  /** Builds one meeting's record: starts with no attendees and empty texts, appends an
      entry per research result, then overwrites the texts with the generated ones or,
      if generating either raised, with the error texts. */
  method BuildRecord(m: Meeting, rs: seq<ResearchResult>, summarize: Generator, ask: Generator)
    returns (rec: MeetingRecord)
    ensures Describes(rec, m, rs, summarize(m, rs), ask(m, rs))
  {
    rec := MeetingRecord(m.id, m.title, m.start, m.end, m.location, m.description, [], "", "");
    for i := 0 to |rs|
      invariant rec == MeetingRecord(m.id, m.title, m.start, m.end, m.location, m.description, rec.attendees, "", "")
      invariant |rec.attendees| == i
      invariant forall j :: 0 <= j < i ==> rec.attendees[j] == EntryFor(rs[j])
    {
      rec := rec.(attendees := rec.attendees + [EntryFor(rs[i])]);
    }
    var summary := summarize(m, rs);
    if summary.Success? {
      var questions := ask(m, rs);
      if questions.Success? {
        rec := rec.(researchSummary := summary.value, preparationQuestions := questions.value);
        return;
      }
    }
    rec := rec.(researchSummary := SUMMARY_ERROR, preparationQuestions := QUESTIONS_ERROR);
  }

  /** What the research returns for each meeting, in order. */
  function ResearchAll(ms: seq<Meeting>, research: Research): seq<Result<seq<ResearchResult>, string>> {
    seq(|ms|, i requires 0 <= i < |ms| => research(ms[i]))
  }

  /** `records` holds one briefing per meeting of `ms`, in the same order. */
  predicate RecordsFor(records: seq<MeetingRecord>, ms: seq<Meeting>,
                       research: Research, summarize: Generator, ask: Generator)
  {
    && |records| == |ms|
    && forall i :: 0 <= i < |ms| ==>
         && research(ms[i]).Success?
         && var rs := research(ms[i]).value;
            Describes(records[i], ms[i], rs, summarize(ms[i], rs), ask(ms[i], rs))
  }

  /** Researches and briefs the meetings in order; research that raises ends the loop with
      its message (the route then answers with an error). */
  method BriefAll(ms: seq<Meeting>, research: Research, summarize: Generator, ask: Generator)
    returns (outcome: Result<seq<MeetingRecord>, string>)
    ensures var k := FirstFailure(ResearchAll(ms, research));
      && (k < |ms| ==> outcome == Failure(research(ms[k]).error))
      && (k == |ms| ==> outcome.Success? && RecordsFor(outcome.value, ms, research, summarize, ask))
  {
    ghost var os := ResearchAll(ms, research);
    var records: seq<MeetingRecord> := [];
    for i := 0 to |ms|
      invariant forall j :: 0 <= j < i ==> os[j].Success?
      invariant RecordsFor(records, ms[..i], research, summarize, ask)
    {
      var rs := research(ms[i]);
      if rs.Failure? {
        assert os[i] == rs;
        assert FirstFailure(os) == i;
        return Failure(rs.error);
      }
      var rec := BuildRecord(ms[i], rs.value, summarize, ask);
      records := records + [rec];
    }
    assert ms[..|ms|] == ms;
    outcome := Success(records);
  }
}

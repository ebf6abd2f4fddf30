/** The callback tools the language-model agent calls: the keyword search tool and the
    day listing tool, which return either a list of meeting entries or a message. */
module AgentTools {
  import opened Wrappers
  import opened Calendar

  /** A meeting as the plain calendar agent describes it. */
  datatype MeetingInfo = MeetingInfo(
    title: string,
    personNames: seq<string>,
    attendeeNames: seq<string>,
    start: Option<Timestamp>,
    end: Option<Timestamp>,
    description: string,
    location: string,
    organizerName: string,
    organizerEmail: string)

  /** The agent's listing of a day: its reported event total and its meetings. */
  datatype DayEvents = DayEvents(totalEvents: int, meetings: seq<MeetingInfo>)

  /** An entry of the keyword tool's result list. */
  datatype Brief = Brief(title: string, personNames: seq<string>, start: Option<Timestamp>, description: string)

  /** An entry of the day tool's result list. */
  datatype DayEntry = DayEntry(
    title: string,
    attendeeNames: seq<string>,
    start: Option<Timestamp>,
    end: Option<Timestamp>,
    description: string,
    location: string,
    organizer: string)

  /** What a tool hands back to the agent: a result list, a message, or an exception. */
  datatype ToolReply =
    | Briefs(briefs: seq<Brief>)
    | DayEntries(entries: seq<DayEntry>)
    | Text(message: string)
    | Raised(error: string)

  /** The plain agent's keyword search, or the message it raised. */
  type InfoSearch = (string, nat) -> Result<seq<MeetingInfo>, string>

  /** The plain agent's day listing for a date string, or the message it raised. */
  type DayListing = string -> Result<DayEvents, string>

  const DESCRIPTION_LIMIT: nat := 200
  const ELLIPSIS := "..."

  /** Result limit of the keyword tool's search. */
  const TOOL_SEARCH_LIMIT: nat := 5

  /** A description cut to 200 characters, marked with "..." when anything was cut. */
  function Truncated(description: string): (r: string)
    ensures |description| <= DESCRIPTION_LIMIT ==> r == description
    ensures |description| > DESCRIPTION_LIMIT ==>
      |r| == DESCRIPTION_LIMIT + |ELLIPSIS| && r[..DESCRIPTION_LIMIT] == description[..DESCRIPTION_LIMIT]
      && r[DESCRIPTION_LIMIT..] == ELLIPSIS
  {
    if |description| > DESCRIPTION_LIMIT then description[..DESCRIPTION_LIMIT] + ELLIPSIS else description
  }

  /** Truncating a truncated description changes nothing, so the result is never longer
      than 203 characters. */
  lemma TruncationIdempotent(description: string)
    ensures Truncated(Truncated(description)) == Truncated(description)
    ensures |Truncated(description)| <= DESCRIPTION_LIMIT + |ELLIPSIS|
  {
    var r := Truncated(description);
    if |description| > DESCRIPTION_LIMIT {
      assert r[..DESCRIPTION_LIMIT] + ELLIPSIS == r;
    }
  }

  /** `name or email`: the organizer's name unless it is empty. */
  function Organizer(m: MeetingInfo): string {
    if m.organizerName != "" then m.organizerName else m.organizerEmail
  }

  /** The `search_meetings` tool: one entry per found meeting, in order, with the
      description truncated; the message naming the keyword when nothing was found. */
  method SearchMeetingsTool(query: string, search: InfoSearch) returns (reply: ToolReply)
    ensures search(query, TOOL_SEARCH_LIMIT).Failure? ==> reply == Raised(search(query, TOOL_SEARCH_LIMIT).error)
    ensures search(query, TOOL_SEARCH_LIMIT) == Success([]) ==> reply == Text("No meetings found for keyword: " + query)
    ensures search(query, TOOL_SEARCH_LIMIT).Success? && search(query, TOOL_SEARCH_LIMIT).value != [] ==>
      var ms := search(query, TOOL_SEARCH_LIMIT).value;
      && reply.Briefs? && |reply.briefs| == |ms|
      && forall i :: 0 <= i < |ms| ==>
           && reply.briefs[i].title == ms[i].title && reply.briefs[i].personNames == ms[i].personNames
           && reply.briefs[i].start == ms[i].start
           && reply.briefs[i].description == Truncated(ms[i].description)
  {
    var found := search(query, TOOL_SEARCH_LIMIT);
    if found.Failure? {
      return Raised(found.error);
    }
    var meetings := found.value;
    if meetings != [] {
      var results: seq<Brief> := [];
      for i := 0 to |meetings|
        invariant |results| == i
        invariant forall j :: 0 <= j < i ==>
          results[j] == Brief(meetings[j].title, meetings[j].personNames, meetings[j].start,
                              Truncated(meetings[j].description))
      {
        var meeting := meetings[i];
        results := results + [Brief(meeting.title, meeting.personNames, meeting.start, Truncated(meeting.description))];
      }
      return Briefs(results);
    }
    reply := Text("No meetings found for keyword: " + query);
  }

  /** The `get_meetings_for_date` tool: one entry per listed meeting, in order, when the
      reported total is positive; otherwise the message naming the date; a listing that
      raises becomes an error message. */
  method MeetingsForDateTool(dateStr: string, eventsForDay: DayListing) returns (reply: ToolReply)
    ensures eventsForDay(dateStr).Failure? ==>
      reply == Text("Error getting meetings for " + dateStr + ": " + eventsForDay(dateStr).error)
    ensures eventsForDay(dateStr).Success? && eventsForDay(dateStr).value.totalEvents <= 0 ==>
      reply == Text("No meetings found for date: " + dateStr)
    ensures eventsForDay(dateStr).Success? && eventsForDay(dateStr).value.totalEvents > 0 ==>
      var ms := eventsForDay(dateStr).value.meetings;
      && reply.DayEntries? && |reply.entries| == |ms|
      && forall i :: 0 <= i < |ms| ==>
           && reply.entries[i].title == ms[i].title && reply.entries[i].attendeeNames == ms[i].attendeeNames
           && reply.entries[i].start == ms[i].start && reply.entries[i].end == ms[i].end
           && reply.entries[i].description == ms[i].description && reply.entries[i].location == ms[i].location
           && reply.entries[i].organizer == (if ms[i].organizerName != "" then ms[i].organizerName else ms[i].organizerEmail)
  {
    var listed := eventsForDay(dateStr);
    if listed.Failure? {
      return Text("Error getting meetings for " + dateStr + ": " + listed.error);
    }
    var day := listed.value;
    if day.totalEvents > 0 {
      var results: seq<DayEntry> := [];
      for i := 0 to |day.meetings|
        invariant |results| == i
        invariant forall j :: 0 <= j < i ==>
          var m := day.meetings[j];
          results[j] == DayEntry(m.title, m.attendeeNames, m.start, m.end, m.description, m.location, Organizer(m))
      {
        var m := day.meetings[i];
        results := results + [DayEntry(m.title, m.attendeeNames, m.start, m.end, m.description, m.location, Organizer(m))];
      }
      return DayEntries(results);
    }
    reply := Text("No meetings found for date: " + dateStr);
  }
}

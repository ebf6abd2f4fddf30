/** The two listing routes of the extension server: meetings for a date (`GET
    /meetings/<date_str>`) and meetings for a keyword (`POST /search-meetings`). */
module Server {
  import opened Wrappers
  import opened Calendar
  import opened DateLookup
  import opened Briefing

  /** A route's answer: the listing (`key` is the requested date or keyword, `count` the
      number of records), or an error status and message; the date route's error bodies
      also carry an empty `meetings` list. */
  datatype Reply =
    | Listing(key: string, meetings: seq<MeetingRecord>, count: nat)
    | ErrorReply(status: nat, error: string, withEmptyMeetings: bool)

  const AGENT_UNAVAILABLE := "Calendar agent not available"
  const KEYWORD_REQUIRED := "Keyword is required"

  /** Result limit of the keyword route's search. */
  const SEARCH_LIMIT: nat := 5

  /** `reply` answers a request for `key` whose lookup found `ms`: an error carrying the
      first research failure's message, or a listing of one briefing per meeting, in
      order, whose count is its number of records. */
  predicate ListsMeetings(reply: Reply, key: string, ms: seq<Meeting>, research: Research,
                          summarize: Generator, ask: Generator, withEmptyMeetings: bool)
  {
    var k := FirstFailure(ResearchAll(ms, research));
    if k < |ms| then reply == ErrorReply(500, research(ms[k]).error, withEmptyMeetings)
    else
      && reply.Listing? && reply.key == key && reply.count == |reply.meetings|
      && RecordsFor(reply.meetings, ms, research, summarize, ask)
  }

  /** Shapes the listing the way both routes do. */
  method Respond(key: string, ms: seq<Meeting>, research: Research, summarize: Generator, ask: Generator,
                 withEmptyMeetings: bool)
    returns (reply: Reply)
    ensures ListsMeetings(reply, key, ms, research, summarize, ask, withEmptyMeetings)
  {
    var briefed := BriefAll(ms, research, summarize, ask);
    if briefed.Failure? {
      reply := ErrorReply(500, briefed.error, withEmptyMeetings);
    } else {
      reply := Listing(key, briefed.value, |briefed.value|);
    }
  }

  /** `GET /meetings/<date_str>`: `available` is whether the agent was created at start-up,
      `parse` is `strptime(date_str, '%Y-%m-%d')`. Also returns the searches made. */
  method GetMeetingsForDate(available: bool, dateStr: string, parse: string -> Result<CalendarDate, string>,
                            search: Search, research: Research, summarize: Generator, ask: Generator)
    returns (reply: Reply, log: seq<Query>)
    ensures !available ==> reply == ErrorReply(500, AGENT_UNAVAILABLE, true) && log == []
    ensures available && parse(dateStr).Failure? ==>
      reply == ErrorReply(500, parse(dateStr).error, true) && log == []
    ensures available && parse(dateStr).Success? ==>
      var r := Resolve(dateStr, parse(dateStr).value, search);
      && log == r.log
      && (r.outcome.Failure? ==> reply == ErrorReply(500, r.outcome.error, true))
      && (r.outcome.Success? ==> ListsMeetings(reply, dateStr, r.outcome.value, research, summarize, ask, true))
  {
    log := [];
    if !available {
      return ErrorReply(500, AGENT_UNAVAILABLE, true), log;
    }
    var parsed := parse(dateStr);
    if parsed.Failure? {
      return ErrorReply(500, parsed.error, true), log;
    }
    var found;
    found, log := FindMeetings(dateStr, parsed.value, search);
    if found.Failure? {
      return ErrorReply(500, found.error, true), log;
    }
    reply := Respond(dateStr, found.value, research, summarize, ask, true);
  }

  /** `POST /search-meetings`: `keyword` is the body's `keyword` field ("" when absent). */
  method SearchMeetings(available: bool, keyword: string,
                        search: Search, research: Research, summarize: Generator, ask: Generator)
    returns (reply: Reply, log: seq<Query>)
    ensures !available ==> reply == ErrorReply(500, AGENT_UNAVAILABLE, false) && log == []
    ensures available && keyword == "" ==> reply == ErrorReply(400, KEYWORD_REQUIRED, false) && log == []
    ensures available && keyword != "" ==>
      && log == [Query(keyword, SEARCH_LIMIT)]
      && (search(keyword, SEARCH_LIMIT).Failure? ==>
            reply == ErrorReply(500, search(keyword, SEARCH_LIMIT).error, false))
      && (search(keyword, SEARCH_LIMIT).Success? ==>
            ListsMeetings(reply, keyword, search(keyword, SEARCH_LIMIT).value, research, summarize, ask, false))
  {
    log := [];
    if !available {
      return ErrorReply(500, AGENT_UNAVAILABLE, false), log;
    }
    if keyword == "" {
      return ErrorReply(400, KEYWORD_REQUIRED, false), log;
    }
    var found := search(keyword, SEARCH_LIMIT);
    log := [Query(keyword, SEARCH_LIMIT)];
    if found.Failure? {
      return ErrorReply(500, found.error, false), log;
    }
    reply := Respond(keyword, found.value, research, summarize, ask, false);
  }
}

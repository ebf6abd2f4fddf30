# meetingagent: date lookup, response shaping and agent tools in Dafny

This project models the core of the meetingagent browser-extension server and of its LangChain tools.

**The meetings-for-a-date route** looks up meetings in three strategies:

1. It searches the calendar for the literal date string, with a limit of 10.
2. If that finds nothing, it searches six reformatted versions of the date in a fixed order, with a limit of 10. It stops at the first format that finds something.
3. If all of those find nothing, it runs a keyword scan:
   - it searches seven generic keywords, with a limit of 20 each, and concatenates the results;
   - it keeps the first meeting of each title;
   - it keeps the meetings that start on the requested day.

Every meeting found is then researched and shaped into a response record:

- the meeting's fields;
- one entry per attendee research result;
- a generated summary and generated preparation questions, or fixed error texts when generation fails.

The keyword route refuses an empty keyword. The agent's keyword tool cuts descriptions to 200 characters; the day tool passes them on whole. Both tools answer either a result list or a message. The agent prompt lists the tools one per line and their names separated by commas.

External collaborators are parameters of the model, as total functions that return `Success` or `Failure` (`Failure` is an exception):

- the calendar search;
- attendee research;
- the two text generators;
- the per-day event listing;
- date parsing.

Every search the date route makes is returned in a `log`, so that order and short-circuiting are stated properties.

Modules:

- `Wrappers`: `Option` and `Result`.
- `Sequences`: the subsequence relation.
- `Calendar`: dates, meetings, queries and search outcomes.
- `DateStrings`: the six strftime formats and their numerals.
- `TitleDedup`: removal of duplicate titles.
- `DateFilter`: the start-date filter.
- `DateLookup`: the three-strategy lookup.
- `Briefing`: the per-meeting response records.
- `Server`: the two routes.
- `AgentTools`: the two tool functions.
- `ToolPrompt`: the prompt's tool strings.

One consequence of the code is proved as a property rather than assumed away. The keyword scan removes duplicate titles *before* it compares dates. A meeting on the requested day is therefore dropped whenever an earlier collected meeting with the same title starts on another day (`DateLookup.RecurringTitleOnOtherDayWins`).

## Model

| member | source | states |
|---|---|---|
| DateLookup.FindMeetings | enhanced_chrome_extension_server.py:51-103 | The lookup's outcome and the exact list of searches it made equal the three-strategy specification `Resolve`. |
| DateLookup.TryFormats | enhanced_chrome_extension_server.py:57-71 | Searches the formats in order with limit 10. It stops at the first search that finds meetings or raises, and returns that search's outcome (or the empty list). It logs exactly the searches up to that point. |
| DateLookup.GatherKeywordResults | enhanced_chrome_extension_server.py:73-82 | Searches the seven keywords in order with limit 20 and returns the concatenation of their results. The first search that raises ends the loop with its message, and the log stops there. |
| DateLookup.FirstHit | enhanced_chrome_extension_server.py:68-71 | Returns the index of the first search outcome that ends the format loop. Every earlier outcome is an empty list. |
| DateLookup.LiteralFirst | enhanced_chrome_extension_server.py:54-58 | The literal date string is searched first with limit 10. Any further search happens if and only if that search returned an empty list. Otherwise its outcome is the lookup's outcome. |
| DateLookup.FormatsInOrder | enhanced_chrome_extension_server.py:57-71 | The j-th search after the literal one is the j-th format. It happens only when the literal search and all earlier formats returned empty lists. A format that finds something or raises is the last search and gives the outcome. |
| DateLookup.FormatReached | enhanced_chrome_extension_server.py:57-71 | Conversely to `FormatsInOrder`: the j-th format is searched, as the j-th search after the literal one, whenever the literal search and all earlier formats returned empty lists. |
| DateLookup.KeywordsLast | enhanced_chrome_extension_server.py:73-82 | The keyword scan starts only after the literal search and all six formats returned empty lists. It searches the seven keywords in order with limit 20. A keyword is searched only if every earlier keyword search succeeded. |
| DateLookup.KeywordReached | enhanced_chrome_extension_server.py:73-82 | Conversely to `KeywordsLast`: once the literal search and all six formats returned empty lists, the j-th keyword is searched, right after the formats and earlier keywords, whenever every earlier keyword search succeeded. |
| DateLookup.ScanOutcome | enhanced_chrome_extension_server.py:73-103 | When the keyword scan decides the outcome, the result is the date-filtered, deduplicated concatenation of the keyword results. It is the empty list when a keyword search raised. |
| DateLookup.ScanSelection | enhanced_chrome_extension_server.py:84-100 | The scan's selection is a subsequence of the collected meetings with distinct titles. A collected meeting is kept if and only if it starts on the date and is the first collected meeting with its title. Two kept meetings appear in the order in which each was first collected. |
| DateLookup.RecurringTitleOnOtherDayWins | enhanced_chrome_extension_server.py:84-100 | Example: a meeting starting on the target date is dropped because an earlier meeting with the same title starts on the previous day. |
| TitleDedup.RemoveDuplicateTitles | enhanced_chrome_extension_server.py:84-90 | The seen-titles loop returns exactly the first meeting of each title, in input order. |
| TitleDedup.DedupSpec | enhanced_chrome_extension_server.py:84-90 | The deduplicated list is a subsequence of the input. Its titles are pairwise distinct and are the same set as the input's titles. A meeting is kept if and only if it is the first with its title. Meetings that are first with their titles keep their input order. |
| DateFilter.KeepOnDate | enhanced_chrome_extension_server.py:92-100 | The filtering loop returns the meetings whose start lies on the target date, in order. Meetings without a start are dropped. |
| DateFilter.OnDateSpec | enhanced_chrome_extension_server.py:92-100 | The filtered list is a subsequence of the input. A meeting is in it if and only if it is in the input and starts on the date. Each such meeting is kept with its full multiplicity. |
| DateStrings.NumericFormats | enhanced_chrome_extension_server.py:59-66 | `%m/%d/%Y` and `%Y-%m-%d` have 10 characters with the separators in place. Their zero-padded fields read back as the month, day and year. `%m/%d` is the first five characters of `%m/%d/%Y`. `str(day)` reads back as the day and has 1 or 2 digits. |
| DateStrings.MonthNameFormats | enhanced_chrome_extension_server.py:60-61 | The `%b %d, %Y` string is the `%B %d, %Y` string with the month name cut to its first three letters. |
| DateStrings.PaddedRoundTrip | enhanced_chrome_extension_server.py:62-65 | A number padded with zeros to a width it fits in has exactly that many digits and reads back as the number. |
| DateStrings.DecimalRoundTrip | enhanced_chrome_extension_server.py:64 | The unpadded decimal numeral of a number reads back as that number. |
| Briefing.BuildRecord | enhanced_chrome_extension_server.py:111-148 | The record copies the meeting's fields and has one attendee entry per research result, in research order. It carries the generated summary and questions only when both generators succeed, and otherwise both error texts. |
| Briefing.BriefAll | enhanced_chrome_extension_server.py:106-148 | Returns one record per meeting, in order, when every research call succeeds. Otherwise it fails with the message of the first research call that raised. |
| Server.Respond | enhanced_chrome_extension_server.py:106-162 | Answers with a listing for the key whose count equals its number of records, or with a 500 error carrying the research failure's message. |
| Server.GetMeetingsForDate | enhanced_chrome_extension_server.py:37-162 | Answers 500 without searching when the agent is unavailable or the date does not parse. Otherwise the searches are exactly the lookup's. A lookup that raises answers 500 with its message, and a successful one answers with the listing of the found meetings. |
| Server.SearchMeetings | enhanced_chrome_extension_server.py:285-360 | Answers 500 when the agent is unavailable and 400 "Keyword is required" for an empty keyword, without searching in either case. Otherwise it makes exactly one search, for the keyword with limit 5, and lists the result. |
| AgentTools.Truncated | langchain_agent.py:51 | A description of at most 200 characters is unchanged. A longer one becomes its first 200 characters followed by "...", 203 characters in all. |
| AgentTools.TruncationIdempotent | langchain_agent.py:51 | Truncating twice is truncating once, and the result never exceeds 203 characters. |
| AgentTools.SearchMeetingsTool | langchain_agent.py:41-54 | Searches with limit 5. When meetings are found, answers one entry per meeting, in order, with title, people and start copied and the description truncated. Otherwise it answers "No meetings found for keyword: " followed by the query. A raising search propagates. |
| AgentTools.MeetingsForDateTool | langchain_agent.py:56-75 | When the reported total is positive, answers one entry per meeting, in order, with the organizer's name, or the email when the name is empty. Otherwise it answers "No meetings found for date: " followed by the date. A raising listing becomes "Error getting meetings for <date>: <message>". |
| ToolPrompt.SplitJoin | langchain_agent.py:142-143 | Splitting a separator-join at the separator gives back the parts, when no part contains the separator. |
| ToolPrompt.ToolsTextLines | langchain_agent.py:142 | The tools text has exactly one line per tool, in tool order, and each line is "name: description". |
| ToolPrompt.ToolNamesList | langchain_agent.py:143 | The tool names text, split at commas, gives the names in tool order, each after the first preceded by one space. |
| ToolPrompt.RegisteredToolNames | langchain_agent.py:89-110 | For the four registered tools, the names text is "get_next_meeting, get_meetings_for_date, search_meetings, get_meeting_by_id". |

## Left out

- **Web plumbing.** Flask routing, CORS, JSON serialisation and the HTTP layer are left out; a reply is a datatype value, not a JSON body.
- **Other routes and tools.** The health check, the meeting-details route and the next-meeting route are not part of this model. Nor are `get_next_meeting_tool` and `get_meeting_by_id_tool`; only their names and descriptions enter the prompt.
- **Agent start-up.** Creating the agent at start-up is reduced to the `available` flag. The LangChain agent, executor and prompt template are left out.
- **Date parsing.** `strptime` is a parameter returning a valid calendar date or an error; its parsing rules are not modelled.
- **Timestamp serialisation.** `isoformat` is not modelled; start and end times are carried as timestamp values.
- **Locale.** The `%B` and `%b` month names are the English C-locale names. Other locales are not modelled.
- **`DateStrings.FourDigits`:** `%Y` is modelled as zero-padded to four digits. Platforms whose C library prints years below 1000 unpadded are not modelled.
- **Request body.** The keyword route's body is reduced to the keyword string. A missing key is `""`. A body that is not a JSON object (which raises and answers 500) is not modelled.
- **Organizer name.** An absent organizer name is modelled as the empty string, which covers both falsy cases of `name or email`.
- **Description field.** The meeting record types belong to the calendar collaborator. The model has two of them, each with one description field. `Calendar.Meeting.description` is the `description` the server reads. `AgentTools.MeetingInfo.description` stands for the `original_description` the tools read, renamed.
- **Side effects.** Console logging (`print`, `traceback`) is left out.
- **Other exceptions.** Only the modelled calls can raise. Exceptions raised by other code are not modelled, and their effect depends on where they occur:
  - In the date route's deduplication and date filter (for example `meeting.start_time.date()`), the keyword scan's handler swallows the exception. The route then answers with an empty listing.
  - Elsewhere in either route, the route answers 500 with the message.
  - In the day tool's entry building (for example `get_attendee_display_names()`), the tool answers "Error getting meetings for <date>: <message>".
  - In the keyword tool (for example `len` of a missing description), the exception propagates out of the tool, since it has no handler.

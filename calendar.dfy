/** The calendar entities the server receives from its calendar research agent,
    and the keyword search that agent offers. */
module Calendar {
  import opened Wrappers

  /** A proleptic Gregorian date. */
  datatype Date = Date(year: int, month: int, day: int)

  predicate IsLeapYear(year: int) {
    year % 4 == 0 && (year % 100 != 0 || year % 400 == 0)
  }

  function DaysInMonth(year: int, month: int): int
    requires 1 <= month <= 12
  {
    if month == 2 then (if IsLeapYear(year) then 29 else 28)
    else if month == 4 || month == 6 || month == 9 || month == 11 then 30
    else 31
  }

  /** The dates a `datetime` can hold: years 1 to 9999, real months and days. */
  predicate ValidDate(d: Date) {
    1 <= d.year <= 9999 && 1 <= d.month <= 12 && 1 <= d.day <= DaysInMonth(d.year, d.month)
  }

  type CalendarDate = d: Date | ValidDate(d) witness Date(2000, 1, 1)

  /** A point in time; only its date takes part in the date lookup. */
  datatype Timestamp = Timestamp(date: Date, hour: int, minute: int, second: int)

  datatype Meeting = Meeting(
    id: string,
    title: string,
    start: Option<Timestamp>,
    end: Option<Timestamp>,
    location: string,
    description: string)

  /** One call of the agent's keyword search. */
  datatype Query = Query(keyword: string, maxResults: nat)

  type SearchOutcome = Result<seq<Meeting>, string>

  /** The agent's keyword search: keyword and result limit to meetings, or the message it raised. */
  type Search = (string, nat) -> SearchOutcome

  /** The calls made when `keys` are searched in order, each with limit `limit`. */
  function Queries(keys: seq<string>, limit: nat): seq<Query> {
    seq(|keys|, i requires 0 <= i < |keys| => Query(keys[i], limit))
  }

  /** What the search returns for each of `keys`, in order. */
  function Outcomes(keys: seq<string>, limit: nat, search: Search): seq<SearchOutcome> {
    seq(|keys|, i requires 0 <= i < |keys| => search(keys[i], limit))
  }
}

/** The two strings the agent's prompt template is filled with: the tool list, one
    "name: description" line per tool, and the comma-separated tool names. */
module ToolPrompt {

  datatype Tool = Tool(name: string, description: string)

  /** The four tools, in registration order. */
  const TOOLS: seq<Tool> := [
    Tool("get_next_meeting",
      "Get information about the next upcoming meeting including title, attendees, and description"),
    Tool("get_meetings_for_date",
      "Get all meetings for a specific date. Input should be in YYYY-MM-DD format. This is the PRIMARY tool to use when asked for meetings on a specific date."),
    Tool("search_meetings",
      "Search for meetings by keyword in title or description. Useful for finding specific types of meetings like 'interview', 'standup', 'review', etc."),
    Tool("get_meeting_by_id",
      "Get detailed information about a specific meeting using its event ID")]

  /** Python's `sep.join(parts)`. */
  function Join(sep: string, parts: seq<string>): string {
    if |parts| == 0 then ""
    else if |parts| == 1 then parts[0]
    else Join(sep, parts[..|parts| - 1]) + sep + parts[|parts| - 1]
  }

  /** Python's `s.split(sep)` for a one-character separator. */
  function Split(s: string, sep: char): (parts: seq<string>)
    ensures |parts| >= 1
  {
    if s == [] then [""]
    else
      var init := Split(s[..|s| - 1], sep);
      var c := s[|s| - 1];
      if c == sep then init + [""]
      else init[..|init| - 1] + [init[|init| - 1] + [c]]
  }

  function ToolLine(t: Tool): string {
    t.name + ": " + t.description
  }

  function ToolLines(tools: seq<Tool>): seq<string> {
    seq(|tools|, i requires 0 <= i < |tools| => ToolLine(tools[i]))
  }

  function Names(tools: seq<Tool>): seq<string> {
    seq(|tools|, i requires 0 <= i < |tools| => tools[i].name)
  }

  /** The `tools` entry of the prompt. */
  function ToolsText(tools: seq<Tool>): string {
    Join("\n", ToolLines(tools))
  }

  /** The `tool_names` entry of the prompt. */
  function ToolNames(tools: seq<Tool>): string {
    Join(", ", Names(tools))
  }

  lemma {:induction false} SplitFree(p: string, sep: char)
    requires sep !in p
    ensures Split(p, sep) == [p]
  {
    if p != [] {
      SplitFree(p[..|p| - 1], sep);
      assert p[..|p| - 1] + [p[|p| - 1]] == p;
    }
  }

  /** Splitting after a separator starts a new part. */
  lemma {:induction false} SplitAfterSeparator(x: string, sep: char, p: string)
    requires sep !in p
    ensures Split(x + [sep] + p, sep) == Split(x, sep) + [p]
    decreases |p|
  {
    var s := x + [sep] + p;
    if p == [] {
      assert s[..|s| - 1] == x;
    } else {
      var p' := p[..|p| - 1];
      assert s[..|s| - 1] == x + [sep] + p';
      SplitAfterSeparator(x, sep, p');
      assert p' + [p[|p| - 1]] == p;
    }
  }

  /** Splitting a join on its separator gives back the parts, when no part contains it. */
  lemma {:induction false} SplitJoin(parts: seq<string>, sep: char)
    requires |parts| >= 1
    requires forall i :: 0 <= i < |parts| ==> sep !in parts[i]
    ensures Split(Join([sep], parts), sep) == parts
  {
    if |parts| == 1 {
      SplitFree(parts[0], sep);
    } else {
      var init := parts[..|parts| - 1];
      SplitJoin(init, sep);
      SplitAfterSeparator(Join([sep], init), sep, parts[|parts| - 1]);
      assert init + [parts[|parts| - 1]] == parts;
    }
  }

  /** The tool list has one "name: description" line per tool, in tool order, provided no
      name or description holds a line break. */
  lemma ToolsTextLines(tools: seq<Tool>)
    requires |tools| >= 1
    requires forall i :: 0 <= i < |tools| ==> '\n' !in tools[i].name && '\n' !in tools[i].description
    ensures Split(ToolsText(tools), '\n') == ToolLines(tools)
    ensures forall i :: 0 <= i < |tools| ==> ToolLines(tools)[i] == tools[i].name + ": " + tools[i].description
  {
    var lines := ToolLines(tools);
    forall i | 0 <= i < |tools|
      ensures '\n' !in lines[i]
    {
      assert lines[i] == tools[i].name + ": " + tools[i].description;
    }
    SplitJoin(lines, '\n');
  }

  /** Joining on ", " is joining on "," with a space put before every part but the first. */
  lemma {:induction false} JoinCommaSpace(parts: seq<string>)
    requires |parts| >= 1
    ensures Join(", ", parts) == Join(",", [parts[0]] + Spaced(parts[1..]))
  {
    if |parts| > 1 {
      var init := parts[..|parts| - 1];
      JoinCommaSpace(init);
      var spaced := [parts[0]] + Spaced(parts[1..]);
      assert spaced[..|spaced| - 1] == [init[0]] + Spaced(init[1..]);
      assert spaced[|spaced| - 1] == " " + parts[|parts| - 1];
    }
  }

  function Spaced(parts: seq<string>): seq<string> {
    seq(|parts|, i requires 0 <= i < |parts| => " " + parts[i])
  }

  /** The tool names, split at the commas, are the names in tool order, each after the
      first preceded by one space, provided no name holds a comma. */
  lemma ToolNamesList(tools: seq<Tool>)
    requires |tools| >= 1
    requires forall i :: 0 <= i < |tools| ==> ',' !in tools[i].name
    ensures Split(ToolNames(tools), ',') == [tools[0].name] + Spaced(Names(tools)[1..])
  {
    var names := Names(tools);
    JoinCommaSpace(names);
    var parts := [names[0]] + Spaced(names[1..]);
    forall i | 0 <= i < |parts|
      ensures ',' !in parts[i]
    {
      if i > 0 {
        assert parts[i] == " " + tools[i].name;
      }
    }
    SplitJoin(parts, ',');
  }

  lemma JoinLast(sep: string, parts: seq<string>)
    requires |parts| >= 2
    ensures Join(sep, parts) == Join(sep, parts[..|parts| - 1]) + sep + parts[|parts| - 1]
  {
  }

  /** The prompt's tool names for the four registered tools. */
  lemma RegisteredToolNames()
    ensures ToolNames(TOOLS) ==
      "get_next_meeting" + ", " + "get_meetings_for_date" + ", " + "search_meetings" + ", " + "get_meeting_by_id"
  {
    var names := Names(TOOLS);
    var expected := ["get_next_meeting", "get_meetings_for_date", "search_meetings", "get_meeting_by_id"];
    assert |names| == 4;
    assert names[0] == expected[0] && names[1] == expected[1];
    assert names[2] == expected[2] && names[3] == expected[3];
    assert names == expected;
    JoinLast(", ", expected);
    JoinLast(", ", expected[..3]);
    JoinLast(", ", expected[..2]);
    assert expected[..3][..2] == expected[..2];
    assert expected[..2][..1] == ["get_next_meeting"];
    assert Join(", ", expected[..1]) == "get_next_meeting";
    var two := Join(", ", expected[..2]);
    assert two == "get_next_meeting" + ", " + "get_meetings_for_date";
    var three := Join(", ", expected[..3]);
    assert three == two + ", " + "search_meetings";
    assert Join(", ", expected) == three + ", " + "get_meeting_by_id";
  }
}

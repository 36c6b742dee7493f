/** What a worker has been doing (src/commands/inspect.ts, normal mode): each
    line of the worker's latest conversation log is one message; the
    assistant's tool calls and texts become one-line events, and the last
    events of the last lines are shown. The log's lines come already parsed:
    a line that is not JSON is `Unparseable`. */
module Inspect {
  import opened Js

  /** A content block: its `type`, and its `text`, `name` and `input` when
      present. An input maps a key to its text; a missing key is undefined. */
  datatype Block = Block(kind: string, text: Option<string>, name: Option<string>, input: Option<map<string, string>>)

  /** `message.content`: a string or an array of blocks. */
  datatype Content = Text(s: string) | Blocks(blocks: seq<Block>)

  datatype MessageBody = MessageBody(role: Option<string>, content: Option<Content>)

  /** One log line: its `type` and its `message`, if any. */
  datatype Message = Message(kind: string, message: Option<MessageBody>)

  datatype Line = Unparseable | Parsed(msg: Message)

  /** `truncate(s, len)`: too long a text keeps its first `len - 3` characters
      and ends in "...". */
  function Truncate(s: string, len: int): (r: string)
    ensures |s| <= len ==> r == s
    ensures len >= 3 ==> |r| <= len
    ensures len >= 3 && |s| > len ==> |r| == len && r[..len - 3] == s[..len - 3] && r[len - 3..] == "..."
  {
    if |s| <= len then s else SliceTo(s, len - 3) + "..."
  }

  /** Cutting again changes nothing. */
  lemma TruncateIdempotent(s: string, len: int)
    requires len >= 3
    ensures Truncate(Truncate(s, len), len) == Truncate(s, len)
  {
  }

  /** Every character of a truncated text comes from the text, except the
      final dots. */
  lemma {:induction false} TruncateKeepsCharacters(s: string, len: int, c: char)
    requires len >= 3 && c != '.'
    ensures c in Truncate(s, len) ==> c in s
  {
    var r := Truncate(s, len);
    if |s| > len && c in r {
      var i :| 0 <= i < |r| && r[i] == c;
      assert r == r[..len - 3] + r[len - 3..];
      if i < len - 3 {
        assert r[i] == r[..len - 3][i] == s[..len - 3][i] == s[i];
      }
    }
  }

  /** `block.input?.[key]` as a text, when there is one. */
  function InputText(input: Option<map<string, string>>, key: string): Option<string> {
    if input.Some? && key in input.value then Some(input.value[key]) else None
  }

  /** The tool-specific detail after a tool's name: the command, the file, the
      pattern or a note. A tool without its input gets none. */
  function Detail(name: string, input: Option<map<string, string>>): string {
    var command, path, pattern := InputText(input, "command"), InputText(input, "file_path"), InputText(input, "pattern");
    if name == "Bash" && StrTruthy(command) then " " + Truncate(command.value, 60)
    else if name == "Read" && StrTruthy(path) then " " + path.value
    else if name == "Edit" && StrTruthy(path) then " " + path.value
    else if name == "Write" && StrTruthy(path) then " " + path.value
    else if name == "Grep" && StrTruthy(pattern) then " \"" + pattern.value + "\""
    else if name == "Glob" && StrTruthy(pattern) then " " + pattern.value
    else if name == "TodoWrite" then " (updating todos)"
    else ""
  }

  /** The yellow arrow before a tool call and the cyan diamond before a text. */
  const ToolMark: string := [Esc] + "[33m\U{2192}" + ResetColor + " "
  const TextMark: string := [Esc] + "[36m\U{25C7}" + ResetColor + " "

  /** The event a block makes, if any: a tool call with a name, or a
      non-empty text on one line. */
  function BlockEvent(b: Block): Option<string> {
    if b.kind == "tool_use" && StrTruthy(b.name) then Some(ToolMark + b.name.value + Detail(b.name.value, b.input))
    else if b.kind == "text" && StrTruthy(b.text) then Some(TextMark + Truncate(ReplaceAll(b.text.value, {'\n'}, ' '), 80))
    else None
  }

  function BlockEvents(bs: seq<Block>): seq<string> {
    if bs == [] then []
    else
      var last := bs[|bs| - 1];
      BlockEvents(bs[..|bs| - 1]) + (match BlockEvent(last) case Some(e) => [e] case None => [])
  }

  /** `msg.message?.content` is truthy: an array, or a non-empty string. */
  predicate ContentTruthy(c: Option<Content>) {
    c.Some? && (c.value.Blocks? || c.value.s != "")
  }

  /** `processLine(line)`: only an assistant message whose content is an array
      of blocks has events. */
  function LineEvents(line: Line): seq<string> {
    if line.Parsed? && line.msg.kind == "assistant" && line.msg.message.Some?
       && ContentTruthy(line.msg.message.value.content) && line.msg.message.value.content.value.Blocks?
    then BlockEvents(line.msg.message.value.content.value.blocks)
    else []
  }

  method ProcessLine(line: Line) returns (events: seq<string>)
    ensures events == LineEvents(line)
  {
    events := [];
    if line.Unparseable? {
      return;
    }
    var msg := line.msg;
    if msg.kind == "assistant" && msg.message.Some? && ContentTruthy(msg.message.value.content) {
      var content := msg.message.value.content.value;
      if content.Blocks? {
        var blocks := content.blocks;
        for i := 0 to |blocks|
          invariant events == BlockEvents(blocks[..i])
        {
          assert blocks[..i + 1][..i] == blocks[..i];
          var block := blocks[i];
          if block.kind == "tool_use" && StrTruthy(block.name) {
            var name := block.name.value;
            var detail := "";
            var command, path, pattern := InputText(block.input, "command"), InputText(block.input, "file_path"), InputText(block.input, "pattern");
            if name == "Bash" && StrTruthy(command) {
              detail := " " + Truncate(command.value, 60);
            } else if name == "Read" && StrTruthy(path) {
              detail := " " + path.value;
            } else if name == "Edit" && StrTruthy(path) {
              detail := " " + path.value;
            } else if name == "Write" && StrTruthy(path) {
              detail := " " + path.value;
            } else if name == "Grep" && StrTruthy(pattern) {
              detail := " \"" + pattern.value + "\"";
            } else if name == "Glob" && StrTruthy(pattern) {
              detail := " " + pattern.value;
            } else if name == "TodoWrite" {
              detail := " (updating todos)";
            }
            events := events + [ToolMark + name + detail];
          } else if block.kind == "text" && StrTruthy(block.text) {
            var text := Truncate(ReplaceAll(block.text.value, {'\n'}, ' '), 80);
            events := events + [TextMark + text];
          }
        }
        assert blocks[..|blocks|] == blocks;
      }
    }
  }

  /** A line that is no JSON, a message that is not the assistant's, or content
      that is a string has no events; otherwise the line's events are its
      blocks' events. */
  lemma LineEventsOnlyFromAssistantBlocks(line: Line)
    ensures line.Unparseable? ==> LineEvents(line) == []
    ensures line.Parsed? && line.msg.kind != "assistant" ==> LineEvents(line) == []
    ensures (line.Parsed? && line.msg.message.Some? && line.msg.message.value.content.Some?
             && line.msg.message.value.content.value.Text?) ==> LineEvents(line) == []
    ensures (line.Parsed? && line.msg.kind == "assistant" && line.msg.message.Some?
             && line.msg.message.value.content.Some? && line.msg.message.value.content.value.Blocks?)
            ==> LineEvents(line) == BlockEvents(line.msg.message.value.content.value.blocks)
  {
  }

  /** The events of blocks one after the other are the events of the first
      ones followed by those of the rest. */
  lemma {:induction false} BlockEventsAppend(a: seq<Block>, b: seq<Block>)
    ensures BlockEvents(a + b) == BlockEvents(a) + BlockEvents(b)
  {
    if b != [] {
      var init := b[..|b| - 1];
      assert (a + b)[..|a + b| - 1] == a + init;
      assert (a + b)[|a + b| - 1] == b[|b| - 1];
      BlockEventsAppend(a, init);
    } else {
      assert a + b == a;
    }
  }

  /** One block makes one event when it is a named tool call or a non-empty
      text, and none otherwise. */
  lemma OneEventPerBlock(b: Block)
    ensures BlockEvent(b).Some? <==> (b.kind == "tool_use" && StrTruthy(b.name)) || (b.kind == "text" && StrTruthy(b.text))
    ensures BlockEvents([b]) == if BlockEvent(b).Some? then [BlockEvent(b).value] else []
  {
    assert [b][..0] == [];
  }

  /** The events of blocks are the events of single blocks, in order: each is
      made by a block, and there are no more events than blocks. */
  lemma {:induction false} BlockEventsFromBlocks(bs: seq<Block>)
    ensures |BlockEvents(bs)| <= |bs|
    ensures forall e :: e in BlockEvents(bs) ==> exists i :: 0 <= i < |bs| && BlockEvent(bs[i]) == Some(e)
  {
    if bs != [] {
      var init := bs[..|bs| - 1];
      BlockEventsFromBlocks(init);
      forall e | e in BlockEvents(bs) ensures exists i :: 0 <= i < |bs| && BlockEvent(bs[i]) == Some(e) {
        if e in BlockEvents(init) {
          var i :| 0 <= i < |init| && BlockEvent(init[i]) == Some(e);
          assert bs[i] == init[i];
        } else {
          assert BlockEvent(bs[|bs| - 1]) == Some(e);
        }
      }
    }
  }

  /** A tool call shows its name after the arrow; a Bash call shows the first
      characters of its command, at most 60. */
  lemma ToolCallEvent(b: Block)
    requires b.kind == "tool_use" && StrTruthy(b.name)
    ensures BlockEvent(b) == Some(ToolMark + b.name.value + Detail(b.name.value, b.input))
    ensures b.name.value == "Bash" && StrTruthy(InputText(b.input, "command")) ==>
      var d := Detail(b.name.value, b.input);
      |d| <= 61 && d == " " + Truncate(InputText(b.input, "command").value, 60)
    ensures b.name.value == "TodoWrite" ==> Detail(b.name.value, b.input) == " (updating todos)"
  {
  }

  /** A text shows on one line, at most 80 characters of it. */
  lemma TextEvent(b: Block)
    requires b.kind == "text" && StrTruthy(b.text) && !(b.kind == "tool_use" && StrTruthy(b.name))
    ensures var t := Truncate(ReplaceAll(b.text.value, {'\n'}, ' '), 80);
      && BlockEvent(b) == Some(TextMark + t)
      && |t| <= 80
      && '\n' !in t
  {
    var flat := ReplaceAll(b.text.value, {'\n'}, ' ');
    assert '\n' !in flat;
    TruncateKeepsCharacters(flat, 80, '\n');
  }

  /** The events of lines, line after line. */
  function EventsOf(lines: seq<Line>): seq<string> {
    if lines == [] then [] else EventsOf(lines[..|lines| - 1]) + LineEvents(lines[|lines| - 1])
  }

  lemma {:induction false} EventsOfAppend(a: seq<Line>, b: seq<Line>)
    ensures EventsOf(a + b) == EventsOf(a) + EventsOf(b)
  {
    if b != [] {
      var init := b[..|b| - 1];
      assert (a + b)[..|a + b| - 1] == a + init;
      assert (a + b)[|a + b| - 1] == b[|b| - 1];
      EventsOfAppend(a, init);
    } else {
      assert a + b == a;
    }
  }

  /** `allLines.slice(-lines * 2)` and `events.slice(-lines)`; a count of NaN
      keeps everything. */
  function RecentLines(all: seq<Line>, lines: Option<int>): seq<Line> {
    match lines
    case None => all
    case Some(n) => SliceFrom(all, -n * 2)
  }

  function LastEvents(events: seq<string>, lines: Option<int>): seq<string> {
    match lines
    case None => events
    case Some(n) => SliceFrom(events, -n)
  }

  const NoHistoryLine: string := "No conversation history found"
  const NoActivityLine: string := "No recent activity"

  function ActivityHeader(id: string): string {
    "Recent activity for worker " + id + ":" + "\n"
  }

  /** What `inspect(id, lines)` prints in normal mode; `conversation` is the
      latest log of the worker, if it has one. */
  function InspectSpec(id: string, conversation: Option<seq<Line>>, lines: Option<int>): seq<string> {
    match conversation
    case None => [NoHistoryLine]
    case Some(all) =>
      var output := LastEvents(EventsOf(RecentLines(all, lines)), lines);
      if output == [] then [NoActivityLine] else [ActivityHeader(id)] + output
  }

  method CollectEvents(recentLines: seq<Line>) returns (events: seq<string>)
    ensures events == EventsOf(recentLines)
  {
    events := [];
    for i := 0 to |recentLines|
      invariant events == EventsOf(recentLines[..i])
    {
      assert recentLines[..i + 1][..i] == recentLines[..i];
      var lineEvents := ProcessLine(recentLines[i]);
      events := events + lineEvents;
    }
    assert recentLines[..|recentLines|] == recentLines;
  }

  method Inspect(id: string, conversation: Option<seq<Line>>, lines: Option<int>) returns (out: seq<string>)
    ensures out == InspectSpec(id, conversation, lines)
  {
    if conversation.None? {
      return [NoHistoryLine];
    }
    var allLines := conversation.value;
    var recentLines := RecentLines(allLines, lines);
    var events := CollectEvents(recentLines);
    var output := LastEvents(events, lines);
    if output == [] {
      return [NoActivityLine];
    }
    out := [ActivityHeader(id)] + output;
  }

  /** With a positive count `n` the events come from the last `2n` lines, or
      from all of them when there are fewer. */
  lemma RecentLinesAreLast(all: seq<Line>, n: int)
    requires n >= 1
    ensures RecentLines(all, Some(n)) == all[|all| - (if 2 * n < |all| then 2 * n else |all|)..]
  {
    assert -n * 2 == -(n * 2);
    SliceFromNegative(all, n * 2);
  }

  /** The events of the last lines are the last events of the whole log. */
  lemma RecentEventsAreLast(all: seq<Line>, lines: Option<int>)
    ensures var events := EventsOf(RecentLines(all, lines));
      |events| <= |EventsOf(all)| && events == EventsOf(all)[|EventsOf(all)| - |events|..]
  {
    var recent := RecentLines(all, lines);
    var k := |all| - |recent|;
    assert recent == all[k..];
    assert all == all[..k] + recent;
    EventsOfAppend(all[..k], recent);
  }

  /** At most the last `n` events are shown: exactly `n` when there are that
      many. */
  lemma ShownAreLast(events: seq<string>, n: int)
    requires n >= 1
    ensures var shown := LastEvents(events, Some(n));
      && |shown| <= n
      && (|events| >= n ==> |shown| == n)
      && shown == events[|events| - |shown|..]
  {
    SliceFromNegative(events, n);
  }

  /** A count of NaN or 0 shows every event of the log. */
  lemma CountNaNOrZeroShowsAll(all: seq<Line>, lines: Option<int>)
    requires lines == None || lines == Some(0)
    ensures LastEvents(EventsOf(RecentLines(all, lines)), lines) == EventsOf(all)
  {
    if lines == Some(0) {
      SliceFromNegative(all, 0);
      SliceFromNegative(EventsOf(all), 0);
    }
  }

  /** Without a log inspect says so; without events to show it says there was
      no activity; otherwise a header names the worker, followed by the shown
      events. */
  lemma InspectOutput(id: string, conversation: Option<seq<Line>>, lines: Option<int>)
    ensures var out := InspectSpec(id, conversation, lines);
      && (conversation.None? <==> out == [NoHistoryLine])
      && (conversation.Some? ==>
            var shown := LastEvents(EventsOf(RecentLines(conversation.value, lines)), lines);
            && (shown == [] <==> out == [NoActivityLine])
            && (shown != [] ==> out[0] == ActivityHeader(id) && out[1..] == shown))
  {
    assert NoHistoryLine != NoActivityLine by { assert |NoHistoryLine| != |NoActivityLine|; }
    assert ActivityHeader(id) != NoHistoryLine && ActivityHeader(id) != NoActivityLine by {
      assert ActivityHeader(id)[0] == 'R';
    }
  }
}

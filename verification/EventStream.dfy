/** The event stream format of the WHATWG HTML standard, sections 9.2.5 (parsing) and 9.2.6
    (interpretation), and what the event printer makes of it. */
module EventStream {
  import opened Strings

  datatype Event = Event(kind: string, data: string, lastEventId: string)

  /** A parser in the middle of a stream: the current line, whether a CR has just ended one, the
      data and event type buffers, the last event id, the reconnection time, and the events
      dispatched so far. */
  datatype Parser = Parser(
    line: string, afterCr: bool, data: string, kind: string, id: string, retry: string, events: seq<Event>)

  const FRESH := Parser("", false, "", "", "", "", [])

  // ----- Parsing -----

  predicate IsDigits(s: string) { forall i :: 0 <= i < |s| ==> '0' <= s[i] <= '9' }

  function ProcessField(p: Parser, field: string, value: string): Parser {
    if field == "event" then p.(kind := value)
    else if field == "data" then p.(data := p.data + value + "\n")
    else if field == "id" then (if '\0' in value then p else p.(id := value))
    else if field == "retry" then (if IsDigits(value) then p.(retry := value) else p)
    else p
  }

  function WithoutSpace(value: string): string {
    if value != "" && value[0] == ' ' then value[1..] else value
  }

  function ProcessLine(p: Parser, line: string): Parser {
    if line == "" then Dispatch(p)
    else if line[0] == ':' then p
    else
      var colon := Find(line, ':');
      if colon < |line| then ProcessField(p, line[..colon], WithoutSpace(line[colon + 1..]))
      else ProcessField(p, line, "")
  }

  function WithoutLastLf(s: string): string {
    if s != "" && s[|s| - 1] == '\n' then s[..|s| - 1] else s
  }

  function Dispatch(p: Parser): Parser {
    if p.data == "" then p.(kind := "")
    else
      var kind := if p.kind == "" then "message" else p.kind;
      p.(data := "", kind := "", events := p.events + [Event(kind, WithoutLastLf(p.data), p.id)])
  }

  function Feed(p: Parser, c: char): Parser {
    if c == '\n' && p.afterCr then p.(afterCr := false)
    else if c == '\n' || c == '\r' then ProcessLine(p.(line := "", afterCr := c == '\r'), p.line)
    else p.(line := p.line + [c], afterCr := false)
  }

  function FeedAll(p: Parser, text: string): Parser
    decreases |text|
  {
    if text == "" then p else Feed(FeedAll(p, text[..|text| - 1]), text[|text| - 1])
  }

  /** The events of a stream; an event not ended by a blank line is discarded. */
  function Parse(text: string): seq<Event> {
    FeedAll(FRESH, text).events
  }

  // ----- Printing -----

  function DataLine(value: string): string { "data: " + value + "\n" }

  function DataLines(data: string): string
    decreases |data|
  {
    if data == "" then ""
    else
      var end := Find(data, '\n');
      if end == |data| then DataLine(data) else DataLine(data[..end]) + DataLines(data[end + 1..])
  }

  function EscapeData(data: string): string {
    (if data == "" then DataLine("") else DataLines(data)) + "\n"
  }

  function FormatEvent(event: string, data: string): string {
    (if event == "" then "" else "event: " + event + "\n") + EscapeData(data)
  }

  /** The printer's loop. */
  method EscapeDataLoop(data: string) returns (escaped: string)
    ensures escaped == EscapeData(data)
  {
    hide Find, DataLine;
    escaped := "";
    var start := 0;
    while start < |data|
      invariant start <= |data|
      invariant escaped + DataLines(data[start..]) == DataLines(data)
    {
      var rest := data[start..];
      var length := Find(rest, '\n');
      if length == |rest| {
        escaped := escaped + DataLine(rest);
        start := |data|;
        break;
      }
      assert rest[length + 1..] == data[start + length + 1..];
      Regroup(escaped, DataLine(rest[..length]), DataLines(rest[length + 1..]));
      escaped := escaped + DataLine(rest[..length]);
      start := start + length + 1;
    }
    if |data| == 0 {
      escaped := escaped + DataLine("");
    }
    escaped := escaped + "\n";
  }

  lemma Regroup(a: string, b: string, c: string)
    ensures (a + b) + c == a + (b + c)
  {}

  /** What is printed, spelled out: a line for the name, one for each line of the data, a blank one. */
  lemma PrintedEvent(event: string, line: string)
    requires event != "" && '\n' !in line
    ensures FormatEvent("", line) == "data: " + line + "\n" + "\n"
    ensures FormatEvent(event, line) == "event: " + event + "\n" + ("data: " + line + "\n" + "\n")
  {
    FindUnique(line, '\n', |line|);
  }

  lemma PrintedLines(line: string, rest: string)
    requires '\n' !in line
    ensures DataLines(line + "\n" + rest) == "data: " + line + "\n" + DataLines(rest)
  {
    hide Find;
    var data := line + "\n" + rest;
    FindUnique(data, '\n', |line|);
    assert data[..|line|] == line && data[|line| + 1..] == rest;
  }

  // ----- Feeding -----

  lemma {:induction false} FeedAppends(p: Parser, a: string, b: string)
    ensures FeedAll(p, a + b) == FeedAll(FeedAll(p, a), b)
    decreases |b|
  {
    hide Feed;
    if b == "" {
      assert a + b == a;
    } else {
      var b' := b[..|b| - 1];
      FeedAppends(p, a, b');
      assert (a + b)[..|a + b| - 1] == a + b';
    }
  }

  predicate OneLine(s: string) { '\n' !in s && '\r' !in s }

  /** Between two lines. */
  predicate AtLineStart(p: Parser) { p.line == "" && !p.afterCr }

  lemma {:induction false} FeedText(p: Parser, s: string)
    requires AtLineStart(p) && OneLine(s)
    ensures FeedAll(p, s) == p.(line := s)
    decreases |s|
  {
    if s == "" {
    } else {
      var s', c := s[..|s| - 1], s[|s| - 1];
      assert s == s' + [c];
      assert c in s;
      FeedText(p, s');
    }
  }

  lemma FeedLine(p: Parser, s: string)
    requires AtLineStart(p) && OneLine(s)
    ensures FeedAll(p, s + "\n") == ProcessLine(p, s)
  {
    hide ProcessLine;
    var text := s + "\n";
    assert text[..|text| - 1] == s;
    FeedText(p, s);
  }

  lemma FindAfter(name: string, rest: string)
    requires ':' !in name
    ensures Find(name + ":" + rest, ':') == |name|
  {
    assert (name + ":" + rest)[..|name|] == name;
    FindUnique(name + ":" + rest, ':', |name|);
  }

  /** A field and its value, printed with a space after the colon. */
  lemma ProcessPrinted(p: Parser, name: string, value: string)
    requires name != "" && ':' !in name
    ensures ProcessLine(p, name + ": " + value) == ProcessField(p, name, value)
  {
    hide ProcessField;
    var line := name + ": " + value;
    assert line == name + ":" + (" " + value);
    FindAfter(name, " " + value);
    assert line[0] == name[0] && name[0] in name;
    assert line[..|name|] == name && line[|name| + 1..] == " " + value;
    assert (" " + value)[1..] == value;
  }

  lemma FeedField(p: Parser, name: string, value: string)
    requires AtLineStart(p) && name != "" && ':' !in name && OneLine(name) && OneLine(value)
    ensures FeedAll(p, name + ": " + value + "\n") == ProcessField(p, name, value)
  {
    hide ProcessLine, FeedAll, ProcessField, Find;
    FeedLine(p, name + ": " + value);
    ProcessPrinted(p, name, value);
    FieldsKeepLineStart(p, name, value);
  }

  lemma FieldsKeepLineStart(p: Parser, name: string, value: string)
    requires AtLineStart(p)
    ensures AtLineStart(ProcessField(p, name, value))
  {}

  lemma FeedData(p: Parser, value: string)
    requires AtLineStart(p) && OneLine(value)
    ensures FeedAll(p, DataLine(value)) == p.(data := p.data + value + "\n")
  {
    hide FeedAll;
    FeedField(p, "data", value);
    assert "data" + ": " == "data: ";
  }

  lemma FeedKind(p: Parser, value: string)
    requires AtLineStart(p) && OneLine(value)
    ensures FeedAll(p, "event: " + value + "\n") == p.(kind := value)
  {
    hide FeedAll;
    FeedField(p, "event", value);
    assert "event" + ": " == "event: ";
  }

  lemma FeedBlank(p: Parser)
    requires AtLineStart(p)
    ensures FeedAll(p, "\n") == Dispatch(p)
  {}

  // ----- What is printed is parsed back -----

  predicate EndsInLf(s: string) { s != "" && s[|s| - 1] == '\n' }

  function Lines(data: string): string {
    if data == "" || EndsInLf(data) then data else data + "\n"
  }

  lemma LinesAfter(first: string, rest: string)
    ensures Lines(first + "\n" + rest) == first + "\n" + Lines(rest)
  {}

  lemma {:induction false} FeedDataLines(p: Parser, data: string)
    requires AtLineStart(p) && '\r' !in data
    ensures FeedAll(p, DataLines(data)) == p.(data := p.data + Lines(data))
    decreases |data|
  {
    hide FeedAll, Find, DataLine, Lines;
    LinesOfOne(data);
    if data == "" {
      FeedNothing(p);
    } else {
      var end := Find(data, '\n');
      if end == |data| {
        assert data == data[..end];
        FeedData(p, data);
        Regroup(p.data, data, "\n");
      } else {
        var first, rest := data[..end], data[end + 1..];
        assert data == first + "\n" + rest;
        FeedAppends(p, DataLine(first), DataLines(rest));
        FeedData(p, first);
        FeedDataLines(p.(data := p.data + first + "\n"), rest);
        LinesAfter(first, rest);
        Regroup(p.data, first + "\n", Lines(rest));
        Regroup(p.data, first, "\n");
      }
    }
  }

  lemma LinesOfOne(data: string)
    ensures data == "" ==> Lines(data) == ""
    ensures data != "" && '\n' !in data ==> Lines(data) == data + "\n"
  {}

  lemma FeedNothing(p: Parser)
    ensures FeedAll(p, "") == p
  {}

  /** Between two events, nothing is buffered. */
  predicate Idle(p: Parser) { AtLineStart(p) && p.data == "" && p.kind == "" }

  function KindOf(event: string): string { if event == "" then "message" else event }

  /** A printed event with a clean name and no CR in its data is parsed as one event; a line feed
      at the end of its data is lost. */
  lemma FeedEvent(p: Parser, event: string, data: string)
    requires Idle(p) && OneLine(event) && '\r' !in data
    ensures FeedAll(p, FormatEvent(event, data))
              == p.(events := p.events + [Event(KindOf(event), WithoutLastLf(data), p.id)])
  {
    hide FeedAll, Find, DataLines, DataLine, Lines;
    var head := if event == "" then "" else "event: " + event + "\n";
    var body := if data == "" then DataLine("") else DataLines(data);
    var p1 := p.(kind := event);
    var p2 := p1.(data := if data == "" then "\n" else Lines(data));
    assert FormatEvent(event, data) == head + (body + "\n");
    FeedAppends(p, head, body + "\n");
    FeedAppends(p1, body, "\n");
    if event == "" {
      FeedNothing(p);
    } else {
      FeedKind(p, event);
    }
    if data == "" {
      FeedData(p1, "");
      assert "" + "" + "\n" == "\n";
    } else {
      FeedDataLines(p1, data);
      assert "" + Lines(data) == Lines(data);
    }
    FeedBlank(p2);
    DispatchedData(data);
  }

  lemma DispatchedData(data: string)
    ensures var buffered := if data == "" then "\n" else Lines(data);
            buffered != "" && WithoutLastLf(buffered) == WithoutLastLf(data)
  {}

  /** Nothing the parser dispatches has a line end in its name or a CR in its data. */
  ghost predicate Tidy(p: Parser) {
    && OneLine(p.line) && OneLine(p.kind) && '\r' !in p.data
    && forall e :: e in p.events ==> OneLine(e.kind) && '\r' !in e.data
  }

  lemma DispatchIsTidy(p: Parser)
    requires Tidy(p)
    ensures Tidy(Dispatch(p))
  {}

  lemma FieldIsTidy(p: Parser, field: string, value: string)
    requires Tidy(p) && OneLine(value)
    ensures Tidy(ProcessField(p, field, value))
  {}

  lemma LineIsTidy(p: Parser, line: string)
    requires Tidy(p) && OneLine(line)
    ensures Tidy(ProcessLine(p, line))
  {
    hide Dispatch, ProcessField, Tidy;
    DispatchIsTidy(p);
    var colon := Find(line, ':');
    if colon < |line| {
      FieldIsTidy(p, line[..colon], WithoutSpace(line[colon + 1..]));
    } else {
      FieldIsTidy(p, line, "");
    }
  }

  lemma {:induction false} ParsingIsTidy(p: Parser, text: string)
    requires Tidy(p)
    ensures Tidy(FeedAll(p, text))
    decreases |text|
  {
    hide ProcessLine;
    if text == "" {
    } else {
      var text' := text[..|text| - 1];
      ParsingIsTidy(p, text');
      var q := FeedAll(p, text');
      LineIsTidy(q.(line := "", afterCr := false), q.line);
      LineIsTidy(q.(line := "", afterCr := true), q.line);
    }
  }

  predicate Clean(event: string, data: string) {
    OneLine(event) && '\r' !in data && !EndsInLf(data)
  }

  /** An event survives the stream exactly when its name has no line end and its data has no CR
      and does not end in a line feed. */
  lemma EventRoundTrip(event: string, data: string)
    ensures Parse(FormatEvent(event, data)) == [Event(KindOf(event), data, "")] <==> Clean(event, data)
  {
    hide FeedAll, FormatEvent;
    ParsingIsTidy(FRESH, FormatEvent(event, data));
    var parsed := Parse(FormatEvent(event, data));
    assert parsed != [] ==> parsed[0] in parsed;
    if OneLine(event) && '\r' !in data {
      FeedEvent(FRESH, event, data);
      assert [] + [Event(KindOf(event), WithoutLastLf(data), "")] == [Event(KindOf(event), WithoutLastLf(data), "")];
    }
  }
}

/** Server-sent events: the printer of the Go server and the incremental reader of the client. */
module Sse {
  import opened Text

  /** An event of the agent stream; json is its JSON encoding. */
  datatype AgentEvent = AgentEvent(id: string, eventType: string, json: string)

  /** What the stream handler writes: an event, or a heartbeat. */
  datatype Frame = Event(event: AgentEvent) | Heartbeat

  /** What the client's parser yields. */
  datatype Received = Received(event: string, data: string)

  predicate NewlineFree(s: string) { '\n' !in s }

  /** One JSON object on one line, as json.Marshal prints a struct. */
  predicate JsonObject(s: string) {
    |s| >= 2 && s[0] == '{' && s[|s| - 1] == '}' && NewlineFree(s)
  }

  predicate Printable(f: Frame) {
    f.Event? ==>
      && NewlineFree(GoTrim(f.event.id))
      && NewlineFree(GoTrim(f.event.eventType))
      && JsonObject(f.event.json)
  }

  // ----------------------------------------------------------------- printer

  function WireType(e: AgentEvent): string {
    if GoTrim(e.eventType) == "" then "agent.step" else GoTrim(e.eventType)
  }

  function IdLine(e: AgentEvent): string {
    if GoTrim(e.id) != "" then "id: " + GoTrim(e.id) + "\n" else ""
  }

  function TypeLine(e: AgentEvent): string { "event: " + WireType(e) }

  function DataLine(e: AgentEvent): string { "data: " + e.json }

  /** A frame without the blank line that ends it. */
  function Block(f: Frame): string {
    match f
    case Event(e) => IdLine(e) + (TypeLine(e) + "\n" + DataLine(e))
    case Heartbeat => "event: ping" + "\n" + "data: {}"
  }

  lemma PieceByPiece(body: string, a: string, b: string, c: string, d: string, e: string)
    ensures body + a + (b + c) + (d + e) == body + (a + (b + c + d)) + e
  {
  }

  function Print(frames: seq<Frame>): string {
    if frames == [] then "" else Block(frames[0]) + "\n\n" + Print(frames[1..])
  }

  class ResponseWriter {
    var body: string

    constructor ()
      ensures body == ""
    {
      body := "";
    }

    method WriteSSEEvent(e: AgentEvent)
      modifies this
      ensures body == old(body) + Block(Event(e)) + "\n\n"
    {
      hide TrimLeft, TrimRight;
      var eventType := GoTrim(e.eventType);
      if eventType == "" {
        eventType := "agent.step";
      }
      if GoTrim(e.id) != "" {
        body := body + ("id: " + GoTrim(e.id) + "\n");
      }
      body := body + ("event: " + eventType + "\n");
      body := body + ("data: " + e.json + "\n\n");
      PieceByPiece(old(body), IdLine(e), TypeLine(e), "\n", DataLine(e), "\n\n");
    }

    method WriteHeartbeat()
      modifies this
      ensures body == old(body) + Block(Heartbeat) + "\n\n"
    {
      body := body + "event: ping\ndata: {}\n\n";
    }
  }

  // ------------------------------------------------------------------ reader

  predicate StartsWith(s: string, prefix: string) {
    prefix <= s
  }

  function JoinLines(lines: seq<string>): string {
    if lines == [] then "" else if |lines| == 1 then lines[0] else lines[0] + "\n" + JoinLines(lines[1..])
  }

  /** The scan of a block's lines, from a state of the two local variables. */
  function Scan(lines: seq<string>, event: string, data: seq<string>): Received {
    if lines == [] then Received(event, JoinLines(data))
    else if StartsWith(lines[0], "event:") then Scan(lines[1..], JsTrim(lines[0][6..]), data)
    else if StartsWith(lines[0], "data:") then Scan(lines[1..], event, data + [JsTrim(lines[0][5..])])
    else Scan(lines[1..], event, data)
  }

  function ParseBlock(block: string): seq<Received> {
    var trimmed := JsTrim(block);
    if trimmed == "" then [] else [Scan(Split(trimmed, "\n"), "message", [])]
  }

  function ParseBlocks(blocks: seq<string>): seq<Received> {
    if blocks == [] then [] else ParseBlock(blocks[0]) + ParseBlocks(blocks[1..])
  }

  function ParsedChunk(chunk: string): seq<Received> {
    ParseBlocks(Split(chunk, "\n\n"))
  }

  /** The complete parts cut off the buffer, each parsed with its delimiter put back. */
  function ParsedParts(parts: seq<string>): seq<Received> {
    if parts == [] then [] else ParsedChunk(parts[0] + "\n\n") + ParsedParts(parts[1..])
  }

  /** Everything the client reads from a list of network chunks, starting with a buffer. */
  function Receive(buffer: string, chunks: seq<string>): seq<Received>
    decreases |chunks|
  {
    if chunks == [] then []
    else
      var parts := Split(buffer + chunks[0], "\n\n");
      ParsedParts(Init(parts)) + Receive(Last(parts), chunks[1..])
  }

  method ScanLines(lines: seq<string>) returns (received: Received)
    ensures received == Scan(lines, "message", [])
  {
    hide TrimLeft, TrimRight, JoinLines;
    var event := "message";
    var dataLines: seq<string> := [];
    for k := 0 to |lines|
      invariant Scan(lines[k..], event, dataLines) == Scan(lines, "message", [])
    {
      var line := lines[k];
      assert lines[k..][1..] == lines[k + 1..];
      if StartsWith(line, "event:") {
        event := JsTrim(line[6..]);
        continue;
      }
      if StartsWith(line, "data:") {
        dataLines := dataLines + [JsTrim(line[5..])];
      }
    }
    received := Received(event, JoinLines(dataLines));
  }

  method ParseSSEChunk(chunk: string) returns (events: seq<Received>)
    ensures events == ParsedChunk(chunk)
  {
    hide TrimLeft, TrimRight, IndexOf, Split, Scan;
    var blocks := Split(chunk, "\n\n");
    events := [];
    for i := 0 to |blocks|
      invariant events + ParseBlocks(blocks[i..]) == ParseBlocks(blocks)
    {
      var trimmed := JsTrim(blocks[i]);
      assert blocks[i..][1..] == blocks[i + 1..];
      if trimmed == "" { continue; }
      var lines := Split(trimmed, "\n");
      var received := ScanLines(lines);
      events := events + [received];
    }
  }

  method ReadStream(chunks: seq<string>) returns (received: seq<Received>)
    ensures received == Receive("", chunks)
  {
    hide IndexOf, Split, ParsedChunk;
    var buffer := "";
    received := [];
    for i := 0 to |chunks|
      invariant received + Receive(buffer, chunks[i..]) == Receive("", chunks)
    {
      ghost var held := buffer;
      buffer := buffer + chunks[i];
      assert chunks[i..][1..] == chunks[i + 1..];
      var parts := Split(buffer, "\n\n");
      buffer := Last(parts);
      parts := Init(parts);
      assert Receive(held, chunks[i..]) == ParsedParts(parts) + Receive(buffer, chunks[i + 1..]);
      ghost var before := received;
      for k := 0 to |parts|
        invariant received + ParsedParts(parts[k..]) == before + ParsedParts(parts)
      {
        var events := ParseSSEChunk(parts[k] + "\n\n");
        assert parts[k..][1..] == parts[k + 1..];
        received := received + events;
      }
      assert parts[|parts|..] == [];
      assert received == before + ParsedParts(parts);
      assert chunks[i..][0] == chunks[i];
    }
  }

  // ------------------------------------------------- chunk boundaries vanish

  lemma {:induction false} ParsedPartsAppend(xs: seq<string>, ys: seq<string>)
    ensures ParsedParts(xs + ys) == ParsedParts(xs) + ParsedParts(ys)
  {
    if xs == [] {
      assert xs + ys == ys;
    } else {
      assert (xs + ys)[1..] == xs[1..] + ys;
      ParsedPartsAppend(xs[1..], ys);
    }
  }

  /** Whatever the chunk boundaries, the client sees what one chunk would show it. */
  lemma {:induction false} ChunksAreInvisible(buffer: string, chunks: seq<string>)
    requires IndexOf(buffer, "\n\n") == -1
    ensures Receive(buffer, chunks) == ParsedParts(Init(Split(buffer + Join(chunks), "\n\n")))
    decreases |chunks|
  {
    hide IndexOf, Split, ParsedParts;
    if chunks == [] {
      assert buffer + "" == buffer;
      OpenBuffer(buffer, "\n\n");
      assert Init([buffer]) == [];
      NothingParsed();
    } else {
      var text, rest := buffer + chunks[0], Join(chunks[1..]);
      LastPartIsOpen(text, "\n\n");
      ChunksAreInvisible(Last(Split(text, "\n\n")), chunks[1..]);
      assert buffer + Join(chunks) == text + rest;
      DrainInTwo(text, rest);
    }
  }

  /** The parts completed by a text, then those completed by what follows it. */
  lemma DrainInTwo(text: string, rest: string)
    ensures ParsedParts(Init(Split(text + rest, "\n\n")))
         == ParsedParts(Init(Split(text, "\n\n"))) + ParsedParts(Init(Split(Last(Split(text, "\n\n")) + rest, "\n\n")))
  {
    hide IndexOf, Split, ParsedParts;
    SplitAppend(text, rest, "\n\n");
    var parts := Split(text, "\n\n");
    var tail := Split(Last(parts) + rest, "\n\n");
    assert Init(Init(parts) + tail) == Init(parts) + Init(tail);
    ParsedPartsAppend(Init(parts), Init(tail));
  }

  lemma {:induction false} LastPartIsOpen(s: string, sep: string)
    requires sep != ""
    ensures IndexOf(Last(Split(s, sep)), sep) == -1
    decreases |s|
  {
    hide IndexOf;
    var i := IndexOf(s, sep);
    if i != -1 {
      LastPartIsOpen(s[i + |sep|..], sep);
    }
  }

  lemma OpenBuffer(buffer: string, sep: string)
    requires sep != "" && IndexOf(buffer, sep) == -1
    ensures Split(buffer, sep) == [buffer]
  {
  }

  lemma NothingParsed()
    ensures ParsedParts([]) == []
  {
  }

  lemma EmptyHasNone(sep: string)
    requires sep != ""
    ensures IndexOf("", sep) == -1
  {
  }

  /** A connection cut at any point has shown the client a prefix of the events. */
  lemma {:induction false} CutStreamShowsPrefix(cut: seq<string>, whole: seq<string>)
    requires Join(cut) <= Join(whole)
    ensures Receive("", cut) <= Receive("", whole)
  {
    hide IndexOf, Join, Receive, Split, ParsedParts;
    var a, b := Join(cut), Join(whole)[|Join(cut)|..];
    assert IndexOf("", "\n\n") == -1 by { EmptyHasNone("\n\n"); }
    ChunksAreInvisible("", cut);
    ChunksAreInvisible("", whole);
    assert "" + a == a && "" + Join(whole) == a + b;
    DrainInTwo(a, b);
  }

  // ------------------------------------------------------ printed blocks

  /** Text that holds no blank line, and to which a blank line can be appended unambiguously. */
  predicate Solid(s: string) {
    && s != "" && s[|s| - 1] != '\n'
    && forall j :: 0 <= j < |s| - 1 && s[j] == '\n' ==> s[j + 1] != '\n'
  }

  lemma SplitSolid(s: string, rest: string)
    requires Solid(s)
    ensures Split(s + "\n\n" + rest, "\n\n") == [s] + Split(rest, "\n\n")
  {
    hide IndexOf, Split;
    var t := s + "\n\n" + rest;
    forall j | 0 <= j < |s|
      ensures !OccursAt(t, "\n\n", j)
    {
      var w := t[j..j + 2];
      assert w[0] == t[j] == s[j] && w[1] == t[j + 1];
      assert j + 1 < |s| ==> t[j + 1] == s[j + 1];
      assert j + 1 == |s| ==> s[j] != '\n';
    }
    SplitAt(s, "\n\n", rest);
  }

  /** Two lines, optionally after an id line, make a block that no trim and no split disturbs. */
  lemma LinesAreSolid(idLine: string, typeLine: string, dataLine: string)
    requires NewlineFree(idLine) && NewlineFree(typeLine) && NewlineFree(dataLine)
    requires typeLine != "" && !JsSpace(typeLine[0])
    requires dataLine != "" && !JsSpace(dataLine[0]) && !JsSpace(dataLine[|dataLine| - 1])
    requires idLine != "" ==> !JsSpace(idLine[0])
    ensures var tail := typeLine + "\n" + dataLine;
            var block := if idLine == "" then tail else idLine + "\n" + tail;
            Solid(block) && Bare(JsSpace, block)
  {
  }

  lemma BlockIsSolid(f: Frame)
    requires Printable(f)
    ensures Solid(Block(f)) && Bare(JsSpace, Block(f))
  {
    hide TrimLeft, TrimRight, Solid, NewlineFree;
    match f
    case Heartbeat =>
      HeartbeatLines();
      LinesAreSolid("", "event: ping", "data: {}");
    case Event(e) =>
      EventLines(e);
      if GoTrim(e.id) == "" {
        LinesAreSolid("", TypeLine(e), DataLine(e));
        NoIdLine(f);
      } else {
        LinesAreSolid("id: " + GoTrim(e.id), TypeLine(e), DataLine(e));
        WithIdLine(f);
      }
  }

  lemma HeartbeatLines()
    ensures NewlineFree("") && NewlineFree("event: ping") && NewlineFree("data: {}")
    ensures !JsSpace("event: ping"[0]) && !JsSpace("data: {}"[0]) && !JsSpace("data: {}"[|"data: {}"| - 1])
  {
  }

  lemma EventLines(e: AgentEvent)
    requires Printable(Event(e))
    ensures NewlineFree("") && NewlineFree("id: " + GoTrim(e.id)) && NewlineFree(TypeLine(e)) && NewlineFree(DataLine(e))
    ensures !JsSpace(TypeLine(e)[0]) && !JsSpace(DataLine(e)[0]) && !JsSpace(DataLine(e)[|DataLine(e)| - 1])
  {
    hide TrimLeft, TrimRight;
    assert DataLine(e)[|DataLine(e)| - 1] == '}';
  }

  lemma NoIdLine(f: Frame)
    requires f.Event? && GoTrim(f.event.id) == ""
    ensures Block(f) == TypeLine(f.event) + "\n" + DataLine(f.event)
  {
  }

  lemma WithIdLine(f: Frame)
    requires f.Event? && GoTrim(f.event.id) != ""
    ensures Block(f) == "id: " + GoTrim(f.event.id) + "\n" + (TypeLine(f.event) + "\n" + DataLine(f.event))
  {
  }

  /** The type the client should see of an event sent with this type. */
  function ShownType(eventType: string): string {
    if GoTrim(eventType) == "" then "agent.step" else JsTrim(GoTrim(eventType))
  }

  /** What the client should see of a frame. */
  function Seen(f: Frame): Received {
    match f
    case Event(e) => Received(ShownType(e.eventType), e.json)
    case Heartbeat => Received("ping", "{}")
  }

  lemma ShownIsTrimmed(e: AgentEvent)
    ensures JsTrim(WireType(e)) == ShownType(e.eventType)
  {
    hide TrimLeft, TrimRight;
    TrimFacts(JsSpace, "agent.step");
  }

  function AllSeen(frames: seq<Frame>): seq<Received> {
    seq(|frames|, i requires 0 <= i < |frames| => Seen(frames[i]))
  }

  lemma ScanTypeLine(eventType: string, rest: seq<string>, event: string, data: seq<string>)
    ensures Scan(["event: " + eventType] + rest, event, data) == Scan(rest, JsTrim(eventType), data)
  {
  }

  lemma ScanDataLine(json: string, event: string)
    ensures Scan(["data: " + json], event, []) == Received(event, JsTrim(json))
  {
    hide TrimLeft, TrimRight;
    var line := "data: " + json;
    assert line[5..] == [' '] + json && line[..5] == "data:" && line[0] == 'd';
    TrimAfterSpace(JsSpace, ' ', json);
    assert [line][1..] == [];
    assert [] + [JsTrim(json)] == [JsTrim(json)];
  }

  lemma ScanIdLine(id: string, rest: seq<string>, event: string, data: seq<string>)
    ensures Scan(["id: " + id] + rest, event, data) == Scan(rest, event, data)
  {
    hide TrimLeft, TrimRight, JoinLines;
    var line := "id: " + id;
    assert line[0] == 'i';
    assert ([line] + rest)[1..] == rest;
  }

  /** An event line followed by a data line fills both fields. */
  lemma TwoLines(eventType: string, json: string)
    requires NewlineFree("event: " + eventType) && NewlineFree("data: " + json)
    ensures Scan(Split("event: " + eventType + "\n" + ("data: " + json), "\n"), "message", [])
         == Received(JsTrim(eventType), JsTrim(json))
  {
    hide TrimLeft, TrimRight, IndexOf, Split, Scan;
    SplitField("event: " + eventType, '\n', "data: " + json);
    SplitWhole("data: " + json, '\n');
    ScanTypeLine(eventType, ["data: " + json], "message", []);
    ScanDataLine(json, JsTrim(eventType));
  }

  lemma PrintedBlockParses(f: Frame)
    requires Printable(f)
    ensures ParseBlock(Block(f)) == [Seen(f)]
  {
    hide TrimLeft, TrimRight, IndexOf, Split, Scan, Solid, NewlineFree, WireType, ShownType;
    BlockIsSolid(f);
    TrimFacts(JsSpace, Block(f));
    match f
    case Heartbeat =>
      HeartbeatLines();
      assert "event: " + "ping" == "event: ping" && "data: " + "{}" == "data: {}";
      TwoLines("ping", "{}");
      TrimFacts(JsSpace, "ping");
      TrimFacts(JsSpace, "{}");
    case Event(e) =>
      EventLines(e);
      TwoLines(WireType(e), e.json);
      ShownIsTrimmed(e);
      TrimFacts(JsSpace, e.json);
      if GoTrim(e.id) == "" {
        NoIdLine(f);
      } else {
        WithIdLine(f);
        var tail := TypeLine(e) + "\n" + DataLine(e);
        NotANewline("id: " + GoTrim(e.id));
        SplitField("id: " + GoTrim(e.id), '\n', tail);
        ScanIdLine(GoTrim(e.id), Split(tail, "\n"), "message", []);
      }
  }

  lemma NotANewline(s: string)
    requires NewlineFree(s)
    ensures '\n' !in s
  {
  }

  lemma SplitEmpty(sep: string)
    requires sep != ""
    ensures Split("", sep) == [""]
  {
  }

  lemma PrintedPartParses(f: Frame)
    requires Printable(f)
    ensures ParsedChunk(Block(f) + "\n\n") == [Seen(f)]
  {
    hide TrimLeft, TrimRight, IndexOf, Split, Scan, Solid, Block, NewlineFree;
    BlockIsSolid(f);
    SplitSolid(Block(f), "");
    assert Block(f) + "\n\n" + "" == Block(f) + "\n\n";
    PrintedBlockParses(f);
    SplitEmpty("\n\n");
    var blocks := [Block(f)] + [""];
    assert blocks[1..] == [""] && [""][1..] == [];
    TrimFacts(JsSpace, "");
    assert ParseBlock("") == [];
    assert ParseBlocks([""]) == [];
  }

  lemma {:induction false} PrintedParses(frames: seq<Frame>)
    requires forall f :: f in frames ==> Printable(f)
    ensures ParsedParts(Init(Split(Print(frames), "\n\n"))) == AllSeen(frames)
  {
    hide TrimLeft, TrimRight, IndexOf, Split, ParsedChunk, Solid, Block, NewlineFree;
    if frames == [] {
      EmptyHasNone("\n\n");
      assert Split("", "\n\n") == [""] by { SplitEmpty("\n\n"); }
      assert Init([""]) == [];
    } else {
      var f, rest := frames[0], frames[1..];
      BlockIsSolid(f);
      SplitSolid(Block(f), Print(rest));
      var tail := Split(Print(rest), "\n\n");
      assert Init([Block(f)] + tail) == [Block(f)] + Init(tail);
      assert ([Block(f)] + Init(tail))[1..] == Init(tail);
      PrintedPartParses(f);
      PrintedParses(rest);
      assert AllSeen(frames) == [Seen(f)] + AllSeen(rest);
    }
  }

  /**
   * The round trip: printing, cutting anywhere and reading gives back every event, in order, with its data, and with
   * its type when that is neither blank nor touched by the two trims; a blank type comes back as agent.step.
   */
  lemma {:induction false} RoundTrip(frames: seq<Frame>, chunks: seq<string>)
    requires forall f :: f in frames ==> Printable(f)
    requires Join(chunks) == Print(frames)
    ensures Receive("", chunks) == AllSeen(frames)
    ensures forall i :: 0 <= i < |frames| && frames[i].Event? ==>
              var e, r := frames[i].event, Receive("", chunks)[i];
              && r.data == e.json
              && (GoTrim(e.eventType) == "" ==> r.event == "agent.step")
              && (GoTrim(e.eventType) != "" ==> r.event == JsTrim(GoTrim(e.eventType)))
              && (e.eventType != "" && Bare(GoSpace, e.eventType) && Bare(JsSpace, e.eventType) ==> r.event == e.eventType)
    ensures forall i :: 0 <= i < |frames| && frames[i].Heartbeat? ==> Receive("", chunks)[i] == Received("ping", "{}")
  {
    hide TrimLeft, TrimRight, Print, Receive, Bare;
    ChunksAreInvisible("", chunks);
    assert "" + Join(chunks) == Print(frames);
    PrintedParses(frames);
    forall i | 0 <= i < |frames| && frames[i].Event?
      ensures var t := frames[i].event.eventType;
              t != "" && Bare(GoSpace, t) && Bare(JsSpace, t) ==> GoTrim(t) == t && JsTrim(GoTrim(t)) == t
    {
      TrimFacts(GoSpace, frames[i].event.eventType);
      TrimFacts(JsSpace, frames[i].event.eventType);
    }
  }

  /** The lines of a printed event: its id unless blank, its type or agent.step, and its data. */
  lemma PrintedLines(e: AgentEvent)
    requires Printable(Event(e))
    ensures Split(Block(Event(e)), "\n")
         == (if GoTrim(e.id) == "" then [] else ["id: " + GoTrim(e.id)])
            + ["event: " + (if GoTrim(e.eventType) == "" then "agent.step" else GoTrim(e.eventType)), "data: " + e.json]
  {
    hide TrimLeft, TrimRight, IndexOf, Split, NewlineFree;
    EventLines(e);
    var tail := TypeLine(e) + "\n" + DataLine(e);
    NotANewline(TypeLine(e));
    NotANewline(DataLine(e));
    SplitField(TypeLine(e), '\n', DataLine(e));
    SplitWhole(DataLine(e), '\n');
    if GoTrim(e.id) == "" {
      NoIdLine(Event(e));
    } else {
      WithIdLine(Event(e));
      NotANewline("id: " + GoTrim(e.id));
      SplitField("id: " + GoTrim(e.id), '\n', tail);
    }
  }

  /** A type comes back as it was given if and only if it is not empty and neither trim changes it. */
  lemma TypeSurvives(e: AgentEvent, chunks: seq<string>)
    requires Printable(Event(e)) && Join(chunks) == Print([Event(e)])
    ensures Receive("", chunks) == [Received(e.eventType, e.json)]
       <==> e.eventType != "" && Bare(GoSpace, e.eventType) && Bare(JsSpace, e.eventType)
  {
    hide TrimLeft, TrimRight, Print, Receive, Printable;
    var t := e.eventType;
    RoundTrip([Event(e)], chunks);
    TrimFacts(GoSpace, t);
    TrimFacts(JsSpace, t);
    TrimNotLonger(t);
    StepIsBare();
    var r := Receive("", chunks);
    assert |r| == 1 && r == [r[0]] && r[0].data == e.json;
    assert [Event(e)][0].Event?;
    assert r[0] == Received(e.eventType, e.json) <==> e.eventType != "" && Bare(GoSpace, t) && Bare(JsSpace, t);
  }

  lemma StepIsBare()
    ensures GoTrim("agent.step") == "agent.step"
  {
    hide TrimLeft, TrimRight;
    TrimFacts(GoSpace, "agent.step");
  }

  /** Trimming twice gives back a text only if each trim does. */
  lemma TrimNotLonger(t: string)
    ensures JsTrim(GoTrim(t)) == t ==> GoTrim(t) == t && JsTrim(t) == t
  {
    hide TrimLeft, TrimRight;
    TrimLeftSuffix(GoSpace, t);
    TrimRightPrefix(GoSpace, TrimLeft(GoSpace, t));
    TrimLeftSuffix(JsSpace, GoTrim(t));
    TrimRightPrefix(JsSpace, TrimLeft(JsSpace, GoTrim(t)));
  }
}

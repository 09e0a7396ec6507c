/** JSON text as JSON.stringify writes it, without indentation. */
module JsonText {

  /** Numbers carry their JavaScript spelling; object entries keep their order. */
  datatype Value =
    | Null | Bool(b: bool) | Num(spelling: string) | Str(s: string)
    | Arr(items: seq<Value>) | Obj(entries: seq<Member>)

  datatype Member = Member(key: string, value: Value)

  predicate NumberChar(c: char) { '0' <= c <= '9' || c == '-' || c == '+' || c == '.' || c == 'e' }

  predicate WellFormed(v: Value) {
    match v
    case Num(t) => t != [] && forall i :: 0 <= i < |t| ==> NumberChar(t[i])
    case Arr(items) => forall i :: 0 <= i < |items| ==> WellFormed(items[i])
    case Obj(entries) => forall i :: 0 <= i < |entries| ==> WellFormed(entries[i].value)
    case _ => true
  }

  function HexDigit(n: nat): char
    requires n < 16
  {
    "0123456789abcdef"[n]
  }

  function EscapeChar(c: char): (r: string)
    ensures r != [] && '\n' !in r
  {
    if c == '"' then "\\\"" else if c == '\\' then "\\\\"
    else if c == '\n' then "\\n" else if c == '\r' then "\\r" else if c == '\t' then "\\t"
    else if c as int == 8 then "\\b" else if c as int == 12 then "\\f"
    else if c < ' ' then ['\\', 'u', '0', '0', HexDigit(c as int / 16), HexDigit(c as int % 16)]
    else [c]
  }

  function EscapeAll(s: string): (r: string)
    ensures '\n' !in r
  {
    if s == [] then [] else EscapeChar(s[0]) + EscapeAll(s[1..])
  }

  function Quote(s: string): string { "\"" + EscapeAll(s) + "\"" }

  function Stringify(v: Value): string
    decreases v, 1
  {
    match v
    case Null => "null"
    case Bool(b) => if b then "true" else "false"
    case Num(t) => t
    case Str(s) => Quote(s)
    case Arr(items) => "[" + Items(items) + "]"
    case Obj(entries) => "{" + Entries(entries) + "}"
  }

  function Items(items: seq<Value>): string
    decreases items, 0
  {
    if items == [] then ""
    else Stringify(items[0]) + (if |items| == 1 then "" else ",") + Items(items[1..])
  }

  function Entries(entries: seq<Member>): string
    decreases entries, 0
  {
    if entries == [] then ""
    else
      Quote(entries[0].key) + ":" + Stringify(entries[0].value) + (if |entries| == 1 then "" else ",") +
      Entries(entries[1..])
  }

  /** No line feed anywhere, and something visible at both ends. */
  predicate OneLine(t: string) {
    t != [] && '\n' !in t && '!' <= t[0] <= '~' && '!' <= t[|t| - 1] <= '~'
  }

  /** Whatever strings a payload holds, its JSON text is a single line without outer white space. */
  lemma {:induction false} StringifyIsOneLine(v: Value)
    requires WellFormed(v)
    ensures OneLine(Stringify(v))
    decreases v, 1
  {
    match v {
      case Num(t) => assert forall i :: 0 <= i < |t| ==> NumberChar(t[i]);
      case Arr(items) => ItemsOneLine(items);
      case Obj(entries) => EntriesOneLine(entries);
      case _ =>
    }
  }

  lemma {:induction false} ItemsOneLine(items: seq<Value>)
    requires forall i :: 0 <= i < |items| ==> WellFormed(items[i])
    ensures '\n' !in Items(items)
    decreases items, 0
  {
    if items != [] {
      StringifyIsOneLine(items[0]);
      ItemsOneLine(items[1..]);
    }
  }

  lemma {:induction false} EntriesOneLine(entries: seq<Member>)
    requires forall i :: 0 <= i < |entries| ==> WellFormed(entries[i].value)
    ensures '\n' !in Entries(entries)
    decreases entries, 0
  {
    if entries != [] {
      StringifyIsOneLine(entries[0].value);
      EntriesOneLine(entries[1..]);
    }
  }
}

/**
 * Server-sent job events: the writer of apps/api-express/src/routes/scrapeJobs.js and the
 * incremental reader of apps/web/src/app/scrape-console/page.tsx, in the event-stream format
 * of section 9.2 of the WHATWG HTML standard.
 */
module Sse {
  import opened Basics
  import opened Strings
  import J = JsonText

  // ------------------------------------------------------------------ the writer

  /** What the stream handler writes: named events with a JSON payload, and comment heartbeats. */
  datatype Frame = Event(name: string, payload: J.Value) | Ping(now: string)

  predicate Written(f: Frame) {
    match f
    case Event(name, payload) => name in {"job", "job_event", "error"} && J.WellFormed(payload)
    case Ping(now) => IsDigits(now)
  }

  function Body(f: Frame): string {
    match f
    case Event(name, payload) => "event: " + name + "\n" + ("data: " + J.Stringify(payload))
    case Ping(now) => ": ping " + now
  }

  function Render(f: Frame): string { Body(f) + "\n\n" }

  function Rendered(fs: seq<Frame>): seq<string> { seq(|fs|, i requires 0 <= i < |fs| => Render(fs[i])) }

  function Concat(chunks: seq<string>): string {
    if chunks == [] then "" else chunks[0] + Concat(chunks[1..])
  }

  function Stream(fs: seq<Frame>): string { Concat(Rendered(fs)) }

  /** The line the console shows for a frame. */
  function Shown(f: Frame): string {
    match f
    case Event(name, payload) => "[" + name + "] " + J.Stringify(payload)
    case Ping(now) => ": ping " + now
  }

  function AllShown(fs: seq<Frame>): seq<string> {
    if fs == [] then [] else [Shown(fs[0])] + AllShown(fs[1..])
  }

  // ------------------------------------------------------------------ the reader

  /** buffer.indexOf of an empty line. */
  function FindBreak(s: string): (r: Option<nat>)
    ensures r.Some? ==> r.value + 2 <= |s| && s[r.value] == '\n' && s[r.value + 1] == '\n'
  {
    if |s| < 2 then None
    else if s[0] == '\n' && s[1] == '\n' then Some(0)
    else
      var r := FindBreak(s[1..]);
      if r.Some? then Some(r.value + 1) else None
  }

  function SplitLines(s: string): (r: seq<string>)
    ensures r != []
  {
    if s == [] then [""]
    else if s[0] == '\n' then [""] + SplitLines(s[1..])
    else
      var r := SplitLines(s[1..]);
      [[s[0]] + r[0]] + r[1..]
  }

  datatype Fields = Fields(event: string, data: seq<string>)

  function ReadLine(f: Fields, line: string): Fields {
    if StartsWith(line, "event:") then f.(event := Trim(line[6..]))
    else if StartsWith(line, "data:") then f.(data := f.data + [TrimStart(line[5..])])
    else f
  }

  function ReadLines(f: Fields, lines: seq<string>): Fields
    decreases |lines|
  {
    if lines == [] then f else ReadLines(ReadLine(f, lines[0]), lines[1..])
  }

  function JoinData(lines: seq<string>): string {
    if lines == [] then "" else if |lines| == 1 then lines[0] else lines[0] + "\n" + JoinData(lines[1..])
  }

  datatype Parsed = Parsed(event: string, data: string)

  function BlockFields(block: string): Fields { ReadLines(Fields("message", []), SplitLines(block)) }

  function ParseBlock(block: string): Option<Parsed> {
    var f := BlockFields(block);
    if f.data == [] then None else Some(Parsed(f.event, JoinData(f.data)))
  }

  /** What one raw block adds to the console: nothing or one line. */
  function BlockLines(block: string): seq<string> {
    var trimmed := Trim(block);
    if trimmed == "" then []
    else if trimmed[0] == ':' then [trimmed]
    else
      var p := ParseBlock(block);
      if p.None? then [] else ["[" + p.value.event + "] " + p.value.data]
  }

  datatype Drained = Drained(lines: seq<string>, rest: string)

  /** The inner loop: handle every complete block, keep the rest. */
  function Drain(buffer: string): (d: Drained)
    ensures FindBreak(d.rest).None?
    decreases |buffer|
  {
    var i := FindBreak(buffer);
    if i.None? then Drained([], buffer)
    else
      var d := Drain(buffer[i.value + 2..]);
      Drained(BlockLines(buffer[..i.value]) + d.lines, d.rest)
  }

  /** The outer loop over the chunks of a response. */
  function Read(buffer: string, chunks: seq<string>): Drained
    decreases |chunks|
  {
    if chunks == [] then Drained([], buffer)
    else
      var d := Drain(buffer + chunks[0]);
      var r := Read(d.rest, chunks[1..]);
      Drained(d.lines + r.lines, r.rest)
  }

  /** pushLine: append, and keep the last 500. */
  function Push(shown: seq<string>, line: string): seq<string> {
    var next := shown + [line];
    if |next| > 500 then next[|next| - 500..] else next
  }

  function PushAll(shown: seq<string>, lines: seq<string>): seq<string>
    decreases |lines|
  {
    if lines == [] then shown else PushAll(Push(shown, lines[0]), lines[1..])
  }

  function Last500(lines: seq<string>): seq<string> { if |lines| > 500 then lines[|lines| - 500..] else lines }

  // ------------------------------------------------------------------ chunk boundaries do not matter

  lemma {:induction false} BreakStays(a: string, b: string)
    ensures FindBreak(a).Some? ==> FindBreak(a + b) == FindBreak(a)
  {
    if |a| >= 2 && !(a[0] == '\n' && a[1] == '\n') {
      BreakStays(a[1..], b);
      assert (a + b)[1..] == a[1..] + b;
    }
  }

  /** The first complete block is handled, whatever follows it. */
  lemma DrainFirst(block: string, tail: string)
    requires FindBreak(block + "\n\n" + tail) == Some(|block|)
    ensures var d := Drain(tail);
            Drain(block + "\n\n" + tail) == Drained(BlockLines(block) + d.lines, d.rest)
  {
    var text := block + "\n\n" + tail;
    assert text[..|block|] == block && text[|block| + 2..] == tail;
  }

  lemma CutAtBreak(a: string, i: nat)
    requires FindBreak(a) == Some(i)
    ensures a == a[..i] + "\n\n" + a[i + 2..]
  {
  }

  lemma {:induction false} DrainSplits(a: string, b: string)
    ensures var d := Drain(a);
            var e := Drain(d.rest + b);
            Drain(a + b) == Drained(d.lines + e.lines, e.rest)
    decreases |a|
  {
    var i := FindBreak(a);
    if i.Some? {
      var block, tail := a[..i.value], a[i.value + 2..];
      CutAtBreak(a, i.value);
      BreakStays(a, b);
      assert a + b == block + "\n\n" + (tail + b);
      DrainFirst(block, tail);
      DrainFirst(block, tail + b);
      DrainSplits(tail, b);
      SumAssociates(BlockLines(block), Drain(tail).lines, Drain(Drain(tail).rest + b).lines);
    } else {
      assert [] + Drain(a + b).lines == Drain(a + b).lines;
    }
  }

  lemma SumAssociates<T>(a: seq<T>, b: seq<T>, c: seq<T>)
    ensures a + (b + c) == a + b + c
  {
  }

  /** For any text at all, cut into chunks anywhere, the reader sees what one chunk would show. */
  lemma {:induction false} ChunkingIsInvisible(buffer: string, chunks: seq<string>)
    requires FindBreak(buffer).None?
    ensures Read(buffer, chunks) == Drain(buffer + Concat(chunks))
    decreases |chunks|
  {
    if chunks == [] {
      assert buffer + Concat(chunks) == buffer;
    } else {
      var first, tail := buffer + chunks[0], Concat(chunks[1..]);
      ChunkingIsInvisible(Drain(first).rest, chunks[1..]);
      DrainSplits(first, tail);
      SumAssociates(buffer, chunks[0], tail);
    }
  }

  // ------------------------------------------------------------------ what was written is what is shown

  lemma {:induction false} FirstBreak(body: string, rest: string)
    requires FindBreak(body).None? && body != [] && body[|body| - 1] != '\n'
    ensures FindBreak(body + "\n\n" + rest) == Some(|body|)
  {
    var text := body + "\n\n" + rest;
    if |body| == 1 {
      assert text[0] != '\n' && text[1..][0] == '\n' && text[1..][1] == '\n';
    } else {
      FirstBreak(body[1..], rest);
      assert text[1..] == body[1..] + "\n\n" + rest;
      assert text[0] == body[0] && text[1] == body[1];
    }
  }

  lemma {:induction false} PlainHasNoBreak(b: string)
    requires '\n' !in b
    ensures FindBreak(b).None?
  {
    if |b| >= 2 {
      assert b[0] in b;
      PlainHasNoBreak(b[1..]);
    }
  }

  lemma {:induction false} TwoLines(a: string, b: string)
    requires '\n' !in a && '\n' !in b && b != []
    ensures FindBreak(a + "\n" + b).None?
    ensures SplitLines(a + "\n" + b) == [a, b]
  {
    var text := a + "\n" + b;
    if a == [] {
      PlainHasNoBreak(b);
      PlainIsOneLine(b);
      assert text[1..] == b && b[0] in b;
    } else {
      assert a[0] in a;
      TwoLines(a[1..], b);
      assert text[1..] == a[1..] + "\n" + b;
      assert [a[0]] + a[1..] == a;
    }
  }

  lemma {:induction false} PlainIsOneLine(b: string)
    requires '\n' !in b
    ensures SplitLines(b) == [b]
  {
    if b != [] {
      assert b[0] in b;
      PlainIsOneLine(b[1..]);
      assert [b[0]] + b[1..] == b;
    }
  }

  lemma OneLineSurvivesTrim(t: string)
    requires J.OneLine(t)
    ensures Trim(" " + t) == t && TrimStart(" " + t) == t
  {
    assert (" " + t)[1..] == t;
    TrimKeeps(t);
  }

  lemma EventBlock(name: string, json: string)
    requires J.OneLine(name) && J.OneLine(json)
    ensures var body := "event: " + name + "\n" + ("data: " + json);
            && FindBreak(body).None? && body[|body| - 1] != '\n'
            && BlockLines(body) == ["[" + name + "] " + json]
  {
    var e, d := "event: " + name, "data: " + json;
    var body := e + "\n" + d;
    TwoLines(e, d);
    assert body[|body| - 1] == json[|json| - 1];
    TrimKeeps(body);
    EventFields(name, json);
    assert [json] != [];
  }

  lemma ReadEventLine(f: Fields, name: string)
    requires J.OneLine(name)
    ensures ReadLine(f, "event: " + name) == f.(event := name)
  {
    var line := "event: " + name;
    assert line[..6] == "event:" && line[6..] == " " + name;
    OneLineSurvivesTrim(name);
  }

  lemma ReadDataLine(f: Fields, json: string)
    requires J.OneLine(json)
    ensures ReadLine(f, "data: " + json) == f.(data := f.data + [json])
  {
    var line := "data: " + json;
    assert line[0] == 'd' && line[..5] == "data:" && line[5..] == " " + json;
    OneLineSurvivesTrim(json);
  }

  lemma EventFields(name: string, json: string)
    requires J.OneLine(name) && J.OneLine(json)
    ensures ReadLines(Fields("message", []), ["event: " + name, "data: " + json]) == Fields(name, [json])
  {
    var f := Fields("message", []);
    ReadEventLine(f, name);
    ReadDataLine(f.(event := name), json);
    var e, d := "event: " + name, "data: " + json;
    ReadCons(f, e, [d]);
    ReadCons(f.(event := name), d, []);
    assert [e] + [d] == [e, d] && [d] + [] == [d];
  }

  lemma ReadCons(f: Fields, line: string, rest: seq<string>)
    ensures ReadLines(f, [line] + rest) == ReadLines(ReadLine(f, line), rest)
  {
    assert ([line] + rest)[1..] == rest;
  }

  lemma PingBlock(now: string)
    requires IsDigits(now)
    ensures var body := ": ping " + now;
            FindBreak(body).None? && body[|body| - 1] != '\n' && BlockLines(body) == [body]
  {
    var body := ": ping " + now;
    assert forall i :: 7 <= i < |body| ==> body[i] == now[i - 7];
    assert '\n' !in body;
    PlainHasNoBreak(body);
    TrimKeeps(body);
  }

  lemma FrameBlock(f: Frame)
    requires Written(f)
    ensures Body(f) != [] && FindBreak(Body(f)).None? && Body(f)[|Body(f)| - 1] != '\n'
    ensures BlockLines(Body(f)) == [Shown(f)]
  {
    match f
    case Event(name, payload) =>
      J.StringifyIsOneLine(payload);
      EventBlock(name, J.Stringify(payload));
    case Ping(now) => PingBlock(now);
  }

  lemma PartialBlock(body: string, n: nat)
    requires FindBreak(body).None? && body != [] && body[|body| - 1] != '\n' && n < |body| + 2
    ensures FindBreak((body + "\n\n")[..n]).None?
  {
    var whole := body + "\n\n";
    FirstBreak(body, "");
    assert whole + "" == whole;
    BreakStays(whole[..n], whole[n..]);
    assert whole[..n] + whole[n..] == whole;
  }

  /** A frame that has not arrived completely contains no block to handle. */
  lemma PartialHasNoBreak(f: Frame, n: nat)
    requires Written(f) && n < |Render(f)|
    ensures FindBreak(Render(f)[..n]).None?
  {
    FrameBlock(f);
    PartialBlock(Body(f), n);
  }

  lemma DrainBlock(body: string, tail: string, line: string, lines: seq<string>, rest: string)
    requires FindBreak(body).None? && body != [] && body[|body| - 1] != '\n'
    requires BlockLines(body) == [line] && Drain(tail) == Drained(lines, rest)
    ensures Drain((body + "\n\n") + tail) == Drained([line] + lines, rest)
  {
    FirstBreak(body, tail);
    DrainFirst(body, tail);
  }

  ghost predicate AllWritten(fs: seq<Frame>) { forall i :: 0 <= i < |fs| ==> Written(fs[i]) }

  lemma DrainFrame(f: Frame, tail: string)
    requires Written(f)
    ensures Drain(Render(f) + tail) == Drained([Shown(f)] + Drain(tail).lines, Drain(tail).rest)
  {
    FrameBlock(f);
    var d := Drain(tail);
    DrainBlock(Body(f), tail, Shown(f), d.lines, d.rest);
  }

  lemma DrainStreamHead(fs: seq<Frame>, partial: string)
    requires fs != [] && Written(fs[0])
    ensures var d := Drain(Stream(fs[1..]) + partial);
            Drain(Stream(fs) + partial) == Drained([Shown(fs[0])] + d.lines, d.rest)
  {
    var rest := Stream(fs[1..]);
    StreamHead(fs);
    SumAssociates(Render(fs[0]), rest, partial);
    DrainFrame(fs[0], rest + partial);
  }

  lemma {:induction false} DrainStream(fs: seq<Frame>, partial: string)
    requires AllWritten(fs) && FindBreak(partial).None?
    ensures Drain(Stream(fs) + partial) == Drained(AllShown(fs), partial)
  {
    if fs == [] {
      assert Stream(fs) + partial == partial;
    } else {
      DrainStream(fs[1..], partial);
      DrainStreamHead(fs, partial);
    }
  }

  lemma StreamHead(fs: seq<Frame>)
    requires fs != []
    ensures Stream(fs) == Render(fs[0]) + Stream(fs[1..])
  {
    assert Rendered(fs)[1..] == Rendered(fs[1..]);
  }

  /**
   * For every sequence of frames, every point inside the next frame, and every way of cutting
   * that text into chunks: exactly the complete frames are shown, in order, and exactly the
   * incomplete one is left in the buffer.
   */
  lemma ConsoleShowsStream(fs: seq<Frame>, next: Frame, n: nat, chunks: seq<string>)
    requires AllWritten(fs) && Written(next) && n < |Render(next)|
    requires Concat(chunks) == Stream(fs) + Render(next)[..n]
    ensures Read("", chunks) == Drained(AllShown(fs), Render(next)[..n])
  {
    PartialHasNoBreak(next, n);
    DrainStream(fs, Render(next)[..n]);
    ChunkingIsInvisible("", chunks);
    assert "" + Concat(chunks) == Concat(chunks);
  }

  lemma {:induction false} PrefixOfConcat(parts: seq<string>, text: string) returns (k: nat, n: nat)
    requires text <= Concat(parts) && text != Concat(parts)
    ensures k < |parts| && n < |parts[k]| && text == Concat(parts[..k]) + parts[k][..n]
  {
    var first, tail := parts[0], Concat(parts[1..]);
    assert Concat(parts)[..|first|] == first && Concat(parts)[|first|..] == tail;
    if |text| < |first| {
      k, n := 0, |text|;
      assert text == Concat(parts)[..n] == first[..n];
      assert Concat(parts[..0]) + first[..n] == first[..n];
    } else {
      var rest := text[|first|..];
      assert text[..|first|] == first && text == first + rest;
      var j, m := PrefixOfConcat(parts[1..], rest);
      k, n := j + 1, m;
      assert parts[..k][1..] == parts[1..][..j];
      SumAssociates(first, Concat(parts[1..][..j]), parts[k][..n]);
    }
  }

  /** Every prefix of a stream is some complete frames and a part of the next one. */
  lemma PrefixIsFrames(fs: seq<Frame>, text: string) returns (k: nat, n: nat)
    requires text <= Stream(fs) && text != Stream(fs)
    ensures k < |fs| && n < |Render(fs[k])| && text == Stream(fs[..k]) + Render(fs[k])[..n]
  {
    k, n := PrefixOfConcat(Rendered(fs), text);
    assert Rendered(fs)[..k] == Rendered(fs[..k]);
  }

  // ------------------------------------------------------------------ the 500-line window

  lemma {:induction false} WindowKeepsNewest(before: seq<string>, lines: seq<string>)
    ensures PushAll(Last500(before), lines) == Last500(before + lines)
    decreases |lines|
  {
    if lines == [] {
      assert before + lines == before;
    } else {
      var b := before + [lines[0]];
      assert Push(Last500(before), lines[0]) == Last500(b);
      WindowKeepsNewest(b, lines[1..]);
      assert b + lines[1..] == before + lines;
    }
  }

  /**
   * After any chunking of the written stream the window holds the newest 500 of what it showed before and the frames,
   * in order, and the buffer holds the incomplete frame.
   */
  lemma WindowShowsStream(before: seq<string>, fs: seq<Frame>, next: Frame, n: nat, chunks: seq<string>)
    requires AllWritten(fs) && Written(next) && n < |Render(next)|
    requires Concat(chunks) == Stream(fs) + Render(next)[..n]
    ensures PushAll(Last500(before), Read("", chunks).lines) == Last500(before + AllShown(fs))
    ensures Read("", chunks).rest == Render(next)[..n]
  {
    ConsoleShowsStream(fs, next, n, chunks);
    WindowKeepsNewest(before, AllShown(fs));
  }

  // ------------------------------------------------------------------ the console

  /** The loop of parseSseBlock. */
  method ParseSseBlock(block: string) returns (parsed: Option<Parsed>)
    ensures parsed == ParseBlock(block)
  {
    var event, dataLines := "message", [];
    var lines := SplitLines(block);
    var i := 0;
    while i < |lines|
      invariant 0 <= i <= |lines|
      invariant ReadLines(Fields(event, dataLines), lines[i..]) == BlockFields(block)
    {
      var line := lines[i];
      assert lines[i..][1..] == lines[i + 1..];
      if StartsWith(line, "event:") {
        event := Trim(line[6..]);
      } else if StartsWith(line, "data:") {
        dataLines := dataLines + [TrimStart(line[5..])];
      }
      i := i + 1;
    }
    if |dataLines| == 0 { return None; }
    return Some(Parsed(event, JoinData(dataLines)));
  }

  class Console {
    var buffer: string
    var shown: seq<string>

    constructor ()
      ensures buffer == "" && shown == []
    {
      buffer, shown := "", [];
    }

    method PushLine(line: string)
      modifies this`shown
      ensures shown == Push(old(shown), line)
    {
      var next := shown + [line];
      shown := if |next| > 500 then next[|next| - 500..] else next;
    }

    method HandleBlock(rawBlock: string)
      modifies this`shown
      ensures shown == PushAll(old(shown), BlockLines(rawBlock))
    {
      var trimmed := Trim(rawBlock);
      if trimmed == "" { return; }
      if trimmed[0] == ':' {
        PushOne(shown, trimmed);
        PushLine(trimmed);
        return;
      }
      var parsed := ParseSseBlock(rawBlock);
      if parsed.Some? {
        var line := "[" + parsed.value.event + "] " + parsed.value.data;
        PushOne(shown, line);
        PushLine(line);
      }
    }

    /** One turn of the read loop: a decoded chunk arrives. */
    method Receive(chunk: string)
      modifies this
      ensures buffer == Drain(old(buffer) + chunk).rest
      ensures shown == PushAll(old(shown), Drain(old(buffer) + chunk).lines)
    {
      buffer := buffer + chunk;
      var idx := FindBreak(buffer);
      ghost var d0 := Drain(buffer);
      while idx.Some?
        invariant idx == FindBreak(buffer)
        invariant d0.rest == Drain(buffer).rest
        invariant PushAll(shown, Drain(buffer).lines) == PushAll(old(shown), d0.lines)
        decreases |buffer|
      {
        var rawBlock := buffer[..idx.value];
        PushAppend(shown, BlockLines(rawBlock), Drain(buffer[idx.value + 2..]).lines);
        buffer := buffer[idx.value + 2..];
        HandleBlock(rawBlock);
        idx := FindBreak(buffer);
      }
    }

    /** The read loop over all chunks of a response. */
    method ReadAll(chunks: seq<string>)
      modifies this
      ensures buffer == Read("", chunks).rest
      ensures shown == PushAll(old(shown), Read("", chunks).lines)
    {
      buffer := "";
      var i := 0;
      assert chunks[0..] == chunks;
      while i < |chunks|
        invariant 0 <= i <= |chunks|
        invariant Read(buffer, chunks[i..]).rest == Read("", chunks).rest
        invariant PushAll(shown, Read(buffer, chunks[i..]).lines) == PushAll(old(shown), Read("", chunks).lines)
      {
        ReadFirst(shown, buffer, chunks[i..]);
        assert chunks[i..][1..] == chunks[i + 1..];
        Receive(chunks[i]);
        i := i + 1;
      }
    }
  }

  lemma ReadFirst(shown: seq<string>, buffer: string, chunks: seq<string>)
    requires chunks != []
    ensures var d := Drain(buffer + chunks[0]);
            var r := Read(d.rest, chunks[1..]);
            && Read(buffer, chunks).rest == r.rest
            && PushAll(shown, Read(buffer, chunks).lines) == PushAll(PushAll(shown, d.lines), r.lines)
  {
    var d := Drain(buffer + chunks[0]);
    PushAppend(shown, d.lines, Read(d.rest, chunks[1..]).lines);
  }

  /** A new console that reads a stream to any point, in any chunks, shows the newest 500 of its complete frames. */
  method Watch(chunks: seq<string>, ghost fs: seq<Frame>, ghost next: Frame, ghost n: nat) returns (console: Console)
    requires AllWritten(fs) && Written(next) && n < |Render(next)|
    requires Concat(chunks) == Stream(fs) + Render(next)[..n]
    ensures console.shown == Last500(AllShown(fs)) && console.buffer == Render(next)[..n]
  {
    console := new Console();
    console.ReadAll(chunks);
    WindowShowsStream([], fs, next, n, chunks);
    assert [] + AllShown(fs) == AllShown(fs);
  }

  lemma PushOne(shown: seq<string>, line: string)
    ensures PushAll(shown, [line]) == Push(shown, line)
  {
    assert [line][1..] == [];
  }

  lemma {:induction false} PushAppend(shown: seq<string>, a: seq<string>, b: seq<string>)
    ensures PushAll(shown, a + b) == PushAll(PushAll(shown, a), b)
    decreases |a|
  {
    if a == [] {
      assert a + b == b;
    } else {
      PushAppend(Push(shown, a[0]), a[1..], b);
      assert (a + b)[1..] == a[1..] + b;
    }
  }
}

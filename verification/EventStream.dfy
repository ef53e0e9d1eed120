/**
 The wire frames of the notification stream, and the parser that a client runs over them: sections 9.2.5 and 9.2.6 of
 the WHATWG HTML Standard, after UTF-8 decoding.
 */
module EventStream {
  import opened Basics
  import opened Sequences
  import opened Decimal

  const LF := '\n'
  const CR := '\r'
  const NUL := '\0'
  const BOM := '\U{FEFF}'

  predicate IsBreak(c: char) {
    c == LF || c == CR
  }

  predicate OneLine(s: string) {
    forall i :: 0 <= i < |s| ==> !IsBreak(s[i])
  }

  // Printing.

  /** strings.ReplaceAll(s, "\\r\\n", "\\n") */
  function ReplaceCrLf(s: string): string {
    if s == "" then ""
    else if |s| >= 2 && s[0] == CR && s[1] == LF then [LF] + ReplaceCrLf(s[2..])
    else [s[0]] + ReplaceCrLf(s[1..])
  }

  function ReplaceChar(s: string, from: char, to: char): (r: string)
    ensures |r| == |s| && forall i :: 0 <= i < |s| ==> r[i] == if s[i] == from then to else s[i]
  {
    if s == "" then "" else [if s[0] == from then to else s[0]] + ReplaceChar(s[1..], from, to)
  }

  function Normalize(body: string): (r: string)
    ensures forall i :: 0 <= i < |r| ==> r[i] != CR
  {
    ReplaceChar(ReplaceCrLf(body), CR, LF)
  }

  /** The lines of a text whose only breaks are LF. */
  function SplitLines(s: string): seq<string> {
    var n := LineEnd(s);
    if n == |s| then [s] else [s[..n]] + SplitLines(s[n + 1..])
  }

  /** Where the first line of a text ends. */
  function LineEnd(s: string): (n: nat)
    ensures n <= |s| && OneLine(s[..n]) && (n < |s| ==> IsBreak(s[n]))
  {
    if s == "" || IsBreak(s[0]) then 0 else 1 + LineEnd(s[1..])
  }

  function DataLines(body: string): seq<string> {
    var lines := SplitLines(Normalize(body));
    seq(|lines|, i requires 0 <= i < |lines| => "data: " + lines[i])
  }

  datatype Frame =
    | EventFrame(kind: string, id: string, body: string)
    | CommentFrame(text: string)
    | RetryFrame(ms: nat)

  /** The lines of a frame; every frame ends with an empty one. */
  function FrameLines(f: Frame): seq<string> {
    match f
    case EventFrame(kind, id, body) =>
      ["event: " + kind] + (if id != "" then ["id: " + id] else []) + DataLines(body) + [""]
    case CommentFrame(text) => [": " + ReplaceChar(ReplaceChar(text, CR, ' '), LF, ' '), ""]
    case RetryFrame(ms) => ["retry: " + Print(ms), ""]
  }

  function Text(lines: seq<string>): string {
    if lines == [] then "" else lines[0] + [LF] + Text(lines[1..])
  }

  function Render(frames: seq<Frame>): string {
    if frames == [] then "" else Text(FrameLines(frames[0])) + Render(frames[1..])
  }

  // Parsing.

  datatype Event = Event(kind: string, data: string, lastEventId: string)

  datatype Parser = Parser(data: string, kind: string, id: string, retry: Option<nat>, events: seq<Event>)

  const START := Parser("", "", "", None, [])

  function FindColon(line: string): (n: nat)
    ensures n <= |line|
    ensures n < |line| ==> line[n] == ':'
    ensures forall i :: 0 <= i < n ==> line[i] != ':'
  {
    if line == "" || line[0] == ':' then 0 else 1 + FindColon(line[1..])
  }

  function Field(p: Parser, name: string, value: string): Parser {
    if name == "event" then p.(kind := value)
    else if name == "data" then p.(data := p.data + value + [LF])
    else if name == "id" then if NUL in value then p else p.(id := value)
    else if name == "retry" && AllDigits(value) then p.(retry := Some(Read(value)))
    else p
  }

  function Dispatch(p: Parser): Parser {
    if p.data == "" then p.(kind := "")
    else
      var data := if p.data[|p.data| - 1] == LF then p.data[..|p.data| - 1] else p.data;
      var kind := if p.kind == "" then "message" else p.kind;
      p.(data := "", kind := "", events := p.events + [Event(kind, data, p.id)])
  }

  function ProcessLine(p: Parser, line: string): Parser {
    if line == "" then Dispatch(p)
    else
      var n := FindColon(line);
      if n == 0 then p
      else if n == |line| then Field(p, line, "")
      else
        var rest := line[n + 1..];
        Field(p, line[..n], if rest != "" && rest[0] == ' ' then rest[1..] else rest)
  }

  /** Lines end with CR LF, LF or CR; what follows the last of them is never processed. */
  function Feed(p: Parser, text: string): Parser
    decreases |text|
  {
    var n := LineEnd(text);
    if n == |text| then p
    else
      var next := if text[n] == CR && n + 1 < |text| && text[n + 1] == LF then n + 2 else n + 1;
      Feed(ProcessLine(p, text[..n]), text[next..])
  }

  function Parse(text: string): Parser {
    Feed(START, if text != "" && text[0] == BOM then text[1..] else text)
  }

  function ProcessLines(p: Parser, lines: seq<string>): Parser
    decreases |lines|
  {
    if lines == [] then p else ProcessLines(ProcessLine(p, lines[0]), lines[1..])
  }

  // The parser reads a text line by line.

  lemma {:induction false} LineEndIs(line: string, rest: string)
    requires OneLine(line)
    ensures LineEnd(line + [LF] + rest) == |line|
    decreases |line|
  {
    var s := line + [LF] + rest;
    if line != "" {
      assert s[1..] == line[1..] + [LF] + rest;
      LineEndIs(line[1..], rest);
    }
  }

  lemma FeedLine(p: Parser, line: string, rest: string)
    requires OneLine(line)
    ensures Feed(p, line + [LF] + rest) == Feed(ProcessLine(p, line), rest)
  {
    LineEndIs(line, rest);
    var s := line + [LF] + rest;
    assert s[..|line|] == line && s[|line| + 1..] == rest;
    hide ProcessLine, LineEnd;
  }

  lemma {:induction false} FeedLines(p: Parser, lines: seq<string>, rest: string)
    requires forall i :: 0 <= i < |lines| ==> OneLine(lines[i])
    ensures Feed(p, Text(lines) + rest) == Feed(ProcessLines(p, lines), rest)
    decreases |lines|
  {
    if lines == [] {
      assert Text(lines) + rest == rest;
    } else {
      assert Text(lines) + rest == lines[0] + [LF] + (Text(lines[1..]) + rest);
      FeedLine(p, lines[0], Text(lines[1..]) + rest);
      FeedLines(ProcessLine(p, lines[0]), lines[1..], rest);
      hide ProcessLine, Feed;
    }
  }

  // Line breaks.

  lemma {:induction false} ReplaceCharConcat(a: string, b: string, from: char, to: char)
    ensures ReplaceChar(a + b, from, to) == ReplaceChar(a, from, to) + ReplaceChar(b, from, to)
    decreases |a|
  {
    if a != "" {
      assert (a + b)[1..] == a[1..] + b;
      ReplaceCharConcat(a[1..], b, from, to);
    } else {
      assert a + b == b;
    }
  }

  lemma {:induction false} ReplaceCrLfAfter(line: string, rest: string)
    requires OneLine(line)
    ensures ReplaceCrLf(line + rest) == line + ReplaceCrLf(rest)
    decreases |line|
  {
    if line == "" {
      assert line + rest == rest;
    } else {
      assert (line + rest)[1..] == line[1..] + rest;
      ReplaceCrLfAfter(line[1..], rest);
    }
  }

  lemma OneLineStays(line: string)
    requires OneLine(line)
    ensures ReplaceChar(line, CR, LF) == line
  {
  }

  predicate IsLineBreak(brk: string, rest: string) {
    brk == [CR, LF] || brk == [LF] || (brk == [CR] && (rest == "" || rest[0] != LF))
  }

  lemma BreakReplaced(brk: string, rest: string)
    requires IsLineBreak(brk, rest)
    ensures ReplaceCrLf(brk + rest) == (if brk == [CR] then [CR] else [LF]) + ReplaceCrLf(rest)
  {
    var s := brk + rest;
    if brk == [CR, LF] {
      assert s[2..] == rest;
    } else {
      assert s[1..] == rest;
    }
  }

  lemma BreakNormalized(brk: string, rest: string)
    requires IsLineBreak(brk, rest)
    ensures Normalize(brk + rest) == [LF] + Normalize(rest)
  {
    var one := if brk == [CR] then [CR] else [LF];
    assert ReplaceChar([CR], CR, LF) == [LF] && ReplaceChar([LF], CR, LF) == [LF];
    BreakReplaced(brk, rest);
    hide ReplaceChar, ReplaceCrLf, IsLineBreak;
    ReplaceCharConcat(one, ReplaceCrLf(rest), CR, LF);
  }

  lemma LineNormalized(line: string, rest: string)
    requires OneLine(line)
    ensures Normalize(line + rest) == line + Normalize(rest)
  {
    hide ReplaceChar, ReplaceCrLf;
    ReplaceCrLfAfter(line, rest);
    ReplaceCharConcat(line, ReplaceCrLf(rest), CR, LF);
    OneLineStays(line);
  }

  /** Normalising turns every break, be it CR LF, LF or CR, into one LF, and leaves the lines alone. */
  lemma NormalizeLine(line: string, brk: string, rest: string)
    requires OneLine(line) && IsLineBreak(brk, rest)
    ensures Normalize(line + brk + rest) == line + [LF] + Normalize(rest)
  {
    hide *;
    Assoc(line, brk, rest);
    LineNormalized(line, brk + rest);
    BreakNormalized(brk, rest);
    Assoc(line, [LF], Normalize(rest));
  }

  lemma NormalizeOneLine(line: string)
    requires OneLine(line)
    ensures Normalize(line) == line
  {
    ReplaceCrLfAfter(line, "");
    OneLineStays(line);
    assert line + "" == line;
  }

  /** How a text with a break in it begins. */
  lemma FirstBreak(text: string) returns (brk: string, rest: string)
    requires LineEnd(text) < |text|
    ensures text == text[..LineEnd(text)] + brk + rest && |rest| < |text|
    ensures IsLineBreak(brk, rest)
    ensures forall p :: Feed(p, text) == Feed(ProcessLine(p, text[..LineEnd(text)]), rest)
  {
    var n := LineEnd(text);
    hide ProcessLine, LineEnd;
    if text[n] == CR && n + 1 < |text| && text[n + 1] == LF {
      brk, rest := [CR, LF], text[n + 2..];
      assert text[n..] == brk + rest;
    } else {
      brk, rest := [text[n]], text[n + 1..];
      assert text[n..] == brk + rest;
    }
    assert text == text[..n] + text[n..];
    Assoc(text[..n], brk, rest);
  }

  /** For the parser the three kinds of line break are one: it makes the same of a text and of its normal form. */
  lemma {:induction false} LineBreaksAreOne(p: Parser, text: string)
    ensures Feed(p, Normalize(text)) == Feed(p, text)
    decreases |text|
  {
    var n := LineEnd(text);
    if n == |text| {
      assert text[..n] == text;
      NormalizeOneLine(text);
    } else {
      var brk, rest := FirstBreak(text);
      NormalizeLine(text[..n], brk, rest);
      FeedLine(p, text[..n], Normalize(rest));
      LineBreaksAreOne(ProcessLine(p, text[..n]), rest);
      hide Feed, ProcessLine, Normalize, LineEnd;
    }
  }

  // What the standard says of single lines.

  /** One byte order mark at the start is no part of the stream. */
  lemma LeadingBom(text: string)
    ensures Parse([BOM] + text) == Feed(START, text)
  {
    assert ([BOM] + text)[1..] == text;
  }

  /** An unknown field changes nothing, nor does a comment, a retry that is no number or an id with a NUL. */
  lemma IgnoredField(p: Parser, name: string, value: string)
    requires || name !in {"event", "data", "id", "retry"}
             || (name == "retry" && !AllDigits(value))
             || (name == "id" && NUL in value)
    ensures Field(p, name, value) == p
  {
  }

  lemma CommentIgnored(p: Parser, text: string)
    ensures ProcessLine(p, [':'] + text) == p
  {
  }

  /** A field without a colon has the empty value; after the colon one space is dropped, and only one. */
  lemma ValueOf(p: Parser, name: string, value: string)
    requires name != "" && ':' !in name
    ensures ProcessLine(p, name) == Field(p, name, "")
    ensures value == "" || value[0] != ' ' ==> ProcessLine(p, name + [':'] + value) == Field(p, name, value)
  {
    FindColonAfter(name, value);
    var line := name + [':'] + value;
    assert line[..|name|] == name && line[|name| + 1..] == value;
    assert FindColon(name) == |name|;
    hide FindColon, Field;
  }

  /** An empty line sends an event that has data, and clears the type of one that has none. */
  lemma EmptyLine(p: Parser)
    ensures p.data == "" ==> ProcessLine(p, "") == p.(kind := "")
    ensures p.data != "" ==>
              var q := ProcessLine(p, "");
              && q.data == "" && q.kind == "" && q.id == p.id && q.retry == p.retry
              && |q.events| == |p.events| + 1 && q.events[..|p.events|] == p.events
              && (p.data == q.events[|p.events|].data + [LF]
                  || (p.data == q.events[|p.events|].data && p.data[|p.data| - 1] != LF))
  {
  }

  // What each line of a frame does.

  lemma {:induction false} FindColonAfter(name: string, rest: string)
    requires ':' !in name
    ensures FindColon(name + [':'] + rest) == |name|
    decreases |name|
  {
    var s := name + [':'] + rest;
    if name != "" {
      assert s[1..] == name[1..] + [':'] + rest;
      FindColonAfter(name[1..], rest);
    }
  }

  /** A line "name: value" is the field with just that value, whatever it starts with. */
  lemma FieldLine(p: Parser, name: string, value: string)
    requires name != "" && ':' !in name
    ensures ProcessLine(p, name + ": " + value) == Field(p, name, value)
  {
    var line := name + ": " + value;
    assert line == name + [':'] + (" " + value);
    FindColonAfter(name, " " + value);
    assert line[..|name|] == name && line[|name| + 1..] == " " + value && (" " + value)[1..] == value;
    hide FindColon, Field;
  }

  lemma {:induction false} ProcessConcat(p: Parser, a: seq<string>, b: seq<string>)
    ensures ProcessLines(p, a + b) == ProcessLines(ProcessLines(p, a), b)
    decreases |a|
  {
    if a == [] {
      assert a + b == b;
    } else {
      assert (a + b)[1..] == a[1..] + b;
      ProcessConcat(ProcessLine(p, a[0]), a[1..], b);
      hide ProcessLine;
    }
  }

  function Prefixed(lines: seq<string>): seq<string> {
    seq(|lines|, i requires 0 <= i < |lines| => "data: " + lines[i])
  }

  lemma DataLine(p: Parser, line: string)
    ensures ProcessLine(p, "data: " + line) == p.(data := p.data + line + [LF])
  {
    FieldLine(p, "data", line);
    assert "data: " + line == "data" + ": " + line;
    hide ProcessLine;
  }

  lemma {:induction false} DataFold(p: Parser, lines: seq<string>)
    ensures ProcessLines(p, Prefixed(lines)) == p.(data := p.data + Text(lines))
    decreases |lines|
  {
    hide ProcessLine;
    if lines == [] {
      assert p.data + "" == p.data;
    } else {
      assert Prefixed(lines)[1..] == Prefixed(lines[1..]);
      DataLine(p, lines[0]);
      DataFold(p.(data := p.data + lines[0] + [LF]), lines[1..]);
      assert p.data + lines[0] + [LF] + Text(lines[1..]) == p.data + Text(lines);
    }
  }

  /** Splitting a text without CR and putting an LF after each line gives the text and one LF more. */
  lemma {:induction false} SplitText(s: string)
    requires CR !in s
    ensures Text(SplitLines(s)) == s + [LF]
    ensures forall i :: 0 <= i < |SplitLines(s)| ==> OneLine(SplitLines(s)[i])
    decreases |s|
  {
    var n := LineEnd(s);
    if n == |s| {
      assert s[..n] == s && Text([]) == "";
      assert Text([s]) == s + [LF] + "";
    } else {
      SplitText(s[n + 1..]);
      assert s[n] in s;
      assert s == s[..n] + [LF] + s[n + 1..];
      var first, rest := s[..n], SplitLines(s[n + 1..]);
      assert SplitLines(s) == [first] + rest;
      assert ([first] + rest)[1..] == rest;
      assert Text([first] + rest) == first + [LF] + Text(rest);
      assert first + [LF] + (s[n + 1..] + [LF]) == s + [LF];
    }
  }

  /** Printable as an event frame: neither name can break out of its line, and the client will keep both. */
  predicate Framable(kind: string, id: string) {
    kind != "" && OneLine(kind) && OneLine(id) && NUL !in id
  }

  lemma BodyDispatches(p: Parser, body: string)
    requires p.data == ""
    ensures ProcessLines(p, DataLines(body) + [""])
            == p.(kind := "", events := p.events + [Event(if p.kind == "" then "message" else p.kind, Normalize(body), p.id)])
  {
    var s := Normalize(body);
    var q := p.(data := s + [LF]);
    SplitText(s);
    DataFold(p, SplitLines(s));
    assert DataLines(body) == Prefixed(SplitLines(s));
    assert p.data + (s + [LF]) == s + [LF];
    ProcessConcat(p, DataLines(body), [""]);
    hide DataLines, SplitLines, Prefixed, Normalize, Text;
    assert ProcessLines(q, [""]) == ProcessLine(q, "");
    assert q.data[..|q.data| - 1] == s;
  }

  lemma HeadLines(p: Parser, kind: string, id: string)
    requires NUL !in id
    ensures ProcessLines(p, ["event: " + kind] + if id != "" then ["id: " + id] else [])
            == p.(kind := kind, id := if id != "" then id else p.id)
  {
    FieldLine(p, "event", kind);
    assert "event: " + kind == "event" + ": " + kind;
    var q := p.(kind := kind);
    FieldLine(q, "id", id);
    assert "id: " + id == "id" + ": " + id;
    hide ProcessLine, FindColon;
    OneOrTwo(p, "event: " + kind, "id: " + id);
    assert ["event: " + kind] + [] == ["event: " + kind];
    assert ["event: " + kind] + ["id: " + id] == ["event: " + kind, "id: " + id];
  }

  lemma OneOrTwo(p: Parser, a: string, b: string)
    ensures ProcessLines(p, [a]) == ProcessLine(p, a)
    ensures ProcessLines(p, [a, b]) == ProcessLine(ProcessLine(p, a), b)
  {
    hide ProcessLine;
    assert [a][1..] == [] && [a, b][1..] == [b] && [b][1..] == [];
    assert ProcessLines(ProcessLine(p, a), [b]) == ProcessLine(ProcessLine(p, a), b);
  }

  lemma EventLines(p: Parser, kind: string, id: string, body: string)
    requires p.data == "" && p.kind == "" && NUL !in id
    ensures var lastId := if id != "" then id else p.id;
            ProcessLines(p, FrameLines(EventFrame(kind, id, body)))
            == p.(id := lastId, events := p.events + [Event(if kind == "" then "message" else kind, Normalize(body), lastId)])
  {
    var head := ["event: " + kind] + if id != "" then ["id: " + id] else [];
    HeadLines(p, kind, id);
    BodyDispatches(ProcessLines(p, head), body);
    ProcessConcat(p, head, DataLines(body) + [""]);
    hide ProcessLines, DataLines, Normalize;
    assert FrameLines(EventFrame(kind, id, body)) == head + (DataLines(body) + [""]);
  }

  lemma CommentLines(p: Parser, text: string)
    requires p.data == "" && p.kind == ""
    ensures ProcessLines(p, FrameLines(CommentFrame(text))) == p
  {
    var line := ": " + ReplaceChar(ReplaceChar(text, CR, ' '), LF, ' ');
    assert line[0] == ':' && FindColon(line) == 0;
    OneOrTwo(p, line, "");
  }

  lemma RetryLines(p: Parser, ms: nat)
    requires p.data == "" && p.kind == ""
    ensures ProcessLines(p, FrameLines(RetryFrame(ms))) == p.(retry := Some(ms))
  {
    ReadPrint(ms);
    FieldLine(p, "retry", Print(ms));
    assert "retry: " + Print(ms) == "retry" + ": " + Print(ms);
    OneOrTwo(p, "retry: " + Print(ms), "");
    hide Print, Read;
  }

  // Round trips.

  /** What the client has after one more frame. */
  function After(p: Parser, f: Frame): Parser {
    match f
    case EventFrame(kind, id, body) =>
      var lastId := if id != "" then id else p.id;
      p.(id := lastId, events := p.events + [Event(kind, Normalize(body), lastId)])
    case CommentFrame(_) => p
    case RetryFrame(ms) => p.(retry := Some(ms))
  }

  function AfterAll(p: Parser, frames: seq<Frame>): Parser
    decreases |frames|
  {
    if frames == [] then p else AfterAll(After(p, frames[0]), frames[1..])
  }

  predicate FramableAll(frames: seq<Frame>) {
    forall i :: 0 <= i < |frames| && frames[i].EventFrame? ==> Framable(frames[i].kind, frames[i].id)
  }

  lemma FrameIsLines(f: Frame)
    requires f.EventFrame? ==> OneLine(f.kind) && OneLine(f.id)
    ensures forall i :: 0 <= i < |FrameLines(f)| ==> OneLine(FrameLines(f)[i])
  {
    match f
    case EventFrame(kind, id, body) =>
      SplitText(Normalize(body));
      hide Normalize, SplitLines;
      forall i | 0 <= i < |DataLines(body)| ensures OneLine(DataLines(body)[i]) {
        assert DataLines(body)[i] == "data: " + SplitLines(Normalize(body))[i];
      }
      hide DataLines;
    case CommentFrame(text) =>
    case RetryFrame(ms) =>
      hide Print;
      assert OneLine(Print(ms));
  }

  /** One frame takes the parser from one frame boundary to the next. */
  lemma FeedFrame(p: Parser, f: Frame, rest: string)
    requires p.data == "" && p.kind == ""
    requires f.EventFrame? ==> Framable(f.kind, f.id)
    ensures Feed(p, Text(FrameLines(f)) + rest) == Feed(After(p, f), rest)
  {
    FrameIsLines(f);
    FeedLines(p, FrameLines(f), rest);
    match f
    case EventFrame(kind, id, body) => EventLines(p, kind, id, body);
    case CommentFrame(text) => CommentLines(p, text);
    case RetryFrame(ms) => RetryLines(p, ms);
  }

  lemma {:induction false} FeedFrames(p: Parser, frames: seq<Frame>)
    requires p.data == "" && p.kind == "" && FramableAll(frames)
    ensures Feed(p, Render(frames)) == AfterAll(p, frames)
    decreases |frames|
  {
    if frames != [] {
      FeedFrame(p, frames[0], Render(frames[1..]));
      hide Feed, Text, FrameLines, Framable, Normalize;
      FeedFrames(After(p, frames[0]), frames[1..]);
    }
  }

  /**
   The frame round trip: from any sequence of event, comment and retry frames the client gets exactly the events, in
   order, each with its type, its body with line breaks normalised, and the last non-empty id up to it.
   */
  lemma ParseRender(frames: seq<Frame>)
    requires FramableAll(frames)
    ensures Parse(Render(frames)) == AfterAll(START, frames)
  {
    if frames != [] {
      FirstChar(frames[0]);
      assert Render(frames)[0] == Text(FrameLines(frames[0]))[0];
    }
    FeedFrames(START, frames);
    hide Feed, Render;
  }

  lemma FirstChar(f: Frame)
    ensures Text(FrameLines(f)) != "" && Text(FrameLines(f))[0] != BOM
  {
    var lines := FrameLines(f);
    assert lines[0] != "" && lines[0][0] in {'e', 'r', ':'};
    assert Text(lines) == lines[0] + [LF] + Text(lines[1..]);
    assert Text(lines)[0] == lines[0][0];
  }

  // When a frame comes through.

  ghost predicate CleanEvent(e: Event) {
    e.kind != "" && OneLine(e.kind) && OneLine(e.lastEventId) && NUL !in e.lastEventId
  }

  /** Whatever text arrives, types and ids are pieces of single lines, ids have no NUL, and types are not empty. */
  ghost predicate Clean(p: Parser) {
    && OneLine(p.kind) && OneLine(p.id) && NUL !in p.id
    && forall i :: 0 <= i < |p.events| ==> CleanEvent(p.events[i])
  }

  lemma FieldClean(p: Parser, name: string, value: string)
    requires Clean(p) && OneLine(value)
    ensures Clean(Field(p, name, value))
  {
    hide CleanEvent, Read;
  }

  lemma LineClean(p: Parser, line: string)
    requires Clean(p) && OneLine(line)
    ensures Clean(ProcessLine(p, line))
  {
    if line == "" {
      assert OneLine("message");
    } else {
      var n := FindColon(line);
      var rest := if n < |line| then line[n + 1..] else "";
      FieldClean(p, line, "");
      FieldClean(p, line[..n], if rest != "" && rest[0] == ' ' then rest[1..] else rest);
      hide Clean, Field;
    }
  }

  lemma {:induction false} FeedClean(p: Parser, text: string)
    requires Clean(p)
    ensures Clean(Feed(p, text))
    decreases |text|
  {
    var n := LineEnd(text);
    if n < |text| {
      LineClean(p, text[..n]);
      hide Clean, ProcessLine;
      FeedClean(ProcessLine(p, text[..n]), text[if text[n] == CR && n + 1 < |text| && text[n + 1] == LF then n + 2 else n + 1..]);
    }
  }

  lemma ParseClean(text: string)
    ensures Clean(Parse(text))
  {
    FeedClean(START, text);
    if text != "" {
      FeedClean(START, text[1..]);
    }
  }

  /**
   Exactly the framable frames come through: the client gets the one event with that type and id if and only if the
   type is not empty, neither of them has a line break and the id has no NUL.
   */
  lemma FrameRoundTripIff(kind: string, id: string, body: string)
    ensures Parse(Render([EventFrame(kind, id, body)])).events == [Event(kind, Normalize(body), id)] <==> Framable(kind, id)
  {
    var frames := [EventFrame(kind, id, body)];
    var text := Render(frames);
    ParseClean(text);
    if Framable(kind, id) {
      ParseRender(frames);
      assert frames[1..] == [];
      assert AfterAll(START, frames) == After(START, frames[0]);
    }
    hide Feed, Render, Normalize;
    if Parse(text).events == [Event(kind, Normalize(body), id)] {
      assert CleanEvent(Parse(text).events[0]);
    }
  }

  /** The body arrives as it was sent if and only if it has no CR. */
  lemma {:induction false} BodyKeptIff(body: string)
    ensures Normalize(body) == body <==> CR !in body
    decreases |body|
  {
    if CR !in body {
      NothingToReplace(body);
    }
  }

  lemma {:induction false} NothingToReplace(s: string)
    requires CR !in s
    ensures ReplaceCrLf(s) == s
    decreases |s|
  {
    if s != "" {
      assert s[0] in s;
      NothingToReplace(s[1..]);
    }
  }

  // The printer as the code runs it.

  class Buffer {
    var bytes: string

    constructor ()
      ensures bytes == ""
    {
      bytes := "";
    }

    method WriteString(s: string)
      modifies this
      ensures bytes == old(bytes) + s
    {
      bytes := bytes + s;
    }
  }

  lemma {:induction false} TextNext(lines: seq<string>, line: string)
    ensures Text(lines + [line]) == Text(lines) + line + [LF]
    decreases |lines|
  {
    if lines == [] {
      assert lines + [line] == [line] && [line][1..] == [];
    } else {
      assert (lines + [line])[1..] == lines[1..] + [line];
      TextNext(lines[1..], line);
    }
  }

  lemma TextConcat(a: string, lines: seq<string>, line: string)
    ensures a + Text(lines + [line]) == a + Text(lines) + line + [LF]
  {
    TextNext(lines, line);
  }

  method WriteDataLines(buf: Buffer, body: string)
    modifies buf
    ensures buf.bytes == old(buf.bytes) + Text(DataLines(body))
  {
    var lines := SplitLines(Normalize(body));
    for i := 0 to |lines|
      invariant buf.bytes == old(buf.bytes) + Text(DataLines(body)[..i])
    {
      assert DataLines(body)[..i + 1] == DataLines(body)[..i] + ["data: " + lines[i]];
      TextConcat(old(buf.bytes), DataLines(body)[..i], "data: " + lines[i]);
      hide Text, DataLines;
      buf.WriteString("data: ");
      buf.WriteString(lines[i]);
      buf.WriteString([LF]);
    }
    assert DataLines(body)[..|lines|] == DataLines(body);
  }

  function Head(kind: string, id: string): string {
    "event: " + kind + [LF] + if id != "" then "id: " + id + [LF] else ""
  }

  method WriteHead(buf: Buffer, kind: string, id: string)
    modifies buf
    ensures buf.bytes == old(buf.bytes) + Head(kind, id)
  {
    buf.WriteString("event: ");
    buf.WriteString(kind);
    buf.WriteString([LF]);
    if id != "" {
      buf.WriteString("id: ");
      buf.WriteString(id);
      buf.WriteString([LF]);
    }
  }

  /** The bytes of one event are those whose round trip is proved above. */
  method FrameBytes(kind: string, id: string, body: string) returns (bytes: string)
    ensures bytes == Render([EventFrame(kind, id, body)])
  {
    HeadText(kind, id, body);
    hide Text, DataLines, Render, Head;
    var buf := new Buffer();
    WriteHead(buf, kind, id);
    WriteDataLines(buf, body);
    buf.WriteString([LF]);
    bytes := buf.bytes;
    assert "" + Head(kind, id) == Head(kind, id);
  }

  lemma HeadText(kind: string, id: string, body: string)
    ensures Render([EventFrame(kind, id, body)]) == Head(kind, id) + Text(DataLines(body)) + [LF]
  {
    var head := ["event: " + kind] + if id != "" then ["id: " + id] else [];
    var f := EventFrame(kind, id, body);
    hide DataLines;
    HeadIsText(kind, id);
    assert FrameLines(f) == head + DataLines(body) + [""];
    TextNext(head + DataLines(body), "");
    TextAppend(head, DataLines(body));
    hide Text, Head;
    assert [f][1..] == [] && Render([f]) == Text(FrameLines(f)) + "";
    assert Text(FrameLines(f)) == Head(kind, id) + Text(DataLines(body)) + "" + [LF];
  }

  lemma HeadIsText(kind: string, id: string)
    ensures Text(["event: " + kind] + if id != "" then ["id: " + id] else []) == Head(kind, id)
  {
    TextNext([], "event: " + kind);
    assert [] + ["event: " + kind] == ["event: " + kind] && ["event: " + kind] + [] == ["event: " + kind];
    TextNext(["event: " + kind], "id: " + id);
  }

  lemma {:induction false} TextAppend(a: seq<string>, b: seq<string>)
    ensures Text(a + b) == Text(a) + Text(b)
    decreases |a|
  {
    if a == [] {
      assert a + b == b;
    } else {
      assert (a + b)[1..] == a[1..] + b;
      TextAppend(a[1..], b);
    }
  }
}

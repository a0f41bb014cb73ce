/** The reader of server-sent event streams that carry JSON-RPC messages. Decoding of JSON is
    a parameter: any function that says of a string whether it is malformed, some other JSON
    value, or an object. */
module SseParser {
  import opened Common

  datatype Decoded<+T> = Malformed | NotAnObject | Object(value: T)

  // ---------------------------------------------------------------- characters and lines

  /** The characters at which `str.splitlines` ends a line. */
  predicate IsBreak(c: char) {
    '\n' <= c <= '\r' || '\U{1C}' <= c <= '\U{1E}' || c == '\U{85}' || c == '\U{2028}' || c == '\U{2029}'
  }

  /** The characters that `str.strip` removes. */
  predicate IsBlank(c: char) {
    IsBreak(c) || c == '\t' || c == ' ' || c == '\U{1F}' || c == '\U{A0}' || c == '\U{1680}'
    || '\U{2000}' <= c <= '\U{200A}' || c == '\U{202F}' || c == '\U{205F}' || c == '\U{3000}'
  }

  predicate OneLine(s: string) {
    forall i | 0 <= i < |s| :: !IsBreak(s[i])
  }

  /** The length of the first line, without its break. */
  function LineLength(text: string): (n: nat)
    ensures n <= |text| && OneLine(text[..n]) && (n < |text| ==> IsBreak(text[n]))
  {
    if text == "" || IsBreak(text[0]) then 0 else 1 + LineLength(text[1..])
  }

  function BreakLength(text: string): (n: nat)
    requires text != ""
    ensures 0 < n <= |text|
  {
    if |text| > 1 && text[0] == '\r' && text[1] == '\n' then 2 else 1
  }

  function SplitLines(text: string): (lines: seq<string>)
    ensures forall i | 0 <= i < |lines| :: OneLine(lines[i])
    decreases |text|
  {
    var n := LineLength(text);
    if n == |text| then if text == "" then [] else [text]
    else [text[..n]] + SplitLines(text[n..][BreakLength(text[n..])..])
  }

  function LStrip(s: string): (r: string)
    ensures |r| <= |s| && r == s[|s| - |r|..]
    ensures r == "" || !IsBlank(r[0])
    ensures r == s <==> (s == "" || !IsBlank(s[0]))
  {
    if s != "" && IsBlank(s[0]) then LStrip(s[1..]) else s
  }

  function RStrip(s: string): (r: string)
    ensures |r| <= |s| && r == s[..|r|]
    ensures r == "" || !IsBlank(r[|r| - 1])
    ensures r == s <==> (s == "" || !IsBlank(s[|s| - 1]))
  {
    if s != "" && IsBlank(s[|s| - 1]) then RStrip(s[..|s| - 1]) else s
  }

  function Strip(s: string): string {
    RStrip(LStrip(s))
  }

  function DropReturns(line: string): (r: string)
    ensures OneLine(line) ==> r == line
  {
    if line != "" && line[|line| - 1] == '\r' then DropReturns(line[..|line| - 1]) else line
  }

  function Join(lines: seq<string>): string {
    if lines == [] then ""
    else if |lines| == 1 then lines[0]
    else lines[0] + "\n" + Join(lines[1..])
  }

  // ---------------------------------------------------------------- what a stream says

  const DATA := "data:"
  const DONE := "[DONE]"

  predicate IsData(line: string) {
    |line| >= |DATA| && line[..|DATA|] == DATA
  }

  function Value(line: string): string
    requires IsData(line)
  {
    LStrip(line[|DATA|..])
  }

  /** The values of each event: a blank line ends an event, and so does the end of the stream. */
  function Events(lines: seq<string>): (events: seq<seq<string>>)
    ensures events != []
  {
    if lines == [] then [[]] else AddLine(lines[0], Events(lines[1..]))
  }

  function AddLine(line: string, events: seq<seq<string>>): (added: seq<seq<string>>)
    requires events != []
    ensures added != []
  {
    if line == "" then [[]] + events
    else if IsData(line) then Prepend([Value(line)], events)
    else events
  }

  /** Adds values in front of the first event. */
  function Prepend(values: seq<string>, events: seq<seq<string>>): seq<seq<string>>
    requires events != []
  {
    [values + events[0]] + events[1..]
  }

  /** The object that a payload stands for, if it stands for one. */
  function Payload<T>(blob: string, loads: string -> Decoded<T>): Option<T> {
    if blob == "" || blob == DONE then None
    else match loads(blob) case Object(v) => Some(v) case _ => None
  }

  function Message<T>(event: seq<string>, loads: string -> Decoded<T>): Option<T> {
    Payload(Strip(Join(event)), loads)
  }

  /** The last defined value of a list, or `default`. */
  function LastMessage<T>(events: seq<seq<string>>, default: Option<T>, loads: string -> Decoded<T>): Option<T> {
    if events == [] then default
    else LastMessage(events[1..], OrElse(Message(events[0], loads), default), loads)
  }

  function OrElse<T>(first: Option<T>, second: Option<T>): Option<T> {
    if first.Some? then first else second
  }

  /** What the stream means: the last of its events that stands for an object. */
  ghost predicate Means<T(!new)>(lines: seq<string>, loads: string -> Decoded<T>, r: Option<T>) {
    var events := Events(lines);
    match r
    case None => forall k | 0 <= k < |events| :: Message(events[k], loads) == None
    case Some(_) => exists k :: 0 <= k < |events| && Message(events[k], loads) == r
                                && forall j | k < j < |events| :: Message(events[j], loads) == None
  }

  /** The place of the last event that stands for an object, or the number of events. */
  ghost predicate IsLast<T>(events: seq<seq<string>>, k: nat, loads: string -> Decoded<T>) {
    && k <= |events|
    && (k < |events| ==> Message(events[k], loads).Some?)
    && (forall j | 0 <= j < |events| && (k < |events| ==> k < j) :: Message(events[j], loads) == None)
  }

  lemma {:induction false} LastMessageIsLast<T>(events: seq<seq<string>>, default: Option<T>, loads: string -> Decoded<T>)
    returns (k: nat)
    ensures IsLast(events, k, loads)
    ensures LastMessage(events, default, loads) == if k == |events| then default else Message(events[k], loads)
    decreases |events|
  {
    if events == [] {
      k := 0;
    } else {
      hide Message, IsLast;
      var i := LastMessageIsLast(events[1..], OrElse(Message(events[0], loads), default), loads);
      k := if i < |events| - 1 then i + 1 else if Message(events[0], loads).Some? then 0 else |events|;
      LastOfRest(events, i, k, loads);
    }
  }

  lemma LastOfRest<T>(events: seq<seq<string>>, i: nat, k: nat, loads: string -> Decoded<T>)
    requires events != [] && IsLast(events[1..], i, loads)
    requires k == if i < |events| - 1 then i + 1 else if Message(events[0], loads).Some? then 0 else |events|
    ensures IsLast(events, k, loads) && i < |events|
    ensures i < |events| - 1 ==> events[1..][i] == events[k]
  {
    hide Message;
    forall j | 0 <= j < |events| && (k < |events| ==> k < j) ensures Message(events[j], loads) == None {
      if j > 0 { assert events[1..][j - 1] == events[j]; }
    }
  }

  lemma LastMeans<T(!new)>(lines: seq<string>, loads: string -> Decoded<T>)
    ensures Means(lines, loads, LastMessage(Events(lines), None, loads))
  {
    var events := Events(lines);
    hide Events, Message;
    var k := LastMessageIsLast(events, None, loads);
  }

  lemma ReadLine<T>(data: seq<string>, lines: seq<string>, i: nat, last: Option<T>, loads: string -> Decoded<T>)
    requires i < |lines|
    ensures LastMessage(Prepend(data, Events(lines[i..])), last, loads) ==
            Pending(data, lines[i], Events(lines[i + 1..]), last, loads)
  {
    hide AddLine, Pending, Prepend, LastMessage;
    assert lines[i..][1..] == lines[i + 1..];
    PendingLine(data, lines[i], Events(lines[i + 1..]), last, loads);
  }

  /** What is still to come when a line has been read and `rest` is what the later lines say. */
  function Pending<T>(data: seq<string>, line: string, rest: seq<seq<string>>, last: Option<T>,
                      loads: string -> Decoded<T>): Option<T>
    requires rest != []
  {
    if IsData(line) then LastMessage(Prepend(data + [Value(line)], rest), last, loads)
    else if line == "" then LastMessage(rest, OrElse(Message(data, loads), last), loads)
    else LastMessage(Prepend(data, rest), last, loads)
  }

  lemma PendingLine<T>(data: seq<string>, line: string, rest: seq<seq<string>>, last: Option<T>, loads: string -> Decoded<T>)
    requires rest != []
    ensures LastMessage(Prepend(data, AddLine(line, rest)), last, loads) == Pending(data, line, rest, last, loads)
  {
    assert line == "" ==> !IsData(line);
    hide IsData, Message, LStrip;
    if line == "" {
      assert data + [] == data;
      assert Prepend(data, [[]] + rest) == [data] + rest;
      assert ([data] + rest)[1..] == rest;
    } else if IsData(line) {
      assert data + ([Value(line)] + rest[0]) == data + [Value(line)] + rest[0];
      assert Prepend(data, Prepend([Value(line)], rest)) == Prepend(data + [Value(line)], rest);
    }
  }

  lemma ReadEnd<T>(data: seq<string>, last: Option<T>, loads: string -> Decoded<T>)
    ensures LastMessage(Prepend(data, Events([])), last, loads) == OrElse(Message(data, loads), last)
    ensures Message([], loads) == None && Events([]) == [[]]
  {
    assert data + [] == data;
    assert Prepend(data, [[]]) == [data];
  }

  lemma PrependNothing(events: seq<seq<string>>)
    requires events != []
    ensures Prepend([], events) == events
  {
    assert [] + events[0] == events[0];
  }

  /** None stands for the error "stream contained no JSON-RPC message". */
  method ParseSseJsonRpc<T(!new)>(text: string, loads: string -> Decoded<T>) returns (last: Option<T>)
    ensures Means(SplitLines(text), loads, last)
    ensures last == LastMessage(Events(SplitLines(text)), None, loads)
  {
    hide SplitLines, Means, Events, AddLine, Prepend, LastMessage, Payload, Strip, Join, DropReturns;
    last := None;
    var data: seq<string> := [];
    var lines := SplitLines(text);
    PrependNothing(Events(lines));
    assert lines[0..] == lines;
    for i := 0 to |lines|
      invariant LastMessage(Prepend(data, Events(lines[i..])), last, loads) == LastMessage(Events(lines), None, loads)
    {
      var line := DropReturns(lines[i]);
      ReadLine(data, lines, i, last, loads);
      if IsData(line) {
        data := data + [LStrip(line[|DATA|..])];
      } else if line == "" {
        if data != [] {
          last := OrElse(Payload(Strip(Join(data)), loads), last);
          data := [];
        }
        ReadEnd(data, last, loads);
        PrependNothing(Events(lines[i + 1..]));
      }
    }
    assert lines[|lines|..] == [];
    ReadEnd(data, last, loads);
    if data != [] {
      last := OrElse(Payload(Strip(Join(data)), loads), last);
    }
    LastMeans(lines, loads);
  }

  // ---------------------------------------------------------------- lines, exactly

  /** A blank line ends the event, a line that starts with "data:" adds the rest of it without
      leading blanks, and any other line is ignored. */
  lemma LinesExactly(line: string, rest: seq<string>)
    ensures var events, all := Events(rest), Events([line] + rest);
            && (line == "" ==> all == [[]] + events)
            && (line != "" && !(|line| >= 5 && line[..5] == "data:") ==> all == events)
            && (|line| >= 5 && line[..5] == "data:" ==> all == [[LStrip(line[5..])] + events[0]] + events[1..])
    ensures Events([]) == [[]]
  {
    assert ([line] + rest)[1..] == rest;
    hide LStrip;
  }

  /** The blanks that are stripped. */
  lemma BlanksExactly(c: char)
    ensures IsBlank(c) <==> c in "\t\n\U{0B}\U{0C}\r\U{1C}\U{1D}\U{1E}\U{1F} \U{85}\U{A0}\U{1680}"
                              + "\U{2000}\U{2001}\U{2002}\U{2003}\U{2004}\U{2005}\U{2006}\U{2007}\U{2008}\U{2009}\U{200A}"
                              + "\U{2028}\U{2029}\U{202F}\U{205F}\U{3000}"
  {
  }

  // ---------------------------------------------------------------- a printer of events

  function PayloadLines(payload: string): (lines: seq<string>)
    ensures lines != [] && Join(lines) == payload
  {
    if payload == "" then [""]
    else
      var rest := PayloadLines(payload[1..]);
      if payload[0] == '\n' then [""] + rest else [payload[..1] + rest[0]] + rest[1..]
  }

  function PrintLines(lines: seq<string>): string {
    if lines == [] then "\n" else "data: " + lines[0] + "\n" + PrintLines(lines[1..])
  }

  function Print(payloads: seq<string>): string {
    if payloads == [] then "" else PrintLines(PayloadLines(payloads[0])) + Print(payloads[1..])
  }

  function StripEach(lines: seq<string>): (stripped: seq<string>)
    ensures |stripped| == |lines|
  {
    if lines == [] then [] else [LStrip(lines[0])] + StripEach(lines[1..])
  }

  /** Only line feeds break the payload into lines. */
  ghost predicate Printable(payload: string) {
    forall i | 0 <= i < |PayloadLines(payload)| :: OneLine(PayloadLines(payload)[i])
  }

  /** What the reader makes of a printed payload. */
  function Received(payload: string): string {
    Strip(Join(StripEach(PayloadLines(payload))))
  }

  lemma {:induction false} FirstBreak(text: string, k: nat)
    requires k < |text| && IsBreak(text[k]) && OneLine(text[..k])
    ensures LineLength(text) == k
    decreases k
  {
    if k > 0 {
      assert text[..k][0] == text[0];
      assert text[1..][..k - 1] == text[..k][1..];
      FirstBreak(text[1..], k - 1);
    }
  }

  lemma SplitAt(first: string, tail: string)
    requires OneLine(first) && tail != "" && IsBreak(tail[0])
    ensures SplitLines(first + tail) == [first] + SplitLines(tail[BreakLength(tail)..])
  {
    var text, n := first + tail, |first|;
    assert text[..n] == first && text[n..] == tail;
    hide IsBreak, LineLength, BreakLength;
    FirstBreak(text, n);
  }

  lemma FirstLine(line: string, rest: string)
    requires OneLine(line)
    ensures SplitLines(line + "\n" + rest) == [line] + SplitLines(rest)
  {
    var tail := "\n" + rest;
    assert line + "\n" + rest == line + tail;
    assert tail[BreakLength(tail)..] == rest;
    SplitAt(line, tail);
  }

  /** Every line break of `str.splitlines` ends a line, and a carriage return with a line feed
      after it is one break. */
  lemma BreaksEndLines(line: string, c: char, rest: string)
    requires OneLine(line)
    requires c in {'\n', '\r', '\U{0B}', '\U{0C}', '\U{1C}', '\U{1D}', '\U{1E}', '\U{85}', '\U{2028}', '\U{2029}'}
    ensures !(c == '\r' && rest != "" && rest[0] == '\n') ==> SplitLines(line + [c] + rest) == [line] + SplitLines(rest)
    ensures SplitLines(line + ['\r', '\n'] + rest) == [line] + SplitLines(rest)
  {
    var tail, crlf := [c] + rest, ['\r', '\n'] + rest;
    assert line + [c] + rest == line + tail && line + ['\r', '\n'] + rest == line + crlf;
    assert tail[1..] == rest && crlf[2..] == rest;
    SplitAt(line, tail);
    SplitAt(line, crlf);
  }

  /** An empty payload and the end marker stand for nothing, whatever they decode to; any other
      stands for what it decodes to, if that is an object. */
  lemma PayloadExactly<T>(blob: string, loads: string -> Decoded<T>)
    ensures blob == "" || blob == "[DONE]" ==> Payload(blob, loads) == None
    ensures blob != "" && blob != "[DONE]" ==>
      Payload(blob, loads) == match loads(blob) case Object(v) => Some(v) case Malformed => None case NotAnObject => None
  {
  }

  lemma {:induction false} PrintedLines(lines: seq<string>, rest: string)
    requires forall i | 0 <= i < |lines| :: OneLine(lines[i])
    ensures Events(SplitLines(PrintLines(lines) + rest))
            == [StripEach(lines)] + Events(SplitLines(rest))
    decreases |lines|
  {
    hide IsBreak, SplitLines, Events, AddLine;
    if lines == [] {
      assert "" + "\n" + rest == "\n" + rest;
      EventsOfLine("", rest);
      AddPrinted(lines, Events(SplitLines(rest)));
    } else {
      var line, more := "data: " + lines[0], PrintLines(lines[1..]) + rest;
      assert PrintLines(lines) + rest == line + "\n" + more;
      DataLine(lines[0]);
      EventsOfLine(line, more);
      PrintedLines(lines[1..], rest);
      AddPrinted(lines, Events(SplitLines(rest)));
    }
  }

  lemma EventsOfLine(line: string, text: string)
    requires OneLine(line)
    ensures Events(SplitLines(line + "\n" + text)) == AddLine(line, Events(SplitLines(text)))
  {
    hide OneLine, SplitLines;
    FirstLine(line, text);
    assert ([line] + SplitLines(text))[1..] == SplitLines(text);
  }

  lemma DataLine(line: string)
    requires OneLine(line)
    ensures OneLine("data: " + line)
  {
    var all := "data: " + line;
    forall i | 0 <= i < |all| ensures !IsBreak(all[i]) {
      if i >= 6 { assert all[i] == line[i - 6]; }
    }
  }

  lemma AddPrinted(lines: seq<string>, events: seq<seq<string>>)
    requires events != []
    ensures if lines == [] then AddLine("", events) == [StripEach(lines)] + events
            else AddLine("data: " + lines[0], [StripEach(lines[1..])] + events) == [StripEach(lines)] + events
  {
    if lines != [] {
      var line := "data: " + lines[0];
      assert line[..5] == "data:" && line[5..] == " " + lines[0];
      assert (" " + lines[0])[1..] == lines[0];
      assert Value(line) == LStrip(lines[0]);
      hide LStrip, IsData;
    }
  }

  /** The last payload that is received as an object, or `default`. */
  function LastObject<T>(payloads: seq<string>, default: Option<T>, loads: string -> Decoded<T>): Option<T> {
    if payloads == [] then default
    else LastObject(payloads[1..], OrElse(Payload(Received(payloads[0]), loads), default), loads)
  }

  /** Round trip: of a printed stream the reader returns the last payload that it receives as
      an object. What it receives of each payload is the payload itself exactly if that
      survives the stripping of blanks. */
  lemma {:induction false} PrintedStreamReadsBack<T>(payloads: seq<string>, default: Option<T>, loads: string -> Decoded<T>)
    requires forall p | p in payloads :: Printable(p)
    ensures LastMessage(Events(SplitLines(Print(payloads))), default, loads) == LastObject(payloads, default, loads)
    decreases |payloads|
  {
    if payloads == [] {
      assert Message([], loads) == None;
    } else {
      var p := payloads[0];
      assert p in payloads;
      PrintedLines(PayloadLines(p), Print(payloads[1..]));
      PrintedStreamReadsBack(payloads[1..], OrElse(Payload(Received(p), loads), default), loads);
    }
  }

  /** No line starts with a blank. */
  ghost predicate Flush(lines: seq<string>) {
    forall i | 0 <= i < |lines| :: LStrip(lines[i]) == lines[i]
  }

  /** A payload survives exactly when it has no blanks around it and none at the start of a line. */
  lemma PayloadSurvives(payload: string)
    ensures Received(payload) == payload <==> Strip(payload) == payload && Flush(PayloadLines(payload))
  {
    hide LStrip, RStrip, Join, PayloadLines, Flush;
    var lines := PayloadLines(payload);
    JoinStripped(lines);
    assert |Received(payload)| <= |Join(StripEach(lines))|;
  }

  lemma {:induction false} JoinStripped(lines: seq<string>)
    ensures |Join(StripEach(lines))| <= |Join(lines)|
    ensures |Join(StripEach(lines))| == |Join(lines)| ==> Flush(lines)
    ensures Flush(lines) ==> StripEach(lines) == lines
    decreases |lines|
  {
    hide Join, LStrip;
    if lines != [] {
      var first, rest := lines[0], lines[1..];
      assert lines == [first] + rest;
      JoinStripped(rest);
      JoinLength(lines);
      JoinLength(StripEach(lines));
      assert StripEach(lines)[1..] == StripEach(rest);
      FlushParts(first, rest);
    }
  }

  lemma FlushParts(first: string, rest: seq<string>)
    ensures Flush([first] + rest) <==> LStrip(first) == first && Flush(rest)
  {
    hide LStrip;
    assert ([first] + rest)[0] == first && ([first] + rest)[1..] == rest;
    if Flush([first] + rest) {
      forall i | 0 <= i < |rest| ensures LStrip(rest[i]) == rest[i] {
        assert ([first] + rest)[i + 1] == rest[i];
      }
    }
  }

  lemma JoinLength(lines: seq<string>)
    requires lines != []
    ensures |Join(lines)| == |lines[0]| + |Join(lines[1..])| + if |lines| == 1 then 0 else 1
  {
  }

  // ---------------------------------------------------------------- the end of the stream

  lemma {:induction false} SplitLinesAppend(text: string, rest: string)
    requires text != "" && !IsBreak(text[|text| - 1])
    ensures SplitLines(text + "\n" + rest) == SplitLines(text) + SplitLines(rest)
    decreases |text|
  {
    var n := LineLength(text);
    assert text == text[..n] + text[n..];
    if n == |text| {
      assert text[..n] == text && SplitLines(text) == [text];
      FirstLine(text, rest);
    } else {
      BreakInside(text[n..], "\n" + rest);
      assert !IsBreak(text[n..][|text[n..]| - 1]);
      hide *;
      SplitLinesAppend(text[n..][BreakLength(text[n..])..], rest);
      SplitAtAppend(text[..n], text[n..], rest);
    }
  }

  lemma SplitAtAppend(first: string, tail: string, rest: string)
    requires OneLine(first) && tail != "" && IsBreak(tail[0]) && !IsBreak(tail[|tail| - 1])
    requires var later := tail[BreakLength(tail)..]; SplitLines(later + "\n" + rest) == SplitLines(later) + SplitLines(rest)
    ensures SplitLines(first + tail + "\n" + rest) == SplitLines(first + tail) + SplitLines(rest)
  {
    hide *;
    var more, b := "\n" + rest, BreakLength(tail);
    BreakInside(tail, more);
    SplitAt(first, tail);
    SplitAt(first, tail + more);
    assert first + tail + "\n" + rest == first + (tail + more);
    assert (tail + more)[b..] == tail[b..] + "\n" + rest;
  }

  lemma BreakInside(tail: string, more: string)
    requires tail != "" && IsBreak(tail[0]) && !IsBreak(tail[|tail| - 1])
    ensures BreakLength(tail) < |tail| && BreakLength(tail + more) == BreakLength(tail)
  {
  }

  lemma BlankLine()
    ensures SplitLines("\n") == [""]
  {
    FirstLine("", "");
    assert "" + "\n" + "" == "\n";
  }

  lemma {:induction false} EventsOfBlankEnd(lines: seq<string>)
    ensures Events(lines + [""]) == Events(lines) + [[]]
    decreases |lines|
  {
    if lines == [] {
      assert lines + [""] == [""];
      assert Events([""]) == [[], []];
    } else {
      EventsOfBlankEnd(lines[1..]);
      assert (lines + [""])[1..] == lines[1..] + [""];
      hide Events;
      AddBefore(lines[0], Events(lines[1..]), []);
    }
  }

  lemma AddBefore(line: string, events: seq<seq<string>>, event: seq<string>)
    requires events != []
    ensures AddLine(line, events + [event]) == AddLine(line, events) + [event]
  {
    hide Value, IsData;
    if line == "" {
      assert [[]] + (events + [event]) == [[]] + events + [event];
    } else if IsData(line) {
      var value := [Value(line)];
      assert (events + [event])[1..] == events[1..] + [event];
      assert Prepend(value, events + [event]) == Prepend(value, events) + [event];
    }
  }

  lemma {:induction false} LastOfExtended<T>(events: seq<seq<string>>, default: Option<T>, loads: string -> Decoded<T>)
    ensures LastMessage(events + [[]], default, loads) == LastMessage(events, default, loads)
    decreases |events|
  {
    if events == [] {
      assert Message([], loads) == None;
    } else {
      assert (events + [[]])[1..] == events[1..] + [[]];
      LastOfExtended(events[1..], OrElse(Message(events[0], loads), default), loads);
    }
  }

  /** The last event counts whether or not a blank line ends it, so the caller may strip the text. */
  lemma UnterminatedEventCounts<T>(text: string, loads: string -> Decoded<T>)
    requires text != "" && !IsBreak(text[|text| - 1])
    ensures LastMessage(Events(SplitLines(text + "\n" + "\n")), None, loads)
            == LastMessage(Events(SplitLines(text)), None, loads)
  {
    hide *;
    SplitLinesAppend(text, "\n");
    BlankLine();
    EventsOfBlankEnd(SplitLines(text));
    LastOfExtended(Events(SplitLines(text)), None, loads);
  }
}

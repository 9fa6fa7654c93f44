/**
 * The server-sent event stream of `overviewStream`, and the reader of such streams as the HTML
 * standard's section 9.2.6 ("Interpreting an event stream") describes it.
 */
module EventStream {
  import opened JsonArray

  /** One pass of the handler's loop: a heartbeat, a snapshot, or the error of a failed refresh. */
  datatype Message = Heartbeat | Data(text: string) | Failure(quoted: string)

  function Frame(m: Message): string {
    match m
    case Heartbeat => ": heartbeat\n\n"
    case Data(text) => "data: " + text + "\n\n"
    case Failure(quoted) => "event: error\ndata: " + quoted + "\n\n"
  }

  function Stream(ms: seq<Message>): string {
    if ms == [] then "" else Frame(ms[0]) + Stream(ms[1..])
  }

  // ----------------------------------------------------------- the reader

  datatype Event = Event(kind: string, data: string)

  /** The complete lines; they end in CR LF, LF or CR, and an unfinished one is dropped. */
  function Lines(s: string, line: string): seq<string>
    decreases |s|
  {
    if s == "" then []
    else if s[0] == '\n' then [line] + Lines(s[1..], "")
    else if s[0] == '\r' then
      [line] + Lines(if |s| > 1 && s[1] == '\n' then s[2..] else s[1..], "")
    else Lines(s[1..], line + [s[0]])
  }

  function Colon(line: string): (n: nat)
    ensures n <= |line|
    ensures n < |line| ==> line[n] == ':'
  {
    if line == "" || line[0] == ':' then 0 else 1 + Colon(line[1..])
  }

  function FieldName(line: string): string { line[..Colon(line)] }

  function FieldValue(line: string): string {
    var n := Colon(line);
    if n == |line| then ""
    else if n + 1 < |line| && line[n + 1] == ' ' then line[n + 2..]
    else line[n + 1..]
  }

  function Events(lines: seq<string>, kind: string, data: string): seq<Event> {
    if lines == [] then []
    else
      var line := lines[0];
      if line == "" then
        (if data == "" then [] else [Event(if kind == "" then "message" else kind, data[..|data| - 1])]) +
        Events(lines[1..], "", "")
      else if line[0] == ':' then Events(lines[1..], kind, data)
      else if FieldName(line) == "data" then Events(lines[1..], kind, data + FieldValue(line) + "\n")
      else if FieldName(line) == "event" then Events(lines[1..], FieldValue(line), data)
      else Events(lines[1..], kind, data)
  }

  function Received(stream: string): seq<Event> {
    Events(Lines(stream, ""), "", "")
  }

  // ------------------------------------------------------------- delivery

  function Expected(ms: seq<Message>): seq<Event> {
    if ms == [] then []
    else
      (match ms[0]
       case Heartbeat => []
       case Data(text) => [Event("message", text)]
       case Failure(quoted) => [Event("error", quoted)])
      + Expected(ms[1..])
  }

  lemma {:induction false} LinesFirst(line: string, rest: string, pending: string)
    requires OneLine(line)
    ensures Lines(line + "\n" + rest, pending) == [pending + line] + Lines(rest, "")
    decreases |line|
  {
    var s := line + "\n" + rest;
    if line == "" {
      assert s[1..] == rest;
      assert pending + line == pending;
    } else {
      assert s[1..] == line[1..] + "\n" + rest;
      LinesFirst(line[1..], rest, pending + [line[0]]);
      assert pending + [line[0]] + line[1..] == pending + line;
    }
  }

  lemma LineFirst(line: string, rest: string)
    requires OneLine(line)
    ensures Lines(line + "\n" + rest, "") == [line] + Lines(rest, "")
  {
    hide Lines;
    LinesFirst(line, rest, "");
    assert "" + line == line;
  }

  lemma {:induction false} ColonAfter(name: string, rest: string)
    requires ':' !in name
    ensures Colon(name + ":" + rest) == |name|
  {
    var line := name + ":" + rest;
    if name != "" {
      assert line[1..] == name[1..] + ":" + rest;
      ColonAfter(name[1..], rest);
    }
  }

  lemma Field(name: string, value: string)
    requires ':' !in name
    ensures FieldName(name + ": " + value) == name && FieldValue(name + ": " + value) == value
  {
    var line := name + ": " + value;
    assert line == name + ":" + (" " + value);
    ColonAfter(name, " " + value);
    assert line[..|name|] == name && line[|name| + 1] == ' ' && line[|name| + 2..] == value;
  }

  lemma DataField(text: string)
    ensures FieldName("data: " + text) == "data" && FieldValue("data: " + text) == text
  {
    assert "data" + ": " + text == "data: " + text;
    Field("data", text);
  }

  lemma ErrorField()
    ensures FieldName("event: error") == "event" && FieldValue("event: error") == "error"
  {
    assert "event" + ": " + "error" == "event: error";
    Field("event", "error");
  }

  /** The reader, one line at a time. */
  lemma NextLine(line: string, lines: seq<string>, kind: string, data: string)
    ensures var all := [line] + lines;
      Events(all, kind, data) ==
        if line == "" then
          (if data == "" then [] else [Event(if kind == "" then "message" else kind, data[..|data| - 1])]) +
          Events(lines, "", "")
        else if line[0] == ':' then Events(lines, kind, data)
        else if FieldName(line) == "data" then Events(lines, kind, data + FieldValue(line) + "\n")
        else if FieldName(line) == "event" then Events(lines, FieldValue(line), data)
        else Events(lines, kind, data)
  {
    hide FieldName, FieldValue;
    assert ([line] + lines)[1..] == lines;
  }

  lemma HeartbeatReceived(rest: string)
    ensures Received(Frame(Heartbeat) + rest) == Received(rest)
  {
    hide Lines, Events, FieldName, FieldValue;
    assert Frame(Heartbeat) + rest == ": heartbeat" + "\n" + ("" + "\n" + rest);
    LineFirst(": heartbeat", "" + "\n" + rest);
    LineFirst("", rest);
    NextLine(": heartbeat", [""] + Lines(rest, ""), "", "");
    NextLine("", Lines(rest, ""), "", "");
    assert [] + Received(rest) == Received(rest);
  }

  /** A data line and the blank line after it: one event. */
  lemma DataLine(text: string, lines: seq<string>, kind: string)
    ensures Events(["data: " + text] + ([""] + lines), kind, "") ==
      [Event(if kind == "" then "message" else kind, text)] + Events(lines, "", "")
  {
    hide Events, FieldName, FieldValue;
    DataField(text);
    NextLine("data: " + text, [""] + lines, kind, "");
    var data := "" + text + "\n";
    assert data[..|data| - 1] == text;
    NextLine("", lines, kind, data);
  }

  lemma DataReceived(text: string, rest: string)
    requires OneLine(text)
    ensures Received(Frame(Data(text)) + rest) == [Event("message", text)] + Received(rest)
  {
    hide Lines, Events;
    var line := "data: " + text;
    assert Frame(Data(text)) + rest == line + "\n" + ("" + "\n" + rest);
    LineFirst(line, "" + "\n" + rest);
    LineFirst("", rest);
    DataLine(text, Lines(rest, ""), "");
  }

  lemma FailureReceived(quoted: string, rest: string)
    requires OneLine(quoted)
    ensures Received(Frame(Failure(quoted)) + rest) == [Event("error", quoted)] + Received(rest)
  {
    hide Lines, Events, FieldName, FieldValue;
    var line := "data: " + quoted;
    assert Frame(Failure(quoted)) + rest == "event: error" + "\n" + (line + "\n" + ("" + "\n" + rest));
    LineFirst("event: error", line + "\n" + ("" + "\n" + rest));
    LineFirst(line, "" + "\n" + rest);
    LineFirst("", rest);
    ErrorField();
    NextLine("event: error", [line] + ([""] + Lines(rest, "")), "", "");
    DataLine(quoted, Lines(rest, ""), "error");
  }

  ghost predicate Framable(m: Message) {
    match m
    case Heartbeat => true
    case Data(text) => OneLine(text)
    case Failure(quoted) => OneLine(quoted)
  }

  // ----------------------------------------- and not when a line is broken

  function Total(lines: seq<string>): nat {
    if lines == [] then 0 else |lines[0]| + 1 + Total(lines[1..])
  }

  lemma {:induction false} LinesTotal(s: string, line: string)
    ensures Total(Lines(s, line)) <= |line| + |s|
    decreases |s|
  {
    if s == "" {
    } else if s[0] == '\n' {
      LinesTotal(s[1..], "");
      assert ([line] + Lines(s[1..], ""))[1..] == Lines(s[1..], "");
    } else if s[0] == '\r' {
      var rest := if |s| > 1 && s[1] == '\n' then s[2..] else s[1..];
      LinesTotal(rest, "");
      assert ([line] + Lines(rest, ""))[1..] == Lines(rest, "");
    } else {
      LinesTotal(s[1..], line + [s[0]]);
    }
  }

  /** Every further data line costs its field name, so what is received stays short. */
  lemma {:induction false} EventsShort(lines: seq<string>, kind: string, data: string, i: nat)
    requires i < |Events(lines, kind, data)|
    ensures |Events(lines, kind, data)[i].data| + 1 <= |data| + (if Total(lines) < 5 then 0 else Total(lines) - 5)
    decreases |lines|
  {
    var line := lines[0];
    if line == "" {
      var skipped: nat := if data == "" then 0 else 1;
      if i >= skipped {
        EventsShort(lines[1..], "", "", i - skipped);
      }
    } else if line[0] == ':' {
      EventsShort(lines[1..], kind, data, i);
    } else if FieldName(line) == "data" {
      DataLineShort(line);
      EventsShort(lines[1..], kind, data + FieldValue(line) + "\n", i);
    } else if FieldName(line) == "event" {
      EventsShort(lines[1..], FieldValue(line), data, i);
    } else {
      EventsShort(lines[1..], kind, data, i);
    }
  }

  lemma DataLineShort(line: string)
    requires FieldName(line) == "data"
    ensures (FieldValue(line) == "" && |line| == 4) || |FieldValue(line)| + 5 <= |line|
  {
    assert Colon(line) == |FieldName(line)|;
  }

  /** The text before the first line break in `s`, and what the reader has left after it. */
  lemma {:induction false} FirstBreak(s: string, tail: string, pending: string) returns (line: string, rest: string)
    requires !OneLine(s) && tail != "" && tail[0] == '\n'
    ensures OneLine(line) && |line| + 1 + |rest| <= |s| + |tail| && line <= s
    ensures Lines(s + tail, pending) == [pending + line] + Lines(rest, "")
    decreases |s|
  {
    if s[0] == '\n' || s[0] == '\r' {
      var t := s + tail;
      assert pending + "" == pending;
      line, rest := "", if s[0] == '\r' && t[1] == '\n' then t[2..] else t[1..];
    } else {
      line, rest := FirstBreak(s[1..], tail, pending + [s[0]]);
      assert (s + tail)[1..] == s[1..] + tail;
      assert pending + [s[0]] + line == pending + ([s[0]] + line);
      line := [s[0]] + line;
    }
  }

  /** A data field that does not fit on one line: the reader dispatches something, but never the text. */
  lemma BrokenIsShorter(text: string, kind: string)
    requires !OneLine(text)
    ensures Events(Lines("data: " + text + "\n\n", ""), kind, "") != []
    ensures forall e :: e in Events(Lines("data: " + text + "\n\n", ""), kind, "") ==> e.data != text
  {
    hide Lines, Events, FieldName, FieldValue;
    var line, rest := FirstBreak(text, "\n\n", "data: ");
    PrefixedLines("data: ", text, "\n\n");
    var all, lines := Lines("data: " + text + "\n\n", ""), Lines(rest, "");
    assert all == ["data: " + line] + lines;
    EndsBlank("data: " + text + "\n\n", "");
    LinesTotal(rest, "");
    FirstData(line, lines, kind);
    var data := line + "\n";
    assert "data: " + line != "";
    BlankDispatches(lines, kind, data);
    forall i | 0 <= i < |Events(lines, kind, data)| ensures Events(lines, kind, data)[i].data != text {
      EventsShort(lines, kind, data, i);
    }
  }

  lemma FirstData(line: string, lines: seq<string>, kind: string)
    ensures Events(["data: " + line] + lines, kind, "") == Events(lines, kind, line + "\n")
  {
    hide Events, FieldName, FieldValue;
    DataField(line);
    NextLine("data: " + line, lines, kind, "");
    assert "" + line + "\n" == line + "\n";
  }

  lemma {:induction false} PrefixedLinesFrom(line: string, s: string, pending: string)
    requires OneLine(line)
    ensures Lines(line + s, pending) == Lines(s, pending + line)
    decreases |line|
  {
    if line == "" {
      assert line + s == s && pending + line == pending;
    } else {
      assert (line + s)[1..] == line[1..] + s;
      PrefixedLinesFrom(line[1..], s, pending + [line[0]]);
      assert pending + [line[0]] + line[1..] == pending + line;
    }
  }

  lemma PrefixedLines(line: string, s: string, tail: string)
    requires OneLine(line)
    ensures Lines(line + s + tail, "") == Lines(s + tail, line)
  {
    hide Lines;
    PrefixedLinesFrom(line, s + tail, "");
    assert line + s + tail == line + (s + tail);
    assert "" + line == line;
  }

  // ------------------------------------------------- frames apart, exactly

  /** Text that ends in a line feed ends its last line. */
  lemma {:induction false} LinesConcat(s: string, more: string, pending: string)
    requires s != "" && s[|s| - 1] == '\n'
    ensures Lines(s + more, pending) == Lines(s, pending) + Lines(more, "")
    decreases |s|
  {
    var n := if s[0] == '\r' && |s| > 1 && s[1] == '\n' then 2 else 1;
    var all, rest := s + more, s[n..];
    assert all[n..] == rest + more && all[0] == s[0] && (|s| > 1 ==> all[1] == s[1]);
    var next := if s[0] == '\n' || s[0] == '\r' then "" else pending + [s[0]];
    if |s| > n {
      assert rest[|rest| - 1] == '\n';
      LinesConcat(rest, more, next);
    } else {
      assert rest == "" && "" + more == more;
    }
  }

  /** A frame's two line feeds end a blank line. */
  lemma {:induction false} EndsBlank(s: string, pending: string)
    requires |s| >= 2 && s[|s| - 2..] == "\n\n"
    ensures Lines(s, pending) != [] && Lines(s, pending)[|Lines(s, pending)| - 1] == ""
    decreases |s|
  {
    assert s[|s| - 2] == s[|s| - 2..][0] && s[|s| - 1] == s[|s| - 2..][1];
    var n := if s[0] == '\r' && s[1] == '\n' then 2 else 1;
    var next := if s[0] == '\n' || s[0] == '\r' then "" else pending + [s[0]];
    if |s| - n >= 2 {
      assert s[n..][|s[n..]| - 2..] == "\n\n";
      EndsBlank(s[n..], next);
    } else {
      assert s[n..] == "\n" && next == "";
      assert "\n"[1..] == "";
    }
  }

  /** A blank line leaves the reader with nothing pending. */
  lemma {:induction false} EventsConcat(a: seq<string>, b: seq<string>, kind: string, data: string)
    requires a != [] && a[|a| - 1] == ""
    ensures Events(a + b, kind, data) == Events(a, kind, data) + Events(b, "", "")
    decreases |a|
  {
    hide FieldName, FieldValue;
    assert (a + b)[1..] == a[1..] + b;
    if |a| == 1 {
      assert a[1..] == [] && [] + b == b;
    } else {
      var line := a[0];
      if line == "" {
        EventsConcat(a[1..], b, "", "");
      } else if line[0] == ':' {
        EventsConcat(a[1..], b, kind, data);
      } else if FieldName(line) == "data" {
        EventsConcat(a[1..], b, kind, data + FieldValue(line) + "\n");
      } else if FieldName(line) == "event" {
        EventsConcat(a[1..], b, FieldValue(line), data);
      } else {
        EventsConcat(a[1..], b, kind, data);
      }
    }
  }

  lemma {:induction false} BlankDispatches(lines: seq<string>, kind: string, data: string)
    requires data != "" && lines != [] && lines[|lines| - 1] == ""
    ensures Events(lines, kind, data) != []
    decreases |lines|
  {
    hide FieldName, FieldValue;
    var line := lines[0];
    if line != "" {
      if line[0] == ':' {
        BlankDispatches(lines[1..], kind, data);
      } else if FieldName(line) == "data" {
        BlankDispatches(lines[1..], kind, data + FieldValue(line) + "\n");
      } else if FieldName(line) == "event" {
        BlankDispatches(lines[1..], FieldValue(line), data);
      } else {
        BlankDispatches(lines[1..], kind, data);
      }
    }
  }

  lemma FrameEnd(m: Message)
    ensures |Frame(m)| >= 2 && Frame(m)[|Frame(m)| - 2..] == "\n\n"
  {
  }

  /** Whatever a frame carries, the reader takes it and the rest of the stream apart. */
  lemma FrameApart(m: Message, rest: string)
    ensures Received(Frame(m) + rest) == Received(Frame(m)) + Received(rest)
  {
    hide Lines, Events, Frame;
    FrameEnd(m);
    assert Frame(m)[|Frame(m)| - 2..][1] == Frame(m)[|Frame(m)| - 1];
    LinesConcat(Frame(m), rest, "");
    EndsBlank(Frame(m), "");
    EventsConcat(Lines(Frame(m), ""), Lines(rest, ""), "", "");
  }

  lemma NothingReceived()
    ensures Received("") == []
  {
  }

  /** A message that does not fit its lines: something is received, but not it. */
  lemma BrokenFrame(m: Message)
    requires !Framable(m)
    ensures |Expected([m])| == 1 && Received(Frame(m)) != [] && Received(Frame(m))[0] != Expected([m])[0]
  {
    hide Lines, Events, OneLine;
    assert [m][1..] == [];
    match m
    case Data(text) =>
      BrokenIsShorter(text, "");
    case Failure(quoted) =>
      assert Frame(m) == "event: error" + "\n" + ("data: " + quoted + "\n\n");
      EventLine("data: " + quoted + "\n\n");
      BrokenIsShorter(quoted, "error");
  }

  lemma EventLine(rest: string)
    ensures Received("event: error" + "\n" + rest) == Events(Lines(rest, ""), "error", "")
  {
    hide Lines, Events, FieldName, FieldValue;
    LineFirst("event: error", rest);
    ErrorField();
    NextLine("event: error", Lines(rest, ""), "", "");
  }

  lemma WholeFrame(m: Message)
    requires Framable(m)
    ensures Received(Frame(m)) == Expected([m])
  {
    hide Received, Frame;
    assert Frame(m) + "" == Frame(m);
    assert [m][1..] == [];
    NothingReceived();
    match m
    case Heartbeat => HeartbeatReceived("");
    case Data(text) => DataReceived(text, "");
    case Failure(quoted) => FailureReceived(quoted, "");
  }

  /** A snapshot survives the framing exactly when it is one line. */
  lemma FrameExact(m: Message)
    ensures Received(Frame(m)) == Expected([m]) <==> Framable(m)
  {
    hide Received, Frame, Expected;
    if Framable(m) {
      WholeFrame(m);
    } else {
      BrokenFrame(m);
    }
  }

  /**
   * Whatever the interleaving of heartbeats, snapshots and errors, a standard reader sees one event per
   * snapshot and per error, in order, each carrying exactly the bytes sent, if and only if every snapshot
   * and every error is one line.
   */
  lemma {:induction false} StreamDelivers(ms: seq<Message>)
    ensures Received(Stream(ms)) == Expected(ms) <==> forall i :: 0 <= i < |ms| ==> Framable(ms[i])
  {
    hide Received, Frame, Framable;
    if ms == [] {
      NothingReceived();
    } else {
      StreamDelivers(ms[1..]);
      FrameApart(ms[0], Stream(ms[1..]));
      ExpectedFirst(ms);
      var got, rest := Received(Frame(ms[0])), Received(Stream(ms[1..]));
      if Framable(ms[0]) {
        WholeFrame(ms[0]);
        Appended(got, rest, Expected(ms[1..]));
      } else {
        BrokenFrame(ms[0]);
        assert (got + rest)[0] == got[0] && (Expected([ms[0]]) + Expected(ms[1..]))[0] == Expected([ms[0]])[0];
      }
      forall i | 0 < i < |ms| ensures ms[i] == ms[1..][i - 1] {
      }
    }
  }

  lemma Appended<T>(a: seq<T>, b: seq<T>, c: seq<T>)
    ensures a + b == a + c <==> b == c
  {
    assert (a + b)[|a|..] == b && (a + c)[|a|..] == c;
  }

  lemma ExpectedFirst(ms: seq<Message>)
    requires ms != []
    ensures Expected(ms) == Expected([ms[0]]) + Expected(ms[1..])
  {
    assert [ms[0]][1..] == [];
  }

  // -------------------------------------------------- a stream cut off

  lemma {:induction false} LinesCut(s: string, n: nat, line: string)
    requires n <= |s|
    ensures Lines(s[..n], line) <= Lines(s, line)
    decreases |s|
  {
    if n > 0 {
      var k := if s[0] == '\r' && |s| > 1 && s[1] == '\n' then 2 else 1;
      var next := if s[0] == '\n' || s[0] == '\r' then "" else line + [s[0]];
      var cut := s[..n];
      if n >= k {
        assert cut[k..] == s[k..][..n - k];
        LinesCut(s[k..], n - k, next);
      } else {
        assert cut == "\r" && cut[1..] == "";
      }
    }
  }

  lemma {:induction false} EventsCut(lines: seq<string>, n: nat, kind: string, data: string)
    requires n <= |lines|
    ensures Events(lines[..n], kind, data) <= Events(lines, kind, data)
  {
    hide FieldName, FieldValue;
    if n > 0 {
      var line := lines[0];
      assert lines[..n][1..] == lines[1..][..n - 1];
      if line == "" {
        EventsCut(lines[1..], n - 1, "", "");
      } else if line[0] == ':' {
        EventsCut(lines[1..], n - 1, kind, data);
      } else if FieldName(line) == "data" {
        EventsCut(lines[1..], n - 1, kind, data + FieldValue(line) + "\n");
      } else if FieldName(line) == "event" {
        EventsCut(lines[1..], n - 1, FieldValue(line), data);
      } else {
        EventsCut(lines[1..], n - 1, kind, data);
      }
    }
  }

  /** Wherever a stream breaks off, the reader has seen the first of its events, whole, and nothing else. */
  lemma CutReceived(stream: string, n: nat)
    requires n <= |stream|
    ensures Received(stream[..n]) <= Received(stream)
  {
    LinesCut(stream, n, "");
    var lines, cut := Lines(stream, ""), Lines(stream[..n], "");
    assert cut == lines[..|cut|];
    EventsCut(lines, |cut|, "", "");
  }
}

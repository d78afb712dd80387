/**
 * The `text/event-stream` format of the WHATWG HTML Living Standard, section 9.2
 * (Server-sent events): the frame the service writes for one event, and the
 * receiving side's line and field interpretation, used to show that the frames
 * the service writes are read back as exactly the events it meant to send.
 */
module Sse {
  import opened Wrappers

  /** `_sse(event, data)` once the JSON payload has been encoded to `data`:
      an `event` field line, a `data` field line and an empty line. */
  function Frame(event: string, data: string): string
  {
    "event: " + event + "\ndata: " + data + "\n\n"
  }

  /** A frame names its event on its first line, carries the data on its
      second and ends with a blank line. */
  lemma FrameShape(event: string, data: string)
    ensures var r := Frame(event, data);
      && |r| == |event| + |data| + 16
      && r[..7] == "event: " && r[7..7 + |event|] == event
      && r[7 + |event|..14 + |event|] == "\ndata: " && r[14 + |event|..|r| - 2] == data
      && r[|r| - 2..] == "\n\n"
  {
  }

  /** The chunks a stream yields, as the bytes on the wire. */
  function Concat(chunks: seq<string>): string
  {
    if chunks == [] then "" else chunks[0] + Concat(chunks[1..])
  }

  predicate IsLineEnd(c: char)
  {
    c == '\n' || c == '\r'
  }

  /** A string that holds no line terminator, so that it stays one field value. */
  predicate SingleLine(s: string)
  {
    forall i :: 0 <= i < |s| ==> !IsLineEnd(s[i])
  }

  /** The first line of `s` and what follows its terminator (CRLF, LF or CR);
      None while no terminator has arrived yet. */
  function SplitLine(s: string): (r: Option<(string, string)>)
    ensures r.None? ==> SingleLine(s)
    ensures r.Some? ==>
      var (line, rest) := r.value;
      var n := |s| - |rest|;
      && SingleLine(line) && |line| < n <= |line| + 2
      && s[..|line|] == line && s[n..] == rest
      && IsLineEnd(s[|line|])
      && (n == |line| + 2 ==> s[|line|] == '\r' && s[|line| + 1] == '\n')
  {
    if s == [] then None
    else if s[0] == '\n' then Some(([], s[1..]))
    else if s[0] == '\r' then Some(([], if |s| > 1 && s[1] == '\n' then s[2..] else s[1..]))
    else
      match SplitLine(s[1..])
      case None => None
      case Some((line, rest)) => Some(([s[0]] + line, rest))
  }

  /** A field line: the name is everything before the first colon, the value
      everything after it less one leading space; a line with no colon is a name
      with the empty value. */
  function Field(line: string): (r: (string, string))
    ensures |r.0| <= |line| && r.0 == line[..|r.0|] && ':' !in r.0
    ensures |r.0| < |line| ==> line[|r.0|] == ':'
  {
    if line == [] then ([], [])
    else if line[0] == ':' then
      ([], if |line| > 1 && line[1] == ' ' then line[2..] else line[1..])
    else
      var (name, value) := Field(line[1..]);
      ([line[0]] + name, value)
  }

  /** The receiver's buffers between two dispatches. */
  datatype Buffers = Buffers(eventType: string, data: string)

  const Empty := Buffers("", "")

  /** An event as the receiver dispatches it. */
  datatype Dispatched = Dispatched(eventType: string, data: string)

  /** How the receiver handles one line: an empty line dispatches the buffered
      event (none when the data buffer is empty) and resets the buffers; a line
      starting with a colon is a comment; `event` sets the type; `data` appends
      its value and a line feed; any other field leaves the dispatched events
      unchanged. */
  function Step(b: Buffers, line: string): (Buffers, Option<Dispatched>)
  {
    if line == [] then
      if b.data == [] then (Empty, None)
      else
        var data := if b.data[|b.data| - 1] == '\n' then b.data[..|b.data| - 1] else b.data;
        (Empty, Some(Dispatched(if b.eventType == [] then "message" else b.eventType, data)))
    else if line[0] == ':' then (b, None)
    else
      var (name, value) := Field(line);
      if name == "event" then (b.(eventType := value), None)
      else if name == "data" then (b.(data := b.data + value + "\n"), None)
      else (b, None)
  }

  /** The events a receiver dispatches from the complete lines of `s`. */
  function Interpret(s: string, b: Buffers): seq<Dispatched>
    decreases |s|
  {
    match SplitLine(s)
    case None => []
    case Some((line, rest)) =>
      var (b', d) := Step(b, line);
      (if d.Some? then [d.value] else []) + Interpret(rest, b')
  }

  lemma {:induction false} SplitLineAt(line: string, rest: string)
    requires SingleLine(line)
    ensures SplitLine(line + "\n" + rest) == Some((line, rest))
  {
    var s := line + "\n" + rest;
    if line == [] {
      assert s[0] == '\n' && s[1..] == rest;
    } else {
      assert s[0] == line[0] && !IsLineEnd(line[0]);
      assert s[1..] == line[1..] + "\n" + rest;
      SplitLineAt(line[1..], rest);
      assert [line[0]] + line[1..] == line;
    }
  }

  lemma {:induction false} FieldAt(name: string, value: string)
    requires ':' !in name
    ensures Field(name + ": " + value) == (name, value)
  {
    var line := name + ": " + value;
    if name == [] {
      assert line[0] == ':' && line[1] == ' ' && line[2..] == value;
    } else {
      assert line[0] == name[0] && name[0] != ':';
      assert line[1..] == name[1..] + ": " + value;
      FieldAt(name[1..], value);
      assert [name[0]] + name[1..] == name;
    }
  }

  /** Reading one complete line: its effect on the buffers, then the rest. */
  lemma InterpretLine(b: Buffers, line: string, rest: string)
    requires SingleLine(line)
    ensures Interpret(line + "\n" + rest, b) ==
      (if Step(b, line).1.Some? then [Step(b, line).1.value] else []) + Interpret(rest, Step(b, line).0)
  {
    SplitLineAt(line, rest);
  }

  /** One frame, read from fresh buffers, dispatches exactly its own event and
      leaves the buffers fresh for whatever follows. */
  lemma FrameRoundTrip(event: string, data: string, rest: string)
    requires event != [] && SingleLine(event) && SingleLine(data)
    ensures Interpret(Frame(event, data) + rest, Empty) == [Dispatched(event, data)] + Interpret(rest, Empty)
  {
    var l1, l2 := "event: " + event, "data: " + data;
    assert SingleLine(l1) && SingleLine(l2) by {
      assert forall i :: 7 <= i < |l1| ==> l1[i] == event[i - 7];
      assert forall i :: 6 <= i < |l2| ==> l2[i] == data[i - 6];
    }
    var r2 := "" + "\n" + rest;
    var r1 := l2 + "\n" + r2;
    assert Frame(event, data) + rest == l1 + "\n" + r1;
    var b1 := Buffers(event, "");
    var b2 := Buffers(event, data + "\n");
    assert Step(Empty, l1) == (b1, None) by {
      FieldAt("event", event);
      assert "event" + ": " + event == l1;
    }
    assert Step(b1, l2) == (b2, None) by {
      FieldAt("data", data);
      assert "data" + ": " + data == l2;
      assert "data" != "event";
      assert "" + data + "\n" == data + "\n";
    }
    assert Step(b2, "") == (Empty, Some(Dispatched(event, data))) by {
      assert (data + "\n")[..|data|] == data;
    }
    InterpretLine(Empty, l1, r1);
    InterpretLine(b1, l2, r2);
    InterpretLine(b2, "", rest);
  }

  /** Distinct events give distinct frames: a frame is read back as its own
      event name and data. */
  lemma FrameInjective(event1: string, data1: string, event2: string, data2: string)
    requires event1 != [] && SingleLine(event1) && SingleLine(data1)
    requires event2 != [] && SingleLine(event2) && SingleLine(data2)
    ensures Frame(event1, data1) == Frame(event2, data2) ==> event1 == event2 && data1 == data2
  {
    if Frame(event1, data1) == Frame(event2, data2) {
      var f := Frame(event1, data1);
      FrameRoundTrip(event1, data1, []);
      FrameRoundTrip(event2, data2, []);
      assert f + [] == f;
      var tail := Interpret([], Empty);
      assert ([Dispatched(event1, data1)] + tail)[0] == ([Dispatched(event2, data2)] + tail)[0];
    }
  }

  /** The frames of a whole stream are read back as the events, in order. */
  lemma {:induction false} StreamRoundTrip(events: seq<(string, string)>, chunks: seq<string>)
    requires |chunks| == |events|
    requires forall i :: 0 <= i < |events| ==> chunks[i] == Frame(events[i].0, events[i].1)
    requires forall i :: 0 <= i < |events| ==>
      events[i].0 != [] && SingleLine(events[i].0) && SingleLine(events[i].1)
    ensures |Interpret(Concat(chunks), Empty)| == |events|
    ensures forall i :: 0 <= i < |events| ==>
      Interpret(Concat(chunks), Empty)[i] == Dispatched(events[i].0, events[i].1)
  {
    if events != [] {
      StreamRoundTrip(events[1..], chunks[1..]);
      FrameRoundTrip(events[0].0, events[0].1, Concat(chunks[1..]));
    }
  }
}

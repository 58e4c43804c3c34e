/** The incremental event-stream decoder: lines end in LF or CR LF, and a pending event is flushed at the end. */
module Sse {
  import opened Options

  type Byte = b: int | 0 <= b < 256
  type Text = seq<Byte>

  const MAX_EVENT_BYTES: nat := 8_388_608
  const LF: Byte := 10
  const CR: Byte := 13
  const SPACE: Byte := 32
  const COLON: Byte := 58
  /** "data:" and "event:". */
  const DATA: Text := [100, 97, 116, 97, 58]
  const EVENT: Text := [101, 118, 101, 110, 116, 58]

  datatype SseEvent = SseEvent(event: Option<Text>, data: Text)

  /** What the lines seen since the last blank line have built up. */
  datatype Pending = Pending(event: Option<Text>, dataLines: seq<Text>, dataBytes: nat)
  datatype Decoder = Decoder(buffer: Text, pending: Pending, overflow: bool)
  datatype Pushed = Ok(events: seq<SseEvent>) | TooLarge

  const NOTHING := Pending(None, [], 0)
  const FRESH := Decoder([], NOTHING, false)

  /** The position of the first LF, or the length if there is none. */
  function FirstLf(s: Text): (n: nat)
    ensures n <= |s|
    ensures n < |s| ==> s[n] == LF
    ensures forall i :: 0 <= i < n ==> s[i] != LF
  {
    if s == [] || s[0] == LF then 0 else 1 + FirstLf(s[1..])
  }

  function TrimCr(line: Text): Text {
    if line != [] && line[|line| - 1] == CR then line[..|line| - 1] else line
  }

  predicate StartsWith(s: Text, prefix: Text) {
    |prefix| <= |s| && s[..|prefix|] == prefix
  }

  function StripSpace(s: Text): Text {
    if s != [] && s[0] == SPACE then s[1..] else s
  }

  function Join(lines: seq<Text>): Text {
    if lines == [] then [] else if |lines| == 1 then lines[0] else lines[0] + [LF] + Join(lines[1..])
  }

  function Dispatch(p: Pending): (Pending, seq<SseEvent>) {
    if p.dataLines == [] then (p.(event := None), [])
    else (NOTHING, [SseEvent(p.event, Join(p.dataLines))])
  }

  function ProcessLine(p: Pending, line: Text): (Pending, seq<SseEvent>) {
    if line == [] then Dispatch(p)
    else if line[0] == COLON then (p, [])
    else if StartsWith(line, DATA) then
      var value := StripSpace(line[|DATA|..]);
      (p.(dataBytes := p.dataBytes + |value|, dataLines := p.dataLines + [value]), [])
    else if StartsWith(line, EVENT) then (p.(event := Some(StripSpace(line[|EVENT|..]))), [])
    else (p, [])
  }

  /** `lossy` stands for the UTF-8 repair of one line. */
  function Feed(lossy: Text -> Text, p: Pending, raw: Text): (Pending, seq<SseEvent>) {
    ProcessLine(p, lossy(TrimCr(raw)))
  }

  /** Takes complete lines off the buffer until none is left or the pending data grows too large. */
  function Drain(lossy: Text -> Text, p: Pending, buffer: Text): (Decoder, Pushed)
    decreases |buffer|
  {
    var n := FirstLf(buffer);
    if n == |buffer| then (Decoder(buffer, p, false), Ok([]))
    else
      var (p', events) := Feed(lossy, p, buffer[..n]);
      if p'.dataBytes > MAX_EVENT_BYTES then (Decoder(buffer[n + 1..], p', true), TooLarge)
      else
        var (d, rest) := Drain(lossy, p', buffer[n + 1..]);
        (d, After(events, rest))
  }

  /** Earlier events in front of a result. */
  function After(events: seq<SseEvent>, r: Pushed): Pushed {
    if r.Ok? then Ok(events + r.events) else TooLarge
  }

  lemma AfterAfter(a: seq<SseEvent>, b: seq<SseEvent>, r: Pushed)
    ensures After(a, After(b, r)) == After(a + b, r) && After([], r) == r && After(a, Ok([])) == Ok(a)
  {
    if r.Ok? { assert a + (b + r.events) == (a + b) + r.events && [] + r.events == r.events; }
  }

  function PushBytes(lossy: Text -> Text, d: Decoder, bytes: Text): (Decoder, Pushed) {
    if d.overflow || |d.buffer| + |bytes| > MAX_EVENT_BYTES then (d.(overflow := true), TooLarge)
    else Drain(lossy, d.pending, d.buffer + bytes)
  }

  /** The unterminated last line is taken as it is, CR included, and the pending event is dispatched. */
  function FinishStream(lossy: Text -> Text, d: Decoder): (Decoder, Pushed) {
    if d.overflow then (d, TooLarge)
    else
      var (p, events) := if d.buffer == [] then (d.pending, []) else ProcessLine(d.pending, lossy(d.buffer));
      var (p', more) := Dispatch(p);
      (Decoder([], p', false), Ok(events + more))
  }

  class SseDecoder {
    const lossy: Text -> Text
    var buffer: Text
    var event: Option<Text>
    var dataLines: seq<Text>
    var dataBytes: nat
    var overflow: bool

    constructor (lossy: Text -> Text)
      ensures this.lossy == lossy && State() == FRESH
    {
      this.lossy := lossy;
      buffer, event, dataLines, dataBytes, overflow := [], None, [], 0, false;
    }

    function Building(): Pending
      reads this
    {
      Pending(event, dataLines, dataBytes)
    }

    function State(): Decoder
      reads this
    {
      Decoder(buffer, Building(), overflow)
    }

    method DispatchPending(events0: seq<SseEvent>) returns (events: seq<SseEvent>)
      modifies this`event, this`dataLines, this`dataBytes
      ensures var (p, out) := Dispatch(old(Building())); Building() == p && events == events0 + out
    {
      if dataLines == [] {
        event := None;
        return events0;
      }
      events := events0 + [SseEvent(event, Join(dataLines))];
      event, dataLines, dataBytes := None, [], 0;
    }

    method TakeLine(line: Text, events0: seq<SseEvent>) returns (events: seq<SseEvent>)
      modifies this`event, this`dataLines, this`dataBytes
      ensures var (p, out) := ProcessLine(old(Building()), line); Building() == p && events == events0 + out
    {
      events := events0;
      if line == [] {
        events := DispatchPending(events0);
      } else if line[0] == COLON {
        // A comment or keepalive.
      } else if StartsWith(line, DATA) {
        var value := StripSpace(line[|DATA|..]);
        dataBytes := dataBytes + |value|;
        dataLines := dataLines + [value];
      } else if StartsWith(line, EVENT) {
        event := Some(StripSpace(line[|EVENT|..]));
      }
    }

    /** Feeds one network chunk and returns the events it completed. */
    method Push(bytes: Text) returns (r: Pushed)
      modifies this
      ensures (State(), r) == PushBytes(lossy, old(State()), bytes)
    {
      if overflow || |buffer| + |bytes| > MAX_EVENT_BYTES {
        overflow := true;
        return TooLarge;
      }
      buffer := buffer + bytes;
      ghost var (end, result) := Drain(lossy, Building(), buffer);
      var events: seq<SseEvent> := [];
      AfterAfter([], [], result);
      var position := FirstLf(buffer);
      while position < |buffer|
        invariant position == FirstLf(buffer) && !overflow
        invariant var (d, rest) := Drain(lossy, Building(), buffer); end == d && result == After(events, rest)
        decreases |buffer|
      {
        var line := buffer[..position];
        buffer := buffer[position + 1..];
        if line != [] && line[|line| - 1] == CR { line := line[..|line| - 1]; }
        ghost var before, out := events, ProcessLine(Building(), lossy(line)).1;
        events := TakeLine(lossy(line), events);
        if dataBytes > MAX_EVENT_BYTES {
          overflow := true;
          return TooLarge;
        }
        AfterAfter(before, out, Drain(lossy, Building(), buffer).1);
        position := FirstLf(buffer);
      }
      AfterAfter(events, [], Ok([]));
      return Ok(events);
    }

    method Finish() returns (r: Pushed)
      modifies this
      ensures (State(), r) == FinishStream(lossy, old(State()))
    {
      if overflow { return TooLarge; }
      var events: seq<SseEvent> := [];
      ghost var (p, out) := if buffer == [] then (Building(), []) else ProcessLine(Building(), lossy(buffer));
      if buffer != [] {
        var line := lossy(buffer);
        buffer := [];
        events := TakeLine(line, events);
      }
      assert events == out;
      events := DispatchPending(events);
      return Ok(events);
    }
  }
}

/** The decoder against a definition on the whole byte string. */
module SseTheorems {
  import opened Options
  import opened Sse

  /** The complete lines of a byte string, without their LF. */
  function Lines(b: Text): seq<Text>
    decreases |b|
  {
    var n := FirstLf(b);
    if n == |b| then [] else [b[..n]] + Lines(b[n + 1..])
  }

  /** What follows the last LF. */
  function Tail(b: Text): Text
    decreases |b|
  {
    var n := FirstLf(b);
    if n == |b| then b else Tail(b[n + 1..])
  }

  function FeedAll(lossy: Text -> Text, p: Pending, lines: seq<Text>): (Pending, seq<SseEvent>)
    decreases |lines|
  {
    if lines == [] then (p, [])
    else
      var (p', events) := Feed(lossy, p, lines[0]);
      var (q, more) := FeedAll(lossy, p', lines[1..]);
      (q, events + more)
  }

  /** No line makes the pending data too large. */
  predicate Fits(lossy: Text -> Text, p: Pending, lines: seq<Text>)
    decreases |lines|
  {
    lines == []
    || (Feed(lossy, p, lines[0]).0.dataBytes <= MAX_EVENT_BYTES && Fits(lossy, Feed(lossy, p, lines[0]).0, lines[1..]))
  }

  /** Draining is splitting into lines and feeding them. */
  lemma {:induction false} DrainMeans(lossy: Text -> Text, p: Pending, b: Text)
    ensures Drain(lossy, p, b).1.Ok? <==> Fits(lossy, p, Lines(b))
    ensures Fits(lossy, p, Lines(b)) ==>
      var (q, events) := FeedAll(lossy, p, Lines(b));
      Drain(lossy, p, b) == (Decoder(Tail(b), q, false), Ok(events))
    ensures !Fits(lossy, p, Lines(b)) ==> Drain(lossy, p, b).0.overflow
    decreases |b|
  {
    var n := FirstLf(b);
    if n < |b| {
      var lines := Lines(b);
      assert lines[0] == b[..n] && lines[1..] == Lines(b[n + 1..]);
      DrainMeans(lossy, Feed(lossy, p, b[..n]).0, b[n + 1..]);
    }
  }

  lemma FirstLfExtends(a: Text, b: Text)
    ensures FirstLf(a) < |a| ==> FirstLf(a + b) == FirstLf(a)
  {
    assert forall i :: 0 <= i < |a| ==> (a + b)[i] == a[i];
  }

  lemma {:induction false} LinesConcat(a: Text, b: Text)
    ensures Lines(a + b) == Lines(a) + Lines(Tail(a) + b)
    ensures Tail(a + b) == Tail(Tail(a) + b)
    decreases |a|
  {
    var n := FirstLf(a);
    if n < |a| {
      FirstLfExtends(a, b);
      assert (a + b)[..n] == a[..n];
      assert (a + b)[n + 1..] == a[n + 1..] + b;
      LinesConcat(a[n + 1..], b);
    }
  }

  lemma {:induction false} FeedConcat(lossy: Text -> Text, p: Pending, a: seq<Text>, b: seq<Text>)
    ensures var (q, events) := FeedAll(lossy, p, a);
            var (r, more) := FeedAll(lossy, q, b);
            FeedAll(lossy, p, a + b) == (r, events + more)
    ensures Fits(lossy, p, a + b) <==> Fits(lossy, p, a) && Fits(lossy, FeedAll(lossy, p, a).0, b)
    decreases |a|
  {
    hide Feed;
    if a == [] {
      assert a + b == b;
      var more := FeedAll(lossy, p, b).1;
      assert [] + more == more;
    } else {
      assert (a + b)[0] == a[0] && (a + b)[1..] == a[1..] + b;
      var p' := Feed(lossy, p, a[0]).0;
      FeedConcat(lossy, p', a[1..], b);
      var first, events := Feed(lossy, p, a[0]).1, FeedAll(lossy, p', a[1..]).1;
      var more := FeedAll(lossy, FeedAll(lossy, p', a[1..]).0, b).1;
      assert first + (events + more) == (first + events) + more;
    }
  }

  lemma {:induction false} TailHasNoLf(b: Text)
    ensures FirstLf(Tail(b)) == |Tail(b)|
    decreases |b|
  {
    if FirstLf(b) < |b| { TailHasNoLf(b[FirstLf(b) + 1..]); }
  }

  function Sum(lines: seq<Text>): nat {
    if lines == [] then 0 else Sum(lines[..|lines| - 1]) + |lines[|lines| - 1]|
  }

  /** What a healthy decoder looks like between chunks. */
  predicate Sound(d: Decoder) {
    && d.pending.dataBytes == Sum(d.pending.dataLines)
    && (!d.overflow ==> FirstLf(d.buffer) == |d.buffer| && d.pending.dataBytes <= MAX_EVENT_BYTES)
  }

  lemma FeedKeepsSum(lossy: Text -> Text, p: Pending, raw: Text)
    requires p.dataBytes == Sum(p.dataLines)
    ensures var q := Feed(lossy, p, raw).0; q.dataBytes == Sum(q.dataLines)
  {
    var line := lossy(TrimCr(raw));
    if line != [] && line[0] != COLON && StartsWith(line, DATA) {
      var q := Feed(lossy, p, raw).0;
      assert q.dataLines[..|q.dataLines| - 1] == p.dataLines;
    }
  }

  lemma {:induction false} DrainKeepsSound(lossy: Text -> Text, p: Pending, b: Text)
    requires p.dataBytes == Sum(p.dataLines) && p.dataBytes <= MAX_EVENT_BYTES
    ensures Sound(Drain(lossy, p, b).0)
    decreases |b|
  {
    var n := FirstLf(b);
    if n < |b| {
      FeedKeepsSum(lossy, p, b[..n]);
      var q := Feed(lossy, p, b[..n]).0;
      if q.dataBytes <= MAX_EVENT_BYTES { DrainKeepsSound(lossy, q, b[n + 1..]); }
    }
  }

  /** Between chunks the buffer holds no LF, the byte count is exact, and an overflow is never forgotten. */
  lemma PushKeepsSound(lossy: Text -> Text, d: Decoder, bytes: Text)
    requires Sound(d)
    ensures Sound(PushBytes(lossy, d, bytes).0)
    ensures d.overflow ==> PushBytes(lossy, d, bytes).0.overflow && PushBytes(lossy, d, bytes).1.TooLarge?
    ensures PushBytes(lossy, d, bytes).0.overflow <==> PushBytes(lossy, d, bytes).1.TooLarge?
  {
    if !d.overflow {
      DrainKeepsSound(lossy, d.pending, d.buffer + bytes);
      DrainMeans(lossy, d.pending, d.buffer + bytes);
    }
  }

  // --- chunking -------------------------------------------------------------------------

  /** Pushes the chunks in order; the first refusal ends it. */
  function PushAll(lossy: Text -> Text, d: Decoder, chunks: seq<Text>): (Decoder, Pushed)
    decreases |chunks|
  {
    if chunks == [] then (d, Ok([]))
    else
      var (d', r) := PushBytes(lossy, d, chunks[0]);
      if r.TooLarge? then (d', TooLarge)
      else
        var (e, rest) := PushAll(lossy, d', chunks[1..]);
        (e, After(r.events, rest))
  }

  function Flatten(chunks: seq<Text>): Text {
    if chunks == [] then [] else chunks[0] + Flatten(chunks[1..])
  }

  /** A byte string decoded at once, with no size limit. */
  function Decode(lossy: Text -> Text, p: Pending, bytes: Text): (Decoder, seq<SseEvent>) {
    var (q, events) := FeedAll(lossy, p, Lines(bytes));
    (Decoder(Tail(bytes), q, false), events)
  }

  /** What has been pushed so far ends in an unfinished line. */
  predicate Between(d: Decoder) {
    !d.overflow && LF !in d.buffer
  }

  lemma NoLfMeans(s: Text)
    ensures LF !in s <==> FirstLf(s) == |s|
    ensures LF !in s ==> Lines(s) == [] && Tail(s) == s
  {
  }

  lemma PushIsDecode(lossy: Text -> Text, d: Decoder, bytes: Text)
    requires PushBytes(lossy, d, bytes).1.Ok?
    ensures var (e, events) := Decode(lossy, d.pending, d.buffer + bytes);
            PushBytes(lossy, d, bytes) == (e, Ok(events)) && Between(e)
  {
    DrainMeans(lossy, d.pending, d.buffer + bytes);
    TailHasNoLf(d.buffer + bytes);
    NoLfMeans(Tail(d.buffer + bytes));
  }

  /** However the bytes are cut, an accepted stream gives the events and the state of the whole string. */
  lemma {:induction false} ChunkingIsInvisible(lossy: Text -> Text, d: Decoder, chunks: seq<Text>)
    requires Between(d) && PushAll(lossy, d, chunks).1.Ok?
    ensures var (e, events) := Decode(lossy, d.pending, d.buffer + Flatten(chunks));
            PushAll(lossy, d, chunks) == (e, Ok(events)) && Between(e)
    decreases |chunks|
  {
    if chunks == [] {
      assert d.buffer + [] == d.buffer;
      NoLfMeans(d.buffer);
    } else {
      var a, rest := chunks[0], Flatten(chunks[1..]);
      var first := d.buffer + a;
      PushIsDecode(lossy, d, a);
      var d' := PushBytes(lossy, d, a).0;
      ChunkingIsInvisible(lossy, d', chunks[1..]);
      assert d.buffer + Flatten(chunks) == first + rest;
      LinesConcat(first, rest);
      FeedConcat(lossy, d.pending, Lines(first), Lines(Tail(first) + rest));
    }
  }

  /** So does the flush at the end, and therefore any two accepted cuts of the same bytes agree. */
  lemma AcceptedCutsAgree(lossy: Text -> Text, chunks: seq<Text>, chunks': seq<Text>)
    requires Flatten(chunks) == Flatten(chunks')
    requires PushAll(lossy, FRESH, chunks).1.Ok? && PushAll(lossy, FRESH, chunks').1.Ok?
    ensures PushAll(lossy, FRESH, chunks) == PushAll(lossy, FRESH, chunks')
    ensures FinishStream(lossy, PushAll(lossy, FRESH, chunks).0)
         == FinishStream(lossy, PushAll(lossy, FRESH, chunks').0)
  {
    ChunkingIsInvisible(lossy, FRESH, chunks);
    ChunkingIsInvisible(lossy, FRESH, chunks');
  }

  /** Exactly when one chunk is accepted in one piece: both halves are, and buffer and chunk fit the limit together. */
  lemma MergesExactly(lossy: Text -> Text, d: Decoder, a: Text, b: Text)
    requires !d.overflow
    ensures var (d1, r1) := PushBytes(lossy, d, a);
            var (d2, r2) := PushBytes(lossy, d1, b);
      && (PushBytes(lossy, d, a + b).1.Ok? <==> r1.Ok? && r2.Ok? && |d.buffer| + |a| + |b| <= MAX_EVENT_BYTES)
      && (PushBytes(lossy, d, a + b).1.Ok? ==> PushBytes(lossy, d, a + b) == (d2, Ok(r1.events + r2.events)))
  {
    var (d1, r1) := PushBytes(lossy, d, a);
    var start := d.buffer + a;
    assert d.buffer + (a + b) == start + b;
    DrainMeans(lossy, d.pending, start);
    DrainMeans(lossy, d.pending, start + b);
    LinesConcat(start, b);
    FeedConcat(lossy, d.pending, Lines(start), Lines(Tail(start) + b));
    TailShorter(start);
    DrainMeans(lossy, FeedAll(lossy, d.pending, Lines(start)).0, Tail(start) + b);
  }

  lemma {:induction false} TailShorter(b: Text)
    ensures |Tail(b)| <= |b|
    decreases |b|
  {
    if FirstLf(b) < |b| { TailShorter(b[FirstLf(b) + 1..]); }
  }

  /** Bytes accepted in one piece are accepted however they are cut, with the same events and the same state. */
  lemma {:induction false} EveryCutIsAccepted(lossy: Text -> Text, d: Decoder, chunks: seq<Text>)
    requires Between(d) && PushBytes(lossy, d, Flatten(chunks)).1.Ok?
    ensures PushAll(lossy, d, chunks) == PushBytes(lossy, d, Flatten(chunks))
    decreases |chunks|
  {
    if chunks == [] {
      PushIsDecode(lossy, d, []);
      assert d.buffer + [] == d.buffer;
      NoLfMeans(d.buffer);
    } else {
      var a, rest := chunks[0], Flatten(chunks[1..]);
      MergesExactly(lossy, d, a, rest);
      PushIsDecode(lossy, d, a);
      EveryCutIsAccepted(lossy, PushBytes(lossy, d, a).0, chunks[1..]);
    }
  }

  // --- round trip ---------------------------------------------------------------------------

  /** One line of a stream: a data or name field with or without the optional space, a comment, or another field. */
  datatype Field = Data(value: Text) | Name(value: Text) | Comment(text: Text) | Unknown(text: Text)
  datatype Line = Line(field: Field, spaced: bool, crlf: bool)

  /** Lines up to the blank line that ends them. */
  datatype Frame = Frame(lines: seq<Line>, crlf: bool)

  function Content(l: Line): Text {
    var gap: Text := if l.spaced then [SPACE] else [];
    match l.field
    case Data(value) => DATA + gap + value
    case Name(value) => EVENT + gap + value
    case Comment(text) => [COLON] + text
    case Unknown(text) => text
  }

  function Ending(crlf: bool): Text {
    if crlf then [CR] else []
  }

  /** A line that can be told from any other, and is already valid text. */
  predicate Legible(lossy: Text -> Text, l: Line) {
    && LF !in Content(l) && lossy(Content(l)) == Content(l) && Content(l) != []
    && (!l.crlf ==> Content(l)[|Content(l)| - 1] != CR)
    && (!l.spaced && (l.field.Data? || l.field.Name?) && l.field.value != [] ==> l.field.value[0] != SPACE)
    && (l.field.Unknown? ==>
          l.field.text[0] != COLON && !StartsWith(l.field.text, DATA) && !StartsWith(l.field.text, EVENT))
  }

  predicate Printable(lossy: Text -> Text, f: Frame) {
    lossy([]) == [] && forall l :: l in f.lines ==> Legible(lossy, l)
  }

  function PrintLines(lines: seq<Line>): Text {
    if lines == [] then [] else Content(lines[0]) + Ending(lines[0].crlf) + [LF] + PrintLines(lines[1..])
  }

  function Print(f: Frame): Text {
    PrintLines(f.lines) + Ending(f.crlf) + [LF]
  }

  function PrintAll(fs: seq<Frame>): Text {
    if fs == [] then [] else Print(fs[0]) + PrintAll(fs[1..])
  }

  /** The data of the lines, in order. */
  function ValuesIn(lines: seq<Line>): seq<Text> {
    if lines == [] then []
    else (if lines[0].field.Data? then [lines[0].field.value] else []) + ValuesIn(lines[1..])
  }

  /** The last name the lines give, or one from before. */
  function NameIn(before: Option<Text>, lines: seq<Line>): Option<Text>
    decreases |lines|
  {
    if lines == [] then before
    else NameIn(if lines[0].field.Name? then Some(lines[0].field.value) else before, lines[1..])
  }

  /** A frame without data is no event. */
  function EventsOf(fs: seq<Frame>): seq<SseEvent> {
    if fs == [] then []
    else
      var values := ValuesIn(fs[0].lines);
      (if values == [] then [] else [SseEvent(NameIn(None, fs[0].lines), Join(values))]) + EventsOf(fs[1..])
  }

  /** Decoding one terminated line is feeding it and decoding the rest. */
  lemma DecodeLine(lossy: Text -> Text, p: Pending, line: Text, rest: Text)
    requires LF !in line
    ensures var (q, out) := Feed(lossy, p, line);
            var (d, events) := Decode(lossy, q, rest);
            Decode(lossy, p, line + [LF] + rest) == (d, out + events)
  {
    var b := line + [LF] + rest;
    assert b[|line|] == LF && b[..|line|] == line && b[|line| + 1..] == rest;
    assert FirstLf(b) == |line| by { assert forall i :: 0 <= i < |line| ==> b[i] == line[i] && line[i] in line; }
    var lines := [line] + Lines(rest);
    assert Lines(b) == lines && lines[0] == line && lines[1..] == Lines(rest);
  }

  /** What a line adds to the pending event. */
  function Added(p: Pending, l: Line): Pending {
    match l.field
    case Data(value) => p.(dataBytes := p.dataBytes + |value|, dataLines := p.dataLines + [value])
    case Name(value) => p.(event := Some(value))
    case _ => p
  }

  lemma FeedData(lossy: Text -> Text, p: Pending, l: Line)
    requires Legible(lossy, l) && l.field.Data?
    ensures ProcessLine(p, Content(l)) == (Added(p, l), [])
  {
    var line, value := Content(l), l.field.value;
    assert line[..|DATA|] == DATA && line[0] == DATA[0];
    assert line[|DATA|..] == (if l.spaced then [SPACE] else []) + value;
    assert StripSpace(line[|DATA|..]) == value;
  }

  lemma FeedName(lossy: Text -> Text, p: Pending, l: Line)
    requires Legible(lossy, l) && l.field.Name?
    ensures ProcessLine(p, Content(l)) == (Added(p, l), [])
  {
    var line, value := Content(l), l.field.value;
    assert line[..|EVENT|] == EVENT && line[0] == EVENT[0];
    assert line[..|DATA|][0] == EVENT[0];
    assert line[|EVENT|..] == (if l.spaced then [SPACE] else []) + value;
    assert StripSpace(line[|EVENT|..]) == value;
  }

  lemma FeedLine(lossy: Text -> Text, p: Pending, l: Line)
    requires Legible(lossy, l)
    ensures Feed(lossy, p, Content(l) + Ending(l.crlf)) == (Added(p, l), [])
  {
    var line := Content(l);
    assert TrimCr(line + Ending(l.crlf)) == line by {
      if l.crlf { assert (line + [CR])[..|line|] == line; } else { assert line + [] == line; }
    }
    if l.field.Data? {
      FeedData(lossy, p, l);
    } else if l.field.Name? {
      FeedName(lossy, p, l);
    } else {
      assert line[0] == if l.field.Comment? then COLON else l.field.text[0];
    }
  }

  /** The pending event after its lines. */
  function Gathered(p: Pending, lines: seq<Line>): Pending
    decreases |lines|
  {
    if lines == [] then p else Gathered(Added(p, lines[0]), lines[1..])
  }

  lemma {:induction false} GatheredMeans(p: Pending, lines: seq<Line>)
    ensures var q := Gathered(p, lines);
      && q.dataLines == p.dataLines + ValuesIn(lines) && q.event == NameIn(p.event, lines)
      && (ValuesIn(lines) == [] ==> q.dataBytes == p.dataBytes)
    decreases |lines|
  {
    if lines == [] {
      assert p.dataLines + [] == p.dataLines;
    } else {
      var l := lines[0];
      GatheredMeans(Added(p, l), lines[1..]);
      var here: seq<Text> := if l.field.Data? then [l.field.value] else [];
      assert (p.dataLines + here) + ValuesIn(lines[1..]) == p.dataLines + (here + ValuesIn(lines[1..]));
      assert p.dataLines + [] == p.dataLines;
    }
  }

  lemma {:induction false} DecodeLines(lossy: Text -> Text, p: Pending, lines: seq<Line>, rest: Text)
    requires forall l :: l in lines ==> Legible(lossy, l)
    ensures Decode(lossy, p, PrintLines(lines) + rest) == Decode(lossy, Gathered(p, lines), rest)
    decreases |lines|
  {
    if lines == [] {
      assert PrintLines(lines) + rest == rest;
    } else {
      var l, more := lines[0], PrintLines(lines[1..]) + rest;
      assert PrintLines(lines) + rest == (Content(l) + Ending(l.crlf)) + [LF] + more;
      hide Decode, Feed, Content, PrintLines;
      FeedLine(lossy, p, l);
      DecodeLine(lossy, p, Content(l) + Ending(l.crlf), more);
      NothingBefore(Decode(lossy, Added(p, l), more));
      DecodeLines(lossy, Added(p, l), lines[1..], rest);
    }
  }

  lemma NothingBefore(x: (Decoder, seq<SseEvent>))
    ensures (x.0, [] + x.1) == x
  {
    assert [] + x.1 == x.1;
  }

  lemma OneFrame(f: Frame)
    ensures var values := ValuesIn(f.lines);
      EventsOf([f]) == if values == [] then [] else [SseEvent(NameIn(None, f.lines), Join(values))]
  {
    var values, none: seq<SseEvent> := ValuesIn(f.lines), [];
    var here := if values == [] then [] else [SseEvent(NameIn(None, f.lines), Join(values))];
    assert EventsOf([f]) == here + none;
  }

  /** One printed frame decodes to its event, if it has data, and leaves nothing pending. */
  lemma DecodeFrame(lossy: Text -> Text, f: Frame, rest: Text)
    requires Printable(lossy, f)
    ensures var (d, events) := Decode(lossy, NOTHING, rest);
            Decode(lossy, NOTHING, Print(f) + rest) == (d, EventsOf([f]) + events)
  {
    hide *;
    var built, blank := Gathered(NOTHING, f.lines), Ending(f.crlf) + [LF] + rest;
    BlankLine(lossy, f);
    PrintedThen(lossy, f, rest);
    DecodeLines(lossy, NOTHING, f.lines, blank);
    DecodeLine(lossy, built, Ending(f.crlf), rest);
  }

  /** The blank line dispatches what the frame's lines have gathered. */
  lemma BlankLine(lossy: Text -> Text, f: Frame)
    requires Printable(lossy, f)
    ensures Feed(lossy, Gathered(NOTHING, f.lines), Ending(f.crlf)) == (NOTHING, EventsOf([f]))
    ensures LF !in Ending(f.crlf)
  {
    assert TrimCr(Ending(f.crlf)) == [];
    GatheredMeans(NOTHING, f.lines);
    assert [] + ValuesIn(f.lines) == ValuesIn(f.lines);
    OneFrame(f);
    hide Gathered, ValuesIn, NameIn, EventsOf, Join;
  }

  lemma PrintedThen(lossy: Text -> Text, f: Frame, rest: Text)
    requires Printable(lossy, f)
    ensures Print(f) + rest == PrintLines(f.lines) + (Ending(f.crlf) + [LF] + rest)
    ensures forall l :: l in f.lines ==> Legible(lossy, l)
  {
    hide PrintLines, Ending, Legible;
  }

  /**
   * Printing frames and decoding the bytes gives their events back, with nothing left over: whatever the line endings,
   * with or without the optional space, comments and other fields in between, and frames without data dropped.
   */
  lemma {:induction false} RoundTrip(lossy: Text -> Text, fs: seq<Frame>)
    requires forall f :: f in fs ==> Printable(lossy, f)
    ensures Decode(lossy, NOTHING, PrintAll(fs)) == (FRESH, EventsOf(fs))
  {
    if fs != [] {
      RoundTrip(lossy, fs[1..]);
      DecodeFrame(lossy, fs[0], PrintAll(fs[1..]));
      OneFrame(fs[0]);
    }
  }

  /** The data of an event is its lines, each but the last followed by LF: splitting it gives the lines back. */
  lemma {:induction false} JoinSplits(lines: seq<Text>)
    requires lines != [] && forall l :: l in lines ==> LF !in l
    ensures Lines(Join(lines) + [LF]) == lines
  {
    var first, rest := lines[0], lines[1..];
    assert lines == [first] + rest && first in lines;
    var after := if rest == [] then [] else Join(rest) + [LF];
    var all := Join(lines) + [LF];
    assert all == first + [LF] + after;
    assert all[|first|] == LF && all[..|first|] == first && all[|first| + 1..] == after;
    assert forall i :: 0 <= i < |first| ==> all[i] == first[i] && first[i] in first;
    assert FirstLf(all) == |first|;
    if rest != [] {
      JoinSplits(rest);
    } else {
      assert Lines(after) == [];
    }
  }

  /** Flushing is what two line ends would have done, unless the unfinished line ends in CR, which the flush keeps. */
  lemma FlushEndsTheLine(lossy: Text -> Text, d: Decoder)
    requires Between(d) && lossy([]) == [] && (d.buffer != [] ==> d.buffer[|d.buffer| - 1] != CR)
    ensures FinishStream(lossy, d).1 == Ok(Decode(lossy, d.pending, d.buffer + [LF, LF]).1)
  {
    hide *;
    var none: Text := [];
    FeedFlushed(lossy, d);
    NoLf(d);
    assert d.buffer + [LF, LF] == d.buffer + [LF] + (none + [LF] + none);
    var q := Feed(lossy, d.pending, d.buffer).0;
    DecodeLine(lossy, d.pending, d.buffer, none + [LF] + none);
    DecodeLine(lossy, q, none, none);
    DecodesToNothing(lossy, Feed(lossy, q, none).0);
    NothingAfter(Feed(lossy, d.pending, d.buffer).1, Feed(lossy, q, none).1);
  }

  lemma NoLf(d: Decoder)
    requires Between(d)
    ensures LF !in d.buffer
  {
  }

  lemma DecodesToNothing(lossy: Text -> Text, p: Pending)
    ensures Decode(lossy, p, []).1 == []
  {
  }

  lemma NothingAfter(a: seq<SseEvent>, b: seq<SseEvent>)
    ensures a + (b + []) == a + b
  {
  }

  /** The flush feeds the unfinished line and a blank one. */
  lemma FeedFlushed(lossy: Text -> Text, d: Decoder)
    requires Between(d) && lossy([]) == [] && (d.buffer != [] ==> d.buffer[|d.buffer| - 1] != CR)
    ensures var (q, first) := Feed(lossy, d.pending, d.buffer);
      FinishStream(lossy, d).1 == Ok(first + Feed(lossy, q, []).1)
  {
    assert TrimCr(d.buffer) == d.buffer;
    hide ProcessLine, Dispatch;
    DispatchedTwice(d.pending);
    DispatchedTwice(Feed(lossy, d.pending, d.buffer).0);
    var out := Dispatch(d.pending).1;
    assert [] + out == out + [];
  }

  lemma DispatchedTwice(p: Pending)
    ensures var (q, out) := Dispatch(p); Dispatch(q).1 == []
    ensures ProcessLine(p, []) == Dispatch(p)
  {
  }
}

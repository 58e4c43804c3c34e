/** What is recorded, and what the client is told, when a stream breaks off, outgrows the limit, or is abandoned. */
module StreamEndings {
  import opened Sse
  import opened SseTheorems
  import opened StreamPumps
  import opened StreamPumpTheorems

  /** What the events of these chunks say about the stream. */
  function JudgedBy(w: Wire, chunks: seq<Text>): Judged {
    var r := PushAll(w.lossy, FRESH, chunks).1;
    if r.Ok? then JudgeAll(w, Going(0, false), r.events) else Broken(ProtocolError)
  }

  /** Chunks that the decoder accepts and whose events leave the verdict open. */
  predicate Undecided(w: Wire, chunks: seq<Text>) {
    PushAll(w.lossy, FRESH, chunks).1.Ok? && !Decided(JudgedBy(w, chunks))
  }

  /** The pump goes on, having forwarded the chunks seen and judged what they decoded to. */
  ghost predicate Open(p: Pump, j: Judged, seen: seq<Text>) {
    Pumping(p, seen) && seen != [] && Follows(p, j) && !j.stop
  }

  lemma DecidedStays(w: Wire, j: Judged, events: seq<SseEvent>)
    requires Decided(j)
    ensures Decided(JudgeAll(w, j, events))
  {
    if j.Broken? { BrokenStays(w, j, events); } else { ToolsGrow(w, j, events); }
  }

  lemma OpenIsClean(p: Pump, j: Judged, seen: seq<Text>)
    requires Open(p, j, seen)
    ensures !p.over && !p.finished && p.verdicts == [] && NoFrames(p.out) && |WithoutPings(p.out)| == |seen|
  {
  }

  /** A ping for every tick, if the client wants pings. */
  function Pings(c: Client, items: seq<Item>): nat {
    if items == [] then 0 else (if c.pings && items[0].Tick? then 1 else 0) + Pings(c, items[1..])
  }

  lemma ChunkEmitsItself(w: Wire, c: Client, p: Pump, j: Judged, bytes: Text, first: bool)
    requires Stays(c) && Follows(p, j) && !j.stop && !p.over && !p.finished && p.verdicts == []
    requires PushBytes(w.lossy, p.decoder, bytes).1.Ok?
    requires !Decided(JudgeAll(w, j, PushBytes(w.lossy, p.decoder, bytes).1.events))
    ensures TakeChunk(w, c, p, bytes, first).out == p.out + [Upstream(bytes)]
  {
    hide PushBytes, ProcessEvents, JudgeAll;
    var (e, r) := PushBytes(w.lossy, p.decoder, bytes);
    var sent := Emit(c, p.(decoder := e, committed := true), Upstream(bytes));
    ProcessFollows(w, sent, j, r.events);
    ProcessKeeps(w, sent, r.events);
  }

  /** One item of a calm, undecided stretch. */
  lemma CalmStep(w: Wire, c: Client, p: Pump, j: Judged, seen: seq<Text>, item: Item)
    requires Stays(c) && Open(p, j, seen) && (item.Chunk? || item.Tick?)
    requires var r := PushAll(w.lossy, p.decoder, Forwardable([item])).1; r.Ok? && !Decided(JudgeAll(w, j, r.events))
    ensures var q, r := Take(w, c, p, item), PushAll(w.lossy, p.decoder, Forwardable([item]));
      && Open(q, JudgeAll(w, j, r.1.events), seen + Forwardable([item])) && q.decoder == r.0
      && |q.out| == |p.out| + |Forwardable([item])| + Pings(c, [item])
  {
    hide PushBytes, TakeChunk, Pumping, WithoutPings, JudgeEvent;
    OpenIsClean(p, j, seen);
    TakeKeeps(w, c, p, seen, item);
    assert Forwardable([item]) == if item.Chunk? && item.bytes != [] then [item.bytes] else [];
    if item.Chunk? && item.bytes != [] {
      var (e, r) := PushBytes(w.lossy, p.decoder, item.bytes);
      assert [item.bytes][1..] == [];
      if r.Ok? { assert r.events + [] == r.events; }
      ChunkFollows(w, c, p, j, item.bytes, false);
      ChunkEmitsItself(w, c, p, j, item.bytes, false);
    }
  }

  /** An undecided stretch is undecided after its first item, and from there on. */
  lemma FirstOfStretch(w: Wire, d: Decoder, j: Judged, items: seq<Item>)
    requires items != []
    requires var r := PushAll(w.lossy, d, Forwardable(items)).1; r.Ok? && !Decided(JudgeAll(w, j, r.events))
    ensures var (e, r) := PushAll(w.lossy, d, Forwardable([items[0]]));
            var (f, s) := PushAll(w.lossy, e, Forwardable(items[1..]));
      && r.Ok? && !Decided(JudgeAll(w, j, r.events)) && s.Ok? && f == PushAll(w.lossy, d, Forwardable(items)).0
      && JudgeAll(w, JudgeAll(w, j, r.events), s.events)
           == JudgeAll(w, j, PushAll(w.lossy, d, Forwardable(items)).1.events)
    ensures Forwardable(items) == Forwardable([items[0]]) + Forwardable(items[1..])
  {
    hide PushAll, JudgeAll, Decided, Forwardable;
    ForwardFirst(items);
    PushAllConcat(w, d, Forwardable([items[0]]), Forwardable(items[1..]));
    var (e, r) := PushAll(w.lossy, d, Forwardable([items[0]]));
    var s := PushAll(w.lossy, e, Forwardable(items[1..])).1;
    JudgeConcat(w, j, r.events, s.events);
    var k := JudgeAll(w, j, r.events);
    if Decided(k) { DecidedStays(w, k, s.events); }
  }

  lemma DrainedFirst(w: Wire, c: Client, p: Pump, items: seq<Item>)
    requires !p.over && items != []
    ensures Drained(w, c, p, items) == Drained(w, c, Take(w, c, p, items[0]), items[1..])
  {
    hide Take, AtEof;
  }

  lemma NoStretch(w: Wire, d: Decoder, j: Judged)
    ensures Forwardable([]) == [] && PushAll(w.lossy, d, []) == (d, Ok([])) && JudgeAll(w, j, []) == j
    ensures forall c :: Pings(c, []) == 0
  {
  }

  lemma PingsFirst(c: Client, items: seq<Item>)
    requires items != []
    ensures Pings(c, items) == Pings(c, [items[0]]) + Pings(c, items[1..])
  {
  }

  /** After a calm stretch that decides nothing the pump is as far as the chunks in it. */
  lemma {:induction false} CalmStretch(w: Wire, c: Client, p: Pump, j: Judged, seen: seq<Text>, before: seq<Item>,
                                       rest: seq<Item>) returns (q: Pump)
    requires Stays(c) && (forall x :: x in before ==> x.Chunk? || x.Tick?) && Open(p, j, seen)
    requires var r := PushAll(w.lossy, p.decoder, Forwardable(before)).1;
      r.Ok? && !Decided(JudgeAll(w, j, r.events))
    ensures var r := PushAll(w.lossy, p.decoder, Forwardable(before));
      && Open(q, JudgeAll(w, j, r.1.events), seen + Forwardable(before)) && q.decoder == r.0
      && Drained(w, c, p, before + rest) == Drained(w, c, q, rest)
      && |q.out| == |p.out| + |Forwardable(before)| + Pings(c, before)
    decreases |before|
  {
    hide *;
    if before == [] {
      assert before + rest == rest && seen + [] == seen;
      NoStretch(w, p.decoder, j);
      q := p;
    } else {
      var item, more := before[0], before[1..];
      assert (before + rest)[0] == item && (before + rest)[1..] == more + rest;
      FirstOfStretch(w, p.decoder, j, before);
      var r := PushAll(w.lossy, p.decoder, Forwardable([item])).1;
      CalmStep(w, c, p, j, seen, item);
      OpenIsClean(p, j, seen);
      DrainedFirst(w, c, p, before + rest);
      PingsFirst(c, before);
      q := CalmStretch(w, c, Take(w, c, p, item), JudgeAll(w, j, r.events), seen + Forwardable([item]), more, rest);
      assert (seen + Forwardable([item])) + Forwardable(more) == seen + Forwardable(before);
    }
  }

  lemma ForwardFirst(items: seq<Item>)
    requires items != []
    ensures Forwardable(items) == Forwardable([items[0]]) + Forwardable(items[1..])
  {
  }

  lemma {:induction false} PushAllConcat(w: Wire, d: Decoder, a: seq<Text>, b: seq<Text>)
    ensures var (e, r) := PushAll(w.lossy, d, a); var (f, s) := PushAll(w.lossy, e, b);
            var all := PushAll(w.lossy, d, a + b);
      && (all.1.Ok? <==> r.Ok? && s.Ok?)
      && (all.1.Ok? ==> all.0 == f && all.1.events == r.events + s.events)
    decreases |a|
  {
    hide PushBytes;
    if a == [] {
      assert a + b == b;
      var s := PushAll(w.lossy, d, b).1;
      if s.Ok? { assert [] + s.events == s.events; }
    } else {
      assert (a + b)[0] == a[0] && (a + b)[1..] == a[1..] + b;
      PushAllConcat(w, PushBytes(w.lossy, d, a[0]).0, a[1..], b);
    }
  }

  /** From the first chunk to the end of a calm, undecided stretch. */
  lemma BodyStretch(w: Wire, c: Client, first: Text, before: seq<Item>, rest: seq<Item>) returns (q: Pump)
    requires Stays(c) && Calm(before) && Undecided(w, [first] + Forwardable(before))
    ensures var chunks := [first] + Forwardable(before);
            var r := PushAll(w.lossy, FRESH, chunks);
      && Open(q, JudgedBy(w, chunks), chunks) && q.decoder == r.0
      && |q.out| == |chunks| + Pings(c, before)
      && Body(w, c, first, before + rest) == Drained(w, c, q, rest)
  {
    hide PushBytes, TakeChunk, JudgeEvent, Pumping, Drained;
    var chunks, more := [first] + Forwardable(before), Forwardable(before);
    assert chunks[0] == first && chunks[1..] == more;
    var (d, r) := PushBytes(w.lossy, FRESH, first);
    var s := PushAll(w.lossy, d, more).1;
    var k := JudgeAll(w, Going(0, false), r.events);
    JudgeConcat(w, Going(0, false), r.events, s.events);
    if Decided(k) { DecidedStays(w, k, s.events); }
    NothingYetPumped();
    ChunkFollows(w, c, START, Going(0, false), first, true);
    ChunkEmitsItself(w, c, START, Going(0, false), first, true);
    ChunkKeeps(w, c, START, [], first, true);
    assert [] + [first] == [first];
    q := CalmStretch(w, c, TakeChunk(w, c, START, first, true), k, [first], before, rest);
  }

  // --- how it ends -----------------------------------------------------------------------------

  /** The stream ends in this frame, after every chunk that was seen, so many pings, and nothing else. */
  predicate EndsIn(p: Pump, why: Why, chunks: seq<Text>, pings: nat) {
    && p.out != [] && p.out[|p.out| - 1] == ErrorFrame(why)
    && |WithoutPings(p.out)| == |chunks| + 1 && Shape(p.out, chunks) && |p.out| == |chunks| + 1 + pings
  }

  lemma FrameComesLast(c: Client, p: Pump, j: Judged, seen: seq<Text>, o: Outcome, why: Why)
    requires Stays(c) && Open(p, j, seen)
    ensures var q := Close(Emit(c, Finish(p, o), ErrorFrame(why)));
      q.verdicts == [o] && q.over && (|p.out| >= |seen| ==> EndsIn(q, why, seen, |p.out| - |seen|))
  {
    PieceOut(p.out, ErrorFrame(why));
    FrameFits(p.out, seen, why);
    hide WithoutPings, Shape;
  }

  /**
   * A broken transport is told as an interruption, whatever is left half-read, for a client that stays and a stream
   * that had decided nothing.
   */
  lemma BrokenTransport(w: Wire, c: Client, first: Text, before: seq<Item>, after: seq<Item>)
    requires Stays(c) && Calm(before) && Undecided(w, [first] + Forwardable(before))
    ensures var p, chunks := Body(w, c, first, before + [TransportError] + after), [first] + Forwardable(before);
      p.verdicts == [Failed(StreamInterrupted)] && EndsIn(p, Interrupted, chunks, Pings(c, before))
  {
    hide Body, AtEof, Open, EndsIn, Undecided;
    var chunks := [first] + Forwardable(before);
    var q := BodyStretch(w, c, first, before, [TransportError] + after);
    var j := JudgedBy(w, chunks);
    OpenIsClean(q, j, chunks);
    FrameComesLast(c, q, j, chunks, Failed(StreamInterrupted), Interrupted);
    assert before + [TransportError] + after == before + ([TransportError] + after);
    assert ([TransportError] + after)[0] == TransportError;
    DrainedOver(w, c, Take(w, c, q, TransportError), ([TransportError] + after)[1..]);
  }

  /** A client that leaves meanwhile is recorded as such, and nothing more is written. */
  lemma AbandonedStream(w: Wire, c: Client, first: Text, before: seq<Item>, after: seq<Item>)
    requires Stays(c) && Calm(before) && Undecided(w, [first] + Forwardable(before))
    ensures var p := Body(w, c, first, before + [Gone] + after);
      && p.verdicts == [Failed(ClientDisconnected)] && NoFrames(p.out)
      && |WithoutPings(p.out)| == |[first] + Forwardable(before)| == |p.out| - Pings(c, before)
  {
    hide Body, AtEof, Open, Undecided;
    var chunks := [first] + Forwardable(before);
    var q := BodyStretch(w, c, first, before, [Gone] + after);
    OpenIsClean(q, JudgedBy(w, chunks), chunks);
    assert before + [Gone] + after == before + ([Gone] + after) && ([Gone] + after)[0] == Gone;
    DrainedOver(w, c, Take(w, c, q, Gone), ([Gone] + after)[1..]);
  }

  /** So is one that leaves as it is handed a chunk, whatever the chunk says. */
  lemma LeavesOverAChunk(w: Wire, c: Client, p: Pump, j: Judged, seen: seq<Text>, bytes: Text, rest: seq<Item>)
    requires Open(p, j, seen) && bytes != [] && PushBytes(w.lossy, p.decoder, bytes).1.Ok? && c.leaves(|p.out| + 1)
    ensures var q := Drained(w, c, p, [Chunk(bytes)] + rest);
      q.verdicts == [Failed(ClientDisconnected)] && q.out == p.out + [Upstream(bytes)]
  {
    hide PushBytes, AtEof, Open;
    OpenIsClean(p, j, seen);
    var items := [Chunk(bytes)] + rest;
    assert items[0] == Chunk(bytes);
    DrainedOver(w, c, Take(w, c, p, Chunk(bytes)), items[1..]);
  }

  /** A chunk that outgrows the limit is not forwarded, and ends the stream as a protocol error. */
  lemma OversizedChunk(w: Wire, c: Client, first: Text, before: seq<Item>, bytes: Text, after: seq<Item>)
    requires Stays(c) && Calm(before) && Undecided(w, [first] + Forwardable(before)) && bytes != []
    requires PushBytes(w.lossy, PushAll(w.lossy, FRESH, [first] + Forwardable(before)).0, bytes).1.TooLarge?
    ensures var p, chunks := Body(w, c, first, before + [Chunk(bytes)] + after), [first] + Forwardable(before);
      p.verdicts == [Failed(ProtocolError)] && EndsIn(p, EventTooLarge, chunks, Pings(c, before))
  {
    hide Body, AtEof, Open, EndsIn, PushBytes, Undecided;
    var chunks := [first] + Forwardable(before);
    var q := BodyStretch(w, c, first, before, [Chunk(bytes)] + after);
    var j := JudgedBy(w, chunks);
    OpenIsClean(q, j, chunks);
    var d := PushBytes(w.lossy, q.decoder, bytes).0;
    Moved(q, d, j, chunks);
    FrameComesLast(c, q.(decoder := d), j, chunks, Failed(ProtocolError), EventTooLarge);
    assert before + [Chunk(bytes)] + after == before + ([Chunk(bytes)] + after);
    assert ([Chunk(bytes)] + after)[0] == Chunk(bytes);
    DrainedOver(w, c, Take(w, c, q, Chunk(bytes)), ([Chunk(bytes)] + after)[1..]);
  }

  lemma Moved(p: Pump, d: Decoder, j: Judged, seen: seq<Text>)
    requires Open(p, j, seen)
    ensures Open(p.(decoder := d), j, seen)
  {
  }

  /** The first chunk has been promised to the client by then: it goes out, and the frame after it. */
  lemma OversizedFirstChunk(w: Wire, c: Client, first: Text, items: seq<Item>)
    requires Stays(c) && PushBytes(w.lossy, FRESH, first).1.TooLarge?
    ensures var p := Body(w, c, first, items);
      p.verdicts == [Failed(ProtocolError)] && p.out == [Upstream(first), ErrorFrame(EventTooLarge)]
  {
    hide PushBytes, Drained;
    DrainedOver(w, c, TakeChunk(w, c, START, first, true), items);
  }

  /** A body that ends cleanly without a stop, flush included, ended too early. */
  lemma EndedWithoutStop(w: Wire, c: Client, first: Text, before: seq<Item>)
    requires Stays(c) && Calm(before) && Undecided(w, [first] + Forwardable(before))
    requires var chunks := [first] + Forwardable(before);
             var f := FinishStream(w.lossy, PushAll(w.lossy, FRESH, chunks).0).1;
      f.Ok? ==> !Decided(JudgeAll(w, JudgedBy(w, chunks), f.events))
    ensures var p, chunks := Body(w, c, first, before), [first] + Forwardable(before);
      p.verdicts == [Failed(UnexpectedEof)] && EndsIn(p, EndedEarly, chunks, Pings(c, before))
  {
    hide Body, Open, EndsIn, PushAll, FinishStream, React, JudgeEvent;
    var chunks := [first] + Forwardable(before);
    var q := BodyStretch(w, c, first, before, []);
    var j := JudgedBy(w, chunks);
    OpenIsClean(q, j, chunks);
    var (d, f) := FinishStream(w.lossy, q.decoder);
    var events := if f.Ok? then f.events else [];
    Moved(q, d, j, chunks);
    JudgeNothing(w, j);
    StillOpen(w, c, q.(decoder := d), j, chunks, events);
    var after := React(w, c, q.(decoder := d), events);
    OpenIsClean(after, JudgeAll(w, j, events), chunks);
    FrameComesLast(c, after, JudgeAll(w, j, events), chunks, Failed(UnexpectedEof), EndedEarly);
    assert before + [] == before;
  }

  lemma StillOpen(w: Wire, c: Client, p: Pump, j: Judged, seen: seq<Text>, events: seq<SseEvent>)
    requires Stays(c) && Open(p, j, seen) && !Decided(JudgeAll(w, j, events))
    ensures Open(React(w, c, p, events), JudgeAll(w, j, events), seen) && React(w, c, p, events).out == p.out
  {
    OpenIsClean(p, j, seen);
    ProcessFollows(w, p, j, events);
    ProcessKeeps(w, p, events);
    hide JudgeAll, ProcessEvents, WithoutPings, Shape, Pumping;
    ReactFollows(w, c, p, j, events);
    ReactKeeps(w, c, p, seen, events);
  }

  // --- a stream that counts as complete -----------------------------------------------------------

  /** What the pump does with the events of one chunk, whoever listens. */
  lemma ReactAnyway(w: Wire, c: Client, p: Pump, j: Judged, events: seq<SseEvent>)
    requires !p.over && !p.finished && p.verdicts == [] && Follows(p, j) && !j.stop
    ensures var q, k := React(w, c, p, events), JudgeAll(w, j, events);
      && q.decoder == p.decoder
      && (q.over <==> Decided(k))
      && (Decided(k) ==> q.verdicts == [OutcomeOf(k)])
      && (!Decided(k) ==> !q.finished && q.verdicts == [] && Follows(q, k))
  {
    hide ProcessEvents, JudgeAll;
    ProcessFollows(w, p, j, events);
  }

  /** A pump that has recorded nothing yet follows the judgement. */
  predicate Fresh(p: Pump, j: Judged) {
    Follows(p, j) && !j.stop && !p.over && !p.finished && p.verdicts == []
  }

  /** What one chunk comes to, whoever listens. */
  lemma ChunkAnyway(w: Wire, c: Client, p: Pump, j: Judged, bytes: Text, first: bool)
    requires Fresh(p, j)
    ensures var q, r := TakeChunk(w, c, p, bytes, first), PushBytes(w.lossy, p.decoder, bytes);
      && (r.1.TooLarge? ==> q.over && q.verdicts == [Failed(ProtocolError)])
      && (r.1.Ok? ==>
            var k := JudgeAll(w, j, r.1.events);
            if q.over then q.verdicts == [Failed(ClientDisconnected)] || (Decided(k) && q.verdicts == [OutcomeOf(k)])
            else Fresh(q, k) && !Decided(k) && q.decoder == r.0)
  {
    hide JudgeAll, PushBytes, React;
    var (e, r) := PushBytes(w.lossy, p.decoder, bytes);
    if r.Ok? {
      var sent := p.(decoder := e, committed := true, out := p.out + [Upstream(bytes)]);
      ReactAnyway(w, c, sent, j, r.events);
    }
  }

  lemma PauseAnyway(w: Wire, c: Client, p: Pump, j: Judged, item: Item)
    requires Fresh(p, j) && !item.Chunk?
    ensures var q := Take(w, c, p, item);
      if q.over then |q.verdicts| == 1 && q.verdicts[0].Failed?
      else item.Tick? && Fresh(q, j) && q.decoder == p.decoder
  {
  }

  lemma OneChunk(w: Wire, d: Decoder, bytes: Text)
    ensures PushAll(w.lossy, d, [bytes]) == PushBytes(w.lossy, d, bytes)
  {
    hide PushBytes;
    var (e, r) := PushBytes(w.lossy, d, bytes);
    var none: seq<Text> := [];
    assert [bytes][1..] == none && PushAll(w.lossy, e, none) == (e, Ok([]));
    if r.Ok? { assert r.events + [] == r.events; }
  }

  lemma EofVerdict(w: Wire, c: Client, p: Pump)
    ensures var (d, r) := FinishStream(w.lossy, p.decoder);
            var q := React(w, c, p.(decoder := d), if r.Ok? then r.events else []);
      if q.over then AtEof(w, c, p) == q
      else !q.finished && q.verdicts == [] ==>
        |AtEof(w, c, p).verdicts| == 1 && AtEof(w, c, p).verdicts[0] == Failed(UnexpectedEof)
  {
    hide FinishStream, React;
  }

  /** The body's end without another chunk. */
  lemma FlushedComplete(w: Wire, c: Client, p: Pump, j: Judged, n: nat)
    requires Fresh(p, j) && AtEof(w, c, p).verdicts == [Complete(n)]
    ensures CompleteBy(w, p.decoder, j, [], 0, n)
  {
    hide FinishStream, JudgeEvent, React;
    JudgeNothing(w, j);
    var (d, r) := FinishStream(w.lossy, p.decoder);
    var events := if r.Ok? then r.events else [];
    ReactAnyway(w, c, p.(decoder := d), j, events);
    EofVerdict(w, c, p);
    var none: seq<Item> := [];
    assert none[..0] == none && PushAll(w.lossy, p.decoder, Forwardable(none)) == (p.decoder, Ok([]));
  }

  /**
   * For every client and upstream: a stream is recorded as complete only when the upstream had not broken off and the
   * client had not left by then, everything up to then was accepted, and the events judged contain a stop and as many
   * tool uses as reported; when only the flush supplies that stop, the body had come to its end.
   */
  lemma {:induction false} DrainedComplete(w: Wire, c: Client, p: Pump, j: Judged, items: seq<Item>, n: nat)
    returns (k: nat)
    requires Fresh(p, j) && Drained(w, c, p, items).verdicts == [Complete(n)]
    ensures k <= |items| && CompleteBy(w, p.decoder, j, items, k, n)
    decreases |items|, 1
  {
    hide PushBytes, Take, TakeChunk, JudgeAll, CompleteBy, AtEof, FinishStream;
    if items == [] {
      k := 0;
      FlushedComplete(w, c, p, j, n);
    } else {
      var item, q := items[0], Take(w, c, p, items[0]);
      if q.over { DrainedOver(w, c, q, items[1..]); }
      if item.Chunk? && item.bytes != [] {
        k := ChunkComplete(w, c, p, j, items, n);
      } else {
        SilentItem(w, c, p, j, item);
        var m := DrainedComplete(w, c, q, j, items[1..], n);
        k := m + 1;
        CompleteLater(w, p.decoder, j, items, m, n);
      }
    }
  }

  /** Pings and empty chunks leave everything as it is, and nothing else leads on to a complete stream. */
  lemma SilentItem(w: Wire, c: Client, p: Pump, j: Judged, item: Item)
    requires Fresh(p, j) && (item.Chunk? ==> item.bytes == [])
    ensures var q := Take(w, c, p, item);
      if q.over then |q.verdicts| == 1 && q.verdicts[0].Failed?
      else (item.Chunk? || item.Tick?) && Fresh(q, j) && q.decoder == p.decoder
    ensures PushAll(w.lossy, p.decoder, Forwardable([item])) == (p.decoder, Ok([])) && JudgeAll(w, j, []) == j
  {
    if !item.Chunk? { PauseAnyway(w, c, p, j, item); }
    assert Forwardable([item]) == [];
  }

  lemma {:induction false} ChunkComplete(w: Wire, c: Client, p: Pump, j: Judged, items: seq<Item>, n: nat)
    returns (k: nat)
    requires Fresh(p, j) && items != [] && items[0].Chunk? && items[0].bytes != []
    requires Drained(w, c, p, items).verdicts == [Complete(n)]
    ensures k <= |items| && CompleteBy(w, p.decoder, j, items, k, n)
    decreases |items|, 0
  {
    hide PushBytes, TakeChunk, JudgeAll, CompleteBy, AtEof, FinishStream;
    var bytes := items[0].bytes;
    var q, r := TakeChunk(w, c, p, bytes, false), PushBytes(w.lossy, p.decoder, bytes).1;
    ChunkAnyway(w, c, p, j, bytes, false);
    OneChunk(w, p.decoder, bytes);
    assert Forwardable([items[0]]) == [bytes];
    if q.over {
      DrainedOver(w, c, q, items[1..]);
      k := 1;
      CompleteNow(w, p.decoder, j, items, n);
    } else {
      var m := DrainedComplete(w, c, q, JudgeAll(w, j, r.events), items[1..], n);
      k := m + 1;
      CompleteLater(w, p.decoder, j, items, m, n);
    }
  }

  /** The first k items are calm and accepted, and what they decode to is a complete stream. */
  predicate CompleteBy(w: Wire, d: Decoder, j: Judged, items: seq<Item>, k: nat, n: nat)
    requires k <= |items|
  {
    && Calm(items[..k])
    && var (e, r) := PushAll(w.lossy, d, Forwardable(items[..k]));
       r.Ok? &&
       var v := JudgeAll(w, j, r.events);
       v == Going(n, true)
       || (k == |items| && !Decided(v)
           && var f := FinishStream(w.lossy, e).1; f.Ok? && JudgeAll(w, v, f.events) == Going(n, true))
  }

  lemma CompleteNow(w: Wire, d: Decoder, j: Judged, items: seq<Item>, n: nat)
    requires items != [] && items[0].Chunk? && items[0].bytes != []
    requires var r := PushBytes(w.lossy, d, items[0].bytes).1;
      r.Ok? && Decided(JudgeAll(w, j, r.events)) && OutcomeOf(JudgeAll(w, j, r.events)) == Complete(n)
    ensures CompleteBy(w, d, j, items, 1, n)
  {
    hide PushBytes, JudgeAll, PushAll;
    OneChunk(w, d, items[0].bytes);
    assert items[..1] == [items[0]];
    assert Forwardable([items[0]]) == [items[0].bytes];
  }

  /** One calm item more in front. */
  lemma CompleteLater(w: Wire, d: Decoder, j: Judged, items: seq<Item>, m: nat, n: nat)
    requires items != [] && (items[0].Chunk? || items[0].Tick?) && m < |items|
    requires var (e, r) := PushAll(w.lossy, d, Forwardable([items[0]]));
      r.Ok? && CompleteBy(w, e, JudgeAll(w, j, r.events), items[1..], m, n)
    ensures CompleteBy(w, d, j, items, m + 1, n)
  {
    hide PushBytes, JudgeEvent, FinishStream;
    var (e, r) := PushAll(w.lossy, d, Forwardable([items[0]]));
    var rest := items[1..][..m];
    assert items[..m + 1] == [items[0]] + rest;
    assert items[..m + 1][0] == items[0] && items[..m + 1][1..] == rest;
    ForwardFirst(items[..m + 1]);
    PushAllConcat(w, d, Forwardable([items[0]]), Forwardable(rest));
    JudgeConcat(w, j, r.events, PushAll(w.lossy, e, Forwardable(rest)).1.events);
  }

  /** The same from the first chunk on. */
  lemma CompleteMeans(w: Wire, c: Client, first: Text, items: seq<Item>, n: nat)
    requires Body(w, c, first, items).verdicts == [Complete(n)] && first != []
    ensures exists k ::
      0 <= k <= |items| + 1 && CompleteBy(w, FRESH, Going(0, false), [Chunk(first)] + items, k, n)
  {
    hide PushBytes, TakeChunk, JudgeAll, CompleteBy, Drained;
    var all, j := [Chunk(first)] + items, Going(0, false);
    assert all[0] == Chunk(first) && all[1..] == items;
    assert Forwardable([all[0]]) == [first];
    var q, r := TakeChunk(w, c, START, first, true), PushBytes(w.lossy, FRESH, first).1;
    ChunkAnyway(w, c, START, j, first, true);
    OneChunk(w, FRESH, first);
    if q.over {
      DrainedOver(w, c, q, items);
      CompleteNow(w, FRESH, j, all, n);
    } else {
      var m := DrainedComplete(w, c, q, JudgeAll(w, j, r.events), items, n);
      CompleteLater(w, FRESH, j, all, m, n);
    }
  }
}

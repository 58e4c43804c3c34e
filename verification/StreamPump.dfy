/** The stream pump: forwards upstream chunks as they are, and judges the stream by the events they decode to. */
module StreamPumps {
  import opened Options
  import opened Sse

  datatype Kind = ToolUse | MessageStop | ErrorEvent | Other

  /** The payload tests the pump relies on, and the text repair of the decoder. */
  datatype Wire = Wire(lossy: Text -> Text, isJson: Text -> bool, isDone: Text -> bool, kind: Text -> Kind)

  /** "ping". */
  const PING: Text := [112, 105, 110, 103]

  datatype Why = EventTooLarge | InvalidData | Interrupted | EndedEarly
  datatype Piece = Upstream(bytes: Text) | Ping | ErrorFrame(why: Why)
  datatype Failure = ProtocolError | UpstreamErrorEvent | StreamInterrupted | UnexpectedEof | ClientDisconnected
  datatype Outcome = Complete(tools: nat) | Failed(failure: Failure)

  /** What the pump waits for. The end of the list is the end of the upstream body; Gone is the client leaving. */
  datatype Item = Chunk(bytes: Text) | TransportError | Tick | Gone

  /** `leaves(n)`: the client drops the body once it has been handed n pieces. */
  datatype Client = Client(pings: bool, leaves: nat -> bool)

  datatype Pump = Pump(decoder: Decoder, cleanStop: bool, toolCalls: nat, committed: bool,
                       out: seq<Piece>, finished: bool, verdicts: seq<Outcome>, over: bool)

  const START := Pump(FRESH, false, 0, false, [], false, [], false)

  /** What the events say about the stream so far. */
  datatype Said = Said(terminate: bool, frame: Option<Why>)

  const GO_ON := Said(false, None)

  /** Only the first verdict is recorded. */
  function Finish(p: Pump, o: Outcome): Pump {
    if p.finished then p else p.(finished := true, verdicts := p.verdicts + [o])
  }

  /** The generator and its request scope are dropped. */
  function Close(p: Pump): Pump {
    Finish(p, Failed(ClientDisconnected)).(over := true)
  }

  function Emit(c: Client, p: Pump, piece: Piece): Pump {
    var q := p.(out := p.out + [piece]);
    if c.leaves(|q.out|) then Close(q) else q
  }

  function ProcessEvents(w: Wire, p: Pump, events: seq<SseEvent>): (Pump, Said)
    decreases |events|
  {
    if events == [] then (p, GO_ON)
    else
      var e := events[0];
      if e.event == Some(PING) || w.isDone(e.data) then ProcessEvents(w, p, events[1..])
      else if !w.isJson(e.data) then (Finish(p, Failed(ProtocolError)), Said(true, Some(InvalidData)))
      else
        match w.kind(e.data)
        case ToolUse => ProcessEvents(w, p.(toolCalls := p.toolCalls + 1), events[1..])
        case MessageStop => ProcessEvents(w, p.(cleanStop := true), events[1..])
        case ErrorEvent => (Finish(p, Failed(UpstreamErrorEvent)), Said(true, None))
        case Other => ProcessEvents(w, p, events[1..])
  }

  /** After a forwarded chunk: the error frame follows the offending bytes, and a stop ends the stream. */
  function React(w: Wire, c: Client, p: Pump, events: seq<SseEvent>): Pump {
    var (q, said) := ProcessEvents(w, p, events);
    var r := if said.frame.Some? then Emit(c, q, ErrorFrame(said.frame.value)) else q;
    if r.over then r
    else if said.terminate then Close(r)
    else if r.cleanStop then Close(Finish(r, Complete(r.toolCalls)))
    else r
  }

  /** The first chunk is forwarded even when it is too large to judge; a later one is not. */
  function TakeChunk(w: Wire, c: Client, p: Pump, bytes: Text, first: bool): Pump {
    var (d, r) := PushBytes(w.lossy, p.decoder, bytes);
    var q := p.(decoder := d);
    if r.Ok? then
      var sent := Emit(c, q.(committed := true), Upstream(bytes));
      if sent.over then sent else React(w, c, sent, r.events)
    else
      var failed := Finish(q, Failed(ProtocolError));
      var sent := if first then Emit(c, failed.(committed := true), Upstream(bytes)) else failed;
      if sent.over then sent else Close(Emit(c, sent, ErrorFrame(EventTooLarge)))
  }

  function AtEof(w: Wire, c: Client, p: Pump): Pump {
    var (d, r) := FinishStream(w.lossy, p.decoder);
    var q := React(w, c, p.(decoder := d), if r.Ok? then r.events else []);
    if q.over then q
    else Close(Emit(c, Finish(q, Failed(UnexpectedEof)), ErrorFrame(EndedEarly)))
  }

  function Take(w: Wire, c: Client, p: Pump, item: Item): Pump {
    match item
    case Chunk(bytes) => if bytes == [] then p else TakeChunk(w, c, p, bytes, false)
    case TransportError => Close(Emit(c, Finish(p, Failed(StreamInterrupted)), ErrorFrame(Interrupted)))
    case Tick => if c.pings && !p.cleanStop then Emit(c, p, Ping) else p
    case Gone => Close(p)
  }

  function Drained(w: Wire, c: Client, p: Pump, items: seq<Item>): Pump
    decreases |items|
  {
    if p.over then p
    else if items == [] then AtEof(w, c, p)
    else Drained(w, c, Take(w, c, p, items[0]), items[1..])
  }

  function Body(w: Wire, c: Client, first: Text, items: seq<Item>): Pump {
    Drained(w, c, TakeChunk(w, c, START, first, true), items)
  }

  /** Finish-once accounting of one accepted request. */
  class RequestScope {
    var finished: bool
    var verdicts: seq<Outcome>

    constructor ()
      ensures !finished && verdicts == []
    {
      finished, verdicts := false, [];
    }

    method Record(o: Outcome)
      modifies this
      ensures finished && verdicts == if old(finished) then old(verdicts) else old(verdicts) + [o]
    {
      if finished { return; }
      finished, verdicts := true, verdicts + [o];
    }

    /** Covers the client leaving before an outcome was recorded. */
    method Drop()
      modifies this
      ensures finished
      ensures verdicts == if old(finished) then old(verdicts) else old(verdicts) + [Failed(ClientDisconnected)]
    {
      if !finished { finished, verdicts := true, verdicts + [Failed(ClientDisconnected)]; }
    }
  }

  class StreamPump {
    const wire: Wire
    const client: Client
    const decoder: SseDecoder
    const scope: RequestScope
    var cleanStop: bool
    var toolCalls: nat
    var committed: bool
    var out: seq<Piece>
    var over: bool

    constructor (wire: Wire, client: Client)
      ensures this.wire == wire && this.client == client && decoder.lossy == wire.lossy
      ensures fresh(decoder) && fresh(scope) && State() == START
    {
      this.wire, this.client := wire, client;
      decoder := new SseDecoder(wire.lossy);
      scope := new RequestScope();
      cleanStop, toolCalls, committed, out, over := false, 0, false, [], false;
    }

    function State(): Pump
      reads this, decoder, scope
    {
      Pump(decoder.State(), cleanStop, toolCalls, committed, out, scope.finished, scope.verdicts, over)
    }

    method DropAll()
      modifies this`over, scope
      ensures State() == Close(old(State()))
    {
      scope.Drop();
      over := true;
    }

    method Yield(piece: Piece)
      modifies this`out, this`over, scope
      ensures State() == Emit(client, old(State()), piece)
    {
      out := out + [piece];
      if client.leaves(|out|) { DropAll(); }
    }

    method Process(events: seq<SseEvent>) returns (said: Said)
      modifies this`cleanStop, this`toolCalls, scope
      ensures (State(), said) == ProcessEvents(wire, old(State()), events)
    {
      ghost var all := ProcessEvents(wire, State(), events);
      for i := 0 to |events|
        invariant ProcessEvents(wire, State(), events[i..]) == all
      {
        var e := events[i];
        assert events[i..][0] == e && events[i..][1..] == events[i + 1..];
        if e.event == Some(PING) { continue; }
        if wire.isDone(e.data) { continue; }
        if !wire.isJson(e.data) {
          scope.Record(Failed(ProtocolError));
          return Said(true, Some(InvalidData));
        }
        match wire.kind(e.data)
        case ToolUse => toolCalls := toolCalls + 1;
        case MessageStop => cleanStop := true;
        case ErrorEvent =>
          scope.Record(Failed(UpstreamErrorEvent));
          return Said(true, None);
        case Other =>
      }
      return GO_ON;
    }

    method ReactTo(events: seq<SseEvent>)
      requires !over
      modifies this, scope
      ensures State() == React(wire, client, old(State()), events)
    {
      var said := Process(events);
      if said.frame.Some? {
        Yield(ErrorFrame(said.frame.value));
        if over { return; }
      }
      if said.terminate {
        DropAll();
        return;
      }
      if cleanStop {
        scope.Record(Complete(toolCalls));
        DropAll();
      }
    }

    method FirstChunk(bytes: Text)
      requires !over && decoder.lossy == wire.lossy
      modifies this, decoder, scope
      ensures State() == TakeChunk(wire, client, old(State()), bytes, true)
    {
      var r := decoder.Push(bytes);
      if r.TooLarge? {
        scope.Record(Failed(ProtocolError));
        committed := true;
        Yield(Upstream(bytes));
        if over { return; }
        Yield(ErrorFrame(EventTooLarge));
        DropAll();
        return;
      }
      committed := true;
      Yield(Upstream(bytes));
      if !over { ReactTo(r.events); }
    }

    method NextChunk(bytes: Text)
      requires !over && decoder.lossy == wire.lossy
      modifies this, decoder, scope
      ensures State() == TakeChunk(wire, client, old(State()), bytes, false)
    {
      var r := decoder.Push(bytes);
      if r.TooLarge? {
        scope.Record(Failed(ProtocolError));
        Yield(ErrorFrame(EventTooLarge));
        DropAll();
        return;
      }
      committed := true;
      Yield(Upstream(bytes));
      if !over { ReactTo(r.events); }
    }

    method EndOfBody()
      requires !over && decoder.lossy == wire.lossy
      modifies this, decoder, scope
      ensures State() == AtEof(wire, client, old(State()))
    {
      var r := decoder.Finish();
      ReactTo(if r.Ok? then r.events else []);
      if !over {
        scope.Record(Failed(UnexpectedEof));
        Yield(ErrorFrame(EndedEarly));
        DropAll();
      }
    }

    method AwaitItem(item: Item)
      requires !over && decoder.lossy == wire.lossy
      modifies this, decoder, scope
      ensures State() == Take(wire, client, old(State()), item)
    {
      match item {
        case Chunk(bytes) => if bytes != [] { NextChunk(bytes); }
        case TransportError =>
          scope.Record(Failed(StreamInterrupted));
          Yield(ErrorFrame(Interrupted));
          DropAll();
        case Tick => if client.pings && !cleanStop { Yield(Ping); }
        case Gone => DropAll();
      }
    }

    /** The whole body, one awaited item at a time. */
    method StreamBody(first: Text, items: seq<Item>)
      requires State() == START && decoder.lossy == wire.lossy
      modifies this, decoder, scope
      ensures State() == Body(wire, client, first, items)
    {
      hide Take, TakeChunk, AtEof;
      ghost var end := Body(wire, client, first, items);
      FirstChunk(first);
      var i := 0;
      while !over
        invariant 0 <= i <= |items| && Drained(wire, client, State(), items[i..]) == end
        decreases |items| - i, !over
      {
        if i == |items| {
          EndOfBody();
          return;
        }
        assert items[i..][0] == items[i] && items[i..][1..] == items[i + 1..];
        AwaitItem(items[i]);
        i := i + 1;
      }
    }
  }
}

/** The shape of the output, the verdict, and when the verdict does not depend on how the bytes were cut. */
module StreamPumpTheorems {
  import opened Options
  import opened Sse
  import opened SseTheorems
  import opened StreamPumps

  // --- the output -------------------------------------------------------------------------

  function WithoutPings(out: seq<Piece>): (o: seq<Piece>)
    ensures forall x :: x in o <==> x in out && !x.Ping?
  {
    if out == [] then []
    else
      var n := |out| - 1;
      var before := WithoutPings(out[..n]);
      assert out == out[..n] + [out[n]];
      if out[n].Ping? then before else before + [out[n]]
  }

  /** The bytes the pump may forward: the first chunk and every later one that is not empty. */
  function Forwardable(items: seq<Item>): seq<Text> {
    if items == [] then []
    else if items[0].Chunk? && items[0].bytes != [] then [items[0].bytes] + Forwardable(items[1..])
    else Forwardable(items[1..])
  }

  /** A prefix of the chunks, in order, then at most one error frame. */
  predicate Shape(out: seq<Piece>, chunks: seq<Text>) {
    var o := WithoutPings(out);
    forall i :: 0 <= i < |o| ==> (i < |chunks| && o[i] == Upstream(chunks[i])) || (i == |o| - 1 && o[i].ErrorFrame?)
  }

  /** Nothing, not even a ping, comes after an error frame. */
  predicate FrameIsLast(out: seq<Piece>) {
    forall i :: 0 <= i < |out| - 1 ==> !out[i].ErrorFrame?
  }

  /** The first piece is always the first chunk. */
  predicate Begun(out: seq<Piece>, chunks: seq<Text>) {
    chunks != [] ==> out != [] && out[0] == Upstream(chunks[0])
  }

  function FrameOf(out: seq<Piece>): Option<Why> {
    if out != [] && out[|out| - 1].ErrorFrame? then Some(out[|out| - 1].why) else None
  }

  function FailureFor(why: Why): Failure {
    match why
    case EventTooLarge => ProtocolError
    case InvalidData => ProtocolError
    case Interrupted => StreamInterrupted
    case EndedEarly => UnexpectedEof
  }

  /** Still pumping: exactly the chunks so far are out, and nothing is recorded. */
  predicate Pumping(p: Pump, seen: seq<Text>) {
    && !p.over && !p.finished && p.verdicts == [] && !p.cleanStop
    && |WithoutPings(p.out)| == |seen| && Shape(p.out, seen) && Begun(p.out, seen)
    && NoFrames(p.out)
    && (p.committed <==> seen != [])
  }

  /** Over: one verdict, and an error frame only of the matching kind. */
  predicate Ended(p: Pump, chunks: seq<Text>) {
    && p.over && p.finished && |p.verdicts| == 1
    && Shape(p.out, chunks) && Begun(p.out, chunks) && FrameIsLast(p.out)
    && (FrameOf(p.out).Some? ==> p.verdicts[0] == Failed(FailureFor(FrameOf(p.out).value)))
    && (p.verdicts[0].Complete? ==> p.cleanStop && p.verdicts[0].tools == p.toolCalls)
  }

  lemma PieceOut(out: seq<Piece>, piece: Piece)
    ensures WithoutPings(out + [piece]) == if piece.Ping? then WithoutPings(out) else WithoutPings(out) + [piece]
  {
    assert (out + [piece])[..|out|] == out;
  }

  lemma StillShaped(out: seq<Piece>, chunks: seq<Text>, more: seq<Text>)
    requires Shape(out, chunks)
    ensures Shape(out, chunks + more) && (Begun(out, chunks) && chunks != [] ==> Begun(out, chunks + more))
  {
  }

  lemma ProcessKeeps(w: Wire, p: Pump, events: seq<SseEvent>)
    ensures var (q, said) := ProcessEvents(w, p, events);
      && q.out == p.out && q.over == p.over && q.committed == p.committed && q.decoder == p.decoder
      && (!said.terminate ==> q.finished == p.finished && q.verdicts == p.verdicts && said.frame == None)
      && (said.terminate && !p.finished ==>
            q.finished && |q.verdicts| == |p.verdicts| + 1
            && !q.verdicts[|p.verdicts|].Complete?
            && (said.frame.Some? ==> q.verdicts[|p.verdicts|] == Failed(FailureFor(said.frame.value)))
            && (said.frame.None? ==> q.verdicts[|p.verdicts|] == Failed(UpstreamErrorEvent)))
      && (said.frame.Some? ==> said.frame.value == InvalidData)
    decreases |events|
  {
  }

  predicate NoFrames(out: seq<Piece>) {
    forall x :: x in out ==> !x.ErrorFrame?
  }

  lemma FrameFits(out: seq<Piece>, seen: seq<Text>, why: Why)
    requires |WithoutPings(out)| <= |seen| && Shape(out, seen) && NoFrames(out)
    ensures Shape(out + [ErrorFrame(why)], seen) && FrameIsLast(out + [ErrorFrame(why)])
  {
    PieceOut(out, ErrorFrame(why));
    hide WithoutPings;
    var o := WithoutPings(out);
    assert forall i :: 0 <= i < |o| ==> o[i] in o;
  }

  /** An error frame closes the stream it is written to. */
  lemma FrameEnds(c: Client, p: Pump, seen: seq<Text>, why: Why)
    requires |WithoutPings(p.out)| <= |seen| && Shape(p.out, seen) && Begun(p.out, seen) && NoFrames(p.out)
    requires p.finished && p.verdicts == [Failed(FailureFor(why))]
    ensures Ended(Close(Emit(c, p, ErrorFrame(why))), seen)
    ensures Emit(c, p, ErrorFrame(why)).over ==> Emit(c, p, ErrorFrame(why)) == Close(Emit(c, p, ErrorFrame(why)))
  {
    FrameFits(p.out, seen, why);
    hide WithoutPings, Shape, NoFrames, FrameIsLast;
  }

  lemma ClosingEnds(p: Pump, seen: seq<Text>)
    requires (!p.finished && p.verdicts == []) || (p.finished && |p.verdicts| == 1)
    requires Shape(p.out, seen) && Begun(p.out, seen) && NoFrames(p.out)
    requires p.verdicts != [] && p.verdicts[0].Complete? ==> p.cleanStop && p.verdicts[0].tools == p.toolCalls
    ensures Ended(Close(p), seen)
  {
    assert forall i :: 0 <= i < |p.out| ==> p.out[i] in p.out;
  }

  ghost predicate Kept(p: Pump, seen: seq<Text>) {
    if p.over then Ended(p, seen) else Pumping(p, seen)
  }

  lemma ReactKeeps(w: Wire, c: Client, p: Pump, seen: seq<Text>, events: seq<SseEvent>)
    requires Pumping(p, seen)
    ensures Kept(React(w, c, p, events), seen)
  {
    hide Shape, WithoutPings, Ended, ProcessEvents;
    var (q, said) := ProcessEvents(w, p, events);
    ProcessKeeps(w, p, events);
    if said.frame.Some? {
      FrameEnds(c, q, seen, said.frame.value);
    } else if said.terminate {
      ClosingEnds(q, seen);
    } else if q.cleanStop {
      ClosingEnds(Finish(q, Complete(q.toolCalls)), seen);
    }
  }

  lemma SendKeeps(c: Client, p: Pump, seen: seq<Text>, bytes: Text)
    requires Pumping(p, seen) && (seen == [] ==> p.out == [])
    ensures Kept(Emit(c, p.(committed := true), Upstream(bytes)), seen + [bytes])
  {
    var q := p.(committed := true, out := p.out + [Upstream(bytes)]);
    PieceOut(p.out, Upstream(bytes));
    assert Pumping(q, seen + [bytes]);
    ClosingEnds(q, seen + [bytes]);
  }

  lemma PingKeeps(c: Client, p: Pump, seen: seq<Text>)
    requires Pumping(p, seen)
    ensures Kept(Emit(c, p, Ping), seen)
  {
    PieceOut(p.out, Ping);
    var q := p.(out := p.out + [Ping]);
    assert Pumping(q, seen);
    ClosingEnds(q, seen);
  }

  lemma ChunkKeeps(w: Wire, c: Client, p: Pump, seen: seq<Text>, bytes: Text, first: bool)
    requires Pumping(p, seen) && if seen == [] then first && p.out == [] else !first
    ensures Kept(TakeChunk(w, c, p, bytes, first), seen + [bytes])
  {
    hide PushBytes, React, Shape, WithoutPings;
    var (d, r) := PushBytes(w.lossy, p.decoder, bytes);
    var q := p.(decoder := d);
    if r.Ok? {
      SendKeeps(c, q, seen, bytes);
      var sent := Emit(c, q.(committed := true), Upstream(bytes));
      if !sent.over { ReactKeeps(w, c, sent, seen + [bytes], r.events); }
    } else {
      RefusalKeeps(c, q, seen, bytes, first);
    }
  }

  lemma RefusalKeeps(c: Client, q: Pump, seen: seq<Text>, bytes: Text, first: bool)
    requires Pumping(q, seen) && if seen == [] then first && q.out == [] else !first
    ensures var failed := Finish(q, Failed(ProtocolError));
            var sent := if first then Emit(c, failed.(committed := true), Upstream(bytes)) else failed;
            Kept(if sent.over then sent else Close(Emit(c, sent, ErrorFrame(EventTooLarge))), seen + [bytes])
  {
    var failed := Finish(q, Failed(ProtocolError));
    StillShaped(q.out, seen, [bytes]);
    if first {
      PieceOut(q.out, Upstream(bytes));
      var plain := q.(committed := true, out := q.out + [Upstream(bytes)]);
      SendKeeps(Client(false, _ => false), q, seen, bytes);
      assert Pumping(plain, seen + [bytes]);
      var sent := failed.(committed := true, out := plain.out);
      ClosingEnds(sent, seen + [bytes]);
      FrameEnds(c, sent, seen + [bytes], EventTooLarge);
    } else {
      FrameEnds(c, failed, seen + [bytes], EventTooLarge);
    }
  }

  lemma EofKeeps(w: Wire, c: Client, p: Pump, seen: seq<Text>)
    requires Pumping(p, seen)
    ensures Ended(AtEof(w, c, p), seen)
  {
    hide FinishStream, React, Shape, WithoutPings;
    var (d, r) := FinishStream(w.lossy, p.decoder);
    var q := p.(decoder := d);
    assert Pumping(q, seen);
    ReactKeeps(w, c, q, seen, if r.Ok? then r.events else []);
    var after := React(w, c, q, if r.Ok? then r.events else []);
    if !after.over { FrameEnds(c, Finish(after, Failed(UnexpectedEof)), seen, EndedEarly); }
  }

  lemma TakeKeeps(w: Wire, c: Client, p: Pump, seen: seq<Text>, item: Item)
    requires Pumping(p, seen) && seen != []
    ensures Kept(Take(w, c, p, item), seen + Forwardable([item]))
  {
    hide TakeChunk, Shape, WithoutPings;
    assert Forwardable([item]) == if item.Chunk? && item.bytes != [] then [item.bytes] else [];
    assert seen + [] == seen;
    match item
    case Chunk(bytes) => if bytes != [] { ChunkKeeps(w, c, p, seen, bytes, false); }
    case TransportError => FrameEnds(c, Finish(p, Failed(StreamInterrupted)), seen, Interrupted);
    case Tick => PingKeeps(c, p, seen);
    case Gone => ClosingEnds(p, seen);
  }

  /** The chunks the pump takes from the upstream before it is over. */
  function Pulled(w: Wire, c: Client, p: Pump, items: seq<Item>): seq<Text>
    decreases |items|
  {
    if p.over || items == [] then []
    else Forwardable([items[0]]) + Pulled(w, c, Take(w, c, p, items[0]), items[1..])
  }

  lemma {:induction false} PulledFirst(w: Wire, c: Client, p: Pump, items: seq<Item>)
    ensures exists rest :: Forwardable(items) == Pulled(w, c, p, items) + rest
    decreases |items|
  {
    hide Take;
    if p.over || items == [] {
      assert Forwardable(items) == Pulled(w, c, p, items) + Forwardable(items);
    } else {
      var q := Take(w, c, p, items[0]);
      PulledFirst(w, c, q, items[1..]);
      var rest :| Forwardable(items[1..]) == Pulled(w, c, q, items[1..]) + rest;
      assert Forwardable(items) == Forwardable([items[0]]) + Forwardable(items[1..]);
      assert Forwardable(items) == Pulled(w, c, p, items) + rest;
    }
  }

  lemma {:induction false} DrainedEnds(w: Wire, c: Client, p: Pump, seen: seq<Text>, items: seq<Item>)
    requires Kept(p, seen) && seen != []
    ensures Ended(Drained(w, c, p, items), seen + Pulled(w, c, p, items))
    decreases |items|
  {
    hide Take, AtEof, Shape, WithoutPings, Pumping;
    if p.over {
      assert seen + [] == seen;
    } else if items == [] {
      EofKeeps(w, c, p, seen);
      assert seen + [] == seen;
    } else {
      var q := Take(w, c, p, items[0]);
      TakeKeeps(w, c, p, seen, items[0]);
      DrainedEnds(w, c, q, seen + Forwardable([items[0]]), items[1..]);
      assert (seen + Forwardable([items[0]])) + Pulled(w, c, q, items[1..]) == seen + Pulled(w, c, p, items);
    }
  }

  // --- a client that stays ------------------------------------------------------------------

  ghost predicate Stays(c: Client) {
    forall n: nat :: !c.leaves(n)
  }

  /**
   * Every chunk taken was forwarded, but for a later one too large to judge, whose place the frame takes; and every
   * failure that the upstream did not itself report is told in exactly one frame.
   */
  predicate Whole(p: Pump, chunks: seq<Text>) {
    |p.verdicts| == 1 &&
    match FrameOf(p.out)
    case None =>
      (p.verdicts[0].Complete? || p.verdicts[0] == Failed(UpstreamErrorEvent)) && |WithoutPings(p.out)| == |chunks|
    case Some(why) =>
      && p.verdicts[0] == Failed(FailureFor(why))
      && |WithoutPings(p.out)| == if why.EventTooLarge? && |chunks| > 1 then |chunks| else |chunks| + 1
  }

  lemma FrameWhole(c: Client, p: Pump, why: Why, chunks: seq<Text>)
    requires Stays(c) && p.finished && p.verdicts == [Failed(FailureFor(why))]
    requires |WithoutPings(p.out)| == if why.EventTooLarge? && |chunks| > 1 then |chunks| - 1 else |chunks|
    ensures !Emit(c, p, ErrorFrame(why)).over || p.over
    ensures Whole(Close(Emit(c, p, ErrorFrame(why))), chunks)
  {
    PieceOut(p.out, ErrorFrame(why));
    hide WithoutPings;
  }

  lemma NoFrameAtEnd(out: seq<Piece>)
    requires NoFrames(out)
    ensures FrameOf(out) == None
  {
    if out != [] { assert out[|out| - 1] in out; }
  }

  lemma ReactWhole(w: Wire, c: Client, p: Pump, seen: seq<Text>, events: seq<SseEvent>)
    requires Pumping(p, seen) && Stays(c)
    ensures React(w, c, p, events).over ==> Whole(React(w, c, p, events), seen)
  {
    hide Shape, WithoutPings, ProcessEvents;
    var (q, said) := ProcessEvents(w, p, events);
    ProcessKeeps(w, p, events);
    NoFrameAtEnd(p.out);
    if said.frame.Some? { FrameWhole(c, q, said.frame.value, seen); }
  }

  lemma ChunkWhole(w: Wire, c: Client, p: Pump, seen: seq<Text>, bytes: Text, first: bool)
    requires Pumping(p, seen) && Stays(c) && if seen == [] then first && p.out == [] else !first
    ensures var q := TakeChunk(w, c, p, bytes, first); q.over ==> Whole(q, seen + [bytes])
  {
    hide PushBytes, React, Shape, WithoutPings, Pumping;
    var (d, r) := PushBytes(w.lossy, p.decoder, bytes);
    var q := p.(decoder := d);
    MovedOn(p, d, seen);
    if r.Ok? {
      SendKeeps(c, q, seen, bytes);
      var sent := Emit(c, q.(committed := true), Upstream(bytes));
      ReactWhole(w, c, sent, seen + [bytes], r.events);
    } else {
      PieceOut(p.out, Upstream(bytes));
      var failed := Finish(q, Failed(ProtocolError));
      FrameWhole(c, if first then Emit(c, failed.(committed := true), Upstream(bytes)) else failed, EventTooLarge,
                 seen + [bytes]);
    }
  }

  lemma MovedOn(p: Pump, d: Decoder, seen: seq<Text>)
    requires Pumping(p, seen)
    ensures Pumping(p.(decoder := d), seen)
    ensures !p.over && !p.finished && p.verdicts == [] && |WithoutPings(p.out)| == |seen|
  {
  }

  lemma EofWhole(w: Wire, c: Client, p: Pump, seen: seq<Text>)
    requires Pumping(p, seen) && Stays(c) && seen != []
    ensures Whole(AtEof(w, c, p), seen)
  {
    hide FinishStream, React, Shape, WithoutPings, Pumping;
    var (d, r) := FinishStream(w.lossy, p.decoder);
    var q := p.(decoder := d);
    var events := if r.Ok? then r.events else [];
    MovedOn(p, d, seen);
    ReactWhole(w, c, q, seen, events);
    ReactKeeps(w, c, q, seen, events);
    var after := React(w, c, q, events);
    if !after.over {
      MovedOn(after, after.decoder, seen);
      FrameWhole(c, Finish(after, Failed(UnexpectedEof)), EndedEarly, seen);
    }
  }

  lemma TakeWhole(w: Wire, c: Client, p: Pump, seen: seq<Text>, item: Item)
    requires Pumping(p, seen) && Stays(c) && seen != [] && !item.Gone?
    ensures var q := Take(w, c, p, item); q.over ==> Whole(q, seen + Forwardable([item]))
  {
    hide TakeChunk, Shape, WithoutPings, Pumping;
    MovedOn(p, p.decoder, seen);
    assert Forwardable([item]) == if item.Chunk? && item.bytes != [] then [item.bytes] else [];
    assert seen + [] == seen;
    match item
    case Chunk(bytes) => if bytes != [] { ChunkWhole(w, c, p, seen, bytes, false); }
    case TransportError => FrameWhole(c, Finish(p, Failed(StreamInterrupted)), Interrupted, seen);
    case Tick =>
  }

  lemma {:induction false} DrainedWhole(w: Wire, c: Client, p: Pump, seen: seq<Text>, items: seq<Item>)
    requires Stays(c) && Gone !in items && seen != []
    requires if p.over then Whole(p, seen) else Pumping(p, seen)
    ensures Whole(Drained(w, c, p, items), seen + Pulled(w, c, p, items))
    decreases |items|
  {
    hide Take, AtEof, Shape, WithoutPings, Pumping, Whole;
    if p.over {
      assert seen + [] == seen;
    } else if items == [] {
      EofWhole(w, c, p, seen);
      assert seen + [] == seen;
    } else {
      var q := Take(w, c, p, items[0]);
      assert items[0] in items;
      TakeKeeps(w, c, p, seen, items[0]);
      TakeWhole(w, c, p, seen, items[0]);
      DrainedWhole(w, c, q, seen + Forwardable([items[0]]), items[1..]);
      assert (seen + Forwardable([items[0]])) + Pulled(w, c, q, items[1..]) == seen + Pulled(w, c, p, items);
    }
  }

  /**
   * For every upstream and every client: without its pings the output is a prefix of the chunks in order and then
   * at most one error frame, nothing follows that frame, the frame names the recorded failure, and exactly one
   * verdict is recorded. For a client that stays, every chunk taken from the upstream was forwarded, up to one that
   * was itself refused, and every failure but one the upstream reported itself is told in exactly one frame.
   */
  lemma OutputShape(w: Wire, c: Client, first: Text, items: seq<Item>)
    ensures var started := TakeChunk(w, c, START, first, true);
            var pulled := [first] + Pulled(w, c, started, items);
      && Ended(Body(w, c, first, items), pulled)
      && (exists rest :: [first] + Forwardable(items) == pulled + rest)
      && (Stays(c) && Gone !in items ==> Whole(Body(w, c, first, items), pulled))
  {
    hide Drained, TakeChunk, Pumping, Whole;
    var started := TakeChunk(w, c, START, first, true);
    NothingYetPumped();
    ChunkKeeps(w, c, START, [], first, true);
    assert [] + [first] == [first];
    DrainedEnds(w, c, started, [first], items);
    PulledFirst(w, c, started, items);
    var rest :| Forwardable(items) == Pulled(w, c, started, items) + rest;
    assert [first] + Forwardable(items) == ([first] + Pulled(w, c, started, items)) + rest;
    if Stays(c) && Gone !in items {
      ChunkWhole(w, c, START, [], first, true);
      DrainedWhole(w, c, started, [first], items);
    }
  }

  lemma NothingYetPumped()
    ensures Pumping(START, [])
  {
  }

  // --- the verdict ------------------------------------------------------------------------

  /** A verdict in the making. */
  datatype Judged = Going(tools: nat, stop: bool) | Broken(failure: Failure)

  function JudgeEvent(w: Wire, j: Judged, e: SseEvent): Judged {
    if j.Broken? || e.event == Some(PING) || w.isDone(e.data) then j
    else if !w.isJson(e.data) then Broken(ProtocolError)
    else
      match w.kind(e.data)
      case ToolUse => j.(tools := j.tools + 1)
      case MessageStop => j.(stop := true)
      case ErrorEvent => Broken(UpstreamErrorEvent)
      case Other => j
  }

  function JudgeAll(w: Wire, j: Judged, events: seq<SseEvent>): Judged
    decreases |events|
  {
    if events == [] then j else JudgeAll(w, JudgeEvent(w, j, events[0]), events[1..])
  }

  predicate Decided(j: Judged) {
    j.Broken? || j.stop
  }

  function OutcomeOf(j: Judged): Outcome {
    match j
    case Broken(failure) => Failed(failure)
    case Going(tools, stop) => if stop then Complete(tools) else Failed(UnexpectedEof)
  }

  /** The events of the whole stream judged in one go, those flushed at its end only if still needed. */
  function WholeVerdict(w: Wire, j: Judged, d: Decoder, events: seq<SseEvent>): Outcome {
    var k := JudgeAll(w, j, events);
    if Decided(k) then OutcomeOf(k)
    else
      var r := FinishStream(w.lossy, d).1;
      OutcomeOf(JudgeAll(w, k, if r.Ok? then r.events else []))
  }

  /** Nothing after a stop would change the verdict. */
  predicate QuietAfterStop(w: Wire, j: Judged, events: seq<SseEvent>)
    decreases |events|
  {
    events == []
    || ((j.Going? && j.stop ==> JudgeEvent(w, j, events[0]) == j)
        && QuietAfterStop(w, JudgeEvent(w, j, events[0]), events[1..]))
  }

  /** The pump's verdict on one particular cut. */
  function CutVerdict(w: Wire, j: Judged, d: Decoder, chunks: seq<Text>): Outcome
    decreases |chunks|
  {
    if Decided(j) then OutcomeOf(j)
    else if chunks == [] then WholeVerdict(w, j, d, [])
    else
      var (e, r) := PushBytes(w.lossy, d, chunks[0]);
      if r.TooLarge? then Failed(ProtocolError) else CutVerdict(w, JudgeAll(w, j, r.events), e, chunks[1..])
  }

  lemma {:induction false} JudgeConcat(w: Wire, j: Judged, a: seq<SseEvent>, b: seq<SseEvent>)
    ensures JudgeAll(w, j, a + b) == JudgeAll(w, JudgeAll(w, j, a), b)
    ensures QuietAfterStop(w, j, a + b) <==> QuietAfterStop(w, j, a) && QuietAfterStop(w, JudgeAll(w, j, a), b)
    decreases |a|
  {
    if a == [] {
      assert a + b == b;
    } else {
      assert (a + b)[0] == a[0] && (a + b)[1..] == a[1..] + b;
      JudgeConcat(w, JudgeEvent(w, j, a[0]), a[1..], b);
    }
  }

  lemma {:induction false} BrokenStays(w: Wire, j: Judged, events: seq<SseEvent>)
    requires j.Broken?
    ensures JudgeAll(w, j, events) == j && QuietAfterStop(w, j, events)
    decreases |events|
  {
    if events != [] { BrokenStays(w, j, events[1..]); }
  }

  lemma {:induction false} ToolsGrow(w: Wire, j: Judged, events: seq<SseEvent>)
    requires j.Going?
    ensures var k := JudgeAll(w, j, events); k.Broken? || (k.tools >= j.tools && (j.stop ==> k.stop))
    decreases |events|
  {
    if events != [] {
      var k := JudgeEvent(w, j, events[0]);
      if k.Broken? { BrokenStays(w, k, events[1..]); } else { ToolsGrow(w, k, events[1..]); }
    }
  }

  /** After a stop, the rest leaves the verdict alone exactly when it is quiet. */
  lemma {:induction false} QuietExactly(w: Wire, j: Judged, events: seq<SseEvent>)
    requires j.Going? && j.stop
    ensures QuietAfterStop(w, j, events) <==> OutcomeOf(JudgeAll(w, j, events)) == OutcomeOf(j)
    ensures QuietAfterStop(w, j, events) ==> JudgeAll(w, j, events) == j
    decreases |events|
  {
    if events != [] {
      var k := JudgeEvent(w, j, events[0]);
      if k == j {
        QuietExactly(w, j, events[1..]);
      } else if k.Broken? {
        BrokenStays(w, k, events[1..]);
      } else {
        ToolsGrow(w, k, events[1..]);
      }
    }
  }

  /** On a quiet stream every accepted cut gives the verdict of the whole. */
  lemma {:induction false} QuietCutsAgree(w: Wire, j: Judged, d: Decoder, chunks: seq<Text>)
    requires PushAll(w.lossy, d, chunks).1.Ok?
    requires QuietAfterStop(w, j, PushAll(w.lossy, d, chunks).1.events)
    ensures var (e, r) := PushAll(w.lossy, d, chunks); CutVerdict(w, j, d, chunks) == WholeVerdict(w, j, e, r.events)
    decreases |chunks|
  {
    hide PushBytes, FinishStream, JudgeEvent;
    var events := PushAll(w.lossy, d, chunks).1.events;
    if j.Broken? {
      BrokenStays(w, j, events);
    } else if j.stop {
      QuietExactly(w, j, events);
    } else if chunks != [] {
      var (e, r) := PushBytes(w.lossy, d, chunks[0]);
      JudgeConcat(w, j, r.events, PushAll(w.lossy, e, chunks[1..]).1.events);
      QuietCutsAgree(w, JudgeAll(w, j, r.events), e, chunks[1..]);
    }
  }

  // --- one byte at a time ---------------------------------------------------------------------

  function Bytewise(bytes: Text): seq<Text> {
    if bytes == [] then [] else [[bytes[0]]] + Bytewise(bytes[1..])
  }

  lemma {:induction false} BytewiseFlat(bytes: Text)
    ensures Flatten(Bytewise(bytes)) == bytes
  {
    if bytes != [] { BytewiseFlat(bytes[1..]); }
  }

  lemma OneByteOneEvent(lossy: Text -> Text, d: Decoder, b: Byte)
    requires Between(d) && PushBytes(lossy, d, [b]).1.Ok?
    ensures |PushBytes(lossy, d, [b]).1.events| <= 1
  {
    var s := d.buffer + [b];
    var n := FirstLf(s);
    assert forall i :: 0 <= i < |d.buffer| ==> s[i] == d.buffer[i] && s[i] in d.buffer;
    if n < |s| {
      assert s[n + 1..] == [];
      assert Drain(lossy, Feed(lossy, d.pending, s[..n]).0, []).1 == Ok([]);
    }
  }

  /**
   * Cut byte by byte, the pump stops at the first stop; a stream that is not quiet then gets another verdict than in
   * one piece.
   */
  lemma {:induction false} LoudCutsDiffer(w: Wire, j: Judged, d: Decoder, bytes: Text)
    requires Between(d) && PushAll(w.lossy, d, Bytewise(bytes)).1.Ok? && !Decided(j)
    requires !QuietAfterStop(w, j, PushAll(w.lossy, d, Bytewise(bytes)).1.events)
    ensures var (e, r) := PushAll(w.lossy, d, Bytewise(bytes));
            CutVerdict(w, j, d, Bytewise(bytes)) != WholeVerdict(w, j, e, r.events)
    decreases |bytes|
  {
    hide PushBytes, FinishStream, JudgeEvent;
    if bytes != [] {
      var (e, r) := PushBytes(w.lossy, d, [bytes[0]]);
      var rest := PushAll(w.lossy, e, Bytewise(bytes[1..])).1.events;
      assert Bytewise(bytes)[1..] == Bytewise(bytes[1..]);
      OneByteOneEvent(w.lossy, d, bytes[0]);
      PushIsDecode(w.lossy, d, [bytes[0]]);
      JudgeConcat(w, j, r.events, rest);
      var k := JudgeAll(w, j, r.events);
      if r.events != [] { assert r.events[1..] == []; }
      assert QuietAfterStop(w, j, r.events);
      if k.Broken? {
        BrokenStays(w, k, rest);
      } else if k.stop {
        QuietExactly(w, k, rest);
        ToolsGrow(w, k, rest);
      } else {
        LoudCutsDiffer(w, k, e, bytes[1..]);
      }
    }
  }

  // --- the pump against the verdict ------------------------------------------------------------

  /** Chunks and pings only: the upstream does not break off, and the client does not leave while the pump waits. */
  predicate Calm(items: seq<Item>) {
    forall x :: x in items ==> x.Chunk? || x.Tick?
  }

  /** The pump's running state is the judgement so far. */
  predicate Follows(p: Pump, j: Judged) {
    j.Going? && p.toolCalls == j.tools && p.cleanStop == j.stop
  }

  lemma {:induction false} ProcessFollows(w: Wire, p: Pump, j: Judged, events: seq<SseEvent>)
    requires !p.finished && p.verdicts == [] && Follows(p, j)
    ensures var (q, said) := ProcessEvents(w, p, events); var k := JudgeAll(w, j, events);
      && q.decoder == p.decoder && q.over == p.over
      && (said.terminate <==> k.Broken?)
      && (k.Broken? ==> q.finished && q.verdicts == [OutcomeOf(k)])
      && (!k.Broken? ==> !q.finished && q.verdicts == [] && Follows(q, k) && said == GO_ON)
    decreases |events|
  {
    if events != [] {
      var e, k := events[0], JudgeEvent(w, j, events[0]);
      if k.Broken? {
        BrokenStays(w, k, events[1..]);
      } else {
        ProcessFollows(w, p.(toolCalls := k.tools, cleanStop := k.stop), k, events[1..]);
      }
    }
  }

  /** What the pump does with the events of one chunk, for a client that stays. */
  lemma ReactFollows(w: Wire, c: Client, p: Pump, j: Judged, events: seq<SseEvent>)
    requires Stays(c) && !p.over && !p.finished && p.verdicts == [] && Follows(p, j) && !j.stop
    ensures var q := React(w, c, p, events); var k := JudgeAll(w, j, events);
      && q.decoder == p.decoder
      && (q.over <==> Decided(k))
      && (Decided(k) ==> q.verdicts == [OutcomeOf(k)])
      && (!Decided(k) ==> !q.finished && q.verdicts == [] && Follows(q, k))
  {
    hide ProcessEvents, JudgeAll;
    ProcessFollows(w, p, j, events);
  }

  /** For a client that stays, the recorded verdict is the verdict of the cut, whatever the ping schedule. */
  lemma {:induction false} DrainedVerdict(w: Wire, c: Client, p: Pump, j: Judged, items: seq<Item>)
    requires Stays(c) && Calm(items)
    requires PushAll(w.lossy, p.decoder, Forwardable(items)).1.Ok?
    requires Follows(p, j) && !j.stop && !p.over && !p.finished && p.verdicts == []
    ensures Drained(w, c, p, items).verdicts == [CutVerdict(w, j, p.decoder, Forwardable(items))]
    decreases |items|
  {
    hide JudgeAll, PushBytes, FinishStream, React, ProcessEvents;
    if items == [] {
      var (d, r) := FinishStream(w.lossy, p.decoder);
      assert JudgeAll(w, j, []) == j by { JudgeNothing(w, j); }
      ReactFollows(w, c, p.(decoder := d), j, if r.Ok? then r.events else []);
    } else {
      assert items[0] in items;
      var q := Take(w, c, p, items[0]);
      match items[0]
      case Tick => DrainedVerdict(w, c, q, j, items[1..]);
      case Chunk(bytes) =>
        if bytes == [] {
          DrainedVerdict(w, c, q, j, items[1..]);
        } else {
          assert Forwardable(items)[0] == bytes && Forwardable(items)[1..] == Forwardable(items[1..]);
          ChunkFollows(w, c, p, j, bytes, false);
          var (e, r) := PushBytes(w.lossy, p.decoder, bytes);
          if !q.over { DrainedVerdict(w, c, q, JudgeAll(w, j, r.events), items[1..]); }
        }
    }
  }

  lemma JudgeNothing(w: Wire, j: Judged)
    ensures JudgeAll(w, j, []) == j
  {
  }

  lemma ChunkFollows(w: Wire, c: Client, p: Pump, j: Judged, bytes: Text, first: bool)
    requires Stays(c) && Follows(p, j) && !j.stop && !p.over && !p.finished && p.verdicts == []
    requires PushBytes(w.lossy, p.decoder, bytes).1.Ok?
    ensures var q, r := TakeChunk(w, c, p, bytes, first), PushBytes(w.lossy, p.decoder, bytes);
            var k := JudgeAll(w, j, r.1.events);
      && q.decoder == r.0 && (q.over <==> Decided(k))
      && (Decided(k) ==> q.verdicts == [OutcomeOf(k)])
      && (!Decided(k) ==> !q.finished && q.verdicts == [] && Follows(q, k))
  {
    hide JudgeAll, PushBytes, React;
    var (e, r) := PushBytes(w.lossy, p.decoder, bytes);
    ReactFollows(w, c, Emit(c, p.(decoder := e, committed := true), Upstream(bytes)), j, r.events);
  }

  lemma BodyVerdict(w: Wire, c: Client, first: Text, items: seq<Item>)
    requires Stays(c) && Calm(items)
    requires PushAll(w.lossy, FRESH, [first] + Forwardable(items)).1.Ok?
    ensures Body(w, c, first, items).verdicts == [CutVerdict(w, Going(0, false), FRESH, [first] + Forwardable(items))]
  {
    hide JudgeAll, PushBytes, TakeChunk, Drained;
    var j, chunks := Going(0, false), [first] + Forwardable(items);
    var (e, r) := PushBytes(w.lossy, FRESH, first);
    assert chunks[0] == first && chunks[1..] == Forwardable(items);
    ChunkFollows(w, c, START, j, first, true);
    var p := TakeChunk(w, c, START, first, true);
    if p.over { DrainedOver(w, c, p, items); } else { DrainedVerdict(w, c, p, JudgeAll(w, j, r.events), items); }
  }

  lemma DrainedOver(w: Wire, c: Client, p: Pump, items: seq<Item>)
    requires p.over
    ensures Drained(w, c, p, items) == p
  {
  }

  /** The verdict of a byte string, with no chunks in sight. */
  function BytesVerdict(w: Wire, bytes: Text): Outcome {
    var (d, events) := Decode(w.lossy, NOTHING, bytes);
    WholeVerdict(w, Going(0, false), d, events)
  }

  /** Any accepted cut of a quiet stream, with any pings: the verdict is that of the whole byte string. */
  lemma QuietStreamVerdict(w: Wire, c: Client, first: Text, items: seq<Item>)
    requires Stays(c) && Calm(items)
    requires PushAll(w.lossy, FRESH, [first] + Forwardable(items)).1.Ok?
    requires QuietAfterStop(w, Going(0, false), Decode(w.lossy, NOTHING, Flatten([first] + Forwardable(items))).1)
    ensures Body(w, c, first, items).verdicts == [BytesVerdict(w, Flatten([first] + Forwardable(items)))]
  {
    hide Body, CutVerdict, WholeVerdict, Decode;
    var chunks := [first] + Forwardable(items);
    BodyVerdict(w, c, first, items);
    ChunkingIsInvisible(w.lossy, FRESH, chunks);
    assert FRESH.buffer + Flatten(chunks) == Flatten(chunks);
    QuietCutsAgree(w, Going(0, false), FRESH, chunks);
  }

  function Chunks(cut: seq<Text>): seq<Item> {
    if cut == [] then [] else [Chunk(cut[0])] + Chunks(cut[1..])
  }

  lemma {:induction false} ChunksForwarded(cut: seq<Text>)
    requires forall i :: 0 <= i < |cut| ==> cut[i] != []
    ensures Forwardable(Chunks(cut)) == cut && Calm(Chunks(cut))
  {
    if cut != [] {
      ChunksForwarded(cut[1..]);
      assert Chunks(cut)[0] == Chunk(cut[0]) && Chunks(cut)[1..] == Chunks(cut[1..]);
    }
  }

  predicate CutOf(first: Text, items: seq<Item>, bytes: Text) {
    Calm(items) && Flatten([first] + Forwardable(items)) == bytes
  }

  ghost predicate CutMatters(w: Wire, c: Client, bytes: Text) {
    exists first, items :: CutOf(first, items, bytes) && Body(w, c, first, items).verdicts != [BytesVerdict(w, bytes)]
  }

  /**
   * Exactly when chunk boundaries and pings cannot change the verdict on bytes within the size limit: nothing
   * after the first message_stop would count a tool call or fail.
   */
  lemma VerdictIgnoresCutsExactly(w: Wire, c: Client, bytes: Text)
    requires Stays(c) && bytes != [] && PushBytes(w.lossy, FRESH, bytes).1.Ok?
    ensures !CutMatters(w, c, bytes) <==> QuietAfterStop(w, Going(0, false), Decode(w.lossy, NOTHING, bytes).1)
  {
    hide Body, CutVerdict, Decode, PushBytes, PushAll, Flatten, QuietAfterStop, BytesVerdict;
    if QuietAfterStop(w, Going(0, false), Decode(w.lossy, NOTHING, bytes).1) {
      forall first, items | CutOf(first, items, bytes)
        ensures Body(w, c, first, items).verdicts == [BytesVerdict(w, bytes)]
      {
        EveryCutIsAccepted(w.lossy, FRESH, [first] + Forwardable(items));
        QuietStreamVerdict(w, c, first, items);
      }
    } else {
      LoudStreamDiffers(w, c, bytes);
    }
  }

  lemma {:induction false} BytewiseNonempty(bytes: Text)
    ensures forall i :: 0 <= i < |Bytewise(bytes)| ==> Bytewise(bytes)[i] != []
  {
    if bytes != [] { BytewiseNonempty(bytes[1..]); }
  }

  lemma LoudStreamDiffers(w: Wire, c: Client, bytes: Text)
    requires Stays(c) && bytes != [] && PushBytes(w.lossy, FRESH, bytes).1.Ok?
    requires !QuietAfterStop(w, Going(0, false), Decode(w.lossy, NOTHING, bytes).1)
    ensures CutMatters(w, c, bytes)
  {
    var cut := Bytewise(bytes);
    var first, items := cut[0], Chunks(cut[1..]);
    BytewiseFlat(bytes);
    BytewiseNonempty(bytes);
    ChunksForwarded(cut[1..]);
    assert [first] + Forwardable(items) == cut;
    hide Body, CutVerdict, WholeVerdict, Decode, PushBytes, PushAll, Flatten, QuietAfterStop, Bytewise, Chunks;
    EveryCutIsAccepted(w.lossy, FRESH, cut);
    PushIsDecode(w.lossy, FRESH, bytes);
    assert FRESH.buffer + bytes == bytes;
    LoudCutsDiffer(w, Going(0, false), FRESH, bytes);
    BodyVerdict(w, c, first, items);
    assert CutOf(first, items, bytes);
  }
}

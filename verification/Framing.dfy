/** What parsing a packet is meant to compute, without the parser's loop: a packet is a
    sequence of length-prefixed frames, and the k-th accepted frame is decoded into slot k
    of the caller's buffer. A protocol says which frames are accepted and how one is
    decoded. */
module Framing {
  import opened Lists
  import opened Types

  type Body = seq<Byte>

  /** Stock locate to symbol. */
  type Stocks = map<nat, seq<Byte>>

  datatype Protocol = Protocol(
    accepts: Body -> bool,
    tooShort: Body -> bool,
    decode: (Body, nat, NormalizedMessage) -> NormalizedMessage,
    note: (Stocks, Body) -> Stocks)
  {
    /** Neither accepted nor an error. */
    function Skips(): Body -> bool { body => !accepts(body) && !tooShort(body) }

    function Decoder(local: nat): (Body, NormalizedMessage) -> NormalizedMessage {
      (body, out) => decode(body, local, out)
    }

    /** No frame is both accepted and too short, and a refused frame changes nothing. */
    ghost predicate Valid() {
      && (forall body :: accepts(body) ==> !tooShort(body))
      && (forall body, local, out :: !accepts(body) ==> decode(body, local, out) == out)
    }
  }

  /** The longest well-formed sequence of frames from some offset on, and how many bytes
      are left over: fewer than three, or a frame with a bad length. */
  datatype Split = Split(frames: seq<Body>, left: nat)

  /** The length field at an offset, which counts itself. */
  function LengthAt(d: seq<Byte>, offset: nat): nat
    requires offset + 2 <= |d|
  {
    256 * (d[offset] as int) + d[offset + 1]
  }

  predicate FrameAt(d: seq<Byte>, offset: nat) {
    offset + 3 <= |d| && 3 <= LengthAt(d, offset) <= |d| - offset
  }

  function SplitFrom(d: seq<Byte>, offset: nat): Split
    requires offset <= |d|
    decreases |d| - offset
  {
    if !FrameAt(d, offset) then Split([], |d| - offset)
    else
      var next := offset + LengthAt(d, offset);
      var more := SplitFrom(d, next);
      Split([d[offset + 2..next]] + more.frames, more.left)
  }

  function SplitFrames(d: seq<Byte>): Split { SplitFrom(d, 0) }

  datatype ParserState = ParserState(parsed: Word64, errors: Word64, stocks: Stocks)

  const FRESH := ParserState(0, 0, map[])

  datatype Parsed = Parsed(state: ParserState, buffer: seq<NormalizedMessage>, count: nat)

  /** The frames of a view that the parser gets to: all well-formed ones, or up to the one
      that fills the output. */
  function Visited(pr: Protocol, view: MessageView, max: nat): seq<Body> {
    if view.IsValid() then UpTo(pr.accepts, SplitFrames(view.data.value).frames, max) else []
  }

  function Accepted(pr: Protocol, view: MessageView, max: nat): seq<Body> {
    Filter(pr.accepts, Visited(pr, view, max))
  }

  predicate StopsOnBadLength(pr: Protocol, view: MessageView, max: nat) {
    view.IsValid() && SplitFrames(view.data.value).left >= 3 && |Accepted(pr, view, max)| < max
  }

  /** What one packet adds to the error counter. */
  function PacketErrors(pr: Protocol, view: MessageView, max: nat): nat {
    |Filter(pr.tooShort, Visited(pr, view, max))| + if StopsOnBadLength(pr, view, max) then 1 else 0
  }

  function NoteAll(pr: Protocol, stocks: Stocks, frames: seq<Body>): Stocks {
    if frames == [] then stocks
    else pr.note(NoteAll(pr, stocks, frames[..|frames| - 1]), frames[|frames| - 1])
  }

  function ParsePacket(pr: Protocol, st: ParserState, buffer: seq<NormalizedMessage>, view: MessageView, max: nat)
    : Parsed
  {
    var visited := Visited(pr, view, max);
    var accepted := Accepted(pr, view, max);
    Parsed(
      ParserState(
        Add64(st.parsed, |accepted|),
        Add64(st.errors, PacketErrors(pr, view, max)),
        NoteAll(pr, st.stocks, visited)),
      Overlay(pr.Decoder(view.timestamp), buffer, accepted),
      |accepted|)
  }

  // ------------------------------------------------ the loop computes just that

  /** One message: the counters, the stock map and the next output slot. */
  function ParseOne(pr: Protocol, p: Parsed, body: Body, local: nat): Parsed {
    Parsed(
      ParserState(p.state.parsed, Add64(p.state.errors, if pr.tooShort(body) then 1 else 0),
                  pr.note(p.state.stocks, body)),
      if p.count < |p.buffer| then p.buffer[p.count := pr.decode(body, local, p.buffer[p.count])] else p.buffer,
      p.count + if pr.accepts(body) then 1 else 0)
  }

  function BadLength(p: Parsed): Parsed {
    p.(state := p.state.(errors := Add64(p.state.errors, 1)))
  }

  /** The loop of `parse` as a recursion over the offset. */
  function Loop(pr: Protocol, p: Parsed, d: seq<Byte>, offset: nat, local: nat, max: nat): Parsed
    requires offset <= |d|
    decreases |d| - offset
  {
    if |d| - offset < 3 || p.count >= max then p
    else if !FrameAt(d, offset) then BadLength(p)
    else
      var next := offset + LengthAt(d, offset);
      Loop(pr, ParseOne(pr, p, d[offset + 2..next], local), d, next, local, max)
  }

  function ParseEach(pr: Protocol, p: Parsed, frames: seq<Body>, local: nat): Parsed
    decreases frames
  {
    if frames == [] then p else ParseEach(pr, ParseOne(pr, p, frames[0], local), frames[1..], local)
  }

  lemma ParseEachCons(pr: Protocol, p: Parsed, body: Body, frames: seq<Body>, local: nat)
    ensures ParseEach(pr, p, [body] + frames, local) == ParseEach(pr, ParseOne(pr, p, body, local), frames, local)
  {
    Uncons(body, frames);
  }

  function Outcome(q: Parsed, left: nat, max: nat): Parsed {
    if left >= 3 && q.count < max then BadLength(q) else q
  }

  /** The loop visits exactly the frames up to the cap, and notices a bad length exactly
      when it runs into one with room left. */
  lemma {:induction false} LoopVisits(pr: Protocol, p: Parsed, d: seq<Byte>, offset: nat, local: nat, max: nat)
    requires p.count <= max && offset <= |d|
    ensures var split := SplitFrom(d, offset);
      Loop(pr, p, d, offset, local, max)
      == Outcome(ParseEach(pr, p, UpTo(pr.accepts, split.frames, max - p.count), local), split.left, max)
    decreases |d| - offset
  {
    var split := SplitFrom(d, offset);
    if p.count == max {
      assert UpTo(pr.accepts, split.frames, 0) == [];
    } else if FrameAt(d, offset) {
      var next := offset + LengthAt(d, offset);
      var body, more := d[offset + 2..next], SplitFrom(d, next);
      var p' := ParseOne(pr, p, body, local);
      LoopVisits(pr, p', d, next, local, max);
      UpToCons(pr.accepts, body, more.frames, max - p.count);
      ParseEachCons(pr, p, body, UpTo(pr.accepts, more.frames, max - p'.count), local);
    }
  }

  /** Where the parser is after the frames `seen`. */
  ghost function After(pr: Protocol, st: ParserState, buffer: seq<NormalizedMessage>, seen: seq<Body>, local: nat)
    : Parsed
  {
    var accepted := Filter(pr.accepts, seen);
    Parsed(ParserState(st.parsed, Add64(st.errors, |Filter(pr.tooShort, seen)|), NoteAll(pr, st.stocks, seen)),
           Overlay(pr.Decoder(local), buffer, accepted), |accepted|)
  }

  lemma AfterOne(pr: Protocol, st: ParserState, buffer: seq<NormalizedMessage>, seen: seq<Body>, body: Body, local: nat)
    requires pr.Valid()
    ensures After(pr, st, buffer, seen + [body], local) == ParseOne(pr, After(pr, st, buffer, seen, local), body, local)
  {
    AfterState(pr, st, seen, body);
    AfterBuffer(pr, buffer, seen, body, local);
  }

  lemma AfterState(pr: Protocol, st: ParserState, seen: seq<Body>, body: Body)
    ensures Add64(st.errors, |Filter(pr.tooShort, seen + [body])|)
         == Add64(Add64(st.errors, |Filter(pr.tooShort, seen)|), if pr.tooShort(body) then 1 else 0)
    ensures NoteAll(pr, st.stocks, seen + [body]) == pr.note(NoteAll(pr, st.stocks, seen), body)
  {
    FilterSnoc(pr.tooShort, seen, body);
    Add64Twice(st.errors, |Filter(pr.tooShort, seen)|, if pr.tooShort(body) then 1 else 0);
    Unsnoc(seen, body);
  }

  lemma AfterBuffer(pr: Protocol, buffer: seq<NormalizedMessage>, seen: seq<Body>, body: Body, local: nat)
    requires pr.Valid()
    ensures var k, before := |Filter(pr.accepts, seen)|, Overlay(pr.Decoder(local), buffer, Filter(pr.accepts, seen));
      && |Filter(pr.accepts, seen + [body])| == k + (if pr.accepts(body) then 1 else 0)
      && Overlay(pr.Decoder(local), buffer, Filter(pr.accepts, seen + [body]))
         == if k < |before| then before[k := pr.decode(body, local, before[k])] else before
  {
    FilterSnoc(pr.accepts, seen, body);
    NothingAfter(Filter(pr.accepts, seen));
    OverlaySnoc(pr.Decoder(local), buffer, Filter(pr.accepts, seen), body);
  }

  lemma {:induction false} AfterEach(pr: Protocol, st: ParserState, buffer: seq<NormalizedMessage>, seen: seq<Body>,
                                     frames: seq<Body>, local: nat)
    requires pr.Valid()
    ensures ParseEach(pr, After(pr, st, buffer, seen, local), frames, local)
         == After(pr, st, buffer, seen + frames, local)
    decreases frames
  {
    if frames == [] {
      NothingAfter(seen);
    } else {
      AfterOne(pr, st, buffer, seen, frames[0], local);
      AfterEach(pr, st, buffer, seen + [frames[0]], frames[1..], local);
      Regroup(seen, frames);
    }
  }

  lemma AfterNothing(pr: Protocol, st: ParserState, buffer: seq<NormalizedMessage>, local: nat)
    ensures After(pr, st, buffer, [], local) == Parsed(st, buffer, 0)
  {
    assert Overlay(pr.Decoder(local), buffer, []) == buffer;
  }

  lemma LoopIsOutcome(pr: Protocol, st: ParserState, buffer: seq<NormalizedMessage>, d: seq<Byte>, local: nat, max: nat)
    requires pr.Valid()
    ensures var split := SplitFrames(d);
      Loop(pr, Parsed(st, buffer, 0), d, 0, local, max)
      == Outcome(After(pr, st, buffer, UpTo(pr.accepts, split.frames, max), local), split.left, max)
  {
    var visited := UpTo(pr.accepts, SplitFrames(d).frames, max);
    LoopVisits(pr, Parsed(st, buffer, 0), d, 0, local, max);
    AfterNothing(pr, st, buffer, local);
    AfterEach(pr, st, buffer, [], visited, local);
    NothingBefore(visited);
  }

  lemma OutcomeIsSpec(pr: Protocol, st: ParserState, buffer: seq<NormalizedMessage>, view: MessageView, max: nat)
    requires view.IsValid()
    ensures var visited := Visited(pr, view, max);
      var p := Outcome(After(pr, st, buffer, visited, view.timestamp), SplitFrames(view.data.value).left, max);
      p.(state := p.state.(parsed := Add64(p.state.parsed, p.count))) == ParsePacket(pr, st, buffer, view, max)
  {
    Add64Twice(st.errors, |Filter(pr.tooShort, Visited(pr, view, max))|, 1);
  }

  /** So the loop computes what `ParsePacket` says. */
  lemma LoopMeetsSpec(pr: Protocol, st: ParserState, buffer: seq<NormalizedMessage>, view: MessageView, max: nat)
    requires pr.Valid() && view.IsValid()
    ensures var p := Loop(pr, Parsed(st, buffer, 0), view.data.value, 0, view.timestamp, max);
      p.(state := p.state.(parsed := Add64(p.state.parsed, p.count))) == ParsePacket(pr, st, buffer, view, max)
  {
    LoopIsOutcome(pr, st, buffer, view.data.value, view.timestamp, max);
    OutcomeIsSpec(pr, st, buffer, view, max);
  }

  lemma NothingParsed(pr: Protocol, st: ParserState, buffer: seq<NormalizedMessage>, view: MessageView, max: nat)
    requires !view.IsValid() || max == 0
    ensures ParsePacket(pr, st, buffer, view, max) == Parsed(st, buffer, 0)
  {
    assert Overlay(pr.Decoder(view.timestamp), buffer, []) == buffer;
  }

  /** Where the loop ends up from here. It is `Loop` under a name that does not recurse: an
      invariant about it is carried through a round without unfolding the recursion. */
  function Rest(pr: Protocol, p: Parsed, d: seq<Byte>, offset: nat, local: nat, max: nat): Parsed
    requires offset <= |d|
  {
    Loop(pr, p, d, offset, local, max)
  }

  /** One round of the loop: it is over, runs into a bad length, or does the next frame. */
  lemma LoopStops(pr: Protocol, p: Parsed, d: seq<Byte>, offset: nat, local: nat, max: nat)
    requires offset <= |d|
    ensures |d| - offset < 3 || p.count >= max ==> Rest(pr, p, d, offset, local, max) == p
    ensures |d| - offset >= 3 && p.count < max && !FrameAt(d, offset) ==>
      Rest(pr, p, d, offset, local, max) == BadLength(p)
  {
  }

  lemma LoopStep(pr: Protocol, p: Parsed, d: seq<Byte>, offset: nat, next: nat, local: nat, max: nat)
    requires p.count < max && FrameAt(d, offset) && next == offset + LengthAt(d, offset)
    ensures Rest(pr, ParseOne(pr, p, d[offset + 2..next], local), d, next, local, max)
         == Rest(pr, p, d, offset, local, max)
  {
  }
}

/** The receiver and the engine as objects: what one datagram does to the ring, and one
    round of the parse loop. */
module Engine {
  import opened Bits
  import opened Lists
  import opened Types
  import opened Framing
  import opened ItchFormat
  import ParserTheorems
  import ItchParser
  import D = Dispatcher
  import opened SpscObject

  class UDPReceiver {
    const ring: SPSCQueue<Packet>
    var packetsReceived: nat
    var packetsDropped: nat
    var sequence: nat

    ghost predicate Valid()
      reads this, ring, ring.buffer
    {
      ring.Valid() && ring.size == PACKET_RING_SIZE && sequence < TWO_32
    }

    constructor ()
      ensures Valid() && fresh(ring) && fresh(ring.buffer)
      ensures ring.Contents() == [] && packetsReceived == packetsDropped == sequence == 0
    {
      WordSizes();
      Pow2Sum(6, 8);
      Pow2IsPowerOfTwo(14);
      ring := new SPSCQueue(PACKET_RING_SIZE);
      packetsReceived, packetsDropped, sequence := 0, 0, 0;
    }

    /** What the receive loop does with a datagram: a full ring drops it. */
    method Receive(data: seq<Byte>, now: Word64)
      requires Valid() && 1 <= |data| <= MAX_PACKET_SIZE
      modifies this, ring, ring.buffer
      ensures Valid() && sequence == old(sequence)
      ensures if |old(ring.Contents())| < PACKET_RING_SIZE - 1 then
          && ring.Contents() == old(ring.Contents()) + [Packet(data, now)]
          && packetsReceived == old(packetsReceived) + 1 && packetsDropped == old(packetsDropped)
        else
          && ring.Contents() == old(ring.Contents())
          && packetsReceived == old(packetsReceived) && packetsDropped == old(packetsDropped) + 1
    {
      var ok := ring.Push(Packet(data, now));
      ghost var held := ring.Contents();
      if ok {
        packetsReceived := packetsReceived + 1;
      } else {
        packetsDropped := packetsDropped + 1;
      }
      assert ring.Contents() == held;
    }

    /** The oldest packet leaves the ring as a view with the next 32-bit number. */
    method ReadPacket() returns (ok: bool, view: MessageView)
      requires Valid()
      modifies this, ring, ring.buffer
      ensures Valid() && packetsReceived == old(packetsReceived) && packetsDropped == old(packetsDropped)
      ensures ok == (old(ring.Contents()) != [])
      ensures !ok ==> ring.Contents() == [] && sequence == old(sequence)
      ensures ok ==>
        var packet := old(ring.Contents())[0];
        && view == MessageView(Some(packet.data), packet.timestamp, old(sequence))
        && ring.Contents() == old(ring.Contents())[1..]
        && sequence == Next32(old(sequence))
    {
      var packet;
      ok, packet := ring.Pop();
      view := MessageView(None, 0, 0);
      if ok {
        view := MessageView(Some(packet.data), packet.timestamp, sequence);
        ghost var rest := ring.Contents();
        sequence := Next32(sequence);
        assert ring.Contents() == rest;
      }
    }
  }

  /** What a round of the parse loop works on: the packets waiting in the ring, the number of
      the next one, the parser, the reused buffer, and the dispatcher's queues and counters. */
  datatype Work = Work(
    waiting: seq<Packet>, number: nat, parser: ParserState, buffer: seq<NormalizedMessage>, offering: D.Offering)

  /** A round: the oldest packet is parsed and its messages dispatched at the times `nows`. */
  function NextRound(pr: Protocol, w: Work, nows: seq<Word64>): Work
    requires |w.buffer| <= |nows|
  {
    if w.waiting == [] then w
    else
      var packet := w.waiting[0];
      var view := MessageView(Some(packet.data), packet.timestamp, w.number);
      var p := ParsePacket(pr, w.parser, w.buffer, view, |w.buffer|);
      ParserTheorems.CutAtCap(pr, w.parser, w.buffer, view, |w.buffer|);
      Work(w.waiting[1..], Next32(w.number), p.state, p.buffer,
           D.DispatchEach(w.offering, p.buffer[..p.count], nows))
  }

  class CoreEngine {
    const receiver: UDPReceiver
    const parser: ItchParser.ItchParser
    const dispatcher: D.Dispatcher
    /** The buffer the parse loop reuses for every packet. */
    const messages: array<NormalizedMessage>
    var messagesParsed: nat
    var parseErrors: nat
    /** The time each packet took, in the latency fields. */
    var timing: Statistics

    ghost predicate Valid()
      reads this, receiver, receiver.ring, receiver.ring.buffer, parser, dispatcher, messages
    {
      && receiver.Valid() && dispatcher.Valid()
      && messages as object != receiver.ring.buffer as object
    }

    ghost function Now(): Work
      reads this, receiver, receiver.ring, receiver.ring.buffer, parser, dispatcher, messages
      requires Valid()
    {
      Work(receiver.ring.Contents(), receiver.sequence, parser.State(), messages[..], dispatcher.State())
    }

    constructor (max: nat)
      ensures Valid() && messages.Length == max && parser.State() == FRESH && receiver.ring.Contents() == []
      ensures dispatcher.queues == [] && messagesParsed == parseErrors == 0 && timing == NO_STATISTICS
    {
      receiver := new UDPReceiver();
      parser := new ItchParser.ItchParser();
      dispatcher := new D.Dispatcher();
      messages := new NormalizedMessage[max](_ => DEFAULT_MESSAGE);
      messagesParsed, parseErrors, timing := 0, 0, NO_STATISTICS;
    }

    /** The messages of a packet are dispatched in order, each at its own time. */
    method DispatchFirst(count: nat, nows: seq<Word64>)
      requires dispatcher.Valid() && count <= messages.Length == |nows|
      modifies dispatcher
      ensures dispatcher.Valid() && dispatcher.delivered == old(dispatcher.delivered)
      ensures dispatcher.State() == D.DispatchEach(old(dispatcher.State()), messages[..count], nows)
    {
      for i := 0 to count
        invariant dispatcher.Valid() && dispatcher.delivered == old(dispatcher.delivered)
        invariant dispatcher.State() == D.DispatchEach(old(dispatcher.State()), messages[..i], nows)
      {
        dispatcher.Dispatch(messages[i], nows[i]);
        TakeOneMore(messages[..], i);
        assert messages[..i + 1] == messages[..i] + [messages[i]];
      }
    }

    /** A packet is parsed into the reused buffer and its messages dispatched, between the
        times `started` and `ended`. */
    method ParseView(view: MessageView, nows: seq<Word64>, started: Word64, ended: Word64)
      requires dispatcher.Valid() && |nows| == messages.Length
      modifies this, parser, dispatcher, messages
      ensures dispatcher.Valid() && dispatcher.delivered == old(dispatcher.delivered)
      ensures
        var p := ParsePacket(ITCH, old(parser.State()), old(messages[..]), view, messages.Length);
        && Parsed(parser.State(), messages[..], p.count) == p && p.count <= messages.Length
        && dispatcher.State() == D.DispatchEach(old(dispatcher.State()), p.buffer[..p.count], nows)
        && messagesParsed == old(messagesParsed) + p.count
        && parseErrors == old(parseErrors) + (if p.count == 0 then 1 else 0)
        && timing == old(timing).UpdateLatency(D.Latency(ended, started))
    {
      ParserTheorems.CutAtCap(ITCH, parser.State(), messages[..], view, messages.Length);
      var count := parser.Parse(view, messages, messages.Length);
      DispatchFirst(count, nows);
      messagesParsed := messagesParsed + count;
      if count == 0 {
        parseErrors := parseErrors + 1;
      }
      timing := timing.UpdateLatency(D.Latency(ended, started));
    }

    /** One round of `parse_loop`: a packet is read, parsed and its messages dispatched, at the
        times given; or the ring is empty and nothing changes. */
    method ParseRound(nows: seq<Word64>, started: Word64, ended: Word64) returns (ok: bool)
      requires Valid() && |nows| == messages.Length
      modifies this, receiver, receiver.ring, receiver.ring.buffer, parser, dispatcher, messages
      ensures Valid() && ok == (old(receiver.ring.Contents()) != [])
      ensures Now() == NextRound(ITCH, old(Now()), nows)
      ensures dispatcher.delivered == old(dispatcher.delivered)
      ensures receiver.packetsReceived == old(receiver.packetsReceived)
      ensures receiver.packetsDropped == old(receiver.packetsDropped)
      ensures !ok ==>
        && receiver.ring.Contents() == [] && receiver.sequence == old(receiver.sequence)
        && parser.State() == old(parser.State()) && dispatcher.State() == old(dispatcher.State())
        && messages[..] == old(messages[..]) && timing == old(timing)
        && messagesParsed == old(messagesParsed) && parseErrors == old(parseErrors)
      ensures ok ==>
        var packet := old(receiver.ring.Contents())[0];
        var view := MessageView(Some(packet.data), packet.timestamp, old(receiver.sequence));
        var p := ParsePacket(ITCH, old(parser.State()), old(messages[..]), view, messages.Length);
        && receiver.ring.Contents() == old(receiver.ring.Contents())[1..]
        && receiver.sequence == Next32(old(receiver.sequence))
        && Parsed(parser.State(), messages[..], p.count) == p && p.count <= messages.Length
        && dispatcher.State() == D.DispatchEach(old(dispatcher.State()), p.buffer[..p.count], nows)
        && messagesParsed == old(messagesParsed) + p.count
        && parseErrors == old(parseErrors) + (if p.count == 0 then 1 else 0)
        && timing == old(timing).UpdateLatency(D.Latency(ended, started))
    {
      var view;
      ok, view := receiver.ReadPacket();
      if ok {
        ParseView(view, nows, started, ended);
      }
    }
  }
}

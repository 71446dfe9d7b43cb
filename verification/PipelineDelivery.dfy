/** The engine does deliver: for every datagram there is a run, from the engine just built, at
    the end of which a subscriber has been given all that parsing the datagram produces. */
module PipelineDelivery {
  import opened Lists
  import opened Types
  import opened Framing
  import opened ItchFormat
  import opened ItchGenerator
  import opened ItchTheorems
  import opened ParserTheorems
  import opened P = Pipeline
  import opened PipelineInvariant
  import opened PipelineProgress
  import opened PipelineSteps
  import opened PipelineLife
  import opened PipelineItch
  import C = PipelineCalls
  import R = PipelineRound
  import D = Dispatcher
  import E = Engine
  import Q = SpscQueue

  /** The engine with an open socket and one subscriber, not started. */
  ghost function Prepared(c: Config): State {
    var s := P.Built(c);
    s.(socketOpen := true, dist := s.dist.(lanes := [Lane(Q.Empty(c.queueSize), [], 0, 0)]))
  }

  lemma Prepares(c: Config)
    ensures Leads(c, Any, P.Built(c), Prepared(c))
  {
    var open := P.Built(c).(socketOpen := true);
    One(c, Any, P.Built(c), Initialize(true));
    One(c, Any, open, AddSubscriber);
    assert open.dist.lanes + [Lane(Q.Empty(c.queueSize), [], 0, 0)] == [Lane(Q.Empty(c.queueSize), [], 0, 0)];
    Then(c, Any, P.Built(c), open, Prepared(c));
  }

  /** The engine up, with one subscriber and nothing received. */
  lemma Rises(c: Config) returns (s: State)
    requires Good(c)
    ensures Leads(c, Any, P.Built(c), s) && Inv(c, s)
    ensures s.net.pc.RecvTop? && s.par.pc.ParseTop? && s.dist.pc.ServeTop? && s.clock == 0
    ensures s.par.parser == FRESH && s.par.buffer == DefaultBuffer(c.max) && s.par.number == 0
    ensures Held(s.ring) == [] && |s.dist.lanes| == 1
    ensures Held(s.dist.lanes[0].queue) == [] && s.dist.lanes[0].delivered == []
  {
    Prepares(c);
    StartCompletes(c, Prepared(c));
    s := Started(c, Prepared(c));
    Then(c, Any, P.Built(c), Prepared(c), s);
    BuiltInv(c);
    LeadsInv(c, Any, P.Built(c), s);
  }

  /** An empty queue with room for all takes all, in order. */
  lemma {:induction false} TakesEach(stats: Statistics, msgs: seq<Msg>, nows: seq<Word64>)
    requires |msgs| <= |nows| && |msgs| < D.DEFAULT_QUEUE_SIZE
    ensures D.DispatchEach(D.Offering([[]], stats), msgs, nows).queues == [msgs]
  {
    if msgs != [] {
      var init := msgs[..|msgs| - 1];
      TakesEach(stats, init, nows);
      Snoc(msgs);
      assert D.OfferAll([init], msgs[|msgs| - 1]) == [init + [msgs[|msgs| - 1]]];
    }
  }

  /** The messages of one packet, from a fresh parser and buffer. */
  lemma FirstSession(pr: Protocol, max: nat, view: MessageView)
    ensures var r := ParsePacket(pr, FRESH, DefaultBuffer(max), view, max);
      r.count <= |r.buffer| && ParseSeries(pr, max, [view]).output == r.buffer[..r.count]
  {
    CutAtCap(pr, FRESH, DefaultBuffer(max), view, max);
    assert [view][..0] == [];
    var r := ParsePacket(pr, FRESH, DefaultBuffer(max), view, max);
    NothingBefore(r.buffer[..r.count]);
  }

  /** The datagram is received, ... */
  lemma GoesIn(c: Config, s: State, data: seq<Byte>, now: Word64) returns (s': State)
    requires Good(c) && Inv(c, s) && c.ringSize >= 2 && s.net.pc.RecvTop? && Held(s.ring) == []
    requires 1 <= |data| <= 9000 && now >= s.clock
    ensures Leads(c, Any, s, s') && Inv(c, s') && s'.par == s.par && s'.dist == s.dist && s'.clock == now
    ensures Held(s'.ring) == [Packet(data, now)]
  {
    s' := C.ReceiveAlone(c, s, data, now);
    LeadsWeaken(c, Receives, Any, s, s');
    LeadsInv(c, Any, s, s');
    NothingBefore([Packet(data, now)]);
  }

  /** ... parsed and dispatched, ... */
  lemma GoesThrough(c: Config, s: State, packet: Packet, nows: seq<Word64>) returns (s': State)
    requires Good(c) && Inv(c, s) && c.queueSize == D.DEFAULT_QUEUE_SIZE && c.max < D.DEFAULT_QUEUE_SIZE
    requires s.par.pc.ParseTop? && |nows| == c.max && R.Rising(nows, s.clock) && Held(s.ring) == [packet]
    requires s.par.parser == FRESH && s.par.buffer == DefaultBuffer(c.max) && s.par.number == 0
    requires |s.dist.lanes| == 1 && Held(s.dist.lanes[0].queue) == []
    ensures Leads(c, Any, s, s') && Inv(c, s') && s'.dist.pc == s.dist.pc
    ensures |s'.dist.lanes| == 1 && s'.dist.lanes[0].delivered == s.dist.lanes[0].delivered
    ensures Held(s'.dist.lanes[0].queue)
         == ParseSeries(c.protocol, c.max, [MessageView(Some(packet.data), packet.timestamp, 0)]).output
  {
    s' := R.RoundAlone(c, s, nows);
    LeadsWeaken(c, Parses, Any, s, s');
    LeadsInv(c, Any, s, s');
    OneQueue(s.dist.lanes);
    OneQueue(s'.dist.lanes);
    FirstRound(c.protocol, c.max, packet, s.dist.stats, nows);
  }

  lemma OneQueue(lanes: seq<Lane>)
    requires |lanes| == 1
    ensures R.HeldAll(lanes) == [Held(lanes[0].queue)]
  {
  }

  /** A round on one packet, from a fresh parser and an empty queue. */
  lemma FirstRound(pr: Protocol, max: nat, packet: Packet, stats: Statistics, nows: seq<Word64>)
    requires |nows| == max < D.DEFAULT_QUEUE_SIZE
    ensures var view := MessageView(Some(packet.data), packet.timestamp, 0);
      E.NextRound(pr, E.Work([packet], 0, FRESH, DefaultBuffer(max), D.Offering([[]], stats)), nows).offering.queues
      == [ParseSeries(pr, max, [view]).output]
  {
    var view := MessageView(Some(packet.data), packet.timestamp, 0);
    var p := ParsePacket(pr, FRESH, DefaultBuffer(max), view, max);
    FirstSession(pr, max, view);
    CutAtCap(pr, FRESH, DefaultBuffer(max), view, max);
    TakesEach(stats, p.buffer[..p.count], nows);
  }

  /** ... and delivered. */
  lemma ComesOut(c: Config, s: State) returns (s': State)
    requires Good(c) && Inv(c, s) && s.dist.pc.ServeTop? && |s.dist.lanes| == 1
    ensures Leads(c, Any, s, s') && |s'.dist.lanes| == 1
    ensures s'.dist.lanes[0].delivered == s.dist.lanes[0].delivered + Held(s.dist.lanes[0].queue)
  {
    s' := C.DrainAlone(c, s);
    LeadsWeaken(c, Serves, Any, s, s');
  }

  lemma FreshRun(c: Config)
    ensures IsRun(c, [P.Built(c)], [])
  {
  }

  /** Every datagram of 1 to 9000 bytes can be delivered: there is a run from the engine just
      built in which it arrives and the subscriber is given exactly what parsing it produces. */
  lemma DatagramDelivered(c: Config, data: seq<Byte>, now: Word64, nows: seq<Word64>)
      returns (run: seq<State>, acts: seq<Action>)
    requires Good(c) && c.ringSize >= 2 && c.queueSize == D.DEFAULT_QUEUE_SIZE && c.max < D.DEFAULT_QUEUE_SIZE
    requires 1 <= |data| <= 9000 && |nows| == c.max && R.Rising(nows, now)
    ensures IsRun(c, run, acts)
    ensures var lanes := run[|acts|].dist.lanes;
      && |lanes| == 1
      && lanes[0].delivered == ParseSeries(c.protocol, c.max, [MessageView(Some(data), now, 0)]).output
  {
    var up := Rises(c);
    var received := GoesIn(c, up, data, now);
    var queued := GoesThrough(c, received, Packet(data, now), nows);
    var done := ComesOut(c, queued);
    Then(c, Any, P.Built(c), up, received);
    Then(c, Any, P.Built(c), received, queued);
    Then(c, Any, P.Built(c), queued, done);
    FreshRun(c);
    run, acts := Extends(c, Any, [P.Built(c)], [], done);
    NothingBefore(done.dist.lanes[0].delivered);
    NothingBefore(Held(queued.dist.lanes[0].queue));
  }

  /** With the ITCH parser and a packet of built messages, the subscriber is given one record
      for each of them, in order, with everything it carries and the receive time. */
  lemma BuiltDelivered(c: Config, ms: seq<Built>, now: Word64, nows: seq<Word64>)
      returns (run: seq<State>, acts: seq<Action>)
    requires Good(c) && c.ringSize >= 2 && c.queueSize == D.DEFAULT_QUEUE_SIZE && c.max < D.DEFAULT_QUEUE_SIZE
    requires c.protocol == ITCH && |ms| <= c.max && 1 <= |Framed(Bodies(ms))| <= 9000
    requires |nows| == c.max && R.Rising(nows, now)
    ensures IsRun(c, run, acts)
    ensures var lanes := run[|acts|].dist.lanes;
      |lanes| == 1 && AllCarried(SentIn(ms, now), lanes[0].delivered)
  {
    var view := MessageView(Some(Framed(Bodies(ms))), now, 0);
    run, acts := DatagramDelivered(c, Framed(Bodies(ms)), now, nows);
    assert IsBuilt(view, SentIn(ms, now), c.max);
    FirstSession(ITCH, c.max, view);
    PacketCarried(SentIn(ms, now), FRESH, DefaultBuffer(c.max), view, c.max);
  }
}

/** What holds in every state of every run of the engine, whatever the threads'
    interleaving, the staleness of their reads, the datagrams, and the starts and stops. */
module PipelineTheorems {
  import opened Lists
  import opened Bits
  import opened Types
  import opened Framing
  import opened ParserTheorems
  import opened Pipeline
  import opened PipelineInvariant
  import D = Dispatcher

  // ------------------------------------------------------------ the receiver

  /** Every datagram whose push is over was received or dropped; the ring accepts, in arrival
      order, exactly the received ones; those were read, or wait in the ring, in order; and
      the packets read are numbered consecutively modulo 2^32. */
  lemma ReceiverAccounting(c: Config, run: seq<State>, acts: seq<Action>, i: nat)
    requires Good(c) && IsRun(c, run, acts) && i < |run|
    ensures var s := run[i]; var read := ReadPackets(s.ring, s.par.pc);
      var held := if s.par.pc.Holding? then [s.par.pc.packet] else [];
      && |s.net.arrived| == s.net.received + s.net.dropped + (if s.net.pc.RecvPushing? then 1 else 0)
      && Subsequence(s.ring.pushed, s.net.arrived)
      && s.net.received == |s.ring.pushed|
      && |s.ring.popped| <= |s.ring.pushed|
      && s.ring.pushed == read + held + s.ring.pushed[|s.ring.popped|..]
      && |s.ring.pushed| - |s.ring.popped| <= c.ringSize - 1
      && |Flatten(s.par.sessions)| == |read|
      && forall k :: 0 <= k < |read| ==>
           Flatten(s.par.sessions)[k] == MessageView(Some(read[k].data), read[k].timestamp, k % TWO_32)
  {
    RunInv(c, run, acts, i);
    var s := run[i];
    if s.net.pc.RecvPushing? {
      Snoc(s.net.arrived);
      SubsequenceLonger(s.ring.pushed, Settled(s.net), s.net.pc.packet);
    }
    if s.par.pc.Holding? { Snoc(s.ring.popped); } else { NothingAfter(s.ring.popped); }
    PrefixRest(s.ring.popped, s.ring.pushed);
  }

  // -------------------------------------------------------------- end to end

  /** What a subscriber was given, is about to be given, and has waiting. */
  function Seen(lane: Lane, pc: Serving, j: nat): seq<Msg> {
    lane.delivered + (if pc.Delivering? && pc.q == j then [pc.msg] else [])
    + (if |lane.queue.popped| <= |lane.queue.pushed| then lane.queue.pushed[|lane.queue.popped|..] else [])
  }

  lemma SeenIsPushed(n: nat, lane: Lane, par: Par, pc: Serving, j: nat, dispatched: seq<Msg>)
    requires LaneInv(n, lane, WorkAt(par, pc, j), dispatched)
    ensures Seen(lane, pc, j) == lane.queue.pushed
  {
    PrefixRest(lane.queue.popped, lane.queue.pushed);
  }

  lemma OfferedIsProduced(c: Config, s: State, j: nat)
    requires Inv(c, s) && j < |s.dist.lanes|
    ensures var lane, all := s.dist.lanes[j], Produced(c, s.par.sessions);
      && lane.joined <= |all|
      && OfferedTo(lane, s.dist.dispatched, WorkAt(s.par, s.dist.pc, j).current) <= all[lane.joined..]
  {
    var w, lane := WorkAt(s.par, s.dist.pc, j), s.dist.lanes[j];
    assert LaneInv(c.queueSize, lane, w, s.dist.dispatched);
    var pending := Pending(s.par);
    assert w.current <= pending;
    SliceOfJoin(s.dist.dispatched, w.current, pending, lane.joined);
  }

  /** Each subscriber sees, in order, a subsequence of what parsing produced after it joined.
      What was produced comes from the packets read, session by session, and those are the
      oldest of the packets accepted, which are a subsequence of the datagrams that
      arrived. */
  lemma EndToEndOrder(c: Config, run: seq<State>, acts: seq<Action>, i: nat, j: nat)
    requires Good(c) && IsRun(c, run, acts) && i < |run| && j < |run[i].dist.lanes|
    ensures var s := run[i]; var lane, all := s.dist.lanes[j], Produced(c, s.par.sessions);
      && lane.joined <= |all|
      && Subsequence(Seen(lane, s.dist.pc, j), all[lane.joined..])
      && lane.delivered <= Seen(lane, s.dist.pc, j)
      && Flatten(s.par.sessions) == Views(ReadPackets(s.ring, s.par.pc))
      && ReadPackets(s.ring, s.par.pc) <= s.ring.pushed
      && Subsequence(s.ring.pushed, s.net.arrived)
  {
    RunInv(c, run, acts, i);
    ReceiverAccounting(c, run, acts, i);
    var s := run[i];
    var w, lane := WorkAt(s.par, s.dist.pc, j), s.dist.lanes[j];
    assert LaneInv(c.queueSize, lane, w, s.dist.dispatched);
    SeenIsPushed(c.queueSize, lane, s.par, s.dist.pc, j, s.dist.dispatched);
    OfferedIsProduced(c, s, j);
    SubsequenceWiden(lane.queue.pushed, OfferedTo(lane, s.dist.dispatched, w.current),
                     Produced(c, s.par.sessions)[lane.joined..]);
  }

  // ------------------------------------------------------------ conservation

  /** The parser thread is not inside `dispatch`. */
  predicate BetweenMessages(s: State) { !s.par.pc.Sending? && !s.par.pc.Pushing? }

  function SeenCounts(dist: Dist): (r: seq<nat>)
    ensures |r| == |dist.lanes|
  {
    seq(|dist.lanes|, j requires 0 <= j < |dist.lanes| => |Seen(dist.lanes[j], dist.pc, j)|)
  }

  function Missed(dist: Dist): (r: seq<nat>)
    ensures |r| == |dist.lanes|
  {
    seq(|dist.lanes|, j requires 0 <= j < |dist.lanes| => dist.lanes[j].joined)
  }

  /** For one subscriber: what it missed by joining late, what it sees and what its queue
      turned away make up all messages dispatched. */
  lemma LaneConservation(c: Config, s: State, j: nat)
    requires Inv(c, s) && j < |s.dist.lanes| && BetweenMessages(s)
    ensures var lane := s.dist.lanes[j];
      lane.joined + |Seen(lane, s.dist.pc, j)| + lane.lost == |s.dist.dispatched| == s.dist.stats.messagesDispatched
  {
    var lane := s.dist.lanes[j];
    assert LaneInv(c.queueSize, lane, WorkAt(s.par, s.dist.pc, j), s.dist.dispatched);
    SeenIsPushed(c.queueSize, lane, s.par, s.dist.pc, j, s.dist.dispatched);
    D.LatencyExtremes(s.dist.latencies);
  }

  /** Between two calls of `dispatch`, across any stops and restarts: messages dispatched
      times subscribers is everything delivered, in hand or queued, plus the drops, plus
      what late subscribers missed; with the subscribers there from the beginning nothing
      was missed. And each subscriber sees a subsequence of what was dispatched since it
      joined. */
  lemma DispatcherConservation(c: Config, run: seq<State>, acts: seq<Action>, i: nat)
    requires Good(c) && IsRun(c, run, acts) && i < |run| && BetweenMessages(run[i])
    ensures var d := run[i].dist;
      && d.stats.messagesDispatched == |d.dispatched|
      && d.stats.messagesDispatched * |d.lanes| == Sum(SeenCounts(d)) + d.stats.packetsDropped + Sum(Missed(d))
      && ((forall j :: 0 <= j < |d.lanes| ==> d.lanes[j].joined == 0) ==>
            d.stats.messagesDispatched * |d.lanes| == Sum(SeenCounts(d)) + d.stats.packetsDropped)
      && (forall j :: 0 <= j < |d.lanes| ==>
            d.lanes[j].joined <= |d.dispatched|
            && Subsequence(Seen(d.lanes[j], d.pc, j), d.dispatched[d.lanes[j].joined..]))
  {
    RunInv(c, run, acts, i);
    var s := run[i];
    ConservedCounts(c, s);
    forall j | 0 <= j < |s.dist.lanes|
      ensures s.dist.lanes[j].joined <= |s.dist.dispatched|
      ensures Subsequence(Seen(s.dist.lanes[j], s.dist.pc, j), s.dist.dispatched[s.dist.lanes[j].joined..])
    {
      LaneOrder(c, s, j);
    }
  }

  lemma LaneOrder(c: Config, s: State, j: nat)
    requires Inv(c, s) && j < |s.dist.lanes| && BetweenMessages(s)
    ensures var lane, dispatched := s.dist.lanes[j], s.dist.dispatched;
      lane.joined <= |dispatched| && Subsequence(Seen(lane, s.dist.pc, j), dispatched[lane.joined..])
  {
    var lane, dispatched := s.dist.lanes[j], s.dist.dispatched;
    assert LaneInv(c.queueSize, lane, WorkAt(s.par, s.dist.pc, j), dispatched);
    SeenIsPushed(c.queueSize, lane, s.par, s.dist.pc, j, dispatched);
    NothingAfter(dispatched[lane.joined..]);
  }

  lemma ConservedCounts(c: Config, s: State)
    requires Inv(c, s) && BetweenMessages(s)
    ensures var d := s.dist;
      && d.stats.messagesDispatched == |d.dispatched|
      && d.stats.messagesDispatched * |d.lanes| == Sum(SeenCounts(d)) + d.stats.packetsDropped + Sum(Missed(d))
      && ((forall j :: 0 <= j < |d.lanes| ==> d.lanes[j].joined == 0) ==> Sum(Missed(d)) == 0)
  {
    var d := s.dist;
    D.LatencyExtremes(d.latencies);
    forall j | 0 <= j < |d.lanes|
      ensures |Seen(d.lanes[j], d.pc, j)| + d.lanes[j].lost + d.lanes[j].joined == |d.dispatched|
    {
      LaneConservation(c, s, j);
    }
    CountsAddUp(d);
  }

  lemma CountsAddUp(d: Dist)
    requires forall j :: 0 <= j < |d.lanes| ==>
      |Seen(d.lanes[j], d.pc, j)| + d.lanes[j].lost + d.lanes[j].joined == |d.dispatched|
    ensures |d.dispatched| * |d.lanes| == Sum(SeenCounts(d)) + Sum(Losses(d.lanes)) + Sum(Missed(d))
    ensures (forall j :: 0 <= j < |d.lanes| ==> d.lanes[j].joined == 0) ==> Sum(Missed(d)) == 0
  {
    SumOfThree(SeenCounts(d), Losses(d.lanes), Missed(d), |d.dispatched|);
    if forall j :: 0 <= j < |d.lanes| ==> d.lanes[j].joined == 0 { SumZeros(Missed(d)); }
  }

  /** With no drops on either side, nothing is lost or reordered: the ring accepted every
      datagram, and each subscriber sees exactly what was dispatched since it joined. */
  lemma Lossless(c: Config, run: seq<State>, acts: seq<Action>, i: nat)
    requires Good(c) && IsRun(c, run, acts) && i < |run| && BetweenMessages(run[i])
    ensures var s := run[i];
      && (s.net.dropped == 0 ==> s.ring.pushed == Settled(s.net))
      && (s.dist.stats.packetsDropped == 0 ==> forall j :: 0 <= j < |s.dist.lanes| ==>
            s.dist.lanes[j].joined <= |s.dist.dispatched|
            && Seen(s.dist.lanes[j], s.dist.pc, j) == s.dist.dispatched[s.dist.lanes[j].joined..])
  {
    RunInv(c, run, acts, i);
    var s := run[i];
    var d := s.dist;
    if s.net.dropped == 0 { SubsequenceWhole(s.ring.pushed, Settled(s.net)); }
    if d.stats.packetsDropped == 0 {
      forall j | 0 <= j < |d.lanes|
        ensures d.lanes[j].joined <= |d.dispatched|
                && Seen(d.lanes[j], d.pc, j) == d.dispatched[d.lanes[j].joined..]
      {
        LosslessLane(c, s, j);
      }
    }
  }

  lemma LosslessLane(c: Config, s: State, j: nat)
    requires Inv(c, s) && j < |s.dist.lanes| && BetweenMessages(s) && s.dist.stats.packetsDropped == 0
    ensures var lane, dispatched := s.dist.lanes[j], s.dist.dispatched;
      lane.joined <= |dispatched| && Seen(lane, s.dist.pc, j) == dispatched[lane.joined..]
  {
    var lane, dispatched := s.dist.lanes[j], s.dist.dispatched;
    assert LaneInv(c.queueSize, lane, WorkAt(s.par, s.dist.pc, j), dispatched);
    SeenIsPushed(c.queueSize, lane, s.par, s.dist.pc, j, dispatched);
    PartOfSum(Losses(s.dist.lanes), j);
    NothingAfter(dispatched[lane.joined..]);
    SubsequenceWhole(lane.queue.pushed, dispatched[lane.joined..]);
  }

  // ---------------------------------------------------------- stop and restart

  /** When the engine is down: no thread is inside a call, every packet read was parsed and
      each message it gave dispatched, the parser is reset. Nothing is drained: the ring and
      the queues keep what they held. */
  lemma DownIsQuiescent(c: Config, run: seq<State>, acts: seq<Action>, i: nat)
    requires Good(c) && IsRun(c, run, acts) && i < |run| && run[i].control.Down?
    ensures var s := run[i];
      && s.net.pc.RecvDown? && s.par.pc.ParseDown? && s.dist.pc.ServeDown?
      && s.ring.producer.Idle? && s.ring.consumer.Resting?
      && s.net.received + s.net.dropped == |s.net.arrived|
      && s.ring.popped <= s.ring.pushed && Flatten(s.par.sessions) == Views(s.ring.popped)
      && s.dist.dispatched == Produced(c, s.par.sessions)
      && s.par.parser == FRESH
      && forall j :: 0 <= j < |s.dist.lanes| ==>
           && s.dist.lanes[j].queue.producer.Idle? && s.dist.lanes[j].queue.consumer.Resting?
           && s.dist.lanes[j].delivered == s.dist.lanes[j].queue.popped <= s.dist.lanes[j].queue.pushed
  {
    RunInv(c, run, acts, i);
    var s := run[i];
    NothingAfter(s.dist.dispatched);
    forall j | 0 <= j < |s.dist.lanes|
      ensures s.dist.lanes[j].queue.producer.Idle? && s.dist.lanes[j].queue.consumer.Resting?
      ensures s.dist.lanes[j].delivered == s.dist.lanes[j].queue.popped <= s.dist.lanes[j].queue.pushed
    {
      assert LaneInv(c.queueSize, s.dist.lanes[j], WorkAt(s.par, s.dist.pc, j), s.dist.dispatched);
      NothingAfter(s.dist.lanes[j].delivered);
    }
  }

  // --------------------------------------------------------------- statistics

  lemma EndMessageLatency(c: Config, s: State)
    requires BatchInv(c, s.par, s.dist.dispatched, s.clock) && Enabled(s, EndMessage)
    ensures var now, local := s.par.pc.now, s.par.batch[s.par.pc.i].localTimestamp;
      local <= now && Apply(c, s, EndMessage).dist.latencies == s.dist.latencies + [now - local]
  {
    D.LatencyExact(s.par.pc.now, s.par.batch[s.par.pc.i].localTimestamp);
  }

  /** The subtraction in `dispatch` never wraps: a message is dispatched no earlier than its
      packet was received. */
  lemma LatencyIsTrue(c: Config, run: seq<State>, acts: seq<Action>, i: nat)
    requires Good(c) && IsRun(c, run, acts) && i < |acts| && acts[i].EndMessage?
    ensures var s, s' := run[i], run[i + 1];
      && s.par.pc.Sending? && s.par.pc.i < |s.par.batch|
      && var now, local := s.par.pc.now, s.par.batch[s.par.pc.i].localTimestamp;
         local <= now && s'.dist.latencies == s.dist.latencies + [now - local]
  {
    var s := run[i];
    assert BatchInv(c, s.par, s.dist.dispatched, s.clock) by { RunInv(c, run, acts, i); }
    assert Enabled(run[i], acts[i]) && run[i + 1] == Apply(c, run[i], acts[i]);
    EndMessageLatency(c, run[i]);
  }

  /** The dispatcher's statistics in any state of any run, while the latencies sum to less
      than 2^64; the upper bound holds beyond that too. */
  lemma LatencyInRuns(c: Config, run: seq<State>, acts: seq<Action>, i: nat)
    requires Good(c) && IsRun(c, run, acts) && i < |run|
    ensures var d := run[i].dist;
      && |d.latencies| == |d.dispatched| == d.stats.messagesDispatched
      && (forall k :: 0 <= k < |d.latencies| ==> d.stats.minLatency <= d.latencies[k] <= d.stats.maxLatency)
      && d.stats.totalLatency <= d.stats.messagesDispatched * d.stats.maxLatency
      && (Sum(d.latencies) < TWO_64 && d.dispatched != [] ==>
            && d.stats.totalLatency == Sum(d.latencies)
            && d.stats.messagesDispatched * d.stats.minLatency <= d.stats.totalLatency)
      && (d.stats.messagesDispatched * d.stats.maxLatency < TWO_64 ==> Sum(d.latencies) < TWO_64)
  {
    RunInv(c, run, acts, i);
    D.LatencyExtremes(run[i].dist.latencies);
    D.LatencyBounds(run[i].dist.latencies);
  }

  /** What a parser's counters and stock map must show after a session: the frames it
      accepted, the errors, which are short frames and bad lengths, and the stocks listed. */
  function Account(pr: Protocol, max: nat, views: seq<MessageView>): ParserState {
    var visited := AllVisited(pr, max, views);
    ParserState(Wrap(|Filter(pr.accepts, visited)|),
                Wrap(ErrorTotal(pr, max, views)),
                NoteAll(pr, map[], visited))
  }

  /** While the parser thread is alive, its parser accounts for the packets read in this
      session, and the reused buffer is what parsing them one after the other leaves. */
  lemma ParserInRuns(c: Config, run: seq<State>, acts: seq<Action>, i: nat)
    requires Good(c) && IsRun(c, run, acts) && i < |run| && !run[i].par.pc.ParseDown?
    ensures var par := run[i].par;
      && par.sessions != []
      && var views := par.sessions[|par.sessions| - 1];
         && par.parser == Account(c.protocol, c.max, views)
         && par.buffer == ParseSeries(c.protocol, c.max, views).buffer
         && ErrorTotal(c.protocol, c.max, views)
            == |Filter(c.protocol.tooShort, AllVisited(c.protocol, c.max, views))|
               + BadPackets(c.protocol, c.max, views)
  {
    assert Sessions(c, run[i].par) by { RunInv(c, run, acts, i); }
    SessionAccount(c, run[i].par);
    ErrorKinds(c.protocol, c.max, run[i].par.sessions[|run[i].par.sessions| - 1]);
  }

  lemma SessionAccount(c: Config, par: Par)
    requires Sessions(c, par) && !par.pc.ParseDown?
    ensures var views := par.sessions[|par.sessions| - 1];
      par.parser == Account(c.protocol, c.max, views) && par.buffer == ParseSeries(c.protocol, c.max, views).buffer
  {
    AccountIsState(c.protocol, c.max, par.sessions[|par.sessions| - 1]);
  }

  lemma AccountIsState(pr: Protocol, max: nat, views: seq<MessageView>)
    ensures ParseSeries(pr, max, views).state == Account(pr, max, views)
  {
    SeriesParsed(pr, max, views);
    SeriesErrors(pr, max, views);
    SeriesStocks(pr, max, views);
    SameState(ParseSeries(pr, max, views).state, Account(pr, max, views));
  }

  lemma SameState(a: ParserState, b: ParserState)
    requires a.parsed == b.parsed && a.errors == b.errors && a.stocks == b.stocks
    ensures a == b
  {
  }
}

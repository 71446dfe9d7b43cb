/** What every step of the engine's threads keeps. */
module PipelineInvariant {
  import opened Lists
  import opened Types
  import opened Framing
  import opened ParserTheorems
  import opened Bits
  import opened Pipeline
  import D = Dispatcher
  import Q = SpscQueue

  // --------------------------------------------------------------- invariant

  /** Which threads can be alive at each stage of starting and stopping. */
  ghost predicate ControlInv(control: Control, net: Net, par: Par, dist: Dist) {
    && (control.Down? ==> net.pc.RecvDown?)
    && (!par.pc.ParseDown? ==> control.Up? || control.JoiningParser?)
    && (!dist.pc.ServeDown? ==>
          control.DispatcherStarted? || control.Up? || control.JoiningParser? || control.JoiningDispatcher?)
    && (control.Down? || control.ReceiverStarted? || control.DispatcherStarted? ==> par.parser == FRESH)
  }

  /** The datagrams whose push has been decided. */
  function Settled(net: Net): seq<Packet> {
    if net.pc.RecvPushing? && net.arrived != [] then net.arrived[..|net.arrived| - 1] else net.arrived
  }

  ghost predicate NetInv(net: Net, ring: Q.State<Packet>, clock: Word64) {
    && net.pc.RecvPushing? == !ring.producer.Idle?
    && (net.pc.RecvPushing? ==>
          && ring.producer.item == net.pc.packet && net.pc.packet.timestamp <= clock
          && net.arrived != [] && net.arrived[|net.arrived| - 1] == net.pc.packet)
    && net.received == |ring.pushed|
    && |Settled(net)| == net.received + net.dropped
    && Subsequence(ring.pushed, Settled(net))
    && (forall k :: 0 <= k < |ring.pushed| ==> ring.pushed[k].timestamp <= clock)
  }

  /** The views `read_packet` made of a series of packets. */
  function Views(packets: seq<Packet>): (r: seq<MessageView>)
    ensures |r| == |packets|
  {
    seq(|packets|, k requires 0 <= k < |packets| => ViewOf(packets[k], k))
  }

  /** The packets popped from the ring, without one that is not parsed yet. */
  function ReadPackets(ring: Q.State<Packet>, pc: Parsing): seq<Packet> {
    if pc.Holding? && ring.popped != [] then ring.popped[..|ring.popped| - 1] else ring.popped
  }

  ghost predicate ReadInv(ring: Q.State<Packet>, par: Par) {
    && par.pc.Reading? == !ring.consumer.Resting?
    && (par.pc.Holding? ==> ring.popped != [] && ring.popped[|ring.popped| - 1] == par.pc.packet)
    && Flatten(par.sessions) == Views(ReadPackets(ring, par.pc))
    && par.number == |ReadPackets(ring, par.pc)| % TWO_32
  }

  /** All messages parsing returned: the sessions one after the other, each from a reset
      parser and a fresh buffer. */
  function Produced(c: Config, sessions: seq<seq<MessageView>>): seq<Msg> {
    if sessions == [] then []
    else
      Produced(c, sessions[..|sessions| - 1]) + ParseSeries(c.protocol, c.max, sessions[|sessions| - 1]).output
  }

  /** The messages of the packet in hand that have not been dispatched. */
  function Pending(par: Par): seq<Msg> {
    if (par.pc.AtMessage? || par.pc.Sending? || par.pc.Pushing?) && par.pc.i <= |par.batch| then par.batch[par.pc.i..]
    else []
  }

  ghost predicate Sessions(c: Config, par: Par) {
    !par.pc.ParseDown? ==>
      && par.sessions != []
      && var r := ParseSeries(c.protocol, c.max, par.sessions[|par.sessions| - 1]);
         r.state == par.parser && r.buffer == par.buffer
  }

  ghost predicate BatchInv(c: Config, par: Par, dispatched: seq<Msg>, clock: Word64) {
    && (par.pc.AtMessage? ==> par.pc.i <= |par.batch|)
    && (par.pc.Sending? || par.pc.Pushing? ==> par.pc.i < |par.batch| && par.pc.now <= clock)
    && (par.pc.Sending? || par.pc.Pushing? ==> par.batch[par.pc.i].localTimestamp <= par.pc.now)
    && (forall k :: 0 <= k < |par.batch| ==> par.batch[k].localTimestamp <= clock)
    && dispatched + Pending(par) == Produced(c, par.sessions)
  }

  /** What the threads are doing with queue `j`: the message being pushed, whether a pop is
      under way, the message popped and not yet delivered, and the message already offered
      but not yet counted as dispatched. */
  datatype Work = Work(pushing: Option<Msg>, popping: bool, inHand: seq<Msg>, current: seq<Msg>)

  function Current(par: Par): Option<Msg> {
    if (par.pc.Sending? || par.pc.Pushing?) && par.pc.i < |par.batch| then Some(par.batch[par.pc.i]) else None
  }

  function WorkAt(par: Par, pc: Serving, j: nat): Work {
    Work(
      if par.pc.Pushing? && par.pc.q == j then Current(par) else None,
      pc.Popping? && pc.q == j,
      if pc.Delivering? && pc.q == j then [pc.msg] else [],
      if Current(par).Some? && j < par.pc.q then [Current(par).value] else [])
  }

  /** The messages offered to a subscriber since it joined. */
  function OfferedTo(lane: Lane, dispatched: seq<Msg>, current: seq<Msg>): seq<Msg> {
    (if lane.joined <= |dispatched| then dispatched[lane.joined..] else []) + current
  }

  ghost predicate LaneInv(n: nat, lane: Lane, w: Work, dispatched: seq<Msg>) {
    && Q.Inv(lane.queue) && lane.queue.size == n
    && lane.queue.producer.Idle? == w.pushing.None?
    && (w.pushing.Some? ==> lane.queue.producer.item == w.pushing.value)
    && lane.queue.consumer.Resting? == !w.popping
    && lane.queue.popped == lane.delivered + w.inHand
    && lane.joined <= |dispatched|
    && Subsequence(lane.queue.pushed, OfferedTo(lane, dispatched, w.current))
    && |OfferedTo(lane, dispatched, w.current)| == |lane.queue.pushed| + lane.lost
  }

  ghost predicate LanesInv(c: Config, par: Par, dist: Dist) {
    && (par.pc.Sending? ==> par.pc.q <= |dist.lanes|)
    && (par.pc.Pushing? ==> par.pc.q < |dist.lanes|)
    && (dist.pc.AtQueue? ==> dist.pc.q <= |dist.lanes|)
    && (dist.pc.Popping? || dist.pc.Delivering? ==> dist.pc.q < |dist.lanes|)
    && forall j :: 0 <= j < |dist.lanes| ==>
      LaneInv(c.queueSize, dist.lanes[j], WorkAt(par, dist.pc, j), dist.dispatched)
  }

  function Losses(lanes: seq<Lane>): seq<nat> { seq(|lanes|, j requires 0 <= j < |lanes| => lanes[j].lost) }

  /** The counters are what the histories say. */
  ghost predicate StatsInv(dist: Dist) {
    && |dist.latencies| == |dist.dispatched|
    && dist.stats == D.Observe(dist.latencies).(packetsDropped := Sum(Losses(dist.lanes)))
  }

  ghost predicate Inv(c: Config, s: State) {
    && Q.Inv(s.ring) && s.ring.size == c.ringSize
    && ControlInv(s.control, s.net, s.par, s.dist)
    && NetInv(s.net, s.ring, s.clock)
    && ReadInv(s.ring, s.par)
    && Sessions(c, s.par)
    && BatchInv(c, s.par, s.dist.dispatched, s.clock)
    && LanesInv(c, s.par, s.dist)
    && StatsInv(s.dist)
  }

  // ------------------------------------------------------------- threads

  lemma ControlStep(c: Config, s: State, a: Action)
    requires ControlInv(s.control, s.net, s.par, s.dist) && Enabled(s, a)
    ensures var s' := Apply(c, s, a);
      ControlInv(s'.control, s'.net, s'.par, s'.dist)
  {
  }

  // ------------------------------------------------------------ the network

  lemma RingStep(c: Config, s: State, a: Action)
    requires Q.Inv(s.ring) && Enabled(s, a)
    ensures var ring := Apply(c, s, a).ring;
      Q.Inv(ring) && ring.size == s.ring.size
  {
    match a
    case Arrive(data, now) => Q.ProducerEffect(s.ring, Q.BeginPush(Packet(data, now)));
    case ReceiverStep(b) => Q.ProducerEffect(s.ring, b);
    case ReaderStep(b) => Q.ConsumerEffect(s.ring, b);
    case _ =>
  }

  lemma ArriveStep(net: Net, ring: Q.State<Packet>, clock: Word64, packet: Packet)
    requires NetInv(net, ring, clock) && Q.Inv(ring) && net.pc.RecvTop? && clock <= packet.timestamp < TWO_64
    requires Q.Enabled(ring, Q.BeginPush(packet))
    ensures NetInv(net.(pc := RecvPushing(packet), arrived := net.arrived + [packet]),
                   Q.Apply(ring, Q.BeginPush(packet)), packet.timestamp)
  {
    Q.ProducerEffect(ring, Q.BeginPush(packet));
    Unsnoc(net.arrived, packet);
  }

  lemma ReceiveStep(net: Net, ring: Q.State<Packet>, clock: Word64, b: Q.Action<Packet>)
    requires NetInv(net, ring, clock) && Q.Inv(ring) && net.pc.RecvPushing?
    requires Q.Enabled(ring, b) && Q.Pushes(b) && !b.BeginPush?
    ensures NetInv(if !Q.Ends(ring, b) then net
                   else if b.StoreHead? then net.(pc := RecvTop, received := net.received + 1)
                   else net.(pc := RecvTop, dropped := net.dropped + 1),
                   Q.Apply(ring, b), clock)
  {
    Q.ProducerEffect(ring, b);
    NothingAfter(ring.pushed);
    if Q.Ends(ring, b) { Decided(net, ring, Q.Apply(ring, b), clock, b.StoreHead?); }
  }

  /** The push of the datagram in hand ends, and the datagram is received or dropped. */
  lemma Decided(net: Net, ring: Q.State<Packet>, ring': Q.State<Packet>, clock: Word64, ok: bool)
    requires NetInv(net, ring, clock) && net.pc.RecvPushing? && ring'.producer.Idle?
    requires ring'.pushed == if ok then ring.pushed + [net.pc.packet] else ring.pushed
    ensures NetInv(if ok then net.(pc := RecvTop, received := net.received + 1)
                   else net.(pc := RecvTop, dropped := net.dropped + 1),
                   ring', clock)
  {
    Snoc(net.arrived);
    SubsequenceLonger(ring.pushed, Settled(net), net.pc.packet);
  }

  lemma NetStep(c: Config, s: State, a: Action)
    requires NetInv(s.net, s.ring, s.clock) && Q.Inv(s.ring) && Enabled(s, a)
    requires ControlInv(s.control, s.net, s.par, s.dist)
    ensures var s' := Apply(c, s, a);
      NetInv(s'.net, s'.ring, s'.clock)
  {
    match a
    case Arrive(data, now) => ArriveStep(s.net, s.ring, s.clock, Packet(data, now));
    case ReceiverStep(b) => ReceiveStep(s.net, s.ring, s.clock, b);
    case ReaderStep(b) => NetUnmoved(s.net, s.ring, s.clock, b);
    case BeginMessage(now) => NetLater(s.net, s.ring, s.clock, now);
    case _ =>
  }

  lemma NetUnmoved(net: Net, ring: Q.State<Packet>, clock: Word64, b: Q.Action<Packet>)
    requires NetInv(net, ring, clock) && Q.Inv(ring) && Q.Enabled(ring, b) && Q.Pops(b)
    ensures NetInv(net, Q.Apply(ring, b), clock)
  {
    Q.ConsumerEffect(ring, b);
  }

  lemma NetLater(net: Net, ring: Q.State<Packet>, clock: Word64, now: Word64)
    requires NetInv(net, ring, clock) && clock <= now
    ensures NetInv(net, ring, now)
  {
  }

  // ------------------------------------------------------------- the reader

  lemma PopReads(ring: Q.State<Packet>, par: Par, b: Q.Action<Packet>)
    requires ReadInv(ring, par) && Q.Inv(ring) && Q.Enabled(ring, b) && Q.Pops(b)
    requires if b.BeginPop? then par.pc.ParseTop? else par.pc.Reading?
    ensures ReadInv(Q.Apply(ring, b),
                    par.(pc := if !Q.Ends(ring, b) then Reading
                               else if b.StoreTail? then Holding(ring.consumer.item)
                               else ParseTop))
  {
    Q.ConsumerEffect(ring, b);
    NothingAfter(ring.popped);
    if b.StoreTail? { Unsnoc(ring.popped, ring.consumer.item); }
  }

  lemma ViewsSnoc(packets: seq<Packet>, packet: Packet)
    ensures Views(packets + [packet]) == Views(packets) + [ViewOf(packet, |packets|)]
  {
  }

  lemma NextNumber(n: nat)
    ensures Next32(n % TWO_32) == (n + 1) % TWO_32 && (n % TWO_32) % TWO_32 == n % TWO_32
  {
    SameSlot(n + 1, n % TWO_32 + 1, n / TWO_32, TWO_32);
  }

  lemma ParseReads(c: Config, ring: Q.State<Packet>, par: Par)
    requires ReadInv(ring, par) && par.pc.Holding? && par.sessions != []
    ensures ReadInv(ring, ParseNext(c, par))
  {
    FlattenLast(par.sessions, ViewOf(par.pc.packet, par.number));
    OneMoreRead(ring, par, ParseNext(c, par));
  }

  lemma OneMoreRead(ring: Q.State<Packet>, par: Par, par': Par)
    requires ReadInv(ring, par) && par.pc.Holding? && par'.pc.AtMessage?
    requires Flatten(par'.sessions) == Flatten(par.sessions) + [ViewOf(par.pc.packet, par.number)]
    requires par'.number == Next32(par.number)
    ensures ReadInv(ring, par')
  {
    var read := ReadPackets(ring, par.pc);
    Snoc(ring.popped);
    NextNumber(|read|);
    ViewsSnoc(read, par.pc.packet);
  }

  lemma ReadStep(c: Config, s: State, a: Action)
    requires ReadInv(s.ring, s.par) && Q.Inv(s.ring) && Enabled(s, a)
    requires ControlInv(s.control, s.net, s.par, s.dist)
    ensures var s' := Apply(c, s, a);
      ReadInv(s'.ring, s'.par)
  {
    match a
    case Arrive(data, now) => ReaderUnmoved(s.ring, s.par, Q.BeginPush(Packet(data, now)));
    case ReceiverStep(b) => ReaderUnmoved(s.ring, s.par, b);
    case ReaderStep(b) => PopReads(s.ring, s.par, b);
    case ParseStep => ParseReads(c, s.ring, s.par);
    case Advance => FlattenNone(s.par.sessions);
    case _ =>
  }

  lemma ReaderUnmoved(ring: Q.State<Packet>, par: Par, b: Q.Action<Packet>)
    requires ReadInv(ring, par) && Q.Inv(ring) && Q.Enabled(ring, b) && Q.Pushes(b)
    ensures ReadInv(Q.Apply(ring, b), par)
  {
    Q.ProducerEffect(ring, b);
  }

  // ------------------------------------------------------------- the parser

  /** One more packet in the last session. */
  lemma SeriesGrows(c: Config, par: Par)
    requires Sessions(c, par) && par.pc.Holding?
    ensures Sessions(c, ParseNext(c, par))
    ensures Produced(c, ParseNext(c, par).sessions) == Produced(c, par.sessions) + ParseNext(c, par).batch
  {
    var last := |par.sessions| - 1;
    var views, view := par.sessions[last], ViewOf(par.pc.packet, par.number);
    var batch := ParseNext(c, par).batch;
    SeriesSnoc(c, views, view);
    UpdateLast(par.sessions, views + [view]);
    ProducedLast(c, par.sessions, views + [view], batch);
  }

  /** A series with one more view. */
  lemma SeriesSnoc(c: Config, views: seq<MessageView>, view: MessageView)
    ensures var before, after := ParseSeries(c.protocol, c.max, views), ParseSeries(c.protocol, c.max, views + [view]);
      var r := ParsePacket(c.protocol, before.state, before.buffer, view, c.max);
      && r.count <= |r.buffer|
      && after.state == r.state && after.buffer == r.buffer && after.output == before.output + r.buffer[..r.count]
  {
    var before := ParseSeries(c.protocol, c.max, views);
    CutAtCap(c.protocol, before.state, before.buffer, view, c.max);
    Unsnoc(views, view);
  }

  lemma ProducedLast(c: Config, sessions: seq<seq<MessageView>>, views: seq<MessageView>, batch: seq<Msg>)
    requires sessions != []
    requires ParseSeries(c.protocol, c.max, views).output
          == ParseSeries(c.protocol, c.max, sessions[|sessions| - 1]).output + batch
    ensures Produced(c, sessions[|sessions| - 1 := views]) == Produced(c, sessions) + batch
  {
    var last := |sessions| - 1;
    UpdateLast(sessions, views);
    Associate(Produced(c, sessions[..last]), ParseSeries(c.protocol, c.max, sessions[last]).output, batch);
  }

  lemma StampedBatch(c: Config, par: Par)
    requires Sessions(c, par) && par.pc.Holding? && Stamps(c.protocol)
    ensures var batch := ParseNext(c, par).batch;
      forall k :: 0 <= k < |batch| ==> batch[k].localTimestamp == par.pc.packet.timestamp
  {
    var view := ViewOf(par.pc.packet, par.number);
    var accepted := Accepted(c.protocol, view, c.max);
    var batch := ParseNext(c, par).batch;
    forall k | 0 <= k < |batch| ensures batch[k].localTimestamp == view.timestamp {
      FilterHolds(c.protocol.accepts, Visited(c.protocol, view, c.max), k);
      assert batch[k] == c.protocol.decode(accepted[k], view.timestamp, par.buffer[k]);
    }
  }

  lemma SessionsStep(c: Config, s: State, a: Action)
    requires Sessions(c, s.par) && Enabled(s, a) && ControlInv(s.control, s.net, s.par, s.dist)
    ensures Sessions(c, Apply(c, s, a).par)
  {
    match a
    case ParseStep => SeriesGrows(c, s.par);
    case Advance => Unsnoc(s.par.sessions, []);
    case _ =>
  }

  /** No message of the batch is left to dispatch. */
  predicate Rests(par: Par) {
    !par.pc.Sending? && !par.pc.Pushing? && (par.pc.AtMessage? ==> par.pc.i == |par.batch|)
  }

  /** What a step does to the batch: it parses the next packet, goes on with the current
      message, counts it as dispatched, or leaves the batch alone. */
  datatype Move = Fills | Sends | Counts | Leaves

  function MoveOf(a: Action): Move {
    match a
    case ParseStep => Fills
    case BeginMessage(_) => Sends
    case PushStep(_) => Sends
    case EndMessage => Counts
    case _ => Leaves
  }

  ghost predicate Moved(c: Config, m: Move, par: Par, dispatched: seq<Msg>, clock: Word64,
                        par': Par, dispatched': seq<Msg>, clock': Word64)
  {
    match m
    case Fills =>
      && par.pc.Holding? && par.sessions != [] && par' == ParseNext(c, par)
      && dispatched' == dispatched && clock' == clock
    case Sends =>
      && (par.pc.AtMessage? || par.pc.Sending? || par.pc.Pushing?) && (par'.pc.Sending? || par'.pc.Pushing?)
      && par' == par.(pc := par'.pc) && par'.pc.i == par.pc.i < |par.batch|
      && par'.pc.now == (if par.pc.AtMessage? then clock' else par.pc.now)
      && dispatched' == dispatched && clock <= clock'
    case Counts =>
      && par.pc.Sending? && par.pc.i < |par.batch| && par' == par.(pc := AtMessage(par.pc.i + 1))
      && dispatched' == dispatched + [par.batch[par.pc.i]] && clock' == clock
    case Leaves =>
      && par'.batch == par.batch && (par'.pc == par.pc || (Rests(par) && Rests(par')))
      && (par'.sessions == par.sessions || par'.sessions == par.sessions + [[]])
      && dispatched' == dispatched && clock <= clock'
  }

  lemma StepMoves(c: Config, s: State, a: Action)
    requires Enabled(s, a) && ControlInv(s.control, s.net, s.par, s.dist)
    requires s.par.pc.Sending? || s.par.pc.Pushing? ==> s.par.pc.i < |s.par.batch|
    ensures var s' := Apply(c, s, a);
      Moved(c, MoveOf(a), s.par, s.dist.dispatched, s.clock, s'.par, s'.dist.dispatched, s'.clock)
  {
    if MoveOf(a).Leaves? { StepLeaves(c, s, a); }
  }

  lemma StepLeaves(c: Config, s: State, a: Action)
    requires Enabled(s, a) && ControlInv(s.control, s.net, s.par, s.dist) && MoveOf(a).Leaves?
    ensures var s' := Apply(c, s, a);
      Moved(c, Leaves, s.par, s.dist.dispatched, s.clock, s'.par, s'.dist.dispatched, s'.clock)
  {
  }

  lemma BatchFills(c: Config, par: Par, dispatched: seq<Msg>, clock: Word64)
    requires BatchInv(c, par, dispatched, clock) && Sessions(c, par) && Stamps(c.protocol)
    requires par.pc.Holding? && par.pc.packet.timestamp <= clock
    ensures BatchInv(c, ParseNext(c, par), dispatched, clock)
  {
    SeriesGrows(c, par);
    StampedBatch(c, par);
    BatchIsNew(c, par, ParseNext(c, par), dispatched, clock);
  }

  lemma BatchIsNew(c: Config, par: Par, par': Par, dispatched: seq<Msg>, clock: Word64)
    requires BatchInv(c, par, dispatched, clock) && par.pc.Holding? && par.pc.packet.timestamp <= clock
    requires par'.pc == AtMessage(0) && Produced(c, par'.sessions) == Produced(c, par.sessions) + par'.batch
    requires forall k :: 0 <= k < |par'.batch| ==> par'.batch[k].localTimestamp == par.pc.packet.timestamp
    ensures BatchInv(c, par', dispatched, clock)
  {
    NothingAfter(dispatched);
    DropNone(par'.batch);
  }

  lemma BatchSends(c: Config, par: Par, par': Par, dispatched: seq<Msg>, clock: Word64, clock': Word64)
    requires BatchInv(c, par, dispatched, clock)
    requires Moved(c, Sends, par, dispatched, clock, par', dispatched, clock')
    ensures BatchInv(c, par', dispatched, clock')
  {
  }

  lemma BatchCounts(c: Config, par: Par, dispatched: seq<Msg>, clock: Word64)
    requires BatchInv(c, par, dispatched, clock) && par.pc.Sending?
    ensures BatchInv(c, par.(pc := AtMessage(par.pc.i + 1)), dispatched + [par.batch[par.pc.i]], clock)
  {
    DropOne(par.batch, par.pc.i);
    Regroup(dispatched, Pending(par));
  }

  lemma BatchLeaves(c: Config, par: Par, par': Par, dispatched: seq<Msg>, clock: Word64, clock': Word64)
    requires BatchInv(c, par, dispatched, clock)
    requires Moved(c, Leaves, par, dispatched, clock, par', dispatched, clock')
    ensures BatchInv(c, par', dispatched, clock')
  {
    ProducedNone(c, par.sessions);
  }

  lemma BatchMoves(c: Config, m: Move, par: Par, dispatched: seq<Msg>, clock: Word64,
                   par': Par, dispatched': seq<Msg>, clock': Word64)
    requires BatchInv(c, par, dispatched, clock) && Sessions(c, par) && Stamps(c.protocol)
    requires par.pc.Holding? ==> par.pc.packet.timestamp <= clock
    requires Moved(c, m, par, dispatched, clock, par', dispatched', clock')
    ensures BatchInv(c, par', dispatched', clock')
  {
    match m
    case Fills => BatchFills(c, par, dispatched, clock);
    case Sends => BatchSends(c, par, par', dispatched, clock, clock');
    case Counts => BatchCounts(c, par, dispatched, clock);
    case Leaves => BatchLeaves(c, par, par', dispatched, clock, clock');
  }

  lemma BatchStep(c: Config, s: State, a: Action)
    requires BatchInv(c, s.par, s.dist.dispatched, s.clock) && Enabled(s, a)
    requires Sessions(c, s.par) && Stamps(c.protocol) && ControlInv(s.control, s.net, s.par, s.dist)
    requires s.par.pc.Holding? ==> s.par.pc.packet.timestamp <= s.clock
    ensures var s' := Apply(c, s, a);
      BatchInv(c, s'.par, s'.dist.dispatched, s'.clock)
  {
    var s' := Apply(c, s, a);
    StepMoves(c, s, a);
    BatchMoves(c, MoveOf(a), s.par, s.dist.dispatched, s.clock, s'.par, s'.dist.dispatched, s'.clock);
  }

  lemma ProducedNone(c: Config, sessions: seq<seq<MessageView>>)
    ensures Produced(c, sessions + [[]]) == Produced(c, sessions)
  {
    Unsnoc(sessions, []);
    NothingAfter(Produced(c, sessions));
  }

  // -------------------------------------------------------- the subscribers

  /** A step of a push into this queue, which ends it or not. */
  lemma LanePush(n: nat, lane: Lane, w: Work, w': Work, dispatched: seq<Msg>, b: Q.Action<Msg>, msg: Msg)
    requires LaneInv(n, lane, w, dispatched) && Q.Enabled(lane.queue, b) && Q.Pushes(b)
    requires if b.BeginPush? then b.item == msg else w.pushing == Some(msg)
    requires w.current == [] && w'.popping == w.popping && w'.inHand == w.inHand
    requires if Q.Ends(lane.queue, b) then w'.pushing.None? && w'.current == [msg]
             else w'.pushing == Some(msg) && w'.current == []
    ensures LaneInv(n, Lane(Q.Apply(lane.queue, b), lane.delivered,
                            if Q.Rejects(lane.queue, b) then lane.lost + 1 else lane.lost, lane.joined),
                    w', dispatched)
  {
    Q.ProducerEffect(lane.queue, b);
    NothingAfter(lane.queue.pushed);
    if Q.Ends(lane.queue, b) {
      var offered := OfferedTo(lane, dispatched, []);
      NothingAfter(dispatched[lane.joined..]);
      SubsequenceLonger(lane.queue.pushed, offered, msg);
    }
  }

  /** A step of a pop from this queue. */
  lemma LanePop(n: nat, lane: Lane, w: Work, w': Work, dispatched: seq<Msg>, b: Q.Action<Msg>)
    requires LaneInv(n, lane, w, dispatched) && Q.Enabled(lane.queue, b) && Q.Pops(b)
    requires w.inHand == [] && w'.pushing == w.pushing && w'.current == w.current
    requires w'.popping == !Q.Ends(lane.queue, b)
    requires w'.inHand == if b.StoreTail? then [lane.queue.consumer.item] else []
    ensures LaneInv(n, lane.(queue := Q.Apply(lane.queue, b)), w', dispatched)
  {
    Q.ConsumerEffect(lane.queue, b);
    NothingAfter(lane.queue.popped);
    NothingAfter(lane.delivered);
  }

  lemma LaneDeliver(n: nat, lane: Lane, w: Work, dispatched: seq<Msg>, msg: Msg)
    requires LaneInv(n, lane, w, dispatched) && w.inHand == [msg]
    ensures LaneInv(n, lane.(delivered := lane.delivered + [msg]), w.(inHand := []), dispatched)
  {
    NothingAfter(lane.delivered + [msg]);
  }

  /** The message that was offered to every queue is now counted. */
  lemma LaneCounts(n: nat, lane: Lane, w: Work, dispatched: seq<Msg>, msg: Msg)
    requires LaneInv(n, lane, w, dispatched) && w.current == [msg]
    ensures LaneInv(n, lane, w.(current := []), dispatched + [msg])
  {
    DropSnoc(dispatched, msg, lane.joined);
    NothingAfter((dispatched + [msg])[lane.joined..]);
  }

  lemma LaneJoins(n: nat, dispatched: seq<Msg>)
    requires PowerOfTwo(n)
    ensures LaneInv(n, Lane(Q.Empty(n), [], 0, |dispatched|), Work(None, false, [], []), dispatched)
  {
    Q.EmptyInv<Msg>(n);
  }

  lemma PushLanes(c: Config, s: State, b: Q.Action<Msg>)
    requires LanesInv(c, s.par, s.dist) && Enabled(s, PushStep(b)) && BatchInv(c, s.par, s.dist.dispatched, s.clock)
    ensures var s' := Apply(c, s, PushStep(b));
      LanesInv(c, s'.par, s'.dist)
  {
    PushParts(c, s, b);
    PushLanesOf(c, s.par, Apply(c, s, PushStep(b)).par, s.dist, b);
  }

  /** A step of a push moves the dispatcher's queue and the parser thread, nothing else. */
  lemma PushParts(c: Config, s: State, b: Q.Action<Msg>)
    requires Enabled(s, PushStep(b)) && s.par.pc.i < |s.par.batch|
    ensures var s', q := Apply(c, s, PushStep(b)), s.par.pc.q;
      s'.dist == Offered(s.dist, q, b) && PushMoves(s.par, s'.par, b.BeginPush?, Q.Ends(s.dist.lanes[q].queue, b))
  {
  }

  lemma PushLanesOf(c: Config, par: Par, par': Par, dist: Dist, b: Q.Action<Msg>)
    requires LanesInv(c, par, dist) && (par.pc.Sending? || par.pc.Pushing?) && par.pc.q < |dist.lanes|
    requires Q.Enabled(dist.lanes[par.pc.q].queue, b) && Q.Pushes(b)
    requires PushMoves(par, par', b.BeginPush?, Q.Ends(dist.lanes[par.pc.q].queue, b))
    requires b.BeginPush? ==> b.item == par.batch[par.pc.i]
    ensures LanesInv(c, par', Offered(dist, par.pc.q, b))
  {
    var q, dist' := par.pc.q, Offered(dist, par.pc.q, b);
    PushWork(par, par', dist.pc, b.BeginPush?, Q.Ends(dist.lanes[q].queue, b));
    PushLane(c, par, par', dist, b);
    LanesUpdate(c, par, dist, par', dist', q, dist'.lanes[q]);
  }

  /** Where a step of a push moves the parser thread. */
  predicate PushMoves(par: Par, par': Par, begins: bool, ends: bool) {
    && (if begins then par.pc.Sending? else par.pc.Pushing?) && par.pc.i < |par.batch|
    && par' == par.(pc := if ends then Sending(par.pc.i, par.pc.q + 1, par.pc.now)
                          else Pushing(par.pc.i, par.pc.q, par.pc.now))
  }

  /** ... and what that means for the work on each queue. */
  lemma PushWork(par: Par, par': Par, pc: Serving, begins: bool, ends: bool)
    requires PushMoves(par, par', begins, ends)
    ensures var q, msg := par.pc.q, par.batch[par.pc.i]; var w, w' := WorkAt(par, pc, q), WorkAt(par', pc, q);
      && w.current == [] && w'.popping == w.popping && w'.inHand == w.inHand
      && (!begins ==> w.pushing == Some(msg))
      && (if ends then w'.pushing.None? && w'.current == [msg] else w'.pushing == Some(msg) && w'.current == [])
    ensures forall j: nat :: j != par.pc.q ==> WorkAt(par', pc, j) == WorkAt(par, pc, j)
  {
  }

  lemma PushLane(c: Config, par: Par, par': Par, dist: Dist, b: Q.Action<Msg>)
    requires LanesInv(c, par, dist) && (par.pc.Sending? || par.pc.Pushing?) && par.pc.q < |dist.lanes|
    requires Q.Enabled(dist.lanes[par.pc.q].queue, b) && Q.Pushes(b)
    requires PushMoves(par, par', b.BeginPush?, Q.Ends(dist.lanes[par.pc.q].queue, b))
    requires b.BeginPush? ==> b.item == par.batch[par.pc.i]
    ensures var q := par.pc.q;
      LaneInv(c.queueSize, Offered(dist, q, b).lanes[q], WorkAt(par', dist.pc, q), dist.dispatched)
  {
    var q := par.pc.q;
    PushWork(par, par', dist.pc, b.BeginPush?, Q.Ends(dist.lanes[q].queue, b));
    LanePush(c.queueSize, dist.lanes[q], WorkAt(par, dist.pc, q), WorkAt(par', dist.pc, q), dist.dispatched, b,
             par.batch[par.pc.i]);
  }

  /** One lane changes, and the work on the others does not. */
  lemma LanesUpdate(c: Config, par: Par, dist: Dist, par': Par, dist': Dist, q: nat, lane: Lane)
    requires LanesInv(c, par, dist) && q < |dist.lanes|
    requires dist'.lanes == dist.lanes[q := lane] && dist'.dispatched == dist.dispatched
    requires par'.pc.Sending? ==> par'.pc.q <= |dist.lanes|
    requires par'.pc.Pushing? ==> par'.pc.q < |dist.lanes|
    requires dist'.pc.AtQueue? ==> dist'.pc.q <= |dist.lanes|
    requires dist'.pc.Popping? || dist'.pc.Delivering? ==> dist'.pc.q < |dist.lanes|
    requires LaneInv(c.queueSize, lane, WorkAt(par', dist'.pc, q), dist.dispatched)
    requires forall j: nat :: j != q ==> WorkAt(par', dist'.pc, j) == WorkAt(par, dist.pc, j)
    ensures LanesInv(c, par', dist')
  {
    forall j | 0 <= j < |dist'.lanes|
      ensures LaneInv(c.queueSize, dist'.lanes[j], WorkAt(par', dist'.pc, j), dist'.dispatched)
    {
      if j != q { assert LaneInv(c.queueSize, dist.lanes[j], WorkAt(par, dist.pc, j), dist.dispatched); }
    }
  }

  /** The dispatcher thread moves, on one queue. */
  lemma OthersRest(par: Par, pc: Serving, pc': Serving, q: nat)
    requires (Busy(pc) ==> pc.q == q) && (Busy(pc') ==> pc'.q == q)
    ensures forall j: nat :: j != q ==> WorkAt(par, pc', j) == WorkAt(par, pc, j)
  {
  }

  lemma PopLanes(c: Config, s: State, b: Q.Action<Msg>)
    requires LanesInv(c, s.par, s.dist) && Enabled(s, PopStep(b))
    ensures var s' := Apply(c, s, PopStep(b));
      LanesInv(c, s'.par, s'.dist)
  {
    var s', q := Apply(c, s, PopStep(b)), s.dist.pc.q;
    LanePop(c.queueSize, s.dist.lanes[q], WorkAt(s.par, s.dist.pc, q), WorkAt(s'.par, s'.dist.pc, q),
            s.dist.dispatched, b);
    OthersRest(s.par, s.dist.pc, s'.dist.pc, q);
  }

  lemma DeliverLanes(c: Config, s: State)
    requires LanesInv(c, s.par, s.dist) && Enabled(s, Deliver)
    ensures var s' := Apply(c, s, Deliver);
      LanesInv(c, s'.par, s'.dist)
  {
    var s', q := Apply(c, s, Deliver), s.dist.pc.q;
    LaneDeliver(c.queueSize, s.dist.lanes[q], WorkAt(s.par, s.dist.pc, q), s.dist.dispatched, s.dist.pc.msg);
    OthersRest(s.par, s.dist.pc, s'.dist.pc, q);
  }

  lemma CountLanes(c: Config, s: State)
    requires LanesInv(c, s.par, s.dist) && Enabled(s, EndMessage)
    ensures var s' := Apply(c, s, EndMessage);
      LanesInv(c, s'.par, s'.dist)
  {
    var s', msg := Apply(c, s, EndMessage), s.par.batch[s.par.pc.i];
    forall j | 0 <= j < |s.dist.lanes|
      ensures LaneInv(c.queueSize, s'.dist.lanes[j], WorkAt(s'.par, s'.dist.pc, j), s'.dist.dispatched)
    {
      LaneCounts(c.queueSize, s.dist.lanes[j], WorkAt(s.par, s.dist.pc, j), s.dist.dispatched, msg);
    }
  }

  lemma JoinLanes(c: Config, s: State)
    requires LanesInv(c, s.par, s.dist) && Enabled(s, AddSubscriber) && PowerOfTwo(c.queueSize)
    requires ControlInv(s.control, s.net, s.par, s.dist)
    ensures var s' := Apply(c, s, AddSubscriber);
      LanesInv(c, s'.par, s'.dist)
  {
    LaneJoins(c.queueSize, s.dist.dispatched);
  }

  /** The other steps do not concern the queues. */
  lemma IdleLanes(c: Config, s: State, a: Action)
    requires LanesInv(c, s.par, s.dist) && BatchInv(c, s.par, s.dist.dispatched, s.clock)
    requires Enabled(s, a) && ControlInv(s.control, s.net, s.par, s.dist)
    requires !a.PushStep? && !a.PopStep? && !a.Deliver? && !a.EndMessage? && !a.AddSubscriber?
    ensures var s' := Apply(c, s, a);
      LanesInv(c, s'.par, s'.dist)
  {
    var s' := Apply(c, s, a);
    QuietWork(c, s, a);
    LanesRest(c, s.par, s.dist, s'.par, s'.dist);
  }

  lemma QuietWork(c: Config, s: State, a: Action)
    requires Enabled(s, a) && ControlInv(s.control, s.net, s.par, s.dist)
    requires s.par.pc.Sending? || s.par.pc.Pushing? ==> s.par.pc.i < |s.par.batch|
    requires !a.PushStep? && !a.PopStep? && !a.Deliver? && !a.EndMessage? && !a.AddSubscriber?
    ensures var s' := Apply(c, s, a);
      && s'.dist.lanes == s.dist.lanes && s'.dist.dispatched == s.dist.dispatched
      && SameWork(s.par, s.dist.pc, s'.par, s'.dist.pc)
  {
  }

  /** The threads move without touching a queue. */
  predicate SameWork(par: Par, pc: Serving, par': Par, pc': Serving) {
    && ((par'.pc == par.pc && par'.batch == par.batch)
        || (Current(par).None? && !par'.pc.Pushing? && (par'.pc.Sending? ==> par'.pc.q == 0)))
    && (pc' == pc || (!Busy(pc) && !Busy(pc') && (pc'.AtQueue? ==> pc'.q == 0)))
  }

  predicate Busy(pc: Serving) { pc.Popping? || pc.Delivering? }

  lemma LanesRest(c: Config, par: Par, dist: Dist, par': Par, dist': Dist)
    requires LanesInv(c, par, dist) && dist'.lanes == dist.lanes && dist'.dispatched == dist.dispatched
    requires SameWork(par, dist.pc, par', dist'.pc)
    ensures LanesInv(c, par', dist')
  {
    forall j: nat ensures WorkAt(par', dist'.pc, j) == WorkAt(par, dist.pc, j) {
    }
  }

  lemma LanesStep(c: Config, s: State, a: Action)
    requires LanesInv(c, s.par, s.dist) && Enabled(s, a) && ControlInv(s.control, s.net, s.par, s.dist)
    requires BatchInv(c, s.par, s.dist.dispatched, s.clock) && PowerOfTwo(c.queueSize)
    ensures var s' := Apply(c, s, a);
      LanesInv(c, s'.par, s'.dist)
  {
    match a
    case AddSubscriber => JoinLanes(c, s);
    case PushStep(b) => PushLanes(c, s, b);
    case PopStep(b) => PopLanes(c, s, b);
    case Deliver => DeliverLanes(c, s);
    case EndMessage => CountLanes(c, s);
    case _ => IdleLanes(c, s, a);
  }

  // ------------------------------------------------------------ the counters

  lemma LossesUpdate(lanes: seq<Lane>, q: nat, lane: Lane)
    requires q < |lanes|
    ensures Sum(Losses(lanes[q := lane])) == Sum(Losses(lanes)) - lanes[q].lost + lane.lost
  {
    SumUpdate(Losses(lanes), q, lane.lost);
    assert Losses(lanes[q := lane]) == Losses(lanes)[q := lane.lost];
  }

  lemma LossesJoin(lanes: seq<Lane>, lane: Lane)
    requires lane.lost == 0
    ensures Sum(Losses(lanes + [lane])) == Sum(Losses(lanes))
  {
    assert Losses(lanes + [lane]) == Losses(lanes) + [0];
    Unsnoc(Losses(lanes), 0);
  }

  lemma StatsUpdate(d: Dist, d': Dist, q: nat, lane: Lane)
    requires StatsInv(d) && q < |d.lanes| && lane.lost >= d.lanes[q].lost
    requires d'.lanes == d.lanes[q := lane] && d'.dispatched == d.dispatched && d'.latencies == d.latencies
    requires d'.stats == d.stats.(packetsDropped := d.stats.packetsDropped + lane.lost - d.lanes[q].lost)
    ensures StatsInv(d')
  {
    LossesUpdate(d.lanes, q, lane);
  }

  lemma StatsJoin(d: Dist, lane: Lane)
    requires StatsInv(d) && lane.lost == 0
    ensures StatsInv(d.(lanes := d.lanes + [lane]))
  {
    LossesJoin(d.lanes, lane);
  }

  lemma StatsCount(d: Dist, msg: Msg, latency: Word64)
    requires StatsInv(d)
    ensures StatsInv(d.(dispatched := d.dispatched + [msg], latencies := d.latencies + [latency],
                        stats := d.stats.(messagesDispatched := d.stats.messagesDispatched + 1).UpdateLatency(latency)))
  {
    Unsnoc(d.latencies, latency);
  }

  lemma StatsStep(c: Config, s: State, a: Action)
    requires StatsInv(s.dist) && Enabled(s, a)
    ensures StatsInv(Apply(c, s, a).dist)
  {
    match a
    case AddSubscriber => StatsJoin(s.dist, Lane(Q.Empty(c.queueSize), [], 0, |s.dist.dispatched|));
    case PushStep(b) => StatsOffer(s.dist, s.par.pc.q, b);
    case PopStep(_) => StatsTake(c, s, a);
    case Deliver => StatsTake(c, s, a);
    case EndMessage =>
      var msg := s.par.batch[s.par.pc.i];
      StatsCount(s.dist, msg, D.Latency(s.par.pc.now, msg.localTimestamp));
    case _ =>
  }

  lemma StatsOffer(d: Dist, q: nat, b: Q.Action<Msg>)
    requires StatsInv(d) && q < |d.lanes| && Q.Enabled(d.lanes[q].queue, b)
    ensures StatsInv(Offered(d, q, b))
  {
    StatsUpdate(d, Offered(d, q, b), q, Offered(d, q, b).lanes[q]);
  }

  lemma StatsTake(c: Config, s: State, a: Action)
    requires StatsInv(s.dist) && Enabled(s, a) && (a.PopStep? || a.Deliver?)
    ensures StatsInv(Apply(c, s, a).dist)
  {
    var d, d' := s.dist, Apply(c, s, a).dist;
    StatsUpdate(d, d', d.pc.q, d'.lanes[d.pc.q]);
  }

  // ------------------------------------------------------------------- runs

  lemma BuiltInv(c: Config)
    requires Good(c)
    ensures Inv(c, Built(c))
  {
    Q.EmptyInv<Packet>(c.ringSize);
  }

  /** A packet popped is one that was pushed, so its receive time has passed. */
  lemma HeldIsPast(s: State)
    requires Q.Inv(s.ring) && NetInv(s.net, s.ring, s.clock) && ReadInv(s.ring, s.par) && s.par.pc.Holding?
    ensures s.par.pc.packet.timestamp <= s.clock
  {
    var last := |s.ring.popped| - 1;
    assert s.ring.popped[last] == s.ring.pushed[last];
  }

  lemma StepInv(c: Config, s: State, a: Action)
    requires Good(c) && Inv(c, s) && Enabled(s, a)
    ensures Inv(c, Apply(c, s, a))
  {
    RingStep(c, s, a);
    ControlStep(c, s, a);
    NetStep(c, s, a);
    ReadStep(c, s, a);
    SessionsStep(c, s, a);
    if s.par.pc.Holding? { HeldIsPast(s); }
    BatchStep(c, s, a);
    LanesStep(c, s, a);
    StatsStep(c, s, a);
  }

  lemma {:induction false} RunInv(c: Config, run: seq<State>, acts: seq<Action>, i: nat)
    requires Good(c) && IsRun(c, run, acts) && i < |run|
    ensures Inv(c, run[i])
  {
    if i == 0 {
      BuiltInv(c);
    } else {
      RunInv(c, run, acts, i - 1);
      RunStep(c, run, acts, i - 1);
    }
  }

  lemma RunStep(c: Config, run: seq<State>, acts: seq<Action>, i: nat)
    requires Good(c) && IsRun(c, run, acts) && i < |acts| && Inv(c, run[i])
    ensures Inv(c, run[i + 1])
  {
    StepInv(c, run[i], acts[i]);
  }
}

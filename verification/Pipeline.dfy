/** The engine as steps of its threads: the network thread pushes datagrams into a ring,
    the parser thread pops, parses and pushes each message into one queue per subscriber,
    the dispatcher thread pops and delivers, and a controller starts and stops them. The
    ring and the queues are SpscQueue transition systems, so a thread may act on a stale
    index in the middle of every push and pop. */
module Pipeline {
  import opened Types
  import opened Framing
  import opened ParserTheorems
  import opened Bits
  import D = Dispatcher
  import Q = SpscQueue

  type Msg = NormalizedMessage

  datatype Config = Config(protocol: Protocol, max: nat, ringSize: nat, queueSize: nat)

  /** Every accepted message carries the receive time of its packet. */
  ghost predicate Stamps(pr: Protocol) {
    forall body, local, out :: pr.accepts(body) ==> pr.decode(body, local, out).localTimestamp == local
  }

  ghost predicate Good(c: Config) {
    PowerOfTwo(c.ringSize) && PowerOfTwo(c.queueSize) && c.protocol.Valid() && Stamps(c.protocol)
  }

  // ------------------------------------------------------------------- state

  datatype Control =
    | Down | ReceiverStarted | DispatcherStarted | Up | JoiningParser | JoiningDispatcher | JoiningReceiver

  datatype Receiver = RecvDown | RecvTop | RecvPushing(packet: Packet)

  datatype Parsing =
    | ParseDown
    | ParseTop
    | Reading
    | Holding(packet: Packet)
    | AtMessage(i: nat)
    | Sending(i: nat, q: nat, now: Word64)
    | Pushing(i: nat, q: nat, now: Word64)

  datatype Serving = ServeDown | ServeTop | AtQueue(q: nat) | Popping(q: nat) | Delivering(q: nat, msg: Msg)

  /** The network thread, its counters, and all datagrams that arrived. */
  datatype Net = Net(pc: Receiver, received: nat, dropped: nat, arrived: seq<Packet>)

  /** The parser thread, its packet number, parser and reused buffer, the messages of the
      packet in hand, and the packets read in each session since the engine was built. */
  datatype Par = Par(
    pc: Parsing, number: nat, parser: ParserState, buffer: seq<Msg>, batch: seq<Msg>,
    sessions: seq<seq<MessageView>>)

  /** One subscriber: its queue, what it was given, how many messages its queue turned
      away, and how many had been dispatched when it joined. */
  datatype Lane = Lane(queue: Q.State<Msg>, delivered: seq<Msg>, lost: nat, joined: nat)

  /** The dispatcher: its thread, the subscribers, all dispatched messages with their
      latencies, and the statistics. */
  datatype Dist = Dist(
    pc: Serving, lanes: seq<Lane>, dispatched: seq<Msg>, latencies: seq<Word64>, stats: Statistics)

  datatype State = State(
    control: Control, socketOpen: bool, receiverRuns: bool, clock: Word64,
    net: Net, ring: Q.State<Packet>, par: Par, dist: Dist)

  datatype Action =
    | Initialize(ok: bool)
    | AddSubscriber
    | Start
    | Stop
    | Advance
    | Arrive(data: seq<Byte>, now: Word64)
    | ReceiverStep(packet: Q.Action<Packet>)
    | ReceiverExit
    | ReaderStep(packet: Q.Action<Packet>)
    | ParseStep
    | BeginMessage(now: Word64)
    | PushStep(msg: Q.Action<Msg>)
    | EndMessage
    | EndBatch
    | ParserExit
    | BeginRound
    | PopStep(msg: Q.Action<Msg>)
    | Deliver
    | EndRound
    | DispatcherExit

  /** The elements of a queue that were pushed and not popped. */
  function Held<T>(q: Q.State<T>): seq<T> {
    if |q.popped| <= |q.pushed| then q.pushed[|q.popped|..] else []
  }

  // ------------------------------------------------------------------- steps

  ghost predicate Enabled(s: State, a: Action) {
    match a
    case Initialize(_) => true
    case AddSubscriber => s.control.Down?
    case Start => s.control.Down?
    case Stop => s.control.Up?
    case Advance =>
      (match s.control
       case ReceiverStarted => true
       case DispatcherStarted => true
       case JoiningParser => s.par.pc.ParseDown?
       case JoiningDispatcher => s.dist.pc.ServeDown?
       case JoiningReceiver => s.net.pc.RecvDown?
       case _ => false)
    case Arrive(data, now) =>
      s.net.pc.RecvTop? && 1 <= |data| <= MAX_PACKET_SIZE && now >= s.clock
      && Q.Enabled(s.ring, Q.BeginPush(Packet(data, now)))
    case ReceiverStep(b) => s.net.pc.RecvPushing? && Q.Pushes(b) && !b.BeginPush? && Q.Enabled(s.ring, b)
    case ReceiverExit => s.net.pc.RecvTop? && s.control.JoiningReceiver?
    case ReaderStep(b) =>
      (if b.BeginPop? then s.par.pc.ParseTop? else s.par.pc.Reading?) && Q.Pops(b) && Q.Enabled(s.ring, b)
    case ParseStep => s.par.pc.Holding? && s.par.sessions != []
    case BeginMessage(now) => s.par.pc.AtMessage? && s.par.pc.i < |s.par.batch| && now >= s.clock
    case PushStep(b) =>
      (if b.BeginPush? then s.par.pc.Sending? && s.par.pc.i < |s.par.batch| && b.item == s.par.batch[s.par.pc.i]
       else s.par.pc.Pushing?)
      && s.par.pc.q < |s.dist.lanes| && Q.Pushes(b) && Q.Enabled(s.dist.lanes[s.par.pc.q].queue, b)
    case EndMessage => s.par.pc.Sending? && s.par.pc.q == |s.dist.lanes| && s.par.pc.i < |s.par.batch|
    case EndBatch => s.par.pc.AtMessage? && s.par.pc.i == |s.par.batch|
    case ParserExit => s.par.pc.ParseTop? && s.control.JoiningParser?
    case BeginRound => s.dist.pc.ServeTop?
    case PopStep(b) =>
      (if b.BeginPop? then s.dist.pc.AtQueue? else s.dist.pc.Popping?)
      && s.dist.pc.q < |s.dist.lanes| && Q.Pops(b) && Q.Enabled(s.dist.lanes[s.dist.pc.q].queue, b)
    case Deliver => s.dist.pc.Delivering? && s.dist.pc.q < |s.dist.lanes|
    case EndRound => s.dist.pc.AtQueue? && s.dist.pc.q == |s.dist.lanes|
    case DispatcherExit => s.dist.pc.ServeTop? && s.control.JoiningDispatcher?
  }

  ghost function Controlled(c: Config, s: State): State {
    match s.control
    case ReceiverStarted => s.(control := DispatcherStarted, dist := s.dist.(pc := ServeTop))
    case DispatcherStarted =>
      s.(control := Up,
         par := s.par.(pc := ParseTop, buffer := DefaultBuffer(c.max), sessions := s.par.sessions + [[]]))
    case JoiningParser => s.(control := JoiningDispatcher)
    case JoiningDispatcher => s.(control := JoiningReceiver)
    case JoiningReceiver =>
      s.(control := Down, socketOpen := s.socketOpen && !s.receiverRuns, receiverRuns := false,
         par := s.par.(parser := FRESH))
    case _ => s
  }

  /** The view `read_packet` hands out: its number has 32 bits. */
  function ViewOf(packet: Packet, number: nat): MessageView {
    MessageView(Some(packet.data), packet.timestamp, number % TWO_32)
  }

  ghost function ParseNext(c: Config, par: Par): Par
    requires par.pc.Holding? && par.sessions != []
  {
    var view := ViewOf(par.pc.packet, par.number);
    var r := ParsePacket(c.protocol, par.parser, par.buffer, view, c.max);
    var last := |par.sessions| - 1;
    Par(AtMessage(0), Next32(par.number), r.state, r.buffer,
        if r.count <= |r.buffer| then r.buffer[..r.count] else r.buffer,
        par.sessions[last := par.sessions[last] + [view]])
  }

  /** The dispatcher after one step of a push into queue `q`; a full queue counts as a drop. */
  ghost function Offered(d: Dist, q: nat, b: Q.Action<Msg>): Dist
    requires q < |d.lanes| && Q.Enabled(d.lanes[q].queue, b)
  {
    var lane := d.lanes[q];
    var lane' := lane.(queue := Q.Apply(lane.queue, b));
    if Q.Rejects(lane.queue, b) then
      d.(lanes := d.lanes[q := lane'.(lost := lane.lost + 1)],
         stats := d.stats.(packetsDropped := d.stats.packetsDropped + 1))
    else d.(lanes := d.lanes[q := lane'])
  }

  ghost function Apply(c: Config, s: State, a: Action): State
    requires Enabled(s, a)
  {
    match a
    case Initialize(ok) => s.(socketOpen := ok)
    case AddSubscriber =>
      var d := s.dist;
      s.(dist := d.(lanes := d.lanes + [Lane(Q.Empty(c.queueSize), [], 0, |d.dispatched|)]))
    case Start =>
      s.(control := ReceiverStarted, receiverRuns := s.socketOpen,
         net := s.net.(pc := if s.socketOpen then RecvTop else RecvDown))
    case Stop => s.(control := JoiningParser)
    case Advance => Controlled(c, s)
    case Arrive(data, now) =>
      var packet := Packet(data, now);
      s.(clock := now, ring := Q.Apply(s.ring, Q.BeginPush(packet)),
         net := s.net.(pc := RecvPushing(packet), arrived := s.net.arrived + [packet]))
    case ReceiverStep(b) =>
      s.(ring := Q.Apply(s.ring, b),
         net := if !Q.Ends(s.ring, b) then s.net
                else if b.StoreHead? then s.net.(pc := RecvTop, received := s.net.received + 1)
                else s.net.(pc := RecvTop, dropped := s.net.dropped + 1))
    case ReceiverExit => s.(net := s.net.(pc := RecvDown))
    case ReaderStep(b) =>
      var ring := Q.Apply(s.ring, b);
      s.(ring := ring,
         par := s.par.(pc := if !Q.Ends(s.ring, b) then Reading
                             else if b.StoreTail? then Holding(s.ring.consumer.item)
                             else ParseTop))
    case ParseStep => s.(par := ParseNext(c, s.par))
    case BeginMessage(now) => s.(clock := now, par := s.par.(pc := Sending(s.par.pc.i, 0, now)))
    case PushStep(b) =>
      var q := s.par.pc.q;
      var queue := s.dist.lanes[q].queue;
      s.(dist := Offered(s.dist, q, b),
         par := s.par.(pc := if Q.Ends(queue, b) then Sending(s.par.pc.i, q + 1, s.par.pc.now)
                             else Pushing(s.par.pc.i, q, s.par.pc.now)))
    case EndMessage =>
      var d, msg := s.dist, s.par.batch[s.par.pc.i];
      var latency := D.Latency(s.par.pc.now, msg.localTimestamp);
      s.(dist := d.(dispatched := d.dispatched + [msg], latencies := d.latencies + [latency],
                    stats := d.stats.(messagesDispatched := d.stats.messagesDispatched + 1).UpdateLatency(latency)),
         par := s.par.(pc := AtMessage(s.par.pc.i + 1)))
    case EndBatch => s.(par := s.par.(pc := ParseTop))
    case ParserExit => s.(par := s.par.(pc := ParseDown))
    case BeginRound => s.(dist := s.dist.(pc := AtQueue(0)))
    case PopStep(b) =>
      var q, d := s.dist.pc.q, s.dist;
      var lane := d.lanes[q];
      s.(dist := d.(lanes := d.lanes[q := lane.(queue := Q.Apply(lane.queue, b))],
                    pc := if !Q.Ends(lane.queue, b) then Popping(q)
                          else if b.StoreTail? then Delivering(q, lane.queue.consumer.item)
                          else AtQueue(q + 1)))
    case Deliver =>
      var Delivering(q, msg) := s.dist.pc;
      var lane := s.dist.lanes[q];
      s.(dist := s.dist.(pc := AtQueue(q), lanes := s.dist.lanes[q := lane.(delivered := lane.delivered + [msg])]))
    case EndRound => s.(dist := s.dist.(pc := ServeTop))
    case DispatcherExit => s.(dist := s.dist.(pc := ServeDown))
  }

  ghost function Built(c: Config): State {
    State(Down, false, false, 0, Net(RecvDown, 0, 0, []), Q.Empty(c.ringSize),
          Par(ParseDown, 0, FRESH, DefaultBuffer(c.max), [], []),
          Dist(ServeDown, [], [], [], NO_STATISTICS))
  }

  ghost predicate IsRun(c: Config, run: seq<State>, acts: seq<Action>) {
    && |run| == |acts| + 1
    && run[0] == Built(c)
    && forall i :: 0 <= i < |acts| ==> Enabled(run[i], acts[i]) && run[i + 1] == Apply(c, run[i], acts[i])
  }
}

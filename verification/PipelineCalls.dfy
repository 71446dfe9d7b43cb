/** The receiver object and the dispatcher object against the machine of threads: a datagram
    received undisturbed, and a round of the dispatcher thread that nothing disturbs, are
    sequences of the thread's own steps with the effect the objects' methods promise. */
module PipelineCalls {
  import opened Lists
  import opened Types
  import opened Pipeline
  import opened PipelineInvariant
  import opened PipelineProgress
  import opened PipelineSteps
  import Q = SpscQueue

  // ------------------------------------------------------------- one datagram

  ghost function Receiving(s: State, now: Word64, ring: Q.State<Packet>, net: Net): State {
    s.(clock := now, ring := ring, net := net)
  }

  /** The network thread after a step of its push. */
  ghost function NetAfter(net: Net, ring: Q.State<Packet>, b: Q.Action<Packet>): Net
    requires Q.WellFormed(ring)
  {
    if !Q.Ends(ring, b) then net
    else if b.StoreHead? then net.(pc := RecvTop, received := net.received + 1)
    else net.(pc := RecvTop, dropped := net.dropped + 1)
  }

  function Arrived(net: Net, packet: Packet): Net {
    net.(pc := RecvPushing(packet), arrived := net.arrived + [packet])
  }

  lemma ArriveDo(c: Config, s: State, data: seq<Byte>, now: Word64)
    requires s.net.pc.RecvTop? && 1 <= |data| <= MAX_PACKET_SIZE && now >= s.clock
    requires Q.Enabled(s.ring, Q.BeginPush(Packet(data, now)))
    ensures var packet := Packet(data, now);
      Leads(c, Receives, s, Receiving(s, now, Q.Apply(s.ring, Q.BeginPush(packet)), Arrived(s.net, packet)))
  {
    One(c, Receives, s, Arrive(data, now));
  }

  lemma ReceiveDo(c: Config, s: State, now: Word64, ring: Q.State<Packet>, net: Net, b: Q.Action<Packet>, net': Net)
    requires net.pc.RecvPushing? && Q.Enabled(ring, b) && Q.Pushes(b) && !b.BeginPush? && net' == NetAfter(net, ring, b)
    ensures Leads(c, Receives, Receiving(s, now, ring, net), Receiving(s, now, Q.Apply(ring, b), net'))
  {
    One(c, Receives, Receiving(s, now, ring, net), ReceiverStep(b));
  }

  lemma ReceiveRoom(c: Config, s: State, data: seq<Byte>, now: Word64) returns (ring: Q.State<Packet>)
    requires s.net.pc.RecvTop? && 1 <= |data| <= MAX_PACKET_SIZE && now >= s.clock
    requires Q.Inv(s.ring) && s.ring.producer.Idle? && |Held(s.ring)| < s.ring.size - 1
    ensures Held(ring) == Held(s.ring) + [Packet(data, now)] && ring.consumer == s.ring.consumer
    ensures var net := Arrived(s.net, Packet(data, now));
      Leads(c, Receives, s, Receiving(s, now, ring, net.(pc := RecvTop, received := net.received + 1)))
  {
    var packet := Packet(data, now);
    var net, load := Arrived(s.net, packet), Q.LoadTail(|s.ring.popped|);
    var net' := net.(pc := RecvTop, received := net.received + 1);
    var r1, r2, r3, r4 := Q.PushPath(s.ring, packet);
    ring := r4;
    DropSnoc(s.ring.pushed, packet, |s.ring.popped|);
    ArriveDo(c, s, data, now);
    ReceiveDo(c, s, now, r1, net, load, net);
    ReceiveDo(c, s, now, r2, net, Q.StoreData, net);
    ReceiveDo(c, s, now, r3, net, Q.StoreHead, net');
    Then(c, Receives, s, Receiving(s, now, r1, net), Receiving(s, now, r2, net));
    Then(c, Receives, s, Receiving(s, now, r2, net), Receiving(s, now, r3, net));
    Then(c, Receives, s, Receiving(s, now, r3, net), Receiving(s, now, r4, net'));
  }

  lemma ReceiveFull(c: Config, s: State, data: seq<Byte>, now: Word64) returns (ring: Q.State<Packet>)
    requires s.net.pc.RecvTop? && 1 <= |data| <= MAX_PACKET_SIZE && now >= s.clock
    requires Q.Inv(s.ring) && s.ring.producer.Idle? && |Held(s.ring)| >= s.ring.size - 1
    ensures Held(ring) == Held(s.ring) && ring.consumer == s.ring.consumer
    ensures var net := Arrived(s.net, Packet(data, now));
      Leads(c, Receives, s, Receiving(s, now, ring, net.(pc := RecvTop, dropped := net.dropped + 1)))
  {
    var packet := Packet(data, now);
    var net, load := Arrived(s.net, packet), Q.LoadTail(|s.ring.popped|);
    var net' := net.(pc := RecvTop, dropped := net.dropped + 1);
    var r1, r2 := Q.FullPath(s.ring, packet);
    ring := r2;
    ArriveDo(c, s, data, now);
    ReceiveDo(c, s, now, r1, net, load, net');
    Then(c, Receives, s, Receiving(s, now, r1, net), Receiving(s, now, r2, net'));
  }

  /** A datagram received undisturbed, from any state the invariant holds in: the network
      thread's own steps append it to the ring and count it as received, or, the ring being
      full, count it as dropped; the other threads are where they were. */
  lemma ReceiveAlone(c: Config, s: State, data: seq<Byte>, now: Word64) returns (s': State)
    requires Inv(c, s) && s.net.pc.RecvTop? && 1 <= |data| <= MAX_PACKET_SIZE && now >= s.clock
    ensures Leads(c, Receives, s, s') && s'.net.pc.RecvTop? && s'.par == s.par && s'.dist == s.dist && s'.clock == now
    ensures s'.net.arrived == s.net.arrived + [Packet(data, now)]
    ensures if |Held(s.ring)| < c.ringSize - 1 then
        && Held(s'.ring) == Held(s.ring) + [Packet(data, now)]
        && s'.net.received == s.net.received + 1 && s'.net.dropped == s.net.dropped
      else
        && Held(s'.ring) == Held(s.ring)
        && s'.net.received == s.net.received && s'.net.dropped == s.net.dropped + 1
  {
    var net := Arrived(s.net, Packet(data, now));
    if |Held(s.ring)| < c.ringSize - 1 {
      var ring := ReceiveRoom(c, s, data, now);
      s' := Receiving(s, now, ring, net.(pc := RecvTop, received := net.received + 1));
    } else {
      var ring := ReceiveFull(c, s, data, now);
      s' := Receiving(s, now, ring, net.(pc := RecvTop, dropped := net.dropped + 1));
    }
  }

  // ---------------------------------------------------------------- one queue

  /** The dispatcher thread with queue `q` as given. */
  ghost function Serve(s: State, q: nat, lane: Lane, pc: Serving): State
    requires q < |s.dist.lanes|
  {
    s.(dist := s.dist.(lanes := s.dist.lanes[q := lane], pc := pc))
  }

  lemma PopDo(c: Config, s: State, q: nat, lane: Lane, b: Q.Action<Msg>, lane': Lane, pc': Serving)
    requires q < |s.dist.lanes| && Q.Enabled(lane.queue, b) && Q.Pops(b)
    requires lane' == lane.(queue := Q.Apply(lane.queue, b)) && pc' == PopMoves(lane.queue, q, b)
    ensures var pc := if b.BeginPop? then AtQueue(q) else Popping(q);
      Leads(c, Serves, Serve(s, q, lane, pc), Serve(s, q, lane', pc'))
  {
    var pc := if b.BeginPop? then AtQueue(q) else Popping(q);
    PopIs(c, s, q, lane, b, lane', pc');
    One(c, Serves, Serve(s, q, lane, pc), PopStep(b));
  }

  lemma PopIs(c: Config, s: State, q: nat, lane: Lane, b: Q.Action<Msg>, lane': Lane, pc': Serving)
    requires q < |s.dist.lanes| && Q.Enabled(lane.queue, b) && Q.Pops(b)
    requires lane' == lane.(queue := Q.Apply(lane.queue, b)) && pc' == PopMoves(lane.queue, q, b)
    ensures var pc := if b.BeginPop? then AtQueue(q) else Popping(q); var m := Serve(s, q, lane, pc);
      Enabled(m, PopStep(b)) && Apply(c, m, PopStep(b)) == Serve(s, q, lane', pc')
  {
    UpdateTwice(s.dist.lanes, q, lane, lane');
  }

  lemma DeliverDo(c: Config, s: State, q: nat, lane: Lane, msg: Msg, lane': Lane)
    requires q < |s.dist.lanes| && lane' == lane.(delivered := lane.delivered + [msg])
    ensures Leads(c, Serves, Serve(s, q, lane, Delivering(q, msg)), Serve(s, q, lane', AtQueue(q)))
  {
    UpdateTwice(s.dist.lanes, q, lane, lane');
    var m := Serve(s, q, lane, Delivering(q, msg));
    assert Apply(c, m, Deliver) == Serve(s, q, lane', AtQueue(q));
    One(c, Serves, m, Deliver);
  }

  /** A queue no pop is under way on. */
  ghost predicate Rested(lane: Lane) { Q.Inv(lane.queue) && lane.queue.consumer.Resting? }

  ghost predicate AllRested(lanes: seq<Lane>) { forall j :: 0 <= j < |lanes| ==> Rested(lanes[j]) }

  /** The oldest message of the queue is delivered: five steps. */
  lemma ServeOne(c: Config, s: State, q: nat, lane: Lane) returns (lane': Lane)
    requires q < |s.dist.lanes| && Rested(lane) && Held(lane.queue) != []
    ensures Rested(lane') && Held(lane'.queue) == Held(lane.queue)[1..]
    ensures lane'.delivered == lane.delivered + [Held(lane.queue)[0]] && lane'.joined == lane.joined
    ensures Leads(c, Serves, Serve(s, q, lane, AtQueue(q)), Serve(s, q, lane', AtQueue(q)))
  {
    var queue := lane.queue;
    var msg, load, take := Held(queue)[0], Q.LoadHead(|queue.pushed|), Q.TakeData(|queue.popped|);
    var r1, r2, r3, r4 := Q.PopPath(queue);
    DropOne(queue.pushed, |queue.popped|);
    var l1, l2, l3, l4 := lane.(queue := r1), lane.(queue := r2), lane.(queue := r3), lane.(queue := r4);
    lane' := l4.(delivered := l4.delivered + [msg]);
    var start := Serve(s, q, lane, AtQueue(q));
    PopDo(c, s, q, lane, Q.BeginPop, l1, Popping(q));
    PopDo(c, s, q, l1, load, l2, Popping(q));
    PopDo(c, s, q, l2, take, l3, Popping(q));
    PopDo(c, s, q, l3, Q.StoreTail, l4, Delivering(q, msg));
    DeliverDo(c, s, q, l4, msg, lane');
    Then(c, Serves, start, Serve(s, q, l1, Popping(q)), Serve(s, q, l2, Popping(q)));
    Then(c, Serves, start, Serve(s, q, l2, Popping(q)), Serve(s, q, l3, Popping(q)));
    Then(c, Serves, start, Serve(s, q, l3, Popping(q)), Serve(s, q, l4, Delivering(q, msg)));
    Then(c, Serves, start, Serve(s, q, l4, Delivering(q, msg)), Serve(s, q, lane', AtQueue(q)));
  }

  /** An empty queue is left: two steps. */
  lemma LeaveEmpty(c: Config, s: State, q: nat, lane: Lane) returns (lane': Lane)
    requires q < |s.dist.lanes| && Rested(lane) && Held(lane.queue) == []
    ensures Rested(lane') && Held(lane'.queue) == []
    ensures lane'.delivered == lane.delivered && lane'.joined == lane.joined
    ensures Leads(c, Serves, Serve(s, q, lane, AtQueue(q)), Serve(s, q, lane', AtQueue(q + 1)))
  {
    var r1, r2 := Q.EmptyPath(lane.queue);
    var l1 := lane.(queue := r1);
    lane' := lane.(queue := r2);
    PopDo(c, s, q, lane, Q.BeginPop, l1, Popping(q));
    PopDo(c, s, q, l1, Q.LoadHead(|lane.queue.pushed|), lane', AtQueue(q + 1));
    Then(c, Serves, Serve(s, q, lane, AtQueue(q)), Serve(s, q, l1, Popping(q)),
         Serve(s, q, lane', AtQueue(q + 1)));
  }

  /** All a queue held is delivered, in order. */
  ghost predicate Drained(lane: Lane, lane': Lane) {
    && Rested(lane') && Held(lane'.queue) == []
    && lane'.delivered == lane.delivered + Held(lane.queue) && lane'.joined == lane.joined
  }

  lemma {:induction false} DrainQueue(c: Config, s: State, q: nat, lane: Lane) returns (lane': Lane)
    requires q < |s.dist.lanes| && Rested(lane)
    ensures Drained(lane, lane')
    ensures Leads(c, Serves, Serve(s, q, lane, AtQueue(q)), Serve(s, q, lane', AtQueue(q + 1)))
    decreases |Held(lane.queue)|
  {
    if Held(lane.queue) == [] {
      lane' := LeaveEmpty(c, s, q, lane);
      NothingAfter(lane.delivered);
    } else {
      var l := ServeOne(c, s, q, lane);
      lane' := DrainQueue(c, s, q, l);
      Regroup(lane.delivered, Held(lane.queue));
      Then(c, Serves, Serve(s, q, lane, AtQueue(q)), Serve(s, q, l, AtQueue(q)),
           Serve(s, q, lane', AtQueue(q + 1)));
    }
  }

  // ---------------------------------------------------------------- one round

  ghost function AtLane(s: State, lanes: seq<Lane>, q: nat): State {
    s.(dist := s.dist.(lanes := lanes, pc := AtQueue(q)))
  }

  /** The first `q` lanes are drained, the others as they were. */
  ghost predicate DrainedFirst(lanes: seq<Lane>, q: nat, lanes': seq<Lane>) {
    && |lanes'| == |lanes| && q <= |lanes|
    && (forall j :: 0 <= j < q ==> Drained(lanes[j], lanes'[j]))
    && (forall j :: q <= j < |lanes| ==> lanes'[j] == lanes[j])
  }

  lemma DrainedNext(lanes: seq<Lane>, q: nat, lanes': seq<Lane>, lane: Lane)
    requires DrainedFirst(lanes, q, lanes') && q < |lanes| && Drained(lanes[q], lane)
    ensures DrainedFirst(lanes, q + 1, lanes'[q := lane])
  {
  }

  lemma AtLaneParts(s: State, lanes: seq<Lane>, q: nat, lane: Lane)
    requires q < |lanes|
    ensures Serve(AtLane(s, lanes, q), q, lanes[q], AtQueue(q)) == AtLane(s, lanes, q)
    ensures Serve(AtLane(s, lanes, q), q, lane, AtQueue(q + 1)) == AtLane(s, lanes[q := lane], q + 1)
  {
    assert lanes[q := lanes[q]] == lanes;
  }

  lemma DrainNext(c: Config, s: State, lanes: seq<Lane>, q: nat) returns (lane: Lane)
    requires q < |lanes| && Rested(lanes[q])
    ensures Drained(lanes[q], lane)
    ensures Leads(c, Serves, AtLane(s, lanes, q), AtLane(s, lanes[q := lane], q + 1))
  {
    lane := DrainQueue(c, AtLane(s, lanes, q), q, lanes[q]);
    AtLaneParts(s, lanes, q, lane);
  }

  /** `m` is reached from `s`, which is at queue 0, by draining the first `q` queues. */
  ghost predicate DrainedTo(c: Config, s: State, q: nat, m: State) {
    && Leads(c, Serves, s, m) && m == AtLane(s, m.dist.lanes, q)
    && DrainedFirst(s.dist.lanes, q, m.dist.lanes)
  }

  lemma DrainedNone(c: Config, s: State)
    requires s.dist.pc == AtQueue(0)
    ensures DrainedTo(c, s, 0, s)
  {
    Stays(c, Serves, s);
  }

  lemma DrainStep(c: Config, s: State, q: nat, m: State) returns (m': State)
    requires DrainedTo(c, s, q, m) && q < |s.dist.lanes| && AllRested(s.dist.lanes)
    ensures DrainedTo(c, s, q + 1, m')
  {
    assert Rested(s.dist.lanes[q]);
    var lane := DrainNext(c, s, m.dist.lanes, q);
    DrainedNext(s.dist.lanes, q, m.dist.lanes, lane);
    m' := AtLane(s, m.dist.lanes[q := lane], q + 1);
    Then(c, Serves, s, m, m');
  }

  lemma {:induction false} DrainTo(c: Config, s: State, q: nat) returns (m: State)
    requires q <= |s.dist.lanes| && AllRested(s.dist.lanes) && s.dist.pc == AtQueue(0)
    ensures DrainedTo(c, s, q, m)
  {
    if q == 0 {
      m := s;
      DrainedNone(c, s);
    } else {
      var m1 := DrainTo(c, s, q - 1);
      m := DrainStep(c, s, q - 1, m1);
    }
  }

  lemma RoundBegins(c: Config, s: State)
    requires s.dist.pc.ServeTop?
    ensures Leads(c, Serves, s, s.(dist := s.dist.(pc := AtQueue(0))))
  {
    One(c, Serves, s, BeginRound);
  }

  lemma RoundCloses(c: Config, s: State)
    requires s.dist.pc == AtQueue(|s.dist.lanes|)
    ensures Leads(c, Serves, s, s.(dist := s.dist.(pc := ServeTop)))
  {
    One(c, Serves, s, EndRound);
  }

  /** A round of the dispatcher thread that nothing disturbs, from any state the invariant holds
      in: the thread's own steps deliver to every subscriber, in order, all its queue held, and
      leave the queues empty, which is what `DrainAll` promises of the object. */
  lemma DrainAlone(c: Config, s: State) returns (s': State)
    requires Inv(c, s) && s.dist.pc.ServeTop?
    ensures Leads(c, Serves, s, s') && s' == s.(dist := s.dist.(lanes := s'.dist.lanes))
    ensures |s'.dist.lanes| == |s.dist.lanes| && forall j :: 0 <= j < |s.dist.lanes| ==>
      && Held(s'.dist.lanes[j].queue) == []
      && s'.dist.lanes[j].delivered == s.dist.lanes[j].delivered + Held(s.dist.lanes[j].queue)
  {
    LanesRested(c, s);
    RoundBegins(c, s);
    var b := s.(dist := s.dist.(pc := AtQueue(0)));
    var m := DrainTo(c, b, |s.dist.lanes|);
    RoundCloses(c, m);
    s' := m.(dist := m.dist.(pc := ServeTop));
    Then(c, Serves, s, b, m);
    Then(c, Serves, s, m, s');
    DrainedParts(s, m.dist.lanes, s');
  }

  lemma DrainedParts(s: State, lanes: seq<Lane>, s': State)
    requires s.dist.pc.ServeTop? && DrainedFirst(s.dist.lanes, |s.dist.lanes|, lanes)
    requires s' == s.(dist := s.dist.(lanes := lanes))
    ensures s' == s.(dist := s.dist.(lanes := s'.dist.lanes)) && |s'.dist.lanes| == |s.dist.lanes|
    ensures forall j :: 0 <= j < |s.dist.lanes| ==>
      && Held(s'.dist.lanes[j].queue) == []
      && s'.dist.lanes[j].delivered == s.dist.lanes[j].delivered + Held(s.dist.lanes[j].queue)
  {
    forall j | 0 <= j < |s.dist.lanes| ensures Drained(s.dist.lanes[j], lanes[j]) {
    }
  }

  lemma LanesRested(c: Config, s: State)
    requires Inv(c, s) && s.dist.pc.ServeTop?
    ensures AllRested(s.dist.lanes)
  {
    forall j | 0 <= j < |s.dist.lanes| ensures Rested(s.dist.lanes[j]) {
      assert LaneInv(c.queueSize, s.dist.lanes[j], WorkAt(s.par, s.dist.pc, j), s.dist.dispatched);
    }
  }
}

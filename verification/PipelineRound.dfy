/** The engine object and the machine of threads are two views of one engine: a round of the
    parse loop that nothing disturbs is a sequence of the machine's steps, and does to the
    machine what it does to the object. */
module PipelineRound {
  import opened Bits
  import opened Lists
  import opened Types
  import opened ParserTheorems
  import opened Pipeline
  import opened PipelineInvariant
  import opened PipelineProgress
  import opened PipelineSteps
  import D = Dispatcher
  import E = Engine
  import Q = SpscQueue

  // ----------------------------------------------------- what a round works on

  function HeldAll(lanes: seq<Lane>): (r: seq<seq<Msg>>)
    ensures |r| == |lanes|
  {
    seq(|lanes|, j requires 0 <= j < |lanes| => Held(lanes[j].queue))
  }

  function OfferingOf(d: Dist): D.Offering { D.Offering(HeldAll(d.lanes), d.stats) }

  function WorkOf(s: State): E.Work {
    E.Work(Held(s.ring), s.par.number, s.par.parser, s.par.buffer, OfferingOf(s.dist))
  }

  /** A queue no push is under way on. */
  ghost predicate Ready(lane: Lane) {
    Q.Inv(lane.queue) && lane.queue.size == D.DEFAULT_QUEUE_SIZE && lane.queue.producer.Idle?
  }

  ghost predicate AllReady(lanes: seq<Lane>) { forall j :: 0 <= j < |lanes| ==> Ready(lanes[j]) }

  /** A lane offered a message. */
  ghost predicate Takes(lane: Lane, msg: Msg, lane': Lane) {
    && Ready(lane') && Held(lane'.queue) == D.Offer(Held(lane.queue), msg)
    && lane'.delivered == lane.delivered && lane'.joined == lane.joined
  }

  // ---------------------------------------------------------- one push, one pop

  ghost function Queue(s: State): Q.State<Msg>
    requires s.par.pc.Sending? && s.par.pc.q < |s.dist.lanes|
  {
    s.dist.lanes[s.par.pc.q].queue
  }

  /** In the middle of the push that starts in `s`, with the queue as given. */
  ghost function Midway(s: State, queue: Q.State<Msg>): State
    requires s.par.pc.Sending? && s.par.pc.q < |s.dist.lanes|
  {
    var Sending(i, q, now) := s.par.pc;
    s.(dist := s.dist.(lanes := s.dist.lanes[q := s.dist.lanes[q].(queue := queue)]),
       par := s.par.(pc := Pushing(i, q, now)))
  }

  lemma PushBegins(c: Config, s: State)
    requires s.par.pc.Sending? && s.par.pc.q < |s.dist.lanes| && s.par.pc.i < |s.par.batch|
    requires Q.WellFormed(Queue(s)) && Queue(s).producer.Idle?
    ensures var b := Q.BeginPush(s.par.batch[s.par.pc.i]);
      Leads(c, Parses, s, Midway(s, Q.Apply(Queue(s), b)))
  {
    One(c, Parses, s, PushStep(Q.BeginPush(s.par.batch[s.par.pc.i])));
  }

  lemma PushContinues(c: Config, s: State, queue: Q.State<Msg>, b: Q.Action<Msg>)
    requires s.par.pc.Sending? && s.par.pc.q < |s.dist.lanes|
    requires Q.Enabled(queue, b) && Q.Pushes(b) && !b.BeginPush? && !Q.Ends(queue, b)
    ensures Leads(c, Parses, Midway(s, queue), Midway(s, Q.Apply(queue, b)))
  {
    One(c, Parses, Midway(s, queue), PushStep(b));
    var q := s.par.pc.q;
    UpdateTwice(s.dist.lanes, q, s.dist.lanes[q].(queue := queue), s.dist.lanes[q].(queue := Q.Apply(queue, b)));
  }

  /** The state after the push, with lane `q` and the statistics as given. */
  ghost function Pushed(s: State, lane: Lane, stats: Statistics): State
    requires s.par.pc.Sending? && s.par.pc.q < |s.dist.lanes|
  {
    var Sending(i, q, now) := s.par.pc;
    s.(dist := s.dist.(lanes := s.dist.lanes[q := lane], stats := stats), par := s.par.(pc := Sending(i, q + 1, now)))
  }

  lemma PushFinishes(c: Config, s: State, queue: Q.State<Msg>, lane: Lane)
    requires s.par.pc.Sending? && s.par.pc.q < |s.dist.lanes| && Q.Enabled(queue, Q.StoreHead)
    requires lane == s.dist.lanes[s.par.pc.q].(queue := Q.Apply(queue, Q.StoreHead))
    ensures Leads(c, Parses, Midway(s, queue), Pushed(s, lane, s.dist.stats))
  {
    LastStep(c, s, queue, Q.StoreHead, lane, s.dist.stats);
    One(c, Parses, Midway(s, queue), PushStep(Q.StoreHead));
  }

  lemma PushRefused(c: Config, s: State, queue: Q.State<Msg>, b: Q.Action<Msg>, lane: Lane, stats: Statistics)
    requires s.par.pc.Sending? && s.par.pc.q < |s.dist.lanes|
    requires Q.Enabled(queue, b) && b.LoadTail? && Q.Rejects(queue, b)
    requires lane == Lane(Q.Apply(queue, b), s.dist.lanes[s.par.pc.q].delivered, s.dist.lanes[s.par.pc.q].lost + 1,
                          s.dist.lanes[s.par.pc.q].joined)
    requires stats == s.dist.stats.(packetsDropped := s.dist.stats.packetsDropped + 1)
    ensures Leads(c, Parses, Midway(s, queue), Pushed(s, lane, stats))
  {
    LastStep(c, s, queue, b, lane, stats);
    One(c, Parses, Midway(s, queue), PushStep(b));
  }

  lemma LastStep(c: Config, s: State, queue: Q.State<Msg>, b: Q.Action<Msg>, lane: Lane, stats: Statistics)
    requires s.par.pc.Sending? && s.par.pc.q < |s.dist.lanes|
    requires Q.Enabled(queue, b) && Q.Pushes(b) && !b.BeginPush? && Q.Ends(queue, b)
    requires var l := s.dist.lanes[s.par.pc.q];
      lane == Lane(Q.Apply(queue, b), l.delivered, if Q.Rejects(queue, b) then l.lost + 1 else l.lost, l.joined)
    requires stats == if Q.Rejects(queue, b) then s.dist.stats.(packetsDropped := s.dist.stats.packetsDropped + 1)
                      else s.dist.stats
    ensures Enabled(Midway(s, queue), PushStep(b))
    ensures Apply(c, Midway(s, queue), PushStep(b)) == Pushed(s, lane, stats)
  {
    var q := s.par.pc.q;
    UpdateTwice(s.dist.lanes, q, s.dist.lanes[q].(queue := queue), lane);
    assert Offered(Midway(s, queue).dist, q, b) == s.dist.(lanes := s.dist.lanes[q := lane], stats := stats);
  }

  lemma RoomTakes(lane: Lane, msg: Msg, queue: Q.State<Msg>)
    requires Ready(lane) && |Held(lane.queue)| < D.DEFAULT_QUEUE_SIZE - 1
    requires Q.Inv(queue) && queue.producer.Idle? && queue.size == lane.queue.size
    requires queue.pushed == lane.queue.pushed + [msg] && queue.popped == lane.queue.popped
    ensures Takes(lane, msg, lane.(queue := queue))
  {
    DropSnoc(lane.queue.pushed, msg, |lane.queue.popped|);
  }

  lemma FullTakes(lane: Lane, msg: Msg, lane': Lane)
    requires Ready(lane) && |Held(lane.queue)| >= D.DEFAULT_QUEUE_SIZE - 1
    requires Q.Inv(lane'.queue) && lane'.queue.producer.Idle? && lane'.queue.size == lane.queue.size
    requires lane'.queue.pushed == lane.queue.pushed && lane'.queue.popped == lane.queue.popped
    requires lane'.delivered == lane.delivered && lane'.joined == lane.joined
    ensures Takes(lane, msg, lane')
  {
  }

  /** A push into queue `q` that finds room: its four steps. */
  lemma PushRoom(c: Config, s: State) returns (lane: Lane)
    requires s.par.pc.Sending? && s.par.pc.i < |s.par.batch| && s.par.pc.q < |s.dist.lanes|
    requires Ready(s.dist.lanes[s.par.pc.q]) && |Held(Queue(s))| < D.DEFAULT_QUEUE_SIZE - 1
    ensures Takes(s.dist.lanes[s.par.pc.q], s.par.batch[s.par.pc.i], lane)
    ensures Leads(c, Parses, s, Pushed(s, lane, s.dist.stats))
  {
    var msg, load := s.par.batch[s.par.pc.i], Q.LoadTail(|Queue(s).popped|);
    var r1, r2, r3, r4 := Q.PushPath(Queue(s), msg);
    lane := s.dist.lanes[s.par.pc.q].(queue := r4);
    RoomTakes(s.dist.lanes[s.par.pc.q], msg, r4);
    StoreBoth(c, s, r2, lane);
    LoadBoth(c, s, load);
    Then(c, Parses, s, Midway(s, r2), Pushed(s, lane, s.dist.stats));
  }

  lemma LoadBoth(c: Config, s: State, load: Q.Action<Msg>)
    requires s.par.pc.Sending? && s.par.pc.i < |s.par.batch| && s.par.pc.q < |s.dist.lanes|
    requires Q.WellFormed(Queue(s)) && Queue(s).producer.Idle?
    requires var r1 := Q.Apply(Queue(s), Q.BeginPush(s.par.batch[s.par.pc.i]));
      Q.Enabled(r1, load) && load.LoadTail? && !Q.Rejects(r1, load)
    ensures var r1 := Q.Apply(Queue(s), Q.BeginPush(s.par.batch[s.par.pc.i]));
      Leads(c, Parses, s, Midway(s, Q.Apply(r1, load)))
  {
    var r1 := Q.Apply(Queue(s), Q.BeginPush(s.par.batch[s.par.pc.i]));
    PushBegins(c, s);
    PushContinues(c, s, r1, load);
    Then(c, Parses, s, Midway(s, r1), Midway(s, Q.Apply(r1, load)));
  }

  lemma StoreBoth(c: Config, s: State, r2: Q.State<Msg>, lane: Lane)
    requires s.par.pc.Sending? && s.par.pc.q < |s.dist.lanes|
    requires Q.Enabled(r2, Q.StoreData) && Q.Enabled(Q.Apply(r2, Q.StoreData), Q.StoreHead)
    requires lane == s.dist.lanes[s.par.pc.q].(queue := Q.Apply(Q.Apply(r2, Q.StoreData), Q.StoreHead))
    ensures Leads(c, Parses, Midway(s, r2), Pushed(s, lane, s.dist.stats))
  {
    var r3 := Q.Apply(r2, Q.StoreData);
    PushContinues(c, s, r2, Q.StoreData);
    PushFinishes(c, s, r3, lane);
    Then(c, Parses, Midway(s, r2), Midway(s, r3), Pushed(s, lane, s.dist.stats));
  }

  /** A push into queue `q` that finds it full: its two steps. */
  lemma PushFull(c: Config, s: State, stats: Statistics) returns (lane: Lane)
    requires s.par.pc.Sending? && s.par.pc.i < |s.par.batch| && s.par.pc.q < |s.dist.lanes|
    requires Ready(s.dist.lanes[s.par.pc.q]) && |Held(Queue(s))| >= D.DEFAULT_QUEUE_SIZE - 1
    requires stats == s.dist.stats.(packetsDropped := s.dist.stats.packetsDropped + 1)
    ensures Takes(s.dist.lanes[s.par.pc.q], s.par.batch[s.par.pc.i], lane)
    ensures Leads(c, Parses, s, Pushed(s, lane, stats))
  {
    var msg, load := s.par.batch[s.par.pc.i], Q.LoadTail(|Queue(s).popped|);
    var l := s.dist.lanes[s.par.pc.q];
    var r1, r2 := Q.FullPath(Queue(s), msg);
    lane := Lane(r2, l.delivered, l.lost + 1, l.joined);
    FullTakes(l, msg, lane);
    PushBegins(c, s);
    PushRefused(c, s, r1, load, lane, stats);
    Then(c, Parses, s, Midway(s, r1), Pushed(s, lane, stats));
  }

  /** Either way: the queue is offered the message, and a full one counts as a drop. */
  lemma PushAlone(c: Config, s: State) returns (lane: Lane)
    requires s.par.pc.Sending? && s.par.pc.i < |s.par.batch| && s.par.pc.q < |s.dist.lanes|
    requires Ready(s.dist.lanes[s.par.pc.q])
    ensures Takes(s.dist.lanes[s.par.pc.q], s.par.batch[s.par.pc.i], lane)
    ensures Leads(c, Parses, s, Pushed(s, lane, CountDrop(s.dist.stats, Held(Queue(s)))))
  {
    if |Held(Queue(s))| < D.DEFAULT_QUEUE_SIZE - 1 {
      lane := PushRoom(c, s);
    } else {
      lane := PushFull(c, s, CountDrop(s.dist.stats, Held(Queue(s))));
    }
  }

  function CountDrop(stats: Statistics, held: seq<Msg>): Statistics {
    if |held| < D.DEFAULT_QUEUE_SIZE - 1 then stats else stats.(packetsDropped := stats.packetsDropped + 1)
  }

  // ------------------------------------------------------------- one message

  /** The lanes after the first `q` of them were offered the message. */
  ghost predicate Sent(lanes: seq<Lane>, msg: Msg, q: nat, lanes': seq<Lane>) {
    && |lanes'| == |lanes| && q <= |lanes|
    && (forall j :: 0 <= j < q ==> Takes(lanes[j], msg, lanes'[j]))
    && (forall j :: q <= j < |lanes| ==> lanes'[j] == lanes[j])
  }

  lemma SentOne(lanes: seq<Lane>, msg: Msg, q: nat, lanes': seq<Lane>, lane: Lane)
    requires Sent(lanes, msg, q, lanes') && q < |lanes| && Takes(lanes[q], msg, lane)
    ensures Sent(lanes, msg, q + 1, lanes'[q := lane])
  {
  }

  /** Where the parser thread is after sending to `q` queues. */
  ghost function SentTo(s: State, lanes: seq<Lane>, drops: nat, q: nat): State
    requires s.par.pc.Sending?
  {
    s.(dist := s.dist.(lanes := lanes, stats := s.dist.stats.(packetsDropped := s.dist.stats.packetsDropped + drops)),
       par := s.par.(pc := Sending(s.par.pc.i, q, s.par.pc.now)))
  }

  lemma PushedIsSent(s: State, lanes: seq<Lane>, q: nat, lane: Lane)
    requires s.par.pc.Sending? && q < |s.dist.lanes| == |lanes| && lanes[q] == s.dist.lanes[q]
    ensures var held := HeldAll(s.dist.lanes); var m := SentTo(s, lanes, D.FullCount(held[..q]), q);
      Pushed(m, lane, CountDrop(m.dist.stats, Held(Queue(m))))
      == SentTo(s, lanes[q := lane], D.FullCount(held[..q + 1]), q + 1)
  {
    DropsNext(s.dist.stats, HeldAll(s.dist.lanes), q);
  }

  lemma DropsNext(stats: Statistics, held: seq<seq<Msg>>, q: nat)
    requires q < |held|
    ensures CountDrop(stats.(packetsDropped := stats.packetsDropped + D.FullCount(held[..q])), held[q])
         == stats.(packetsDropped := stats.packetsDropped + D.FullCount(held[..q + 1]))
  {
    TakeOneMore(held, q);
  }

  lemma {:induction false} SendTo(c: Config, s: State, q: nat) returns (lanes: seq<Lane>)
    requires s.par.pc.Sending? && s.par.pc.q == 0 && s.par.pc.i < |s.par.batch| && q <= |s.dist.lanes|
    requires AllReady(s.dist.lanes)
    ensures Sent(s.dist.lanes, s.par.batch[s.par.pc.i], q, lanes)
    ensures Leads(c, Parses, s, SentTo(s, lanes, D.FullCount(HeldAll(s.dist.lanes)[..q]), q))
  {
    if q == 0 {
      lanes := s.dist.lanes;
      Stays(c, Parses, s);
    } else {
      var held, msg := HeldAll(s.dist.lanes), s.par.batch[s.par.pc.i];
      var lanes1 := SendTo(c, s, q - 1);
      var m := SentTo(s, lanes1, D.FullCount(held[..q - 1]), q - 1);
      assert m.dist.lanes[q - 1] == s.dist.lanes[q - 1];
      var lane := PushAlone(c, m);
      SentOne(s.dist.lanes, msg, q - 1, lanes1, lane);
      lanes := lanes1[q - 1 := lane];
      PushedIsSent(s, lanes1, q - 1, lane);
      Then(c, Parses, s, m, SentTo(s, lanes, D.FullCount(held[..q]), q));
    }
  }

  lemma SentAll(lanes: seq<Lane>, msg: Msg, lanes': seq<Lane>)
    requires Sent(lanes, msg, |lanes|, lanes')
    ensures AllReady(lanes') && SameSubscribers(lanes, lanes') && HeldAll(lanes') == D.OfferAll(HeldAll(lanes), msg)
  {
    forall j | 0 <= j < |lanes|
      ensures Ready(lanes'[j]) && HeldAll(lanes')[j] == D.OfferAll(HeldAll(lanes), msg)[j]
      ensures lanes'[j].delivered == lanes[j].delivered && lanes'[j].joined == lanes[j].joined
    {
      assert Takes(lanes[j], msg, lanes'[j]);
    }
  }

  /** Nothing was delivered, and nobody joined. */
  predicate SameSubscribers(lanes: seq<Lane>, lanes': seq<Lane>) {
    |lanes'| == |lanes| && forall j :: 0 <= j < |lanes| ==>
      lanes'[j].delivered == lanes[j].delivered && lanes'[j].joined == lanes[j].joined
  }

  /** What one message does to the dispatcher. */
  ghost predicate Dispatched(d: Dist, msg: Msg, now: Word64, d': Dist) {
    && AllReady(d'.lanes) && SameSubscribers(d.lanes, d'.lanes) && d'.pc == d.pc
    && d'.dispatched == d.dispatched + [msg]
    && OfferingOf(d') == D.DispatchOne(OfferingOf(d), msg, now)
  }

  function AtIndex(par: Par, i: nat): Par { par.(pc := AtMessage(i)) }

  ghost function Begun(s: State, now: Word64): State
    requires s.par.pc.AtMessage?
  {
    s.(clock := now, par := s.par.(pc := Sending(s.par.pc.i, 0, now)))
  }

  /** The dispatcher after the message, with the lanes as given. */
  ghost function Counted(d: Dist, msg: Msg, now: Word64, lanes: seq<Lane>, drops: nat): Dist {
    var latency := D.Latency(now, msg.localTimestamp);
    d.(lanes := lanes, dispatched := d.dispatched + [msg], latencies := d.latencies + [latency],
       stats := d.stats.(packetsDropped := d.stats.packetsDropped + drops,
                         messagesDispatched := d.stats.messagesDispatched + 1).UpdateLatency(latency))
  }

  ghost function Done(s: State, now: Word64, lanes: seq<Lane>, drops: nat): State
    requires s.par.pc.AtMessage? && s.par.pc.i < |s.par.batch|
  {
    s.(clock := now, par := AtIndex(s.par, s.par.pc.i + 1),
       dist := Counted(s.dist, s.par.batch[s.par.pc.i], now, lanes, drops))
  }

  lemma MessageBegins(c: Config, s: State, now: Word64)
    requires s.par.pc.AtMessage? && s.par.pc.i < |s.par.batch| && now >= s.clock
    ensures Leads(c, Parses, s, Begun(s, now))
  {
    One(c, Parses, s, BeginMessage(now));
  }

  lemma EndIsDone(c: Config, s: State, now: Word64, lanes: seq<Lane>, drops: nat)
    requires s.par.pc.AtMessage? && s.par.pc.i < |s.par.batch|
    ensures var m := SentTo(Begun(s, now), lanes, drops, |lanes|);
      Enabled(m, EndMessage) && Apply(c, m, EndMessage) == Done(s, now, lanes, drops)
  {
  }

  lemma MessageEnds(c: Config, s: State, now: Word64, lanes: seq<Lane>, drops: nat)
    requires s.par.pc.AtMessage? && s.par.pc.i < |s.par.batch|
    ensures Leads(c, Parses, SentTo(Begun(s, now), lanes, drops, |lanes|), Done(s, now, lanes, drops))
  {
    EndIsDone(c, s, now, lanes, drops);
    One(c, Parses, SentTo(Begun(s, now), lanes, drops, |lanes|), EndMessage);
  }

  /** A message is sent to all queues and counted. */
  lemma MessageAlone(c: Config, s: State, now: Word64) returns (lanes: seq<Lane>, drops: nat)
    requires s.par.pc.AtMessage? && s.par.pc.i < |s.par.batch| && now >= s.clock && AllReady(s.dist.lanes)
    ensures Sent(s.dist.lanes, s.par.batch[s.par.pc.i], |s.dist.lanes|, lanes)
    ensures drops == D.FullCount(HeldAll(s.dist.lanes))
    ensures Leads(c, Parses, s, Done(s, now, lanes, drops))
  {
    var n, b := |s.dist.lanes|, Begun(s, now);
    MessageBegins(c, s, now);
    lanes := SendTo(c, b, n);
    drops := D.FullCount(HeldAll(s.dist.lanes));
    TakeAll(HeldAll(s.dist.lanes));
    MessageEnds(c, s, now, lanes, drops);
    Then(c, Parses, s, b, SentTo(b, lanes, drops, n));
    Then(c, Parses, s, SentTo(b, lanes, drops, n), Done(s, now, lanes, drops));
  }

  lemma SentIsDispatched(d: Dist, msg: Msg, now: Word64, lanes: seq<Lane>, drops: nat)
    requires Sent(d.lanes, msg, |d.lanes|, lanes) && drops == D.FullCount(HeldAll(d.lanes))
    ensures Dispatched(d, msg, now, Counted(d, msg, now, lanes, drops))
  {
    SentAll(d.lanes, msg, lanes);
    OfferingNext(d, msg, now, lanes, drops);
  }

  lemma OfferingNext(d: Dist, msg: Msg, now: Word64, lanes: seq<Lane>, drops: nat)
    requires HeldAll(lanes) == D.OfferAll(HeldAll(d.lanes), msg) && drops == D.FullCount(HeldAll(d.lanes))
    ensures OfferingOf(Counted(d, msg, now, lanes, drops)) == D.DispatchOne(OfferingOf(d), msg, now)
  {
  }

  lemma OneMessage(c: Config, s: State, now: Word64) returns (s': State)
    requires s.par.pc.AtMessage? && s.par.pc.i < |s.par.batch| && now >= s.clock && AllReady(s.dist.lanes)
    ensures Leads(c, Parses, s, s')
    ensures s'.par == AtIndex(s.par, s.par.pc.i + 1) && s'.ring == s.ring && s'.clock == now
    ensures Dispatched(s.dist, s.par.batch[s.par.pc.i], now, s'.dist)
  {
    var lanes, drops := MessageAlone(c, s, now);
    s' := Done(s, now, lanes, drops);
    SentIsDispatched(s.dist, s.par.batch[s.par.pc.i], now, lanes, drops);
    DoneParts(s, now, lanes, drops);
  }

  lemma DoneParts(s: State, now: Word64, lanes: seq<Lane>, drops: nat)
    requires s.par.pc.AtMessage? && s.par.pc.i < |s.par.batch|
    ensures var s' := Done(s, now, lanes, drops);
      && s'.par == AtIndex(s.par, s.par.pc.i + 1) && s'.ring == s.ring && s'.clock == now
      && s'.dist == Counted(s.dist, s.par.batch[s.par.pc.i], now, lanes, drops)
  {
  }

  // ---------------------------------------------------------------- one packet

  /** The times at which messages are dispatched: no earlier than the clock, and in order. */
  predicate Rising(nows: seq<Word64>, clock: Word64) {
    && (forall k :: 0 <= k < |nows| ==> clock <= nows[k])
    && (forall j, k :: 0 <= j < k < |nows| ==> nows[j] <= nows[k])
  }

  /** What the first `k` messages of a batch do to the dispatcher. */
  ghost predicate DispatchedFirst(d: Dist, batch: seq<Msg>, nows: seq<Word64>, k: nat, d': Dist)
    requires k <= |batch| <= |nows|
  {
    && AllReady(d'.lanes) && SameSubscribers(d.lanes, d'.lanes) && d'.pc == d.pc
    && d'.dispatched == d.dispatched + batch[..k]
    && OfferingOf(d') == D.DispatchEach(OfferingOf(d), batch[..k], nows)
  }

  lemma DispatchedNext(d: Dist, batch: seq<Msg>, nows: seq<Word64>, k: nat, m: Dist, d': Dist)
    requires k < |batch| <= |nows| && DispatchedFirst(d, batch, nows, k, m)
    requires Dispatched(m, batch[k], nows[k], d')
    ensures DispatchedFirst(d, batch, nows, k + 1, d')
  {
    TakeOneMore(batch, k);
    Associate(d.dispatched, batch[..k], [batch[k]]);
  }

  lemma NextIndex(par: Par, i: nat)
    ensures AtIndex(AtIndex(par, i), i + 1) == AtIndex(par, i + 1) && AtIndex(par, i).pc == AtMessage(i)
    ensures AtIndex(par, i).batch == par.batch
  {
  }

  lemma SameIndex(par: Par)
    requires par.pc == AtMessage(0)
    ensures AtIndex(par, 0) == par
  {
  }

  /** `m` is reached from `s` by dispatching the first `k` messages. */
  ghost predicate Reached(c: Config, s: State, nows: seq<Word64>, k: nat, m: State) {
    && k <= |s.par.batch| <= |nows| && Leads(c, Parses, s, m)
    && m.par == AtIndex(s.par, k) && m.ring == s.ring && m.clock == (if k == 0 then s.clock else nows[k - 1])
    && DispatchedFirst(s.dist, s.par.batch, nows, k, m.dist)
  }

  lemma ReachedNone(c: Config, s: State, nows: seq<Word64>)
    requires s.par.pc == AtMessage(0) && |s.par.batch| <= |nows| && AllReady(s.dist.lanes)
    ensures Reached(c, s, nows, 0, s)
  {
    Stays(c, Parses, s);
    SameIndex(s.par);
    NothingAfter(s.dist.dispatched);
  }

  lemma ReachedNext(c: Config, s: State, nows: seq<Word64>, k: nat, m: State) returns (s': State)
    requires Reached(c, s, nows, k, m) && k < |s.par.batch| && Rising(nows, s.clock)
    ensures Reached(c, s, nows, k + 1, s')
  {
    NextIndex(s.par, k);
    s' := OneMessage(c, m, nows[k]);
    Then(c, Parses, s, m, s');
    DispatchedNext(s.dist, s.par.batch, nows, k, m.dist, s'.dist);
  }

  lemma {:induction false} BatchAlone(c: Config, s: State, nows: seq<Word64>, k: nat) returns (s': State)
    requires s.par.pc == AtMessage(0) && k <= |s.par.batch| <= |nows| && AllReady(s.dist.lanes)
    requires Rising(nows, s.clock)
    ensures Reached(c, s, nows, k, s')
  {
    if k == 0 {
      s' := s;
      ReachedNone(c, s, nows);
    } else {
      var m := BatchAlone(c, s, nows, k - 1);
      s' := ReachedNext(c, s, nows, k - 1, m);
    }
  }

  lemma BatchEnds(c: Config, s: State)
    requires s.par.pc == AtMessage(|s.par.batch|)
    ensures Leads(c, Parses, s, s.(par := s.par.(pc := ParseTop)))
  {
    One(c, Parses, s, EndBatch);
  }

  lemma PacketParses(c: Config, s: State)
    requires s.par.pc.Holding? && s.par.sessions != []
    ensures Leads(c, Parses, s, s.(par := ParseNext(c, s.par)))
  {
    One(c, Parses, s, ParseStep);
  }

  /** The reader with the ring as given. */
  ghost function WithRing(s: State, ring: Q.State<Packet>, pc: Parsing): State {
    s.(ring := ring, par := s.par.(pc := pc))
  }

  lemma Reads(c: Config, s: State, ring: Q.State<Packet>, pc: Parsing, b: Q.Action<Packet>, pc': Parsing)
    requires (if b.BeginPop? then pc.ParseTop? else pc.Reading?) && Q.Pops(b) && Q.Enabled(ring, b)
    requires pc' == if !Q.Ends(ring, b) then Reading else if b.StoreTail? then Holding(ring.consumer.item) else ParseTop
    ensures Leads(c, Parses, WithRing(s, ring, pc), WithRing(s, Q.Apply(ring, b), pc'))
  {
    One(c, Parses, WithRing(s, ring, pc), ReaderStep(b));
  }

  /** The oldest packet is read: four steps. */
  lemma ReadAlone(c: Config, s: State) returns (ring: Q.State<Packet>)
    requires Q.Inv(s.ring) && s.ring.consumer.Resting? && s.par.pc.ParseTop? && |s.ring.popped| < |s.ring.pushed|
    ensures ring.pushed == s.ring.pushed && ring.popped == s.ring.popped + [s.ring.pushed[|s.ring.popped|]]
    ensures Leads(c, Parses, s, WithRing(s, ring, Holding(s.ring.pushed[|s.ring.popped|])))
  {
    var packet := s.ring.pushed[|s.ring.popped|];
    var r1, r2, r3, r4 := Q.PopPath(s.ring);
    ring := r4;
    assert s == WithRing(s, s.ring, ParseTop);
    Reads(c, s, s.ring, ParseTop, Q.BeginPop, Reading);
    Reads(c, s, r1, Reading, Q.LoadHead(|s.ring.pushed|), Reading);
    Reads(c, s, r2, Reading, Q.TakeData(|s.ring.popped|), Reading);
    Reads(c, s, r3, Reading, Q.StoreTail, Holding(packet));
    Then(c, Parses, s, WithRing(s, r1, Reading), WithRing(s, r2, Reading));
    Then(c, Parses, s, WithRing(s, r2, Reading), WithRing(s, r3, Reading));
    Then(c, Parses, s, WithRing(s, r3, Reading), WithRing(s, r4, Holding(packet)));
  }

  /** Nothing is there to read: two steps. */
  lemma ReadNothing(c: Config, s: State) returns (ring: Q.State<Packet>)
    requires Q.Inv(s.ring) && s.ring.consumer.Resting? && s.par.pc.ParseTop? && |s.ring.popped| == |s.ring.pushed|
    ensures ring.pushed == s.ring.pushed && ring.popped == s.ring.popped
    ensures Leads(c, Parses, s, WithRing(s, ring, ParseTop))
  {
    var r1, r2 := Q.EmptyPath(s.ring);
    ring := r2;
    assert s == WithRing(s, s.ring, ParseTop);
    Reads(c, s, s.ring, ParseTop, Q.BeginPop, Reading);
    Reads(c, s, r1, Reading, Q.LoadHead(|s.ring.pushed|), ParseTop);
    Then(c, Parses, s, WithRing(s, r1, Reading), WithRing(s, r2, ParseTop));
  }

  // ---------------------------------------------------------------- the round

  /** From the packet in hand to the top of the loop. */
  lemma PacketAlone(c: Config, s: State, nows: seq<Word64>) returns (s': State)
    requires s.par.pc.Holding? && Sessions(c, s.par) && AllReady(s.dist.lanes)
    requires |nows| == c.max && Rising(nows, s.clock)
    ensures Leads(c, Parses, s, s') && s'.ring == s.ring && s'.par == ParseNext(c, s.par).(pc := ParseTop)
    ensures |ParseNext(c, s.par).batch| <= |nows|
    ensures var batch := ParseNext(c, s.par).batch;
      DispatchedFirst(s.dist, batch, nows, |batch|, s'.dist)
  {
    var p := s.(par := ParseNext(c, s.par));
    PacketParses(c, s);
    BatchFits(c, s.par);
    var m := BatchAlone(c, p, nows, |p.par.batch|);
    BatchEnds(c, m);
    s' := m.(par := m.par.(pc := ParseTop));
    Then(c, Parses, s, p, m);
    Then(c, Parses, s, m, s');
  }

  /** What a round leaves, if there was a packet. */
  lemma WorkDone(c: Config, s: State, ring: Q.State<Packet>, h: State, s': State, nows: seq<Word64>)
    requires s.par.pc.ParseTop? && |s.par.buffer| == c.max == |nows| && s.par.number < TWO_32 && s.par.sessions != []
    requires |s.ring.popped| < |s.ring.pushed|
    requires ring.pushed == s.ring.pushed && ring.popped == s.ring.popped + [s.ring.pushed[|s.ring.popped|]]
    requires h == WithRing(s, ring, Holding(s.ring.pushed[|s.ring.popped|]))
    requires s'.ring == h.ring && s'.par == ParseNext(c, h.par).(pc := ParseTop)
    requires var batch := ParseNext(c, h.par).batch;
      |batch| <= |nows| && DispatchedFirst(h.dist, batch, nows, |batch|, s'.dist)
    ensures WorkOf(s') == E.NextRound(c.protocol, WorkOf(s), nows)
  {
    var packet, batch := s.ring.pushed[|s.ring.popped|], ParseNext(c, h.par).batch;
    DropOne(s.ring.pushed, |s.ring.popped|);
    SmallNumber(packet, s.par.number);
    CutAtCap(c.protocol, s.par.parser, s.par.buffer, ViewOf(packet, s.par.number), c.max);
    TakeAll(batch);
  }

  lemma SmallNumber(packet: Packet, number: nat)
    requires number < TWO_32
    ensures ViewOf(packet, number) == MessageView(Some(packet.data), packet.timestamp, number)
  {
  }

  lemma ReadyToRead(c: Config, s: State)
    requires Inv(c, s) && c.queueSize == D.DEFAULT_QUEUE_SIZE && s.par.pc.ParseTop?
    ensures AllReady(s.dist.lanes) && Q.Inv(s.ring) && s.ring.consumer.Resting? && Sessions(c, s.par)
    ensures s.par.number < TWO_32 && |s.ring.popped| <= |s.ring.pushed|
    ensures s.par.sessions != [] && |s.par.buffer| == c.max
  {
    forall j | 0 <= j < |s.dist.lanes| ensures Ready(s.dist.lanes[j]) {
      assert LaneInv(c.queueSize, s.dist.lanes[j], WorkAt(s.par, s.dist.pc, j), s.dist.dispatched);
    }
  }

  /** An undisturbed round of the parse loop, from any state the invariant holds in: the
      parser thread's own steps lead back to the top of the loop, and they do to the ring, the
      packet number, the parser, the buffer, the queues and the counters exactly what a round
      of the engine object does, whose `ParseRound` promises the same `NextRound`. Nothing is
      delivered, and what was dispatched is the new batch. */
  lemma RoundAlone(c: Config, s: State, nows: seq<Word64>) returns (s': State)
    requires Inv(c, s) && c.queueSize == D.DEFAULT_QUEUE_SIZE && s.par.pc.ParseTop?
    requires |nows| == c.max && Rising(nows, s.clock)
    ensures Leads(c, Parses, s, s') && s'.par.pc.ParseTop? && |s.par.buffer| == |nows|
    ensures WorkOf(s') == E.NextRound(c.protocol, WorkOf(s), nows)
    ensures SameSubscribers(s.dist.lanes, s'.dist.lanes) && s'.dist.pc == s.dist.pc
    ensures s'.dist.dispatched == s.dist.dispatched + if Held(s.ring) == [] then [] else s'.par.batch
  {
    ReadyToRead(c, s);
    if |s.ring.popped| == |s.ring.pushed| {
      var ring := ReadNothing(c, s);
      s' := WithRing(s, ring, ParseTop);
      NothingAfter(s.dist.dispatched);
    } else {
      var ring := ReadAlone(c, s);
      var h := WithRing(s, ring, Holding(s.ring.pushed[|s.ring.popped|]));
      s' := PacketAlone(c, h, nows);
      Then(c, Parses, s, h, s');
      WorkDone(c, s, ring, h, s', nows);
      TakeAll(s'.par.batch);
    }
  }

  /** So any run that has come to the top of the parse loop can go on with such a round. */
  lemma RoundInRuns(c: Config, run: seq<State>, acts: seq<Action>, nows: seq<Word64>)
      returns (run': seq<State>, acts': seq<Action>)
    requires Good(c) && c.queueSize == D.DEFAULT_QUEUE_SIZE && IsRun(c, run, acts) && run[|acts|].par.pc.ParseTop?
    requires |nows| == c.max && Rising(nows, run[|acts|].clock)
    ensures IsRun(c, run', acts') && run <= run' && acts <= acts'
    ensures forall i :: |acts| <= i < |acts'| ==> Parses(acts'[i])
    ensures run'[|acts'|].par.pc.ParseTop? && |run[|acts|].par.buffer| == |nows|
    ensures WorkOf(run'[|acts'|]) == E.NextRound(c.protocol, WorkOf(run[|acts|]), nows)
  {
    RunInv(c, run, acts, |acts|);
    var s' := RoundAlone(c, run[|acts|], nows);
    run', acts' := Extends(c, Parses, run, acts, s');
  }
}

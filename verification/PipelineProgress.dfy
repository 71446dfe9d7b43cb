/** How long the engine's threads can take: every queue call and every round of the parse
    loop ends within a number of the thread's own steps that is known when it begins,
    whatever the other threads do. */
module PipelineProgress {
  import opened Lists
  import opened Types
  import opened ParserTheorems
  import opened Pipeline
  import opened PipelineInvariant
  import Q = SpscQueue

  // ------------------------------------------------------- a step to take

  lemma NetworkGoesOn(s: State)
    requires Q.Inv(s.ring) && NetInv(s.net, s.ring, s.clock)
    ensures s.net.pc.RecvTop? ==> forall data: seq<Byte>, now: Word64 ::
      1 <= |data| <= MAX_PACKET_SIZE && now >= s.clock ==> Enabled(s, Arrive(data, now))
    ensures s.net.pc.RecvPushing? ==> exists b :: Enabled(s, ReceiverStep(b))
  {
    Q.CallsGoOn(s.ring);
    if s.net.pc.RecvPushing? {
      var b :| Q.Pushes(b) && !b.BeginPush? && Q.Enabled(s.ring, b);
      assert Enabled(s, ReceiverStep(b));
    }
  }

  lemma ReaderGoesOn(c: Config, s: State)
    requires Q.Inv(s.ring) && ReadInv(s.ring, s.par) && Sessions(c, s.par)
    ensures s.par.pc.ParseTop? ==> Enabled(s, ReaderStep(Q.BeginPop))
    ensures s.par.pc.Reading? ==> exists b :: Enabled(s, ReaderStep(b))
    ensures s.par.pc.Holding? ==> Enabled(s, ParseStep)
  {
    Q.CallsGoOn(s.ring);
    if s.par.pc.Reading? {
      var b :| Q.Pops(b) && !b.BeginPop? && Q.Enabled(s.ring, b);
      assert Enabled(s, ReaderStep(b));
    }
  }

  /** A queue is ready for whatever call comes next, and a call under way can go on. */
  lemma LaneGoesOn(n: nat, lane: Lane, w: Work, dispatched: seq<Msg>)
    requires LaneInv(n, lane, w, dispatched)
    ensures w.pushing.None? ==> forall msg :: Q.Enabled(lane.queue, Q.BeginPush(msg))
    ensures w.pushing.Some? ==> exists b :: Q.Pushes(b) && !b.BeginPush? && Q.Enabled(lane.queue, b)
    ensures !w.popping ==> Q.Enabled(lane.queue, Q.BeginPop)
    ensures w.popping ==> exists b :: Q.Pops(b) && !b.BeginPop? && Q.Enabled(lane.queue, b)
  {
    Q.CallsGoOn(lane.queue);
  }

  lemma SendingGoesOn(c: Config, s: State)
    requires LanesInv(c, s.par, s.dist) && s.par.pc.Sending? && s.par.pc.i < |s.par.batch|
    ensures Enabled(s, EndMessage) || Enabled(s, PushStep(Q.BeginPush(s.par.batch[s.par.pc.i])))
  {
    var q := s.par.pc.q;
    if q < |s.dist.lanes| {
      LaneGoesOn(c.queueSize, s.dist.lanes[q], WorkAt(s.par, s.dist.pc, q), s.dist.dispatched);
    }
  }

  lemma PushingGoesOn(c: Config, s: State)
    requires LanesInv(c, s.par, s.dist) && s.par.pc.Pushing? && s.par.pc.i < |s.par.batch|
    ensures exists b :: Enabled(s, PushStep(b))
  {
    var q := s.par.pc.q;
    LaneGoesOn(c.queueSize, s.dist.lanes[q], WorkAt(s.par, s.dist.pc, q), s.dist.dispatched);
    var b :| Q.Pushes(b) && !b.BeginPush? && Q.Enabled(s.dist.lanes[q].queue, b);
    assert Enabled(s, PushStep(b));
  }

  lemma AtQueueGoesOn(c: Config, s: State)
    requires LanesInv(c, s.par, s.dist) && s.dist.pc.AtQueue?
    ensures Enabled(s, EndRound) || Enabled(s, PopStep(Q.BeginPop))
  {
    var q := s.dist.pc.q;
    if q < |s.dist.lanes| {
      LaneGoesOn(c.queueSize, s.dist.lanes[q], WorkAt(s.par, s.dist.pc, q), s.dist.dispatched);
    }
  }

  lemma PoppingGoesOn(c: Config, s: State)
    requires LanesInv(c, s.par, s.dist) && s.dist.pc.Popping?
    ensures exists b :: Enabled(s, PopStep(b))
  {
    var q := s.dist.pc.q;
    LaneGoesOn(c.queueSize, s.dist.lanes[q], WorkAt(s.par, s.dist.pc, q), s.dist.dispatched);
    var b :| Q.Pops(b) && !b.BeginPop? && Q.Enabled(s.dist.lanes[q].queue, b);
    assert Enabled(s, PopStep(b));
  }

  /** The machine puts no restriction of its own on a queue call in progress: each thread may
      take every step the queue allows it, with whatever view, at any stage of the engine. */
  lemma StepsAreFree(s: State, b: Q.Action<Packet>, m: Q.Action<Msg>)
    ensures s.net.pc.RecvPushing? && Q.Pushes(b) && !b.BeginPush? && Q.Enabled(s.ring, b) ==>
      Enabled(s, ReceiverStep(b))
    ensures s.par.pc.Reading? && Q.Pops(b) && !b.BeginPop? && Q.Enabled(s.ring, b) ==>
      Enabled(s, ReaderStep(b))
    ensures s.par.pc.Pushing? && s.par.pc.q < |s.dist.lanes| && Q.Pushes(m) && !m.BeginPush? ==>
      Q.Enabled(s.dist.lanes[s.par.pc.q].queue, m) ==> Enabled(s, PushStep(m))
    ensures s.dist.pc.Popping? && s.dist.pc.q < |s.dist.lanes| && Q.Pops(m) && !m.BeginPop? ==>
      Q.Enabled(s.dist.lanes[s.dist.pc.q].queue, m) ==> Enabled(s, PopStep(m))
  {
  }

  predicate Receives(a: Action) { a.Arrive? || a.ReceiverStep? }

  predicate Parses(a: Action) {
    a.ReaderStep? || a.ParseStep? || a.BeginMessage? || a.PushStep? || a.EndMessage? || a.EndBatch?
  }

  predicate Serves(a: Action) { a.BeginRound? || a.PopStep? || a.Deliver? || a.EndRound? }

  /** No thread is ever stuck: in every state of every run each thread that is alive has a
      step of its own, so no queue call waits for another thread. */
  lemma ThreadsNeverBlock(c: Config, run: seq<State>, acts: seq<Action>, i: nat)
    requires Good(c) && IsRun(c, run, acts) && i < |run|
    ensures !run[i].net.pc.RecvDown? ==> exists a :: Receives(a) && Enabled(run[i], a)
    ensures !run[i].par.pc.ParseDown? ==> exists a :: Parses(a) && Enabled(run[i], a)
    ensures !run[i].dist.pc.ServeDown? ==> exists a :: Serves(a) && Enabled(run[i], a)
  {
    RunInv(c, run, acts, i);
    ReceiverMoves(c, run[i]);
    ParserMoves(c, run[i]);
    DispatcherMoves(c, run[i]);
  }

  lemma ReceiverMoves(c: Config, s: State)
    requires Inv(c, s)
    ensures !s.net.pc.RecvDown? ==> exists a :: Receives(a) && Enabled(s, a)
  {
    NetworkGoesOn(s);
    if s.net.pc.RecvTop? {
      var data: seq<Byte> := [0];
      assert Receives(Arrive(data, s.clock)) && Enabled(s, Arrive(data, s.clock));
    } else if s.net.pc.RecvPushing? {
      var b :| Enabled(s, ReceiverStep(b));
      assert Receives(ReceiverStep(b));
    }
  }

  lemma ParserMoves(c: Config, s: State)
    requires Inv(c, s)
    ensures !s.par.pc.ParseDown? ==> exists a :: Parses(a) && Enabled(s, a)
  {
    match s.par.pc
    case ParseDown =>
    case ParseTop => ReaderGoesOn(c, s); assert Parses(ReaderStep(Q.BeginPop));
    case Reading => ReaderGoesOn(c, s); var b :| Enabled(s, ReaderStep(b)); assert Parses(ReaderStep(b));
    case Holding(_) => ReaderGoesOn(c, s); assert Parses(ParseStep);
    case AtMessage(i) =>
      var a := if i < |s.par.batch| then BeginMessage(s.clock) else EndBatch;
      assert Parses(a) && Enabled(s, a);
    case Sending(i, _, _) =>
      SendingGoesOn(c, s);
      assert Parses(EndMessage) && Parses(PushStep(Q.BeginPush(s.par.batch[i])));
    case Pushing(_, _, _) => PushingGoesOn(c, s); var b :| Enabled(s, PushStep(b)); assert Parses(PushStep(b));
  }

  lemma DispatcherMoves(c: Config, s: State)
    requires Inv(c, s)
    ensures !s.dist.pc.ServeDown? ==> exists a :: Serves(a) && Enabled(s, a)
  {
    match s.dist.pc
    case ServeDown =>
    case ServeTop => assert Serves(BeginRound) && Enabled(s, BeginRound);
    case AtQueue(_) => AtQueueGoesOn(c, s); assert Serves(EndRound) && Serves(PopStep(Q.BeginPop));
    case Popping(_) => PoppingGoesOn(c, s); var b :| Enabled(s, PopStep(b)); assert Serves(PopStep(b));
    case Delivering(_, _) => assert Serves(Deliver) && Enabled(s, Deliver);
  }

  // ------------------------------------------------------------------- ranks

  function Left(n: nat, i: nat): nat { if i <= n then n - i else 0 }

  /** The steps that dispatch one message to `n` queues: one to begin, at most four for each
      queue, one to end. */
  function PerMessage(n: nat): nat { 4 * n + 2 }

  /** The same for `k` messages. */
  function Dispatching(n: nat, k: nat): nat { if k == 0 then 0 else Dispatching(n, k - 1) + PerMessage(n) }

  lemma {:induction false} DispatchingTotal(n: nat, k: nat)
    ensures Dispatching(n, k) == PerMessage(n) * k
  {
    if k > 0 {
      DispatchingTotal(n, k - 1);
      OneMoreTimes(PerMessage(n), k - 1);
    }
  }

  lemma {:induction false} DispatchingGrows(n: nat, j: nat, k: nat)
    requires j <= k
    ensures Dispatching(n, j) <= Dispatching(n, k)
  {
    if j < k { DispatchingGrows(n, j, k - 1); }
  }

  /** How many more steps the parser thread can take before it reads the next packet. */
  function ParserRank(c: Config, s: State): nat {
    var n := |s.dist.lanes|;
    match s.par.pc
    case ParseDown => 0
    case ParseTop => 0
    case Reading => Q.PopRank(s.ring.consumer) + 2 + Dispatching(n, c.max)
    case Holding(_) => 2 + Dispatching(n, c.max)
    case AtMessage(i) => 1 + Dispatching(n, Left(|s.par.batch|, i))
    case Sending(i, q, _) => 2 + Dispatching(n, Left(|s.par.batch|, i + 1)) + 4 * Left(n, q)
    case Pushing(i, q, _) =>
      2 + Dispatching(n, Left(|s.par.batch|, i + 1)) + 4 * Left(n, q + 1)
      + if q < n then Q.PushRank(s.dist.lanes[q].queue.producer) else 0
  }

  /** How many more steps the network thread can take in its push. */
  function ReceiverRank(s: State): nat { Q.PushRank(s.ring.producer) }

  /** How many more steps the dispatcher thread can take in its pop. */
  function DeliveryRank(s: State): nat {
    if s.dist.pc.Popping? && s.dist.pc.q < |s.dist.lanes| then Q.PopRank(s.dist.lanes[s.dist.pc.q].queue.consumer)
    else 0
  }

  predicate BeginsRead(a: Action) { a.ReaderStep? && a.packet.BeginPop? }

  predicate BeginsPop(a: Action) { a.PopStep? && a.msg.BeginPop? }

  // ------------------------------------------------------------ the parser

  lemma BatchFits(c: Config, par: Par)
    requires Sessions(c, par) && par.pc.Holding?
    ensures |ParseNext(c, par).batch| <= c.max
  {
    CutAtCap(c.protocol, par.parser, par.buffer, ViewOf(par.pc.packet, par.number), c.max);
  }

  lemma ReadRank(c: Config, s: State, b: Q.Action<Packet>)
    requires Q.Inv(s.ring) && ReadInv(s.ring, s.par) && Enabled(s, ReaderStep(b)) && !b.BeginPop?
    ensures ParserRank(c, Apply(c, s, ReaderStep(b))) < ParserRank(c, s)
  {
    Q.RankFalls(s.ring, b);
  }

  lemma ParseRank(c: Config, s: State)
    requires Sessions(c, s.par) && Enabled(s, ParseStep)
    ensures ParserRank(c, Apply(c, s, ParseStep)) < ParserRank(c, s)
  {
    BatchFits(c, s.par);
    DispatchingGrows(|s.dist.lanes|, |ParseNext(c, s.par).batch|, c.max);
  }

  lemma BeginRank(c: Config, s: State, now: Word64)
    requires Enabled(s, BeginMessage(now))
    ensures ParserRank(c, Apply(c, s, BeginMessage(now))) < ParserRank(c, s)
  {
    assert Left(|s.par.batch|, s.par.pc.i) == Left(|s.par.batch|, s.par.pc.i + 1) + 1;
  }

  lemma PushStepRank(c: Config, s: State, b: Q.Action<Msg>)
    requires Enabled(s, PushStep(b))
    ensures ParserRank(c, Apply(c, s, PushStep(b))) < ParserRank(c, s)
  {
    var queue := s.dist.lanes[s.par.pc.q].queue;
    Q.RankFalls(queue, b);
    assert b.BeginPush? ==> Q.PushRank(Q.Apply(queue, b).producer) == 3;
  }

  lemma ParserStepRank(c: Config, s: State, a: Action)
    requires Q.Inv(s.ring) && ReadInv(s.ring, s.par) && Sessions(c, s.par)
    requires Enabled(s, a) && Parses(a) && !BeginsRead(a)
    ensures ParserRank(c, Apply(c, s, a)) < ParserRank(c, s)
  {
    match a
    case ReaderStep(b) => ReadRank(c, s, b);
    case ParseStep => ParseRank(c, s);
    case BeginMessage(now) => BeginRank(c, s, now);
    case PushStep(b) => PushStepRank(c, s, b);
    case EndMessage => EndRank(c, s, a);
    case EndBatch => EndRank(c, s, a);
  }

  lemma EndRank(c: Config, s: State, a: Action)
    requires Enabled(s, a) && (a.EndMessage? || a.EndBatch?)
    ensures ParserRank(c, Apply(c, s, a)) < ParserRank(c, s)
  {
  }

  /** The other threads' steps on a queue do not move its producer, nor on the ring its
      consumer. */
  lemma OthersKeepRank(c: Config, s: State, a: Action)
    requires Enabled(s, a) && !Parses(a) && ControlInv(s.control, s.net, s.par, s.dist)
    ensures ParserRank(c, Apply(c, s, a)) == ParserRank(c, s)
  {
    match a
    case Arrive(data, now) => Q.RankFalls(s.ring, Q.BeginPush(Packet(data, now)));
    case ReceiverStep(b) => Q.RankFalls(s.ring, b);
    case PopStep(b) => Q.RankFalls(s.dist.lanes[s.dist.pc.q].queue, b);
    case _ =>
  }

  // ---------------------------------------------------- the other two threads

  lemma ReceiverStepRank(c: Config, s: State, a: Action)
    requires Enabled(s, a) && !a.Arrive?
    ensures var before, after := ReceiverRank(s), ReceiverRank(Apply(c, s, a));
      after <= before && (a.ReceiverStep? ==> after < before)
  {
    match a
    case ReceiverStep(b) => Q.RankFalls(s.ring, b);
    case ReaderStep(b) => Q.RankFalls(s.ring, b);
    case _ =>
  }

  lemma DeliveryStepRank(c: Config, s: State, a: Action)
    requires Enabled(s, a) && !BeginsPop(a)
    ensures var before, after := DeliveryRank(s), DeliveryRank(Apply(c, s, a));
      after <= before && (a.PopStep? ==> after < before)
  {
    match a
    case PushStep(b) => Q.RankFalls(s.dist.lanes[s.par.pc.q].queue, b);
    case PopStep(b) => Q.RankFalls(s.dist.lanes[s.dist.pc.q].queue, b);
    case _ =>
  }

  // -------------------------------------------------------------------- runs

  /** How many of the steps from `i` to `j` are of one kind. */
  function Count(own: Action -> bool, acts: seq<Action>, i: nat, j: nat): nat
    requires i <= j <= |acts|
  {
    if i == j then 0 else Count(own, acts, i, j - 1) + if own(acts[j - 1]) then 1 else 0
  }

  lemma StepOf(c: Config, run: seq<State>, acts: seq<Action>, i: nat)
    requires Good(c) && IsRun(c, run, acts) && i < |acts|
    ensures Inv(c, run[i]) && Enabled(run[i], acts[i]) && run[i + 1] == Apply(c, run[i], acts[i])
  {
    RunInv(c, run, acts, i);
  }

  /** A rank that never rises and falls with every step of one kind bounds their number. */
  lemma {:induction false} Spent(own: Action -> bool, acts: seq<Action>, ranks: seq<nat>, i: nat, j: nat)
    requires i <= j <= |acts| && |ranks| == |acts| + 1
    requires forall k :: i <= k < j ==> ranks[k + 1] + (if own(acts[k]) then 1 else 0) <= ranks[k]
    ensures Count(own, acts, i, j) + ranks[j] <= ranks[i]
  {
    if i < j {
      Spent(own, acts, ranks, i, j - 1);
      assert ranks[j - 1 + 1] + (if own(acts[j - 1]) then 1 else 0) <= ranks[j - 1];
    }
  }

  /** A round of the parse loop ends: once the parser thread has begun to read a packet, it
      takes at most 5 + max * (4 * subscribers + 2) steps of its own until it begins to read
      the next one, in any run and whatever the other threads do meanwhile. */
  lemma RoundEnds(c: Config, run: seq<State>, acts: seq<Action>, i: nat, j: nat)
    requires Good(c) && IsRun(c, run, acts) && i < j < |run| && BeginsRead(acts[i])
    requires forall k :: i < k < j ==> !BeginsRead(acts[k])
    ensures Count(Parses, acts, i + 1, j) <= 5 + PerMessage(|run[i].dist.lanes|) * c.max
  {
    StepOf(c, run, acts, i);
    ReadBegins(c, run[i], acts[i]);
    DispatchingTotal(|run[i].dist.lanes|, c.max);
    RankSpent(c, run, acts, i + 1, j);
  }

  lemma ReadBegins(c: Config, s: State, a: Action)
    requires Enabled(s, a) && BeginsRead(a)
    ensures ParserRank(c, Apply(c, s, a)) == 5 + Dispatching(|s.dist.lanes|, c.max)
  {
  }

  lemma RankSpent(c: Config, run: seq<State>, acts: seq<Action>, i: nat, j: nat)
    requires Good(c) && IsRun(c, run, acts) && i <= j < |run|
    requires forall k :: i <= k < j ==> !BeginsRead(acts[k])
    ensures Count(Parses, acts, i, j) + ParserRank(c, run[j]) <= ParserRank(c, run[i])
  {
    var ranks: seq<nat> := seq(|run|, k requires 0 <= k < |run| => ParserRank(c, run[k]));
    forall k | i <= k < j ensures ranks[k + 1] + (if Parses(acts[k]) then 1 else 0) <= ranks[k] {
      RankOnce(c, run, acts, k);
    }
    Spent(Parses, acts, ranks, i, j);
  }

  lemma RankOnce(c: Config, run: seq<State>, acts: seq<Action>, i: nat)
    requires Good(c) && IsRun(c, run, acts) && i < |acts| && !BeginsRead(acts[i])
    ensures ParserRank(c, run[i + 1]) + (if Parses(acts[i]) then 1 else 0) <= ParserRank(c, run[i])
  {
    StepOf(c, run, acts, i);
    if Parses(acts[i]) { ParserStepRank(c, run[i], acts[i]); } else { OthersKeepRank(c, run[i], acts[i]); }
  }

  /** A push of the network thread and a pop of the dispatcher thread, once begun, take at most
      three more steps of their own. */
  lemma CallsEnd(c: Config, run: seq<State>, acts: seq<Action>, i: nat, j: nat)
    requires Good(c) && IsRun(c, run, acts) && i <= j < |run|
    ensures (forall k :: i <= k < j ==> !acts[k].Arrive?) ==> Count(PushesPacket, acts, i, j) <= 3
    ensures (forall k :: i <= k < j ==> !BeginsPop(acts[k])) ==> Count(PopsMessage, acts, i, j) <= 3
  {
    if forall k :: i <= k < j ==> !acts[k].Arrive? { ReceiverSpent(c, run, acts, i, j); }
    if forall k :: i <= k < j ==> !BeginsPop(acts[k]) { DeliverySpent(c, run, acts, i, j); }
  }

  predicate PushesPacket(a: Action) { a.ReceiverStep? }

  predicate PopsMessage(a: Action) { a.PopStep? }

  lemma ReceiverSpent(c: Config, run: seq<State>, acts: seq<Action>, i: nat, j: nat)
    requires Good(c) && IsRun(c, run, acts) && i <= j < |run|
    requires forall k :: i <= k < j ==> !acts[k].Arrive?
    ensures Count(PushesPacket, acts, i, j) + ReceiverRank(run[j]) <= ReceiverRank(run[i]) <= 3
  {
    var ranks: seq<nat> := seq(|run|, k requires 0 <= k < |run| => ReceiverRank(run[k]));
    forall k | i <= k < j ensures ranks[k + 1] + (if PushesPacket(acts[k]) then 1 else 0) <= ranks[k] {
      StepOf(c, run, acts, k);
      ReceiverStepRank(c, run[k], acts[k]);
    }
    Spent(PushesPacket, acts, ranks, i, j);
  }

  lemma DeliverySpent(c: Config, run: seq<State>, acts: seq<Action>, i: nat, j: nat)
    requires Good(c) && IsRun(c, run, acts) && i <= j < |run|
    requires forall k :: i <= k < j ==> !BeginsPop(acts[k])
    ensures Count(PopsMessage, acts, i, j) + DeliveryRank(run[j]) <= DeliveryRank(run[i]) <= 3
  {
    var ranks: seq<nat> := seq(|run|, k requires 0 <= k < |run| => DeliveryRank(run[k]));
    forall k | i <= k < j ensures ranks[k + 1] + (if PopsMessage(acts[k]) then 1 else 0) <= ranks[k] {
      StepOf(c, run, acts, k);
      DeliveryStepRank(c, run[k], acts[k]);
    }
    Spent(PopsMessage, acts, ranks, i, j);
  }

  // ------------------------------------------------- a round of the dispatcher

  function HeldCounts(lanes: seq<Lane>): (r: seq<nat>)
    ensures |r| == |lanes|
  {
    seq(|lanes|, j requires 0 <= j < |lanes| => |Held(lanes[j].queue)|)
  }

  /** All messages waiting in the subscribers' queues. */
  function Waiting(lanes: seq<Lane>): nat { Sum(HeldCounts(lanes)) }

  lemma WaitingUpdate(lanes: seq<Lane>, q: nat, lane: Lane)
    requires q < |lanes|
    ensures Waiting(lanes[q := lane]) == Waiting(lanes) - |Held(lanes[q].queue)| + |Held(lane.queue)|
  {
    SumUpdate(HeldCounts(lanes), q, |Held(lane.queue)|);
    assert HeldCounts(lanes[q := lane]) == HeldCounts(lanes)[q := |Held(lane.queue)|];
  }

  lemma WaitingJoin(lanes: seq<Lane>, lane: Lane)
    requires Held(lane.queue) == []
    ensures Waiting(lanes + [lane]) == Waiting(lanes)
  {
    assert HeldCounts(lanes + [lane]) == HeldCounts(lanes) + [0];
    Unsnoc(HeldCounts(lanes), 0);
  }

  /** How many more steps the dispatcher thread can take in its round, with `waiting` messages
      and nothing more pushed: five for each message, two to leave each queue, one to end. */
  function RoundRank(pc: Serving, lanes: seq<Lane>, waiting: nat): nat {
    var n := |lanes|;
    match pc
    case ServeDown => 5 * waiting
    case ServeTop => 5 * waiting
    case AtQueue(q) => 1 + 2 * Left(n, q) + 5 * waiting
    case Popping(q) =>
      2 * Left(n, q + 1) + 5 * waiting + if q < n then Left(Q.PopRank(lanes[q].queue.consumer), 1) else 0
    case Delivering(q, _) => 4 + 2 * Left(n, q + 1) + 5 * waiting
  }

  function ServingRank(d: Dist): nat { RoundRank(d.pc, d.lanes, Waiting(d.lanes)) }

  predicate StoresMessage(a: Action) { a.PushStep? && a.msg.StoreHead? }

  lemma HeldAfterPop(queue: Q.State<Msg>, b: Q.Action<Msg>)
    requires Q.Inv(queue) && Q.Enabled(queue, b) && Q.Pops(b)
    ensures |Held(Q.Apply(queue, b))| == |Held(queue)| - (if b.StoreTail? then 1 else 0)
  {
    Q.ConsumerEffect(queue, b);
  }

  lemma HeldAfterPush(queue: Q.State<Msg>, b: Q.Action<Msg>)
    requires Q.Inv(queue) && Q.Enabled(queue, b) && Q.Pushes(b)
    ensures |Held(Q.Apply(queue, b))| == |Held(queue)| + (if b.StoreHead? then 1 else 0)
    ensures Q.Apply(queue, b).consumer == queue.consumer
  {
    Q.ProducerEffect(queue, b);
  }

  /** Where a step of a pop moves the dispatcher thread. */
  ghost function PopMoves(queue: Q.State<Msg>, q: nat, b: Q.Action<Msg>): Serving
    requires Q.Enabled(queue, b)
  {
    if !Q.Ends(queue, b) then Popping(q)
    else if b.StoreTail? then Delivering(q, queue.consumer.item)
    else AtQueue(q + 1)
  }

  /** A step of a pop spends one, whatever it finds. */
  lemma PoppedRank(lanes: seq<Lane>, q: nat, b: Q.Action<Msg>, lanes': seq<Lane>, waiting: nat, waiting': nat)
    requires q < |lanes| == |lanes'| && Q.Pops(b) && Q.Enabled(lanes[q].queue, b)
    requires lanes'[q].queue == Q.Apply(lanes[q].queue, b)
    requires waiting == waiting' + (if b.StoreTail? then 1 else 0)
    ensures RoundRank(PopMoves(lanes[q].queue, q, b), lanes', waiting')
          < RoundRank(if b.BeginPop? then AtQueue(q) else Popping(q), lanes, waiting)
  {
    assert Left(|lanes|, q) == Left(|lanes|, q + 1) + 1;
  }

  lemma PopStepRank(c: Config, s: State, b: Q.Action<Msg>)
    requires LanesInv(c, s.par, s.dist) && Enabled(s, PopStep(b))
    ensures ServingRank(Apply(c, s, PopStep(b)).dist) < ServingRank(s.dist)
  {
    var q, lanes, lanes' := s.dist.pc.q, s.dist.lanes, Apply(c, s, PopStep(b)).dist.lanes;
    LaneSound(c, s, q);
    HeldAfterPop(lanes[q].queue, b);
    WaitingUpdate(lanes, q, lanes'[q]);
    PoppedRank(lanes, q, b, lanes', Waiting(lanes), Waiting(lanes'));
  }

  /** A step of a push leaves the consumers alone, and adds a message or none. */
  lemma OfferedRank(d: Dist, q: nat, b: Q.Action<Msg>)
    requires q < |d.lanes| && Q.Inv(d.lanes[q].queue) && Q.Enabled(d.lanes[q].queue, b) && Q.Pushes(b)
    ensures ServingRank(Offered(d, q, b)) == ServingRank(d) + (if b.StoreHead? then 5 else 0)
  {
    var d' := Offered(d, q, b);
    HeldAfterPush(d.lanes[q].queue, b);
    WaitingUpdate(d.lanes, q, d'.lanes[q]);
    SameConsumers(d.pc, d.lanes, d'.lanes, Waiting(d.lanes), Waiting(d'.lanes));
  }

  lemma SameConsumers(pc: Serving, lanes: seq<Lane>, lanes': seq<Lane>, waiting: nat, waiting': nat)
    requires |lanes'| == |lanes| && waiting <= waiting'
    requires forall j :: 0 <= j < |lanes| ==> lanes'[j].queue.consumer == lanes[j].queue.consumer
    ensures RoundRank(pc, lanes', waiting') == RoundRank(pc, lanes, waiting) + 5 * (waiting' - waiting)
  {
  }

  lemma SendStepRank(c: Config, s: State, b: Q.Action<Msg>)
    requires LanesInv(c, s.par, s.dist) && Enabled(s, PushStep(b))
    ensures ServingRank(Apply(c, s, PushStep(b)).dist) == ServingRank(s.dist) + (if b.StoreHead? then 5 else 0)
  {
    LaneSound(c, s, s.par.pc.q);
    OfferedRank(s.dist, s.par.pc.q, b);
  }

  lemma DeliverRank(c: Config, s: State)
    requires Enabled(s, Deliver)
    ensures ServingRank(Apply(c, s, Deliver).dist) < ServingRank(s.dist)
  {
    var q, lanes, lanes' := s.dist.pc.q, s.dist.lanes, Apply(c, s, Deliver).dist.lanes;
    WaitingUpdate(lanes, q, lanes'[q]);
    assert Left(|lanes|, q) == Left(|lanes|, q + 1) + 1;
  }

  predicate OnQueues(a: Action) { a.PushStep? || a.PopStep? || a.Deliver? }

  lemma OtherStepRank(c: Config, s: State, a: Action)
    requires ControlInv(s.control, s.net, s.par, s.dist) && Enabled(s, a) && !a.BeginRound? && !OnQueues(a)
    ensures ServingRank(Apply(c, s, a).dist) + (if Serves(a) then 1 else 0) <= ServingRank(s.dist)
  {
    if a.AddSubscriber? { WaitingJoin(s.dist.lanes, Lane(Q.Empty(c.queueSize), [], 0, |s.dist.dispatched|)); }
  }

  lemma ServeStepRank(c: Config, s: State, a: Action)
    requires LanesInv(c, s.par, s.dist) && ControlInv(s.control, s.net, s.par, s.dist)
    requires Enabled(s, a) && !a.BeginRound?
    ensures ServingRank(Apply(c, s, a).dist) + (if Serves(a) then 1 else 0)
         <= ServingRank(s.dist) + (if StoresMessage(a) then 5 else 0)
  {
    match a
    case PushStep(b) => SendStepRank(c, s, b);
    case PopStep(b) => PopStepRank(c, s, b);
    case Deliver => DeliverRank(c, s);
    case _ => OtherStepRank(c, s, a);
  }

  lemma LaneSound(c: Config, s: State, q: nat)
    requires LanesInv(c, s.par, s.dist) && q < |s.dist.lanes|
    ensures Q.Inv(s.dist.lanes[q].queue)
  {
    assert LaneInv(c.queueSize, s.dist.lanes[q], WorkAt(s.par, s.dist.pc, q), s.dist.dispatched);
  }

  /** A rank that every step of one kind lowers and each step of another raises by five. */
  lemma {:induction false} SpentAndEarned(own: Action -> bool, earns: Action -> bool, acts: seq<Action>,
                                          ranks: seq<nat>, i: nat, j: nat)
    requires i <= j <= |acts| && |ranks| == |acts| + 1
    requires forall k :: i <= k < j ==>
      ranks[k + 1] + (if own(acts[k]) then 1 else 0) <= ranks[k] + (if earns(acts[k]) then 5 else 0)
    ensures Count(own, acts, i, j) + ranks[j] <= ranks[i] + 5 * Count(earns, acts, i, j)
  {
    if i < j {
      SpentAndEarned(own, earns, acts, ranks, i, j - 1);
      var k := j - 1;
      assert ranks[k + 1] + (if own(acts[k]) then 1 else 0) <= ranks[k] + (if earns(acts[k]) then 5 else 0);
    }
  }

  /** A round of the dispatcher thread ends, as far as the parser thread lets it: from one
      `BeginRound` to the next it takes at most 1 + 2 * subscribers steps, and five more for each
      message that was waiting at the start or was pushed meanwhile. */
  lemma DispatcherRoundEnds(c: Config, run: seq<State>, acts: seq<Action>, i: nat, j: nat)
    requires Good(c) && IsRun(c, run, acts) && i < j < |run| && acts[i].BeginRound?
    requires forall k :: i < k < j ==> !acts[k].BeginRound?
    ensures var lanes := run[i].dist.lanes;
      Count(Serves, acts, i + 1, j)
      <= 1 + 2 * |lanes| + 5 * (Waiting(lanes) + Count(StoresMessage, acts, i + 1, j))
  {
    StepOf(c, run, acts, i);
    assert ServingRank(run[i + 1].dist) == 1 + 2 * |run[i].dist.lanes| + 5 * Waiting(run[i].dist.lanes);
    ServingSpent(c, run, acts, i + 1, j);
  }

  lemma ServingSpent(c: Config, run: seq<State>, acts: seq<Action>, i: nat, j: nat)
    requires Good(c) && IsRun(c, run, acts) && i <= j < |run|
    requires forall k :: i <= k < j ==> !acts[k].BeginRound?
    ensures Count(Serves, acts, i, j) + ServingRank(run[j].dist)
         <= ServingRank(run[i].dist) + 5 * Count(StoresMessage, acts, i, j)
  {
    var ranks: seq<nat> := seq(|run|, k requires 0 <= k < |run| => ServingRank(run[k].dist));
    forall k | i <= k < j
      ensures ranks[k + 1] + (if Serves(acts[k]) then 1 else 0)
           <= ranks[k] + (if StoresMessage(acts[k]) then 5 else 0)
    {
      ServingOnce(c, run, acts, k);
    }
    SpentAndEarned(Serves, StoresMessage, acts, ranks, i, j);
  }

  lemma ServingOnce(c: Config, run: seq<State>, acts: seq<Action>, i: nat)
    requires Good(c) && IsRun(c, run, acts) && i < |acts| && !acts[i].BeginRound?
    ensures ServingRank(run[i + 1].dist) + (if Serves(acts[i]) then 1 else 0)
         <= ServingRank(run[i].dist) + (if StoresMessage(acts[i]) then 5 else 0)
  {
    StepOf(c, run, acts, i);
    ServeStepRank(c, run[i], acts[i]);
  }
}

/** What becomes of the engine's threads: which are alive when, what the run was fed, and that
    starting, stopping and delivering can always be brought to their end. */
module PipelineLife {
  import opened Lists
  import opened Types
  import opened ParserTheorems
  import opened Pipeline
  import opened PipelineInvariant
  import opened PipelineProgress
  import opened PipelineSteps

  // ------------------------------------------------------------------- alive

  /** Which threads must be alive: from its start to its join each of them is, the network
      thread if the socket was open at the start. */
  ghost predicate Alive(s: State) {
    && (s.control.Up? ==> !s.par.pc.ParseDown?)
    && (s.control.DispatcherStarted? || s.control.Up? || s.control.JoiningParser? ==> !s.dist.pc.ServeDown?)
    && (s.receiverRuns && !s.control.Down? && !s.control.JoiningReceiver? ==> !s.net.pc.RecvDown?)
    && (s.control.Down? ==> !s.receiverRuns)
    && (!s.receiverRuns ==> s.net.pc.RecvDown?)
  }

  lemma AliveStep(c: Config, s: State, a: Action)
    requires Alive(s) && Enabled(s, a)
    ensures Alive(Apply(c, s, a))
  {
  }

  lemma {:induction false} AliveInRuns(c: Config, run: seq<State>, acts: seq<Action>, i: nat)
    requires IsRun(c, run, acts) && i < |run|
    ensures Alive(run[i])
  {
    if i > 0 {
      AliveInRuns(c, run, acts, i - 1);
      assert Enabled(run[i - 1], acts[i - 1]) && run[i - 1 + 1] == Apply(c, run[i - 1], acts[i - 1]);
      AliveStep(c, run[i - 1], acts[i - 1]);
    }
  }

  // ------------------------------------------------------------------ inputs

  /** The datagrams of the `Arrive` actions, in order, with the times they were given. */
  function Arrivals(acts: seq<Action>): seq<Packet> {
    if acts == [] then []
    else
      var a := acts[|acts| - 1];
      Arrivals(acts[..|acts| - 1]) + if a.Arrive? then [Packet(a.data, a.now)] else []
  }

  /** How many subscribers were added. */
  function Joins(acts: seq<Action>): nat {
    if acts == [] then 0 else Joins(acts[..|acts| - 1]) + if acts[|acts| - 1].AddSubscriber? then 1 else 0
  }

  /** The latest time a thread took. */
  function Time(acts: seq<Action>): Word64 {
    if acts == [] then 0
    else
      var a := acts[|acts| - 1];
      if a.Arrive? then a.now else if a.BeginMessage? then a.now else Time(acts[..|acts| - 1])
  }

  /** The time the dispatch in progress took. */
  function Begun(acts: seq<Action>): Word64 {
    if acts == [] then 0
    else if acts[|acts| - 1].BeginMessage? then acts[|acts| - 1].now
    else Begun(acts[..|acts| - 1])
  }

  /** The record the machine keeps is what the actions gave it. */
  ghost predicate Fed(s: State, arrivals: seq<Packet>, joins: nat, time: Word64, begun: Word64) {
    && s.net.arrived == arrivals && |s.dist.lanes| == joins && s.clock == time
    && (s.par.pc.Sending? || s.par.pc.Pushing? ==> s.par.pc.now == begun)
  }

  lemma FedStep(c: Config, s: State, a: Action, arrivals: seq<Packet>, joins: nat, time: Word64, begun: Word64)
    requires Enabled(s, a) && Fed(s, arrivals, joins, time, begun)
    ensures Fed(Apply(c, s, a),
                arrivals + (if a.Arrive? then [Packet(a.data, a.now)] else []),
                joins + (if a.AddSubscriber? then 1 else 0),
                if a.Arrive? then a.now else if a.BeginMessage? then a.now else time,
                if a.BeginMessage? then a.now else begun)
  {
    NothingAfter(arrivals);
  }

  /** The datagrams that arrived, the subscribers, the clock and the dispatch times are exactly
      those of the actions. */
  lemma {:induction false} FedInRuns(c: Config, run: seq<State>, acts: seq<Action>, i: nat)
    requires IsRun(c, run, acts) && i < |run|
    ensures Fed(run[i], Arrivals(acts[..i]), Joins(acts[..i]), Time(acts[..i]), Begun(acts[..i]))
  {
    if i > 0 {
      var before := acts[..i - 1];
      FedInRuns(c, run, acts, i - 1);
      assert Enabled(run[i - 1], acts[i - 1]) && run[i - 1 + 1] == Apply(c, run[i - 1], acts[i - 1]);
      FedStep(c, run[i - 1], acts[i - 1], Arrivals(before), Joins(before), Time(before), Begun(before));
      TakeOneMore(acts, i - 1);
    }
  }

  /** Without a successful `initialize` no socket is open, and nothing is ever received. */
  lemma {:induction false} NothingUninitialized(c: Config, run: seq<State>, acts: seq<Action>, i: nat)
    requires IsRun(c, run, acts) && i < |run| && forall k :: 0 <= k < i ==> acts[k] != Initialize(true)
    ensures !run[i].socketOpen && !run[i].receiverRuns && run[i].net.pc.RecvDown? && run[i].net.arrived == []
  {
    if i > 0 {
      NothingUninitialized(c, run, acts, i - 1);
      assert Enabled(run[i - 1], acts[i - 1]) && run[i - 1 + 1] == Apply(c, run[i - 1], acts[i - 1]);
    }
  }

  /** A datagram can arrive exactly when the network thread is at the top of its loop, the
      datagram has 1 to 9000 bytes, and time does not run backwards: the ring never stands in
      the way. */
  lemma ArrivesExactly(c: Config, run: seq<State>, acts: seq<Action>, i: nat, data: seq<Byte>, now: Word64)
    requires Good(c) && IsRun(c, run, acts) && i < |run|
    ensures Enabled(run[i], Arrive(data, now)) <==>
      run[i].net.pc.RecvTop? && 1 <= |data| <= 9000 && now >= run[i].clock
  {
    RunInv(c, run, acts, i);
    NetworkGoesOn(run[i]);
  }

  /** Subscribers are added and the engine started exactly while it is down, and stopped exactly
      while it is up; the socket can be initialized at any time; and a message is dispatched at
      any time no earlier than the clock. */
  lemma ControlsExactly(s: State, ok: bool, now: Word64)
    ensures Enabled(s, AddSubscriber) <==> s.control.Down?
    ensures Enabled(s, Start) <==> s.control.Down?
    ensures Enabled(s, Stop) <==> s.control.Up?
    ensures Enabled(s, Initialize(ok))
    ensures Enabled(s, BeginMessage(now)) <==>
      s.par.pc.AtMessage? && s.par.pc.i < |s.par.batch| && now >= s.clock
  {
  }

  // -------------------------------------------------------------- to the top

  predicate Any(a: Action) { true }

  /** What the other threads' steps leave alone. */
  ghost predicate SameStage(s: State, s': State) {
    s'.control == s.control && s'.socketOpen == s.socketOpen && s'.receiverRuns == s.receiverRuns
  }

  lemma ParserKeeps(c: Config, s: State, a: Action)
    requires Enabled(s, a) && Parses(a)
    ensures var s' := Apply(c, s, a);
      SameStage(s, s') && s'.net == s.net && s'.dist.pc == s.dist.pc && (s.par.pc.ParseDown? == s'.par.pc.ParseDown?)
  {
  }

  lemma ParserStep(c: Config, s: State) returns (s': State)
    requires Good(c) && Inv(c, s) && !s.par.pc.ParseDown? && !s.par.pc.ParseTop?
    ensures Leads(c, Any, s, s') && Inv(c, s') && ParserRank(c, s') < ParserRank(c, s)
    ensures SameStage(s, s') && s'.net == s.net && s'.dist.pc == s.dist.pc && !s'.par.pc.ParseDown?
  {
    ParserMoves(c, s);
    var a :| Parses(a) && Enabled(s, a);
    s' := Apply(c, s, a);
    ParserStepRank(c, s, a);
    ParserKeeps(c, s, a);
    One(c, Any, s, a);
    LeadsInv(c, Any, s, s');
  }

  /** The parser thread can always come to the top of its loop. */
  lemma {:induction false} ParserFinishes(c: Config, s: State) returns (s': State)
    requires Good(c) && Inv(c, s) && !s.par.pc.ParseDown?
    ensures Leads(c, Any, s, s') && Inv(c, s') && s'.par.pc.ParseTop?
    ensures SameStage(s, s') && s'.net == s.net && s'.dist.pc == s.dist.pc
    decreases ParserRank(c, s)
  {
    if s.par.pc.ParseTop? {
      s' := s;
      Stays(c, Any, s);
    } else {
      var m := ParserStep(c, s);
      s' := ParserFinishes(c, m);
      Then(c, Any, s, m, s');
    }
  }

  lemma ServerKeeps(c: Config, s: State, a: Action)
    requires Enabled(s, a) && Serves(a)
    ensures var s' := Apply(c, s, a);
      SameStage(s, s') && s'.net == s.net && s'.par == s.par && (s.dist.pc.ServeDown? == s'.dist.pc.ServeDown?)
  {
  }

  lemma ServerStep(c: Config, s: State) returns (s': State)
    requires Good(c) && Inv(c, s) && !s.dist.pc.ServeDown? && !s.dist.pc.ServeTop?
    ensures Leads(c, Any, s, s') && Inv(c, s') && ServingRank(s'.dist) < ServingRank(s.dist)
    ensures SameStage(s, s') && s'.net == s.net && s'.par == s.par && !s'.dist.pc.ServeDown?
  {
    DispatcherMoves(c, s);
    var a :| Serves(a) && Enabled(s, a);
    s' := Apply(c, s, a);
    ServeStepRank(c, s, a);
    ServerKeeps(c, s, a);
    One(c, Any, s, a);
    LeadsInv(c, Any, s, s');
  }

  /** So can the dispatcher thread, ... */
  lemma {:induction false} ServerFinishes(c: Config, s: State) returns (s': State)
    requires Good(c) && Inv(c, s) && !s.dist.pc.ServeDown?
    ensures Leads(c, Any, s, s') && Inv(c, s') && s'.dist.pc.ServeTop?
    ensures SameStage(s, s') && s'.net == s.net && s'.par == s.par
    decreases ServingRank(s.dist)
  {
    if s.dist.pc.ServeTop? {
      s' := s;
      Stays(c, Any, s);
    } else {
      var m := ServerStep(c, s);
      s' := ServerFinishes(c, m);
      Then(c, Any, s, m, s');
    }
  }

  lemma ReceiverKeeps(c: Config, s: State, a: Action)
    requires Enabled(s, a) && a.ReceiverStep?
    ensures var s' := Apply(c, s, a);
      SameStage(s, s') && s'.par == s.par && s'.dist == s.dist && !s'.net.pc.RecvDown?
  {
  }

  lemma ReceiverDoes(c: Config, s: State) returns (s': State)
    requires Good(c) && Inv(c, s) && s.net.pc.RecvPushing?
    ensures Leads(c, Any, s, s') && Inv(c, s') && ReceiverRank(s') < ReceiverRank(s)
    ensures SameStage(s, s') && s'.par == s.par && s'.dist == s.dist && !s'.net.pc.RecvDown?
  {
    NetworkGoesOn(s);
    var b :| Enabled(s, ReceiverStep(b));
    s' := Apply(c, s, ReceiverStep(b));
    ReceiverStepRank(c, s, ReceiverStep(b));
    ReceiverKeeps(c, s, ReceiverStep(b));
    One(c, Any, s, ReceiverStep(b));
    LeadsInv(c, Any, s, s');
  }

  /** ... and the network thread, if it is alive. */
  lemma {:induction false} ReceiverFinishes(c: Config, s: State) returns (s': State)
    requires Good(c) && Inv(c, s)
    ensures Leads(c, Any, s, s') && Inv(c, s') && !s'.net.pc.RecvPushing?
    ensures SameStage(s, s') && s'.par == s.par && s'.dist == s.dist
    decreases ReceiverRank(s)
  {
    if !s.net.pc.RecvPushing? {
      s' := s;
      Stays(c, Any, s);
    } else {
      var m := ReceiverDoes(c, s);
      s' := ReceiverFinishes(c, m);
      Then(c, Any, s, m, s');
    }
  }

  // ---------------------------------------------------------- start and stop

  /** The engine with all its threads at the top of their loops, and no session yet read. */
  ghost function Started(c: Config, s: State): State {
    s.(control := Up, receiverRuns := s.socketOpen,
       net := s.net.(pc := if s.socketOpen then RecvTop else RecvDown),
       par := s.par.(pc := ParseTop, buffer := DefaultBuffer(c.max), sessions := s.par.sessions + [[]]),
       dist := s.dist.(pc := ServeTop))
  }

  ghost function ReceiverUp(s: State): State {
    s.(control := ReceiverStarted, receiverRuns := s.socketOpen,
       net := s.net.(pc := if s.socketOpen then RecvTop else RecvDown))
  }

  ghost function DispatcherUp(s: State): State {
    s.(control := DispatcherStarted, dist := s.dist.(pc := ServeTop))
  }

  lemma StartFirst(c: Config, s: State)
    requires s.control.Down?
    ensures Leads(c, Any, s, ReceiverUp(s)) && Leads(c, Any, ReceiverUp(s), DispatcherUp(ReceiverUp(s)))
  {
    One(c, Any, s, Start);
    One(c, Any, ReceiverUp(s), Advance);
  }

  lemma StartSecond(c: Config, s: State)
    requires s.control.Down?
    ensures Leads(c, Any, DispatcherUp(ReceiverUp(s)), Started(c, s))
  {
    One(c, Any, DispatcherUp(ReceiverUp(s)), Advance);
  }

  /** Starting can always be completed: from any state in which the engine is down it comes up,
      with the parser and the dispatcher at work, and the receiver if the socket is open. */
  lemma StartCompletes(c: Config, s: State)
    requires s.control.Down?
    ensures Leads(c, Any, s, Started(c, s))
  {
    StartFirst(c, s);
    StartSecond(c, s);
    Then(c, Any, s, ReceiverUp(s), DispatcherUp(ReceiverUp(s)));
    Then(c, Any, s, DispatcherUp(ReceiverUp(s)), Started(c, s));
  }

  lemma OneMore(c: Config, s: State, m: State, a: Action) returns (s': State)
    requires Good(c) && Leads(c, Any, s, m) && Inv(c, m) && Enabled(m, a)
    ensures s' == Apply(c, m, a) && Leads(c, Any, s, s') && Inv(c, s')
  {
    s' := Apply(c, m, a);
    One(c, Any, m, a);
    Then(c, Any, s, m, s');
    StepInv(c, m, a);
  }

  lemma StopParser(c: Config, s: State) returns (s': State)
    requires Good(c) && Inv(c, s) && s.control.Up? && Alive(s)
    ensures Leads(c, Any, s, s') && Inv(c, s') && s'.control.JoiningDispatcher?
    ensures s'.socketOpen == s.socketOpen && s'.receiverRuns == s.receiverRuns && s'.net == s.net
    ensures s'.par.pc.ParseDown? && s'.dist.pc == s.dist.pc
  {
    Stays(c, Any, s);
    var stopping := OneMore(c, s, s, Stop);
    var m := ParserFinishes(c, stopping);
    Then(c, Any, s, stopping, m);
    m := OneMore(c, s, m, ParserExit);
    s' := OneMore(c, s, m, Advance);
  }

  lemma StopDispatcher(c: Config, s: State) returns (s': State)
    requires Good(c) && Inv(c, s) && s.control.JoiningDispatcher? && s.par.pc.ParseDown? && !s.dist.pc.ServeDown?
    ensures Leads(c, Any, s, s') && Inv(c, s') && s'.control.JoiningReceiver?
    ensures s'.socketOpen == s.socketOpen && s'.receiverRuns == s.receiverRuns && s'.net == s.net
    ensures s'.par.pc.ParseDown? && s'.dist.pc.ServeDown?
  {
    var m := ServerFinishes(c, s);
    m := OneMore(c, s, m, DispatcherExit);
    s' := OneMore(c, s, m, Advance);
  }

  lemma StopReceiver(c: Config, s: State) returns (s': State)
    requires Good(c) && Inv(c, s) && s.control.JoiningReceiver?
    ensures Leads(c, Any, s, s') && Inv(c, s') && s'.control.Down? && !s'.receiverRuns
    ensures s'.socketOpen == (s.socketOpen && !s.receiverRuns)
  {
    var m := ReceiverFinishes(c, s);
    if m.net.pc.RecvTop? { m := OneMore(c, s, m, ReceiverExit); }
    s' := OneMore(c, s, m, Advance);
  }

  /** Stopping can always be completed: from any state of any run in which the engine is up,
      whatever its threads are in the middle of, they can finish and be joined; then the engine
      is down, and its socket closed if the receiver ran. */
  lemma StopCompletes(c: Config, run: seq<State>, acts: seq<Action>, i: nat) returns (s': State)
    requires Good(c) && IsRun(c, run, acts) && i < |run| && run[i].control.Up?
    ensures Leads(c, Any, run[i], s') && Inv(c, s') && s'.control.Down? && !s'.receiverRuns
    ensures s'.socketOpen == (run[i].socketOpen && !run[i].receiverRuns)
  {
    var s := run[i];
    RunInv(c, run, acts, i);
    AliveInRuns(c, run, acts, i);
    var m1 := StopParser(c, s);
    var m2 := StopDispatcher(c, m1);
    s' := StopReceiver(c, m2);
    Then(c, Any, s, m1, m2);
    Then(c, Any, s, m2, s');
  }
}

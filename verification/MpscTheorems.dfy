/** What every run of the multi-producer queue satisfies. */
module MpscTheorems {
  import opened Bits
  import opened Lists
  import opened MpscQueue

  // --------------------------------------------------- what calls were given

  /** A producer's calls, read off the actions alone: the argument of the call in progress, if
      any, and the arguments of the calls that returned true, in order. */
  datatype Log<T> = Log(pending: seq<T>, pushed: seq<T>)

  function LogOf<T>(acts: seq<Action<T>>, p: nat): Log<T> {
    if acts == [] then Log([], []) else LogNext(LogOf(acts[..|acts| - 1], p), acts[|acts| - 1], p)
  }

  function LogNext<T>(log: Log<T>, a: Action<T>, p: nat): Log<T> {
    match a
    case BeginPush(q, item) => if q == p then Log([item], log.pushed) else log
    case RejectPush(q) => if q == p then Log([], log.pushed) else log
    case Publish(q) => if q == p then Log([], log.pushed + log.pending) else log
    case _ => log
  }

  /** The machine's record of a producer agrees with its log. */
  ghost predicate Logged<T>(s: State<T>, p: nat, log: Log<T>)
    requires p < |s.producers| == |s.accepted|
  {
    s.accepted[p] == log.pushed && log.pending == if s.producers[p].Idle? then [] else [s.producers[p].item]
  }

  lemma LoggedStep<T>(ar: Arith, s: State<T>, a: Action<T>, p: nat, log: Log<T>)
    requires Enabled(ar, s, a) && p < |s.producers| && Logged(s, p, log)
    ensures var s' := Apply(ar, s, a);
      |s'.producers| == |s'.accepted| == |s.producers| && Logged(s', p, LogNext(log, a, p))
  {
  }

  /** A push publishes the argument it was called with, however many rounds it takes: what each
      producer's successful calls are recorded to have pushed is exactly what they were given,
      and a call in progress still holds its argument. */
  lemma {:induction false} PushesItsArgument<T>(ar: Arith, n: nat, run: seq<State<T>>, acts: seq<Action<T>>,
                                                i: nat, p: nat)
    requires IsRun(ar, n, run, acts) && i < |run| && p < |run[i].producers|
    ensures |run[i].accepted| == |run[i].producers| && Logged(run[i], p, LogOf(acts[..i], p))
  {
    if i > 0 {
      var s, a := run[i - 1], acts[i - 1];
      assert Enabled(ar, s, a) && run[i - 1 + 1] == Apply(ar, s, a);
      PushesItsArgument(ar, n, run, acts, i - 1, p);
      LoggedStep(ar, s, a, p, LogOf(acts[..i - 1], p));
      TakeOneMore(acts, i - 1);
    }
  }

  // -------------------------------------------------------------------- FIFO

  function Items<T>(tickets: seq<Ticket<T>>): seq<T> {
    seq(|tickets|, i requires 0 <= i < |tickets| => tickets[i].item)
  }

  /** FIFO: at every point of every run, what was popped is exactly the oldest
      tickets' items in claim order; every ticket published and not yet returned
      still has its item in its slot; and each producer's tickets are, in order, the
      arguments of its pushes that returned true, followed by that of the one it has
      claimed but not finished. */
  lemma Fifo<T>(n: nat, run: seq<State<T>>, acts: seq<Action<T>>, i: nat)
    requires IsRun(Ideal, n, run, acts) && n >= 2 && i < |run|
    ensures var s := run[i];
      && WellFormed(s) && |s.popped| <= |s.tickets|
      && s.popped == Items(s.tickets)[..|s.popped|]
      && (forall t :: Returned(s) <= t < |s.tickets| && t in s.published ==> s.data[t % s.size] == s.tickets[t].item)
      && (forall p :: 0 <= p < |s.producers| ==> ItemsOf(s.tickets, p) == s.accepted[p] + InFlight(s.producers[p]))
      && (forall p :: 0 <= p < |s.producers| ==> Logged(s, p, LogOf(acts[..i], p)))
  {
    RunInv(n, run, acts, i);
    var s := run[i];
    forall p | 0 <= p < |s.producers| ensures Logged(s, p, LogOf(acts[..i], p)) {
      PushesItsArgument(Ideal, n, run, acts, i, p);
    }
    forall t | Returned(s) <= t < |s.tickets| && t in s.published ensures s.data[t % s.size] == s.tickets[t].item {
      assert SlotOk(s, t);
    }
    forall p | 0 <= p < |s.producers| ensures ItemsOf(s.tickets, p) == s.accepted[p] + InFlight(s.producers[p]) {
      assert OrderOk(s, p);
    }
  }

  /** When no call is in progress, the ring holds exactly the tickets not yet popped,
      so as many further pops succeed, with those items. */
  lemma QuiescentContents<T>(n: nat, run: seq<State<T>>, acts: seq<Action<T>>, i: nat)
    requires IsRun(Ideal, n, run, acts) && n >= 2 && i < |run|
    requires run[i].consumer.Resting?
    requires forall p :: 0 <= p < |run[i].producers| ==> run[i].producers[p].Idle?
    ensures var s := run[i];
      WellFormed(s) && s.size == n && s.tail <= s.head == |s.tickets| <= s.tail + n
      && forall t :: s.tail <= t < s.head ==>
        s.sequence[t % n] == t + 1 && s.data[t % n] == s.tickets[t].item
  {
    RunInv(n, run, acts, i);
    var s := run[i];
    forall t | s.tail <= t < s.head ensures s.sequence[t % n] == t + 1 && s.data[t % n] == s.tickets[t].item {
      assert TicketOk(s, t) && SlotOk(s, t);
    }
  }

  // --------------------------------------------------------------- ownership

  /** A producer may touch a slot's data from its claim to its publication. */
  predicate ProducerTouches<T>(s: State<T>, p: nat, slot: nat)
    requires WellFormed(s) && p < |s.producers|
  {
    (s.producers[p].Claimed? || s.producers[p].Written?) && s.producers[p].head % s.size == slot
  }

  /** The consumer may touch it from seeing it published to recycling it. */
  predicate ConsumerTouches<T>(s: State<T>, slot: nat)
    requires WellFormed(s)
  {
    match s.consumer
    case HoldsTailSequence(t, q) => q == t + 1 && t % s.size == slot
    case Taken(t, _) => t % s.size == slot
    case _ => false
  }

  /** No two threads may touch the same slot's data, and the outstanding tickets fit
      the ring; measured against `tail_` there can be one more, but only between the
      two stores at the end of `pop`. */
  lemma SlotOwnership<T>(n: nat, run: seq<State<T>>, acts: seq<Action<T>>, i: nat, slot: nat)
    requires IsRun(Ideal, n, run, acts) && n >= 2 && i < |run|
    ensures var s := run[i];
      && WellFormed(s)
      && (forall p, q :: 0 <= p < q < |s.producers| ==> !(ProducerTouches(s, p, slot) && ProducerTouches(s, q, slot)))
      && (forall p :: 0 <= p < |s.producers| ==> !(ProducerTouches(s, p, slot) && ConsumerTouches(s, slot)))
      && Returned(s) <= s.head <= Returned(s) + n
      && s.head <= s.tail + n + 1
      && (s.head == s.tail + n + 1 ==> s.consumer.Recycled?)
  {
    RunInv(n, run, acts, i);
    var s := run[i];
    forall p | 0 <= p < |s.producers| && ProducerTouches(s, p, slot)
      ensures Returned(s) <= s.producers[p].head < s.head && s.tickets[s.producers[p].head].producer == p
      ensures !ConsumerTouches(s, slot)
    {
      assert ProducerOk(s, p);
      Distinct(Returned(s), n, Returned(s), s.producers[p].head);
    }
    forall p, q | 0 <= p < q < |s.producers| && ProducerTouches(s, p, slot)
      ensures !ProducerTouches(s, q, slot)
    {
      if ProducerTouches(s, q, slot) {
        Distinct(Returned(s), n, s.producers[p].head, s.producers[q].head);
      }
    }
  }

  // ------------------------------------------------------- full and progress

  lemma StepAt<T>(n: nat, run: seq<State<T>>, acts: seq<Action<T>>, i: nat)
    requires IsRun(Ideal, n, run, acts) && i < |acts|
    ensures Enabled(Ideal, run[i], acts[i]) && run[i + 1] == Apply(Ideal, run[i], acts[i])
  {
  }

  /** Where a producer got the sequence it holds. */
  lemma {:induction false} FindSequenceLoad<T>(n: nat, run: seq<State<T>>, acts: seq<Action<T>>, j: nat, p: nat)
      returns (i: nat)
    requires IsRun(Ideal, n, run, acts) && j < |run|
    requires p < |run[j].producers| && run[j].producers[p].HoldsSequence?
    ensures i < j && acts[i] == LoadSequence(p) && Enabled(Ideal, run[i], acts[i])
    ensures var pc := run[j].producers[p];
      run[i].producers[p] == HoldsHead(pc.item, pc.head)
      && pc.sequence == run[i].sequence[pc.head % run[i].size]
  {
    if j == 0 {
      assert false;
    } else {
      StepAt(n, run, acts, j - 1);
      SequenceKept(run[j - 1], acts[j - 1], p);
      if acts[j - 1] == LoadSequence(p) {
        i := j - 1;
      } else {
        i := FindSequenceLoad(n, run, acts, j - 1, p);
      }
    }
  }

  lemma SequenceKept<T>(s: State<T>, a: Action<T>, p: nat)
    requires Enabled(Ideal, s, a)
    ensures var s' := Apply(Ideal, s, a);
      p < |s'.producers| && s'.producers[p].HoldsSequence? && a != LoadSequence(p) ==>
        p < |s.producers| && s.producers[p] == s'.producers[p]
  {
  }

  predicate HoldsAHead<T>(pc: Producer<T>) { pc.HoldsHead? || pc.HoldsSequence? }

  lemma HeadKept<T>(s: State<T>, a: Action<T>, p: nat)
    requires Enabled(Ideal, s, a)
    ensures var s' := Apply(Ideal, s, a);
      p < |s'.producers| && HoldsAHead(s'.producers[p]) && a != LoadHead(p) ==>
        p < |s.producers| && HoldsAHead(s.producers[p]) && s.producers[p].head == s'.producers[p].head
  {
  }

  /** Where a producer got the head it holds. */
  lemma {:induction false} FindHeadLoad<T>(n: nat, run: seq<State<T>>, acts: seq<Action<T>>, j: nat, p: nat)
      returns (i: nat)
    requires IsRun(Ideal, n, run, acts) && j < |run|
    requires p < |run[j].producers| && (run[j].producers[p].HoldsHead? || run[j].producers[p].HoldsSequence?)
    ensures i < j && acts[i] == LoadHead(p) && run[i].head == run[j].producers[p].head
  {
    if j == 0 {
      assert false;
    } else {
      StepAt(n, run, acts, j - 1);
      HeadKept(run[j - 1], acts[j - 1], p);
      if acts[j - 1] == LoadHead(p) {
        i := j - 1;
      } else {
        i := FindHeadLoad(n, run, acts, j - 1, p);
      }
    }
  }

  /** A rejected push is never a false alarm: at the moment it loaded the slot's
      sequence, exactly Size tickets were claimed and not yet returned, and its
      `head`, however long ago it was loaded, was still the current one. */
  lemma FullIsTruthful<T>(n: nat, run: seq<State<T>>, acts: seq<Action<T>>, j: nat, p: nat)
      returns (i: nat)
    requires IsRun(Ideal, n, run, acts) && n >= 2 && j < |acts| && acts[j] == RejectPush(p)
    ensures i < j && acts[i] == LoadSequence(p)
    ensures run[i].head == Returned(run[i]) + n
    ensures p < |run[i].producers| && run[i].producers[p].HoldsHead? && run[i].producers[p].head == run[i].head
  {
    StepAt(n, run, acts, j);
    i := FindSequenceLoad(n, run, acts, j, p);
    RunInv(n, run, acts, i);
    assert ProducerOk(run[i], p);
    SequenceMeaning(run[i], run[i].producers[p].head);
  }

  /** A step claims the ticket `head_` was at, or leaves the tickets alone. */
  lemma ClaimOrNot<T>(n: nat, run: seq<State<T>>, acts: seq<Action<T>>, j: nat)
    requires IsRun(Ideal, n, run, acts) && n >= 2 && j < |acts|
    ensures |run[j].tickets| == run[j].head && |run[j + 1].tickets| == run[j + 1].head
    ensures run[j].tickets <= run[j + 1].tickets
    ensures run[j + 1].head == run[j].head
      || (run[j + 1].head == run[j].head + 1 && acts[j].CompareExchange?
          && run[j + 1].tickets[run[j].head].producer == acts[j].p)
  {
    RunInv(n, run, acts, j);
    RunInv(n, run, acts, j + 1);
    StepAt(n, run, acts, j);
  }

  /** Between two points where `head_` differs there is the claim that moved it. */
  lemma {:induction false} FindClaim<T>(n: nat, run: seq<State<T>>, acts: seq<Action<T>>, i: nat, j: nat, h: nat)
      returns (k: nat)
    requires IsRun(Ideal, n, run, acts) && n >= 2 && i <= j < |run|
    requires run[i].head <= h < run[j].head
    ensures i <= k < j && acts[k].CompareExchange? && run[k].head == h && run[k + 1].head == h + 1
    ensures h < |run[j].tickets| && run[j].tickets[h].producer == acts[k].p
  {
    ClaimOrNot(n, run, acts, j - 1);
    if run[j - 1].head <= h {
      k := j - 1;
    } else {
      k := FindClaim(n, run, acts, i, j - 1, h);
    }
  }

  predicate GoesRound<T>(s: State<T>, a: Action<T>) {
    a.RetryPush? ||
    (a.CompareExchange? && a.p < |s.producers| && s.producers[a.p].HoldsSequence?
     && (a.spurious || s.head != s.producers[a.p].head))
  }

  /** Whenever a producer goes round its loop again, either its weak compare-exchange
      failed for no reason, or since it loaded `head_` another producer has claimed the
      very ticket it was after: the system as a whole made progress. */
  lemma Progress<T>(n: nat, run: seq<State<T>>, acts: seq<Action<T>>, j: nat)
      returns (i: nat, k: nat)
    requires IsRun(Ideal, n, run, acts) && n >= 2 && j < |acts| && GoesRound(run[j], acts[j])
    ensures i < j && acts[i] == LoadHead(acts[j].p)
    ensures !(acts[j].CompareExchange? && acts[j].spurious && run[j].head == run[i].head) ==>
      i <= k < j && acts[k].CompareExchange? && acts[k].p != acts[j].p
      && run[k].head == run[i].head && run[k + 1].head == run[i].head + 1
  {
    var p := acts[j].p;
    StepAt(n, run, acts, j);
    RunInv(n, run, acts, j);
    assert ProducerOk(run[j], p);
    i := FindHeadLoad(n, run, acts, j, p);
    k := 0;
    if run[j].head > run[i].head {
      k := FindClaim(n, run, acts, i, j, run[i].head);
    }
  }

  /** The ticket a producer is after: the one it loaded, or the one it would load now. */
  function Aim<T>(s: State<T>, p: nat): nat
    requires p < |s.producers|
  {
    if s.producers[p].HoldsHead? || s.producers[p].HoldsSequence? then s.producers[p].head else s.head
  }

  /** A round of producer `p` ends because its ticket is gone. */
  predicate Loses<T>(s: State<T>, a: Action<T>, p: nat) {
    a == RetryPush(p) ||
    (a.CompareExchange? && a.p == p < |s.producers| && s.producers[p].HoldsSequence?
     && s.head != s.producers[p].head)
  }

  /** How many of the steps from `i` to `j` are such rounds. */
  function LostRounds<T>(run: seq<State<T>>, acts: seq<Action<T>>, p: nat, i: nat, j: nat): nat
    requires i <= j <= |acts| < |run|
  {
    if i == j then 0 else LostRounds(run, acts, p, i, j - 1) + if Loses(run[j - 1], acts[j - 1], p) then 1 else 0
  }

  /** The ticket a producer is after never falls, and rises with every round it loses. */
  lemma AimRises<T>(s: State<T>, a: Action<T>, p: nat)
    requires Inv(s) && Enabled(Ideal, s, a) && p < |s.producers|
    ensures var s' := Apply(Ideal, s, a);
      |s'.producers| == |s.producers| && Aim(s, p) + (if Loses(s, a, p) then 1 else 0) <= Aim(s', p)
  {
    assert ProducerOk(s, p);
  }

  /** Retrying is bounded by other producers' success: over any stretch of any run, the rounds
      a producer loses, spurious failures aside, are no more than the tickets claimed since the
      one it was after at the start. */
  lemma RetriesBounded<T>(n: nat, run: seq<State<T>>, acts: seq<Action<T>>, p: nat, i: nat, j: nat)
    requires IsRun(Ideal, n, run, acts) && n >= 2 && i <= j < |run| && p < |run[i].producers|
    ensures p < |run[j].producers|
    ensures LostRounds(run, acts, p, i, j) + Aim(run[i], p) <= Aim(run[j], p) <= run[j].head
  {
    forall k | 0 <= k < |run| ensures p < |run[k].producers| {
      SameProducers(n, run, acts, i);
      SameProducers(n, run, acts, k);
    }
    var aims: seq<nat> := seq(|run|, k requires 0 <= k < |run| => Aim(run[k], p));
    forall k | i <= k < j ensures aims[k] + (if Loses(run[k], acts[k], p) then 1 else 0) <= aims[k + 1] {
      AimAt(n, run, acts, p, k);
    }
    LostBelow(run, acts, aims, p, i, j);
    AimBelow(n, run, acts, p, j);
  }

  lemma {:induction false} LostBelow<T>(run: seq<State<T>>, acts: seq<Action<T>>, aims: seq<nat>, p: nat,
                                        i: nat, j: nat)
    requires i <= j <= |acts| < |run| == |aims|
    requires forall k :: i <= k < j ==> aims[k] + (if Loses(run[k], acts[k], p) then 1 else 0) <= aims[k + 1]
    ensures LostRounds(run, acts, p, i, j) + aims[i] <= aims[j]
  {
    if i < j {
      LostBelow(run, acts, aims, p, i, j - 1);
      assert aims[j - 1] + (if Loses(run[j - 1], acts[j - 1], p) then 1 else 0) <= aims[j - 1 + 1];
    }
  }

  lemma {:induction false} SameProducers<T>(n: nat, run: seq<State<T>>, acts: seq<Action<T>>, i: nat)
    requires IsRun(Ideal, n, run, acts) && i < |run|
    ensures |run[i].producers| == |run[0].producers|
  {
    if i > 0 {
      SameProducers(n, run, acts, i - 1);
      StepAt(n, run, acts, i - 1);
    }
  }

  lemma AimAt<T>(n: nat, run: seq<State<T>>, acts: seq<Action<T>>, p: nat, i: nat)
    requires IsRun(Ideal, n, run, acts) && n >= 2 && i < |acts| && p < |run[i].producers|
    ensures p < |run[i + 1].producers|
    ensures Aim(run[i], p) + (if Loses(run[i], acts[i], p) then 1 else 0) <= Aim(run[i + 1], p)
  {
    RunInv(n, run, acts, i);
    StepAt(n, run, acts, i);
    AimRises(run[i], acts[i], p);
  }

  lemma AimBelow<T>(n: nat, run: seq<State<T>>, acts: seq<Action<T>>, p: nat, i: nat)
    requires IsRun(Ideal, n, run, acts) && n >= 2 && i < |run| && p < |run[i].producers|
    ensures Aim(run[i], p) <= run[i].head
  {
    RunInv(n, run, acts, i);
    assert ProducerOk(run[i], p);
  }

  predicate ByProducer<T>(a: Action<T>, p: nat) {
    match a
    case BeginPush(q, _) => q == p
    case LoadHead(q) => q == p
    case LoadSequence(q) => q == p
    case CompareExchange(q, _) => q == p
    case RetryPush(q) => q == p
    case RejectPush(q) => q == p
    case WriteData(q) => q == p
    case Publish(q) => q == p
    case _ => false
  }

  /** The step a producer's call takes next, its compare-exchange not failing for no reason. */
  function NextOf<T>(s: State<T>, p: nat): Action<T>
    requires p < |s.producers| && !s.producers[p].Idle?
  {
    match s.producers[p]
    case LoadingHead(_) => LoadHead(p)
    case HoldsHead(_, _) => LoadSequence(p)
    case HoldsSequence(_, h, q) =>
      if q == h then CompareExchange(p, false) else if q < h then RejectPush(p) else RetryPush(p)
    case Claimed(_, _) => WriteData(p)
    case Written(_, _) => Publish(p)
  }

  /** No thread is ever stuck: in every state of every run each call in progress has a next step,
      whatever the other threads are doing, and an idle producer or consumer can begin one. A
      compare-exchange may always fail for no reason. */
  lemma CallsGoOn<T>(n: nat, run: seq<State<T>>, acts: seq<Action<T>>, i: nat)
    requires IsRun(Ideal, n, run, acts) && n >= 2 && i < |run|
    ensures var s := run[i];
      && (forall p, item: T :: 0 <= p < |s.producers| && s.producers[p].Idle? ==> Enabled(Ideal, s, BeginPush(p, item)))
      && (forall p :: 0 <= p < |s.producers| && !s.producers[p].Idle? ==>
            ByProducer(NextOf(s, p), p) && Enabled(Ideal, s, NextOf(s, p)))
      && (forall p :: 0 <= p < |s.producers| && s.producers[p].HoldsSequence? ==>
            s.producers[p].sequence == s.producers[p].head ==> Enabled(Ideal, s, CompareExchange(p, true)))
      && (match s.consumer
          case Resting => Enabled(Ideal, s, LoadTail)
          case HoldsTail(_) => Enabled(Ideal, s, LoadTailSequence)
          case HoldsTailSequence(t, q) => Enabled(Ideal, s, if q == t + 1 then TakeData else RejectPop)
          case Taken(_, _) => Enabled(Ideal, s, Recycle)
          case Recycled(_, _) => Enabled(Ideal, s, AdvanceTail))
  {
    RunInv(n, run, acts, i);
  }

  // ------------------------------------------------------------------- empty

  lemma {:induction false} TailGrows<T>(n: nat, run: seq<State<T>>, acts: seq<Action<T>>, i: nat, j: nat)
    requires IsRun(Ideal, n, run, acts) && n >= 2 && i <= j < |run|
    ensures run[i].tail <= run[j].tail
  {
    if i < j {
      TailGrows(n, run, acts, i, j - 1);
      StepAt(n, run, acts, j - 1);
      RunInv(n, run, acts, j - 1);
    }
  }

  /** `empty()`, called by any thread, having loaded `tail_` at `i` and the sequence
      at `j`: it answers true exactly when that `tail` is still the oldest number not
      returned and is unpublished. For the consumer, outside `pop`, that is: exactly
      when the oldest ticket is unpublished, whatever was published after it. */
  lemma EmptyExact<T>(n: nat, run: seq<State<T>>, acts: seq<Action<T>>, i: nat, j: nat)
    requires IsRun(Ideal, n, run, acts) && n >= 2 && i <= j < |run|
    ensures var s := run[j];
      && WellFormed(s)
      && (SeesEmpty(Ideal, s, run[i].tail) <==> run[i].tail == Returned(s) && run[i].tail !in s.published)
      && (run[i].tail == s.tail && s.consumer.Resting? ==>
            (SeesEmpty(Ideal, s, run[i].tail) <==> s.tail !in s.published))
  {
    RunInv(n, run, acts, j);
    TailGrows(n, run, acts, i, j);
    TailMeaning(run[j], run[i].tail);
  }

  /** `pop` loads the tail slot's sequence: it finds tail or tail + 1 and nothing else,
      and goes on to succeed exactly when the oldest ticket was published by then. */
  lemma PopDecides<T>(n: nat, run: seq<State<T>>, acts: seq<Action<T>>, j: nat)
    requires IsRun(Ideal, n, run, acts) && n >= 2 && j < |acts| && acts[j].LoadTailSequence?
    ensures var s, s' := run[j], run[j + 1];
      && s'.consumer.HoldsTailSequence? && s'.consumer.tail == s.tail
      && (s'.consumer.sequence == s.tail || s'.consumer.sequence == s.tail + 1)
      && (PopDiff(Ideal, s').Zero() <==> s.tail in s.published)
  {
    StepAt(n, run, acts, j);
    RunInv(n, run, acts, j);
    TailMeaning(run[j], run[j].tail);
  }

  // --------------------------------------------------------- particular runs

  ghost function Last<T>(run: seq<State<T>>): State<T>
    requires |run| > 0
  {
    run[|run| - 1]
  }

  /** One more step of a run. */
  lemma Then<T>(ar: Arith, n: nat, run: seq<State<T>>, acts: seq<Action<T>>, a: Action<T>)
      returns (run': seq<State<T>>, acts': seq<Action<T>>)
    requires IsRun(ar, n, run, acts) && Enabled(ar, Last(run), a)
    ensures IsRun(ar, n, run', acts') && Last(run') == Apply(ar, Last(run), a) && |acts'| == |acts| + 1
  {
    run', acts' := run + [Apply(ar, Last(run), a)], acts + [a];
  }

  /** A producer that nobody disturbs claims the next ticket if its slot reads free. */
  lemma ClaimAlone<T>(n: nat, run: seq<State<T>>, acts: seq<Action<T>>, p: nat, item: T)
      returns (run': seq<State<T>>, acts': seq<Action<T>>)
    requires IsRun(Ideal, n, run, acts) && WellFormed(Last(run)) && n == Last(run).size
    requires p < |Last(run).producers| && Last(run).producers[p].Idle?
    requires Last(run).sequence[Last(run).head % n] == Last(run).head
    ensures IsRun(Ideal, n, run', acts') && |acts'| == |acts| + 4
    ensures var s := Last(run);
      Last(run') == s.(head := s.head + 1, producers := s.producers[p := Claimed(item, s.head)],
                       tickets := s.tickets + [Ticket(p, item)])
  {
    run', acts' := Then(Ideal, n, run, acts, BeginPush(p, item));
    run', acts' := Then(Ideal, n, run', acts', LoadHead(p));
    run', acts' := Then(Ideal, n, run', acts', LoadSequence(p));
    run', acts' := Then(Ideal, n, run', acts', CompareExchange(p, false));
  }

  /** ... and so completes its push. */
  lemma PushAlone<T>(n: nat, run: seq<State<T>>, acts: seq<Action<T>>, p: nat, item: T)
      returns (run': seq<State<T>>, acts': seq<Action<T>>)
    requires IsRun(Ideal, n, run, acts) && WellFormed(Last(run)) && n == Last(run).size
    requires p < |Last(run).producers| && Last(run).producers[p].Idle?
    requires Last(run).sequence[Last(run).head % n] == Last(run).head
    ensures IsRun(Ideal, n, run', acts') && |acts'| == |acts| + 6
    ensures var s := Last(run); var slot := s.head % n;
      Last(run') == s.(head := s.head + 1, sequence := s.sequence[slot := s.head + 1], data := s.data[slot := item],
                       tickets := s.tickets + [Ticket(p, item)], published := s.published + {s.head},
                       accepted := s.accepted[p := s.accepted[p] + [item]])
  {
    run', acts' := ClaimAlone(n, run, acts, p, item);
    run', acts' := Then(Ideal, n, run', acts', WriteData(p));
    run', acts' := Then(Ideal, n, run', acts', Publish(p));
    assert Last(run').producers == Last(run).producers;
  }

  /** No published item that is still outstanding has been overwritten. */
  ghost predicate NothingLost<T>(s: State<T>) {
    WellFormed(s) && |s.tickets| == s.head &&
    forall t :: Returned(s) <= t < s.head && t in s.published ==> s.data[t % s.size] == s.tickets[t].item
  }

  /** With one slot, "published" and "recycled" are the same number: a second push
      takes the slot of the first, whose item is gone although both returned true. */
  lemma OneSlotLosesAnItem<T>(x: T, y: T) returns (run: seq<State<T>>, acts: seq<Action<T>>)
    requires x != y
    ensures IsRun(Ideal, 1, run, acts) && |acts| == 12 && !NothingLost(Last(run))
    ensures |Last(run).accepted| == 1 && Last(run).accepted[0] == [x, y] && Last(run).popped == []
  {
    run := [State(1, 0, 0, [0], [x], [Idle], Resting, [], {}, [], [[]])];
    acts := [];
    run, acts := PushAlone(1, run, acts, 0, x);
    assert Last(run).sequence[0] == 1 && Last(run).accepted[0] == [x];
    run, acts := PushAlone(1, run, acts, 0, y);
    var s := Last(run);
    assert 0 in s.published && s.tickets[0].item == x;
    assert s.data[0 % s.size] == y;
    assert s.accepted[0] == [x] + [y];
  }

  /** The compile-time check admits one slot, but the queue keeps its items exactly
      when it has two or more. */
  lemma SafeExactlyFromTwoSlots<T(!new)>(n: nat, x: T, y: T)
    requires PowerOfTwo(n) && x != y
    ensures (forall run: seq<State<T>>, acts, i :: IsRun(Ideal, n, run, acts) && 0 <= i < |run| ==> NothingLost(run[i]))
            <==> n >= 2
  {
    if n == 1 {
      var run, acts := OneSlotLosesAnItem(x, y);
      assert IsRun(Ideal, n, run, acts) && !NothingLost(run[|run| - 1]);
    } else {
      forall run: seq<State<T>>, acts, i | IsRun(Ideal, n, run, acts) && 0 <= i < |run| ensures NothingLost(run[i]) {
        Fifo(n, run, acts, i);
        RunInv(n, run, acts, i);
      }
    }
  }

  /** The extra ticket is real: a producer can take the slot that `pop` has recycled
      before `pop` advances `tail_`. */
  lemma ExtraTicketHappens<T>(x: T) returns (run: seq<State<T>>, acts: seq<Action<T>>)
    ensures IsRun(Ideal, 2, run, acts) && Last(run).head == Last(run).tail + 2 + 1
  {
    run, acts := FullAndRecycled(x);
    run, acts := PushAlone(2, run, acts, 0, x);
  }

  lemma FullRing<T>(x: T) returns (run: seq<State<T>>, acts: seq<Action<T>>)
    ensures IsRun(Ideal, 2, run, acts)
    ensures var s := Last(run);
      && WellFormed(s) && s.size == 2 && s.head == 2 && s.tail == 0
      && s.sequence == [1, 2] && s.producers == [Idle] && s.consumer.Resting?
  {
    run := [State(2, 0, 0, [0, 1], [x, x], [Idle], Resting, [], {}, [], [[]])];
    acts := [];
    run, acts := PushAlone(2, run, acts, 0, x);
    run, acts := PushAlone(2, run, acts, 0, x);
  }

  /** A full ring whose oldest slot `pop` has just recycled. */
  lemma FullAndRecycled<T>(x: T) returns (run: seq<State<T>>, acts: seq<Action<T>>)
    ensures IsRun(Ideal, 2, run, acts)
    ensures var s := Last(run);
      WellFormed(s) && s.size == 2 && s.head == 2 && s.tail == 0 && s.sequence == [2, 2] && s.producers == [Idle]
  {
    run, acts := FullRing(x);
    run, acts := Then(Ideal, 2, run, acts, LoadTail);
    run, acts := Then(Ideal, 2, run, acts, LoadTailSequence);
    run, acts := Then(Ideal, 2, run, acts, TakeData);
    run, acts := Then(Ideal, 2, run, acts, Recycle);
  }

  /** `pop` can report empty after a push has returned true, while an older ticket is
      still unpublished. */
  lemma PopWaitsForTheOldest<T>(x: T) returns (run: seq<State<T>>, acts: seq<Action<T>>)
    ensures IsRun(Ideal, 2, run, acts)
    ensures |Last(run).accepted| == 2 && Last(run).accepted[1] == [x] && Last(run).popped == []
    ensures Enabled(Ideal, Last(run), RejectPop)
  {
    run := [State(2, 0, 0, [0, 1], [x, x], [Idle, Idle], Resting, [], {}, [], [[], []])];
    acts := [];
    run, acts := ClaimAlone(2, run, acts, 0, x);
    assert Last(run).sequence[1 % 2] == 1 && Last(run).producers[1].Idle?;
    run, acts := PushAlone(2, run, acts, 1, x);
    assert Last(run).sequence[0] == 0 && Last(run).accepted[1] == [x];
    run, acts := Then(Ideal, 2, run, acts, LoadTail);
    run, acts := Then(Ideal, 2, run, acts, LoadTailSequence);
  }
}

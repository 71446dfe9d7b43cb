/** The dispatcher object: one bounded queue per subscriber, filled by `dispatch` and
    drained by the dispatcher thread's loop; and its latency statistics. A queue appears
    here as what it holds, changed the way SpscObject's push and pop change it. */
module Dispatcher {
  import opened Bits
  import opened Lists
  import opened Types

  const DEFAULT_QUEUE_SIZE: nat := 0x1_0000

  /** A queue offered a message: it takes it, or is full and drops it. */
  function Offer(held: seq<NormalizedMessage>, msg: NormalizedMessage): seq<NormalizedMessage> {
    if |held| < DEFAULT_QUEUE_SIZE - 1 then held + [msg] else held
  }

  function OfferAll(held: seq<seq<NormalizedMessage>>, msg: NormalizedMessage): (r: seq<seq<NormalizedMessage>>)
    ensures |r| == |held|
  {
    seq(|held|, i requires 0 <= i < |held| => Offer(held[i], msg))
  }

  /** How many of the queues are full. */
  function FullCount(held: seq<seq<NormalizedMessage>>): nat {
    if held == [] then 0
    else FullCount(held[..|held| - 1]) + if |held[|held| - 1]| < DEFAULT_QUEUE_SIZE - 1 then 0 else 1
  }

  function Lengths(held: seq<seq<NormalizedMessage>>): (r: seq<nat>)
    ensures |r| == |held|
  {
    seq(|held|, i requires 0 <= i < |held| => |held[i]|)
  }

  /** What is offered is queued or counted as dropped, and no queue outgrows its ring. */
  lemma {:induction false} OfferConserves(held: seq<seq<NormalizedMessage>>, msg: NormalizedMessage)
    ensures Sum(Lengths(OfferAll(held, msg))) + FullCount(held) == Sum(Lengths(held)) + |held|
    ensures forall i :: 0 <= i < |held| && |held[i]| < DEFAULT_QUEUE_SIZE ==>
      |OfferAll(held, msg)[i]| < DEFAULT_QUEUE_SIZE
  {
    if held != [] {
      var last := |held| - 1;
      OfferConserves(held[..last], msg);
      assert Lengths(held)[..last] == Lengths(held[..last]);
      assert Lengths(OfferAll(held, msg))[..last] == Lengths(OfferAll(held[..last], msg));
    }
  }

  /** `now - local_timestamp` on unsigned words. */
  function Latency(now: Word64, local: nat): Word64 { (now - local) % TWO_64 }

  lemma LatencyExact(now: Word64, local: nat)
    requires local <= now
    ensures Latency(now, local) == now - local
  {
  }

  datatype Offering = Offering(queues: seq<seq<NormalizedMessage>>, stats: Statistics)

  /** Every queue is offered the message once; each full one counts as a drop; the message
      counts once, with its latency. */
  function DispatchOne(d: Offering, msg: NormalizedMessage, now: Word64): Offering {
    Offering(OfferAll(d.queues, msg),
             d.stats.(packetsDropped := d.stats.packetsDropped + FullCount(d.queues),
                      messagesDispatched := d.stats.messagesDispatched + 1)
             .UpdateLatency(Latency(now, msg.localTimestamp)))
  }

  function DispatchEach(d: Offering, msgs: seq<NormalizedMessage>, nows: seq<Word64>): Offering
    requires |msgs| <= |nows|
  {
    if msgs == [] then d
    else DispatchOne(DispatchEach(d, msgs[..|msgs| - 1], nows), msgs[|msgs| - 1], nows[|msgs| - 1])
  }

  class Dispatcher {
    var queues: seq<seq<NormalizedMessage>>
    var delivered: seq<seq<NormalizedMessage>>
    var stats: Statistics

    predicate Valid()
      reads this
    {
      |delivered| == |queues|
    }

    constructor ()
      ensures Valid() && queues == [] && stats == NO_STATISTICS
    {
      queues, delivered, stats := [], [], NO_STATISTICS;
    }

    method AddSubscriber()
      requires Valid()
      modifies this
      ensures Valid() && queues == old(queues) + [[]] && delivered == old(delivered) + [[]] && stats == old(stats)
    {
      queues, delivered := queues + [[]], delivered + [[]];
    }

    function State(): Offering
      reads this
    {
      Offering(queues, stats)
    }

    method Dispatch(msg: NormalizedMessage, now: Word64)
      requires Valid()
      modifies this
      ensures Valid() && delivered == old(delivered) && State() == DispatchOne(old(State()), msg, now)
    {
      ghost var held := queues;
      for i := 0 to |queues|
        invariant |queues| == |held| && delivered == old(delivered)
        invariant forall k :: 0 <= k < |held| ==> queues[k] == if k < i then Offer(held[k], msg) else held[k]
        invariant stats == old(stats).(packetsDropped := old(stats).packetsDropped + FullCount(held[..i]))
      {
        if |queues[i]| < DEFAULT_QUEUE_SIZE - 1 {
          queues := queues[i := queues[i] + [msg]];
        } else {
          stats := stats.(packetsDropped := stats.packetsDropped + 1);
        }
        TakeOneMore(held, i);
      }
      assert held[..|held|] == held;
      assert queues == OfferAll(held, msg);
      stats := stats.(messagesDispatched := stats.messagesDispatched + 1);
      stats := stats.UpdateLatency(Latency(now, msg.localTimestamp));
    }

    /** One round of the dispatcher thread: every queue is emptied into its subscriber, in order. */
    method DrainAll()
      requires Valid()
      modifies this
      ensures Valid() && stats == old(stats)
      ensures |queues| == |old(queues)| && forall i :: 0 <= i < |queues| ==>
        queues[i] == [] && delivered[i] == old(delivered)[i] + old(queues)[i]
    {
      for i := 0 to |queues|
        invariant |queues| == |delivered| == |old(queues)| && stats == old(stats)
        invariant forall k :: 0 <= k < i ==> queues[k] == [] && delivered[k] == old(delivered)[k] + old(queues)[k]
        invariant forall k :: i <= k < |queues| ==> queues[k] == old(queues)[k] && delivered[k] == old(delivered)[k]
      {
        while queues[i] != []
          invariant |queues| == |delivered| == |old(queues)| && stats == old(stats)
          invariant forall k :: 0 <= k < i ==> queues[k] == [] && delivered[k] == old(delivered)[k] + old(queues)[k]
          invariant forall k :: i < k < |queues| ==> queues[k] == old(queues)[k] && delivered[k] == old(delivered)[k]
          invariant delivered[i] + queues[i] == old(delivered)[i] + old(queues)[i]
          decreases |queues[i]|
        {
          Regroup(delivered[i], queues[i]);
          var msg := queues[i][0];
          queues := queues[i := queues[i][1..]];
          delivered := delivered[i := delivered[i] + [msg]];
        }
        NothingAfter(delivered[i]);
      }
    }
  }

  // -------------------------------------------------------------- statistics

  /** The statistics after a series of latencies. */
  function Observe(ls: seq<Word64>): Statistics {
    if ls == [] then NO_STATISTICS
    else
      var s := Observe(ls[..|ls| - 1]);
      s.(messagesDispatched := s.messagesDispatched + 1).UpdateLatency(ls[|ls| - 1])
  }

  /** The minimum and maximum are attained bounds, and the total is the sum on 64 bits. */
  lemma {:induction false} LatencyExtremes(ls: seq<Word64>)
    ensures var s := Observe(ls);
      && s.messagesDispatched == |ls| && s.totalLatency == Wrap(Sum(ls))
      && (forall i :: 0 <= i < |ls| ==> s.minLatency <= ls[i] <= s.maxLatency)
      && (ls != [] ==> s.minLatency in ls && s.maxLatency in ls)
  {
    if ls != [] {
      var init, last := ls[..|ls| - 1], ls[|ls| - 1];
      LatencyExtremes(init);
      Accumulate(Observe(init).totalLatency, Sum(init), last, Sum(ls));
      Snoc(ls);
    }
  }

  lemma {:induction false} SumBounds(ls: seq<Word64>, low: nat, high: nat)
    requires forall i :: 0 <= i < |ls| ==> low <= ls[i] <= high
    ensures |ls| * low <= Sum(ls) <= |ls| * high
  {
    if ls != [] {
      SumBounds(ls[..|ls| - 1], low, high);
      assert |ls| * low == (|ls| - 1) * low + low && |ls| * high == (|ls| - 1) * high + high;
    }
  }

  /** The total never exceeds count times maximum. It is the true sum exactly while that fits
      64 bits, and then count times minimum does not exceed it. The statistics themselves
      tell when that is so: while count times maximum fits 64 bits. */
  lemma LatencyBounds(ls: seq<Word64>)
    ensures var s := Observe(ls);
      && s.totalLatency <= s.messagesDispatched * s.maxLatency
      && (s.totalLatency == Sum(ls) <==> Sum(ls) < TWO_64)
      && (Sum(ls) < TWO_64 && ls != [] ==> s.messagesDispatched * s.minLatency <= s.totalLatency)
      && (s.messagesDispatched * s.maxLatency < TWO_64 && ls != [] ==>
            s.totalLatency == Sum(ls) && s.messagesDispatched * s.minLatency <= s.totalLatency)
  {
    var s := Observe(ls);
    var low, high := if ls == [] then 0 else s.minLatency, s.maxLatency;
    assert s.messagesDispatched == |ls| && s.totalLatency == Wrap(Sum(ls)) by { LatencyExtremes(ls); }
    assert forall i :: 0 <= i < |ls| ==> low <= ls[i] <= high by { LatencyExtremes(ls); }
    SumBounds(ls, low, high);
    WrapSmall(Sum(ls));
  }

  /** Once the sum wraps, the lower bound can fail. */
  lemma LatencyWraps()
    ensures var s := Observe([UINT64_MAX, 1]);
      s.totalLatency == 0 && s.messagesDispatched * s.minLatency == 2
  {
    var ls: seq<Word64> := [UINT64_MAX, 1];
    assert ls[..1] == [UINT64_MAX] && [UINT64_MAX][..0] == [];
    assert Observe([UINT64_MAX]) == Statistics(0, 1, UINT64_MAX, UINT64_MAX, UINT64_MAX);
  }
}

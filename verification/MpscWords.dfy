/** The queue on 64-bit words with signed differences and masked indices takes exactly
    the steps of the queue on unbounded ticket numbers, while the numbers are small. */
module MpscWords {
  import opened Bits
  import opened MpscQueue
  import opened MpscTheorems

  /** Every number a thread holds or a slot carries is within a lap of `head_`. */
  ghost predicate Near<T>(s: State<T>) {
    && (forall p :: 0 <= p < |s.producers| && s.producers[p].HoldsSequence? ==>
          s.producers[p].sequence <= s.head + s.size)
    && (s.consumer.HoldsTailSequence? ==> s.consumer.sequence <= s.head + s.size)
  }

  lemma SequenceNear<T>(s: State<T>, slot: nat)
    requires Inv(s) && slot < s.size
    ensures s.sequence[slot] <= s.head + s.size
  {
    var t := InWindow(Returned(s), slot, s.size);
    DivModUnique(slot, 0, slot, s.size);
    assert SlotOk(s, t);
  }

  lemma NearStep<T>(s: State<T>, a: Action<T>)
    requires Inv(s) && Near(s) && Enabled(Ideal, s, a)
    ensures Near(Apply(Ideal, s, a))
  {
    if a.LoadSequence? { SequenceNear(s, s.producers[a.p].head % s.size); }
    if a.LoadTailSequence? { SequenceNear(s, s.consumer.tail % s.size); }
  }

  /** What the word operations are: a sum on 64 bits, and the two's complement reading. */
  lemma WordArithmetic(x: nat, y: nat)
    requires x < 0x1_0000_0000_0000_0000
    ensures Plus(Word64, x, y) < 0x1_0000_0000_0000_0000
    ensures exists k: nat :: x + y == Plus(Word64, x, y) + k * 0x1_0000_0000_0000_0000
    ensures -0x8000_0000_0000_0000 <= ToSigned(x) < 0x8000_0000_0000_0000
    ensures ToSigned(x) == x || ToSigned(x) == x - 0x1_0000_0000_0000_0000
  {
    assert x + y == Plus(Word64, x, y) + ((x + y) / TWO_64) * 0x1_0000_0000_0000_0000;
  }

  /** A signed difference of two words is the true one exactly when the words lie on
      the same side of 2^63. */
  lemma SignedDifference(x: nat, y: nat)
    requires x < TWO_64 && y < TWO_64
    ensures Minus(Word64, x, y) == Value(x - y) <==> (x < TWO_63 <==> y < TWO_63)
  {
  }

  /** The counters stay below 2^63 - Size. */
  predicate Small<T>(s: State<T>) { s.head + s.size < TWO_63 }

  lemma SameArithmetic(n: nat, x: nat)
    requires PowerOfTwo(n) && x + n < TWO_63
    ensures Slot(Word64, n, x) == Slot(Ideal, n, x)
    ensures Plus(Word64, x, 1) == x + 1 && Plus(Word64, x, n) == x + n
  {
    assert Slot(Word64, n, x) == x % n by { MaskIsMod(x, n); }
    NoWrap(x, 1);
    NoWrap(x, n);
  }

  lemma NoWrap(x: nat, y: nat)
    requires x + y < TWO_64
    ensures Plus(Word64, x, y) == x + y
  {
  }

  /** In a reachable state with small counters no difference overflows and each is the
      true one; `empty()` answers alike, for every `tail` loaded so far. */
  lemma TrueDifferences<T>(s: State<T>)
    requires Inv(s) && Near(s) && PowerOfTwo(s.size) && Small(s)
    ensures forall p :: 0 <= p < |s.producers| && s.producers[p].HoldsSequence? ==>
      PushDiff(Word64, s, p) == Value(s.producers[p].sequence - s.producers[p].head)
    ensures s.consumer.HoldsTailSequence? ==> PopDiff(Word64, s) == Value(s.consumer.sequence - (s.tail + 1))
    ensures forall t :: 0 <= t <= s.tail ==> (SeesEmpty(Word64, s, t) <==> SeesEmpty(Ideal, s, t))
  {
    forall p | 0 <= p < |s.producers| && s.producers[p].HoldsSequence?
      ensures PushDiff(Word64, s, p) == Value(s.producers[p].sequence - s.producers[p].head)
    {
      assert ProducerOk(s, p);
    }
    forall t | 0 <= t <= s.tail ensures SeesEmpty(Word64, s, t) <==> SeesEmpty(Ideal, s, t) {
      SameArithmetic(s.size, t);
      SequenceNear(s, t % s.size);
    }
  }

  // ------------------------------------------------------------ the same steps

  predicate ProducerWithin<T>(pc: Producer<T>, b: nat, n: nat) {
    match pc
    case Idle => true
    case LoadingHead(_) => true
    case HoldsHead(_, h) => h <= b
    case HoldsSequence(_, h, q) => h <= b && q <= b + n
    case Claimed(_, h) => h <= b
    case Written(_, h) => h <= b
  }

  predicate ConsumerWithin<T>(pc: Consumer<T>, b: nat, n: nat) {
    match pc
    case Resting => true
    case HoldsTail(t) => t <= b
    case HoldsTailSequence(t, q) => t <= b && q <= b + n
    case Taken(t, _) => t <= b
    case Recycled(t, _) => t <= b
  }

  /** Counters are at most `b`, and sequence numbers at most a lap more. */
  ghost predicate Within<T>(s: State<T>, b: nat) {
    && WellFormed(s) && s.head <= b && s.tail <= b
    && (forall k :: 0 <= k < s.size ==> s.sequence[k] <= b + s.size)
    && (forall p :: 0 <= p < |s.producers| ==> ProducerWithin(s.producers[p], b, s.size))
    && ConsumerWithin(s.consumer, b, s.size)
  }

  lemma WithinStep<T>(s: State<T>, a: Action<T>, b: nat)
    requires Within(s, b) && Enabled(Ideal, s, a)
    ensures Within(Apply(Ideal, s, a), b + 1)
  {
  }

  lemma SmallDifference(x: nat, y: nat)
    requires x < TWO_63 && y < TWO_63
    ensures Minus(Word64, x, y) == Minus(Ideal, x, y)
  {
  }

  /** While the numbers are below 2^63 the two machines can take the same steps, to the same
      states: neither is ever stuck where the other is not. */
  lemma SameStep<T>(s: State<T>, a: Action<T>, b: nat)
    requires Within(s, b) && PowerOfTwo(s.size) && b + s.size < TWO_63
    ensures Enabled(Word64, s, a) <==> Enabled(Ideal, s, a)
    ensures Enabled(Ideal, s, a) ==> Apply(Word64, s, a) == Apply(Ideal, s, a)
  {
    if a.LoadSequence? || a.CompareExchange? || a.RetryPush? || a.RejectPush? || a.WriteData? || a.Publish? {
      if a.p < |s.producers| { SameProducerStep(s, a, b); }
    } else if s.consumer.HoldsTail? || s.consumer.HoldsTailSequence? || s.consumer.Taken? || s.consumer.Recycled? {
      SameConsumerStep(s, a, b);
    }
  }

  lemma SameProducerStep<T>(s: State<T>, a: Action<T>, b: nat)
    requires Within(s, b) && PowerOfTwo(s.size) && b + s.size < TWO_63
    requires a.LoadSequence? || a.CompareExchange? || a.RetryPush? || a.RejectPush? || a.WriteData? || a.Publish?
    requires a.p < |s.producers|
    ensures Enabled(Word64, s, a) <==> Enabled(Ideal, s, a)
    ensures Enabled(Ideal, s, a) ==> Apply(Word64, s, a) == Apply(Ideal, s, a)
  {
    var pc := s.producers[a.p];
    assert ProducerWithin(pc, b, s.size);
    if !pc.Idle? && !pc.LoadingHead? { SameArithmetic(s.size, pc.head); }
    if pc.HoldsSequence? { SmallDifference(pc.sequence, pc.head); }
  }

  lemma SameConsumerStep<T>(s: State<T>, a: Action<T>, b: nat)
    requires Within(s, b) && PowerOfTwo(s.size) && b + s.size < TWO_63 && !s.consumer.Resting?
    requires a.LoadTail? || a.LoadTailSequence? || a.RejectPop? || a.TakeData? || a.Recycle? || a.AdvanceTail?
          || a.BeginPush? || a.LoadHead?
    ensures Enabled(Word64, s, a) <==> Enabled(Ideal, s, a)
    ensures Enabled(Ideal, s, a) ==> Apply(Word64, s, a) == Apply(Ideal, s, a)
  {
    SameArithmetic(s.size, s.consumer.tail);
    if s.consumer.HoldsTailSequence? { SmallDifference(s.consumer.sequence, s.consumer.tail + 1); }
  }

  lemma NearWithin<T>(s: State<T>)
    requires Inv(s) && Near(s)
    ensures Within(s, s.head)
  {
    forall k | 0 <= k < s.size ensures s.sequence[k] <= s.head + s.size { SequenceNear(s, k); }
    forall p | 0 <= p < |s.producers| ensures ProducerWithin(s.producers[p], s.head, s.size) {
      assert ProducerOk(s, p);
    }
  }

  lemma WordStep<T>(s: State<T>, a: Action<T>)
    requires Inv(s) && Near(s) && PowerOfTwo(s.size) && Small(s)
    ensures Enabled(Word64, s, a) <==> Enabled(Ideal, s, a)
    ensures Enabled(Ideal, s, a) ==> Apply(Word64, s, a) == Apply(Ideal, s, a)
  {
    NearWithin(s);
    SameStep(s, a, s.head);
  }

  // ------------------------------------------------------------- the same runs

  /** The runs of the word machine whose counters stay below 2^63 - Size are exactly those of
      the ticket machine, no signed difference in them overflows, and `empty()` answers
      alike. */
  lemma WordsRefineTickets<T>(n: nat, run: seq<State<T>>, acts: seq<Action<T>>)
    requires n >= 2 && PowerOfTwo(n) && forall i :: 0 <= i < |run| ==> Small(run[i])
    ensures IsRun(Word64, n, run, acts) <==> IsRun(Ideal, n, run, acts)
    ensures IsRun(Ideal, n, run, acts) ==> forall i :: 0 <= i < |run| ==> SameAnswers(run[i])
  {
    if IsRun(Word64, n, run, acts) || IsRun(Ideal, n, run, acts) {
      forall i | 0 <= i < |run| ensures Inv(run[i]) && Near(run[i]) && run[i].size == n {
        Along(n, run, acts, i);
      }
      forall i | 0 <= i < |acts|
        ensures Enabled(Word64, run[i], acts[i]) && run[i + 1] == Apply(Word64, run[i], acts[i])
        ensures Enabled(Ideal, run[i], acts[i]) && run[i + 1] == Apply(Ideal, run[i], acts[i])
      {
        WordStep(run[i], acts[i]);
      }
      forall i | 0 <= i < |run| ensures SameAnswers(run[i]) { TrueDifferences(run[i]); }
    }
  }

  /** Every difference a thread can compute now, and what `empty()` answers. */
  ghost predicate SameAnswers<T>(s: State<T>) {
    && WellFormed(s)
    && (forall p :: 0 <= p < |s.producers| && s.producers[p].HoldsSequence? ==>
          PushDiff(Word64, s, p) == PushDiff(Ideal, s, p))
    && (s.consumer.HoldsTailSequence? ==> PopDiff(Word64, s) == PopDiff(Ideal, s))
    && (forall t :: 0 <= t <= s.tail ==> (SeesEmpty(Word64, s, t) <==> SeesEmpty(Ideal, s, t)))
  }

  lemma {:induction false} Along<T>(n: nat, run: seq<State<T>>, acts: seq<Action<T>>, i: nat)
    requires IsRun(Word64, n, run, acts) || IsRun(Ideal, n, run, acts)
    requires n >= 2 && PowerOfTwo(n) && i < |run| && forall j :: 0 <= j < |run| ==> Small(run[j])
    ensures Inv(run[i]) && Near(run[i]) && run[i].size == n
  {
    if i == 0 {
      InitInv(n, run[0]);
    } else {
      var s, a := run[i - 1], acts[i - 1];
      Along(n, run, acts, i - 1);
      WordStep(s, a);
      assert Enabled(Ideal, s, a) && run[i - 1 + 1] == Apply(Ideal, s, a);
      StepInv(s, a);
      NearStep(s, a);
    }
  }

  /** For any size, one slot included: the runs of fewer than 2^63 - Size steps are the same on
      words and on tickets. */
  lemma ShortRuns<T>(n: nat, run: seq<State<T>>, acts: seq<Action<T>>)
    requires PowerOfTwo(n) && |acts| + n < TWO_63
    ensures IsRun(Word64, n, run, acts) <==> IsRun(Ideal, n, run, acts)
  {
    if IsRun(Word64, n, run, acts) || IsRun(Ideal, n, run, acts) {
      forall i | 0 <= i < |acts|
        ensures Enabled(Word64, run[i], acts[i]) && run[i + 1] == Apply(Word64, run[i], acts[i])
        ensures Enabled(Ideal, run[i], acts[i]) && run[i + 1] == Apply(Ideal, run[i], acts[i])
      {
        WithinRun(n, run, acts, i);
        SameStep(run[i], acts[i], i);
      }
    }
  }

  lemma {:induction false} WithinRun<T>(n: nat, run: seq<State<T>>, acts: seq<Action<T>>, i: nat)
    requires IsRun(Word64, n, run, acts) || IsRun(Ideal, n, run, acts)
    requires PowerOfTwo(n) && |acts| + n < TWO_63 && i < |run|
    ensures Within(run[i], i) && run[i].size == n
  {
    if i > 0 {
      var s, a := run[i - 1], acts[i - 1];
      WithinRun(n, run, acts, i - 1);
      SameStep(s, a, i - 1);
      assert Enabled(Ideal, s, a) && run[i - 1 + 1] == Apply(Ideal, s, a);
      WithinStep(s, a, i - 1);
    }
  }

  /** So on words too the queue keeps its items exactly when it has two or more slots. */
  lemma WordsSafeExactlyFromTwoSlots<T(!new)>(n: nat, x: T, y: T)
    requires PowerOfTwo(n) && x != y
    ensures
      (forall run: seq<State<T>>, acts, i ::
         IsRun(Word64, n, run, acts) && |acts| + n < TWO_63 && 0 <= i < |run| ==> NothingLost(run[i]))
      <==> n >= 2
  {
    if n == 1 {
      var run, acts := OneSlotLosesAnItem(x, y);
      ShortRuns(1, run, acts);
      assert IsRun(Word64, n, run, acts) && !NothingLost(run[|run| - 1]);
    } else {
      forall run: seq<State<T>>, acts, i | IsRun(Word64, n, run, acts) && |acts| + n < TWO_63 && 0 <= i < |run|
        ensures NothingLost(run[i])
      {
        ShortRuns(n, run, acts);
        Fifo(n, run, acts, i);
        RunInv(n, run, acts, i);
      }
    }
  }
}

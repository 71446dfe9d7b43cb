/** The multi-producer single-consumer queue as a transition system: any number
    of producers and one consumer, one atomic load, store or compare-exchange a
    step. Each branch on a loaded value is a step of its own, so a producer may
    act on a value that is long out of date. */
module MpscQueue {
  import opened Bits

  /** Counters either grow without bound or are 64-bit words. */
  datatype Arith = Ideal | Word64

  /** `x & (Size - 1)` */
  function Slot(ar: Arith, n: nat, x: nat): (r: nat)
    requires n > 0
    ensures r < n
  {
    if ar.Ideal? then x % n else And(x, n - 1)
  }

  /** Unsigned addition. */
  function Plus(ar: Arith, x: nat, y: nat): nat {
    if ar.Ideal? then x + y else (x + y) % TWO_64
  }

  /** `static_cast<intptr_t>` */
  function ToSigned(x: nat): int { if x < TWO_63 then x else x - TWO_64 }

  /** A signed subtraction, which has no value when it overflows. */
  datatype Difference = Overflow | Value(diff: int) {
    predicate Zero() { Value? && diff == 0 }
    predicate Negative() { Value? && diff < 0 }
    predicate Positive() { Value? && diff > 0 }
  }

  function Minus(ar: Arith, x: nat, y: nat): Difference {
    if ar.Ideal? then Value(x - y)
    else
      var d := ToSigned(x) - ToSigned(y);
      if -TWO_63 <= d < TWO_63 then Value(d) else Overflow
  }

  /** A producer's program counter and locals. */
  datatype Producer<T> =
    | Idle
    | LoadingHead(item: T)
    | HoldsHead(item: T, head: nat)
    | HoldsSequence(item: T, head: nat, sequence: nat)
    | Claimed(item: T, head: nat)
    | Written(item: T, head: nat)

  datatype Consumer<T> =
    | Resting
    | HoldsTail(tail: nat)
    | HoldsTailSequence(tail: nat, sequence: nat)
    | Taken(tail: nat, item: T)
    | Recycled(tail: nat, item: T)

  /** One successful compare-exchange: who claimed the slot, and for what. */
  datatype Ticket<T> = Ticket(producer: nat, item: T)

  /** The queue's fields, every thread's locals, and four histories: the tickets in
      the order they were claimed, the set of published ones, what `pop` returned,
      and what each producer's successful `push` calls pushed. */
  datatype State<T> = State(
    size: nat, head: nat, tail: nat, sequence: seq<nat>, data: seq<T>,
    producers: seq<Producer<T>>, consumer: Consumer<T>,
    tickets: seq<Ticket<T>>, published: set<nat>, popped: seq<T>, accepted: seq<seq<T>>)

  datatype Action<T> =
    | BeginPush(p: nat, item: T)
    | LoadHead(p: nat)
    | LoadSequence(p: nat)
    | CompareExchange(p: nat, spurious: bool)
    | RetryPush(p: nat)
    | RejectPush(p: nat)
    | WriteData(p: nat)
    | Publish(p: nat)
    | LoadTail
    | LoadTailSequence
    | RejectPop
    | TakeData
    | Recycle
    | AdvanceTail

  predicate WellFormed<T>(s: State<T>) {
    && s.size > 0
    && |s.sequence| == |s.data| == s.size
    && |s.accepted| == |s.producers|
  }

  predicate Enabled<T>(ar: Arith, s: State<T>, a: Action<T>) {
    && WellFormed(s)
    && match a
       case BeginPush(p, _) => p < |s.producers| && s.producers[p].Idle?
       case LoadHead(p) => p < |s.producers| && s.producers[p].LoadingHead?
       case LoadSequence(p) => p < |s.producers| && s.producers[p].HoldsHead?
       case CompareExchange(p, _) => p < |s.producers| && s.producers[p].HoldsSequence? && PushDiff(ar, s, p).Zero()
       case RetryPush(p) => p < |s.producers| && s.producers[p].HoldsSequence? && PushDiff(ar, s, p).Positive()
       case RejectPush(p) => p < |s.producers| && s.producers[p].HoldsSequence? && PushDiff(ar, s, p).Negative()
       case WriteData(p) => p < |s.producers| && s.producers[p].Claimed?
       case Publish(p) => p < |s.producers| && s.producers[p].Written?
       case LoadTail => s.consumer.Resting?
       case LoadTailSequence => s.consumer.HoldsTail?
       case RejectPop => s.consumer.HoldsTailSequence? && PopDiff(ar, s).Value? && !PopDiff(ar, s).Zero()
       case TakeData => s.consumer.HoldsTailSequence? && PopDiff(ar, s).Zero()
       case Recycle => s.consumer.Taken?
       case AdvanceTail => s.consumer.Recycled?
  }

  /** `diff` in `push`. */
  function PushDiff<T>(ar: Arith, s: State<T>, p: nat): Difference
    requires p < |s.producers| && s.producers[p].HoldsSequence?
  {
    Minus(ar, s.producers[p].sequence, s.producers[p].head)
  }

  /** `diff` in `pop`. */
  function PopDiff<T>(ar: Arith, s: State<T>): Difference
    requires s.consumer.HoldsTailSequence?
  {
    Minus(ar, s.consumer.sequence, Plus(ar, s.consumer.tail, 1))
  }

  /** What `empty()` answers when it loaded `tail` earlier and loads the sequence now. */
  predicate SeesEmpty<T>(ar: Arith, s: State<T>, tail: nat)
    requires WellFormed(s)
  {
    Minus(ar, s.sequence[Slot(ar, s.size, tail)], Plus(ar, tail, 1)).Negative()
  }

  function Apply<T>(ar: Arith, s: State<T>, a: Action<T>): State<T>
    requires Enabled(ar, s, a)
  {
    match a
    case BeginPush(p, item) => s.(producers := s.producers[p := LoadingHead(item)])
    case LoadHead(p) => s.(producers := s.producers[p := HoldsHead(s.producers[p].item, s.head)])
    case LoadSequence(p) =>
      var HoldsHead(item, h) := s.producers[p];
      s.(producers := s.producers[p := HoldsSequence(item, h, s.sequence[Slot(ar, s.size, h)])])
    case CompareExchange(p, spurious) =>
      var HoldsSequence(item, h, _) := s.producers[p];
      if s.head == h && !spurious then
        s.(head := Plus(ar, h, 1), producers := s.producers[p := Claimed(item, h)],
           tickets := s.tickets + [Ticket(p, item)])
      else
        s.(producers := s.producers[p := LoadingHead(item)])
    case RetryPush(p) => s.(producers := s.producers[p := LoadingHead(s.producers[p].item)])
    case RejectPush(p) => s.(producers := s.producers[p := Idle])
    case WriteData(p) =>
      var Claimed(item, h) := s.producers[p];
      s.(data := s.data[Slot(ar, s.size, h) := item], producers := s.producers[p := Written(item, h)])
    case Publish(p) =>
      var Written(item, h) := s.producers[p];
      s.(sequence := s.sequence[Slot(ar, s.size, h) := Plus(ar, h, 1)],
         producers := s.producers[p := Idle],
         published := s.published + {h}, accepted := s.accepted[p := s.accepted[p] + [item]])
    case LoadTail => s.(consumer := HoldsTail(s.tail))
    case LoadTailSequence =>
      var t := s.consumer.tail;
      s.(consumer := HoldsTailSequence(t, s.sequence[Slot(ar, s.size, t)]))
    case RejectPop => s.(consumer := Resting)
    case TakeData =>
      var t := s.consumer.tail;
      s.(consumer := Taken(t, s.data[Slot(ar, s.size, t)]))
    case Recycle =>
      var Taken(t, item) := s.consumer;
      s.(sequence := s.sequence[Slot(ar, s.size, t) := Plus(ar, t, s.size)], consumer := Recycled(t, item))
    case AdvanceTail =>
      var Recycled(t, item) := s.consumer;
      s.(tail := Plus(ar, t, 1), consumer := Resting, popped := s.popped + [item])
  }

  /** The constructor: slot i carries sequence i, data is whatever was there. */
  predicate Init<T>(n: nat, s: State<T>) {
    && WellFormed(s) && s.size == n && s.head == s.tail == 0
    && (forall i :: 0 <= i < n ==> s.sequence[i] == i)
    && (forall p :: 0 <= p < |s.producers| ==> s.producers[p] == Idle && s.accepted[p] == [])
    && s.consumer.Resting? && s.tickets == [] && s.published == {} && s.popped == []
  }

  /** An execution: `run[i]` becomes `run[i + 1]` by `acts[i]`. */
  ghost predicate IsRun<T>(ar: Arith, n: nat, run: seq<State<T>>, acts: seq<Action<T>>) {
    && |run| == |acts| + 1
    && Init(n, run[0])
    && forall i :: 0 <= i < |acts| ==> Enabled(ar, run[i], acts[i]) && run[i + 1] == Apply(ar, run[i], acts[i])
  }

  // ---------------------------------------------------------------- invariant

  /** How many tickets the consumer has handed back: one more than `tail` between
      the store that recycles a slot and the store that advances `tail_`. */
  function Returned<T>(s: State<T>): nat {
    s.tail + if s.consumer.Recycled? then 1 else 0
  }

  ghost predicate SlotOk<T>(s: State<T>, t: nat)
    requires WellFormed(s)
  {
    if t in s.published then
      t < |s.tickets| && s.sequence[t % s.size] == t + 1 && s.data[t % s.size] == s.tickets[t].item
    else
      s.sequence[t % s.size] == t
  }

  predicate Owns<T>(pc: Producer<T>, t: nat) {
    (pc.Claimed? || pc.Written?) && pc.head == t
  }

  ghost predicate TicketOk<T>(s: State<T>, t: nat)
    requires t < |s.tickets|
  {
    t !in s.published ==> s.tickets[t].producer < |s.producers| && Owns(s.producers[s.tickets[t].producer], t)
  }

  /** A producer holding a loaded `head` has claimed nothing since it loaded it. */
  ghost predicate OthersSince<T>(s: State<T>, p: nat, h: nat) {
    h <= s.head == |s.tickets| && forall t :: h <= t < |s.tickets| ==> s.tickets[t].producer != p
  }

  ghost predicate ProducerOk<T>(s: State<T>, p: nat)
    requires WellFormed(s) && p < |s.producers|
  {
    match s.producers[p]
    case Idle => true
    case LoadingHead(_) => true
    case HoldsHead(_, h) => OthersSince(s, p, h)
    case HoldsSequence(_, h, q) =>
      OthersSince(s, p, h) && (q == h ==> h < Returned(s) + s.size) && (q > h ==> h < s.head)
    case Claimed(item, h) => h < |s.tickets| && h !in s.published && s.tickets[h] == Ticket(p, item)
    case Written(item, h) =>
      h < |s.tickets| && h !in s.published && s.tickets[h] == Ticket(p, item) && s.data[h % s.size] == item
  }

  ghost predicate ConsumerOk<T>(s: State<T>) {
    match s.consumer
    case Resting => true
    case HoldsTail(t) => t == s.tail
    case HoldsTailSequence(t, q) => t == s.tail && (q == t + 1 ==> t in s.published)
    case Taken(t, item) => t == s.tail && t in s.published && t < |s.tickets| && item == s.tickets[t].item
    case Recycled(t, item) => t == s.tail && t in s.published && t < |s.tickets| && item == s.tickets[t].item
  }

  /** The items of one producer's tickets, in ticket order. */
  function ItemsOf<T>(tickets: seq<Ticket<T>>, p: nat): seq<T> {
    if tickets == [] then []
    else
      var last := tickets[|tickets| - 1];
      ItemsOf(tickets[..|tickets| - 1], p) + if last.producer == p then [last.item] else []
  }

  function InFlight<T>(pc: Producer<T>): seq<T> {
    if pc.Claimed? || pc.Written? then [pc.item] else []
  }

  ghost predicate OrderOk<T>(s: State<T>, p: nat)
    requires WellFormed(s) && p < |s.producers|
  {
    ItemsOf(s.tickets, p) == s.accepted[p] + InFlight(s.producers[p])
  }

  ghost predicate Counters<T>(s: State<T>) {
    && |s.tickets| == s.head && |s.popped| == s.tail
    && Returned(s) <= s.head <= Returned(s) + s.size
    && (forall t :: t in s.published ==> t < s.head)
    && (forall t :: 0 <= t < Returned(s) ==> t in s.published)
  }

  ghost predicate Inv<T>(s: State<T>) {
    && WellFormed(s) && s.size >= 2
    && Counters(s)
    && (forall t :: Returned(s) <= t < Returned(s) + s.size ==> SlotOk(s, t))
    && (forall t :: 0 <= t < |s.tickets| ==> TicketOk(s, t))
    && (forall p :: 0 <= p < |s.producers| ==> ProducerOk(s, p) && OrderOk(s, p))
    && ConsumerOk(s)
    && (forall i :: 0 <= i < |s.popped| ==> s.popped[i] == s.tickets[i].item)
  }

  // ---------------------------------------------- what a loaded sequence means

  /** The sequence in the slot of any ticket number `h` that was loaded from `head_`
      earlier: it never equals `h` by accident, it exceeds `h` only if `h` has been
      claimed, and it is below `h` only if the queue is full at this very moment. */
  lemma SequenceMeaning<T>(s: State<T>, h: nat)
    requires Inv(s) && h <= s.head
    ensures s.sequence[h % s.size] == h ==> h < Returned(s) + s.size
    ensures s.sequence[h % s.size] > h ==> h < s.head
    ensures s.sequence[h % s.size] < h ==> h == s.head == Returned(s) + s.size
  {
    var n, r := s.size, Returned(s);
    var t := InWindow(r, h, n);
    assert SlotOk(s, t);
    if t < h {
      LapApart(t, h, n);
    } else if h < t {
      LapApart(h, t, n);
    }
  }

  /** For every value `t` that `tail_` has had, the sequence in its slot is below
      `t + 1` exactly when `t` is the oldest outstanding ticket number and has not
      been published. */
  lemma TailMeaning<T>(s: State<T>, t: nat)
    requires Inv(s) && t <= s.tail
    ensures s.sequence[t % s.size] < t + 1 <==> t == Returned(s) && t !in s.published
    ensures t == Returned(s) ==> s.sequence[t % s.size] == t || s.sequence[t % s.size] == t + 1
    ensures t == Returned(s) ==> (s.sequence[t % s.size] == t + 1 <==> t in s.published)
  {
    var u := InWindow(Returned(s), t, s.size);
    assert SlotOk(s, u);
    if t < u { LapApart(t, u, s.size); }
  }

  // ------------------------------------------------------------ preservation

  lemma InitInv<T>(n: nat, s: State<T>)
    requires Init(n, s) && n >= 2
    ensures Inv(s)
  {
    forall t | 0 <= t < n ensures SlotOk(s, t) { DivModUnique(t, 0, t, n); }
  }

  lemma {:induction false} ItemsOfClaim<T>(tickets: seq<Ticket<T>>, ticket: Ticket<T>, p: nat)
    ensures ItemsOf(tickets + [ticket], p) == ItemsOf(tickets, p) + if ticket.producer == p then [ticket.item] else []
  {
    assert (tickets + [ticket])[..|tickets|] == tickets;
  }

  lemma ClaimInv<T>(s: State<T>, p: nat)
    requires Inv(s) && Enabled(Ideal, s, CompareExchange(p, false)) && s.head == s.producers[p].head
    ensures Inv(Apply(Ideal, s, CompareExchange(p, false)))
  {
    var s' := Apply(Ideal, s, CompareExchange(p, false));
    var ticket := Ticket(p, s.producers[p].item);
    assert ProducerOk(s, p);
    forall t | Returned(s') <= t < Returned(s') + s'.size ensures SlotOk(s', t) { assert SlotOk(s, t); }
    forall t | 0 <= t < |s'.tickets| ensures TicketOk(s', t) { assert t < s.head ==> TicketOk(s, t); }
    forall q | 0 <= q < |s.producers| ensures ProducerOk(s', q) && OrderOk(s', q) {
      assert ProducerOk(s, q) && OrderOk(s, q);
      ItemsOfClaim(s.tickets, ticket, q);
    }
  }

  lemma WriteInv<T>(s: State<T>, p: nat)
    requires Inv(s) && Enabled(Ideal, s, WriteData(p))
    ensures Inv(Apply(Ideal, s, WriteData(p)))
  {
    var s' := Apply(Ideal, s, WriteData(p));
    var h, n := s.producers[p].head, s.size;
    assert ProducerOk(s, p);
    forall t | Returned(s') <= t < Returned(s') + n ensures SlotOk(s', t) {
      assert SlotOk(s, t);
      Distinct(Returned(s), n, h, t);
    }
    forall t | 0 <= t < |s'.tickets| ensures TicketOk(s', t) { assert TicketOk(s, t); }
    forall q | 0 <= q < |s.producers| ensures ProducerOk(s', q) && OrderOk(s', q) {
      assert ProducerOk(s, q) && OrderOk(s, q);
      if s.producers[q].Written? { Distinct(Returned(s), n, h, s.producers[q].head); }
    }
  }

  lemma PublishInv<T>(s: State<T>, p: nat)
    requires Inv(s) && Enabled(Ideal, s, Publish(p))
    ensures Inv(Apply(Ideal, s, Publish(p)))
  {
    var s' := Apply(Ideal, s, Publish(p));
    var h, n := s.producers[p].head, s.size;
    assert ProducerOk(s, p);
    forall t | Returned(s') <= t < Returned(s') + n ensures SlotOk(s', t) {
      assert SlotOk(s, t);
      Distinct(Returned(s), n, h, t);
    }
    forall t | 0 <= t < |s'.tickets| ensures TicketOk(s', t) { assert TicketOk(s, t); }
    forall q | 0 <= q < |s.producers| ensures ProducerOk(s', q) && OrderOk(s', q) {
      assert ProducerOk(s, q) && OrderOk(s, q);
    }
  }

  lemma RecycleInv<T>(s: State<T>)
    requires Inv(s) && Enabled(Ideal, s, Recycle)
    ensures Inv(Apply(Ideal, s, Recycle))
  {
    var s' := Apply(Ideal, s, Recycle);
    var h, n := s.tail, s.size;
    AddLap(h, n);
    forall t | Returned(s') <= t < Returned(s') + n ensures SlotOk(s', t) {
      if t < h + n {
        assert SlotOk(s, t);
        Distinct(Returned(s), n, h, t);
      }
    }
    forall t | 0 <= t < |s'.tickets| ensures TicketOk(s', t) { assert TicketOk(s, t); }
    forall q | 0 <= q < |s.producers| ensures ProducerOk(s', q) && OrderOk(s', q) {
      assert ProducerOk(s, q) && OrderOk(s, q);
    }
  }

  /** Two numbers of one window that share a slot are the same number. */
  lemma Distinct(low: nat, n: nat, a: nat, b: nat)
    requires n > 0 && low <= a < low + n && low <= b < low + n
    ensures a % n == b % n ==> a == b
  {
    if a % n == b % n {
      if a < b { LapApart(a, b, n); } else if b < a { LapApart(b, a, n); }
    }
  }

  /** The steps that only change one producer's locals. */
  lemma LocalInv<T>(s: State<T>, p: nat, pc: Producer<T>)
    requires Inv(s) && p < |s.producers| && !s.producers[p].Claimed? && !s.producers[p].Written?
    requires !pc.Claimed? && !pc.Written?
    requires ProducerOk(s.(producers := s.producers[p := pc]), p)
    ensures Inv(s.(producers := s.producers[p := pc]))
  {
    var s' := s.(producers := s.producers[p := pc]);
    forall t | Returned(s') <= t < Returned(s') + s'.size ensures SlotOk(s', t) { assert SlotOk(s, t); }
    forall t | 0 <= t < |s'.tickets| ensures TicketOk(s', t) { assert TicketOk(s, t); }
    forall q | 0 <= q < |s.producers| ensures ProducerOk(s', q) && OrderOk(s', q) {
      assert ProducerOk(s, q) && OrderOk(s, q);
    }
  }

  /** The steps that only change the consumer's locals. */
  lemma ConsumerLocalInv<T>(s: State<T>, pc: Consumer<T>)
    requires Inv(s) && !s.consumer.Recycled? && !pc.Recycled? && ConsumerOk(s.(consumer := pc))
    ensures Inv(s.(consumer := pc))
  {
    var s' := s.(consumer := pc);
    forall t | Returned(s') <= t < Returned(s') + s'.size ensures SlotOk(s', t) { assert SlotOk(s, t); }
    forall t | 0 <= t < |s'.tickets| ensures TicketOk(s', t) { assert TicketOk(s, t); }
    forall q | 0 <= q < |s.producers| ensures ProducerOk(s', q) && OrderOk(s', q) {
      assert ProducerOk(s, q) && OrderOk(s, q);
    }
  }

  /** Advancing `tail_` catches up with the recycled slot. */
  lemma AdvanceInv<T>(s: State<T>)
    requires Inv(s) && s.consumer.Recycled?
    ensures Inv(Apply(Ideal, s, AdvanceTail))
  {
    var s' := Apply(Ideal, s, AdvanceTail);
    forall t | Returned(s') <= t < Returned(s') + s'.size ensures SlotOk(s', t) { assert SlotOk(s, t); }
    forall t | 0 <= t < |s'.tickets| ensures TicketOk(s', t) { assert TicketOk(s, t); }
    forall q | 0 <= q < |s.producers| ensures ProducerOk(s', q) && OrderOk(s', q) {
      assert ProducerOk(s, q) && OrderOk(s, q);
    }
  }

  lemma ConsumerInv<T>(s: State<T>, a: Action<T>)
    requires Inv(s) && Enabled(Ideal, s, a)
    requires a.LoadTail? || a.LoadTailSequence? || a.RejectPop? || a.TakeData?
    ensures Inv(Apply(Ideal, s, a))
  {
    if a.LoadTailSequence? { TailMeaning(s, s.tail); }
    if a.TakeData? { assert SlotOk(s, s.tail); }
    ConsumerLocalInv(s, Apply(Ideal, s, a).consumer);
  }

  /** Every step keeps the invariant. */
  lemma StepInv<T>(s: State<T>, a: Action<T>)
    requires Inv(s) && Enabled(Ideal, s, a)
    ensures Inv(Apply(Ideal, s, a))
  {
    match a
    case BeginPush(p, item) => LocalInv(s, p, LoadingHead(item));
    case LoadHead(p) => LocalInv(s, p, HoldsHead(s.producers[p].item, s.head));
    case LoadSequence(p) =>
      assert ProducerOk(s, p);
      SequenceMeaning(s, s.producers[p].head);
      LocalInv(s, p, Apply(Ideal, s, a).producers[p]);
    case CompareExchange(p, spurious) =>
      if s.head == s.producers[p].head && !spurious { ClaimInv(s, p); }
      else { LocalInv(s, p, LoadingHead(s.producers[p].item)); }
    case RetryPush(p) => LocalInv(s, p, LoadingHead(s.producers[p].item));
    case RejectPush(p) => LocalInv(s, p, Idle);
    case WriteData(p) => WriteInv(s, p);
    case Publish(p) => PublishInv(s, p);
    case Recycle => RecycleInv(s);
    case AdvanceTail => AdvanceInv(s);
    case _ => ConsumerInv(s, a);
  }

  lemma {:induction false} RunInv<T>(n: nat, run: seq<State<T>>, acts: seq<Action<T>>, i: nat)
    requires IsRun(Ideal, n, run, acts) && n >= 2 && i < |run|
    ensures Inv(run[i]) && run[i].size == n
  {
    if i == 0 {
      InitInv(n, run[0]);
    } else {
      RunInv(n, run, acts, i - 1);
      assert Enabled(Ideal, run[i - 1], acts[i - 1]) && run[i - 1 + 1] == Apply(Ideal, run[i - 1], acts[i - 1]);
      StepInv(run[i - 1], acts[i - 1]);
    }
  }
}

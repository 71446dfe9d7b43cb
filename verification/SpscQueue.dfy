/** The single-producer single-consumer queue under stale reads. The two indices are
    atomics with a modification order: a load by the other side may return any value
    that is no older than the last one that side has seen. The elements are plain
    stores: a read may return any store to its slot that is not overwritten by a store
    the reader's last acquire made visible. */
module SpscQueue {
  import opened Bits
  import opened Lists

  /** A plain store into the ring. */
  datatype Store<T> = Store(slot: nat, item: T)

  datatype Producer<T> =
    | Idle
    | HoldsHead(item: T, head: nat)
    | MayStore(item: T, head: nat)
    | Stored(item: T, head: nat)

  datatype Consumer<T> =
    | Resting
    | HoldsTail(tail: nat)
    | MayTake(tail: nat)
    | Taken(tail: nat, item: T)

  /** `heads` and `tails` are the modification orders of `head_` and `tail_`, `stores`
      all stores into `buffer_`, `released[c]` how many of them the store of `heads[c]`
      publishes. `seenTail` and `seenHead` are the latest positions in the other side's
      order that the producer and the consumer have read. `pushed` and `popped` are what
      successful calls pushed and popped. */
  datatype State<T> = State(
    size: nat, heads: seq<nat>, tails: seq<nat>, stores: seq<Store<T>>, released: seq<nat>,
    producer: Producer<T>, consumer: Consumer<T>, seenTail: nat, seenHead: nat,
    pushed: seq<T>, popped: seq<T>)

  datatype Action<T> =
    | BeginPush(item: T)
    | LoadTail(view: nat)
    | StoreData
    | StoreHead
    | BeginPop
    | LoadHead(view: nat)
    | TakeData(store: nat)
    | StoreTail

  predicate WellFormed<T>(s: State<T>) {
    && s.size > 0 && s.heads != [] && s.tails != [] && |s.released| == |s.heads|
    && s.seenTail < |s.tails| && s.seenHead < |s.heads|
  }

  function Head<T>(s: State<T>): nat requires WellFormed(s) { s.heads[|s.heads| - 1] }

  function Tail<T>(s: State<T>): nat requires WellFormed(s) { s.tails[|s.tails| - 1] }

  /** `(index + 1) & (Size - 1)` */
  function Next(n: nat, index: nat): nat requires n > 0 { And(index + 1, n - 1) }

  /** The stores a read of `slot` may return to the consumer. */
  ghost predicate Visible<T>(s: State<T>, slot: nat, k: nat)
    requires WellFormed(s)
  {
    && k < |s.stores| && s.stores[k].slot == slot
    && forall l :: k < l < |s.stores| && l < s.released[s.seenHead] ==> s.stores[l].slot != slot
  }

  ghost predicate Enabled<T>(s: State<T>, a: Action<T>) {
    && WellFormed(s)
    && match a
       case BeginPush(_) => s.producer.Idle?
       case LoadTail(view) => s.producer.HoldsHead? && s.seenTail <= view < |s.tails|
       case StoreData => s.producer.MayStore?
       case StoreHead => s.producer.Stored?
       case BeginPop => s.consumer.Resting?
       case LoadHead(view) => s.consumer.HoldsTail? && s.seenHead <= view < |s.heads|
       case TakeData(k) => s.consumer.MayTake? && Visible(s, s.consumer.tail, k)
       case StoreTail => s.consumer.Taken?
  }

  /** Whether this load ends `push` with "full", or `pop` with "empty". */
  predicate Rejects<T>(s: State<T>, a: Action<T>)
    requires WellFormed(s)
  {
    match a
    case LoadTail(view) => s.producer.HoldsHead? && view < |s.tails| && Next(s.size, s.producer.head) == s.tails[view]
    case LoadHead(view) => s.consumer.HoldsTail? && view < |s.heads| && s.consumer.tail == s.heads[view]
    case _ => false
  }

  /** The producer's steps, and the consumer's. */
  predicate Pushes<T>(a: Action<T>) { a.BeginPush? || a.LoadTail? || a.StoreData? || a.StoreHead? }

  predicate Pops<T>(a: Action<T>) { a.BeginPop? || a.LoadHead? || a.TakeData? || a.StoreTail? }

  /** The step ends the call, with or without success. */
  predicate Ends<T>(s: State<T>, a: Action<T>)
    requires WellFormed(s)
  {
    a.StoreHead? || a.StoreTail? || Rejects(s, a)
  }

  ghost function Apply<T>(s: State<T>, a: Action<T>): State<T>
    requires Enabled(s, a)
  {
    match a
    case BeginPush(item) => s.(producer := HoldsHead(item, Head(s)))
    case LoadTail(view) =>
      s.(seenTail := view,
         producer := if Rejects(s, a) then Idle else MayStore(s.producer.item, s.producer.head))
    case StoreData =>
      var MayStore(item, h) := s.producer;
      s.(stores := s.stores + [Store(h, item)], producer := Stored(item, h))
    case StoreHead =>
      var Stored(item, h) := s.producer;
      s.(heads := s.heads + [Next(s.size, h)], released := s.released + [|s.stores|],
         producer := Idle, pushed := s.pushed + [item])
    case BeginPop => s.(consumer := HoldsTail(Tail(s)))
    case LoadHead(view) =>
      s.(seenHead := view, consumer := if Rejects(s, a) then Resting else MayTake(s.consumer.tail))
    case TakeData(k) => s.(consumer := Taken(s.consumer.tail, s.stores[k].item))
    case StoreTail =>
      var Taken(t, item) := s.consumer;
      s.(tails := s.tails + [Next(s.size, t)], consumer := Resting, popped := s.popped + [item])
  }

  function Empty<T>(n: nat): State<T> {
    State(n, [0], [0], [], [0], Idle, Resting, 0, 0, [], [])
  }

  ghost predicate IsRun<T>(n: nat, run: seq<State<T>>, acts: seq<Action<T>>) {
    && |run| == |acts| + 1
    && run[0] == Empty(n)
    && forall i :: 0 <= i < |acts| ==> Enabled(run[i], acts[i]) && run[i + 1] == Apply(run[i], acts[i])
  }

  // ---------------------------------------------------------------- invariant

  ghost predicate Indices<T>(s: State<T>) {
    && WellFormed(s)
    && |s.heads| == |s.pushed| + 1 && |s.tails| == |s.popped| + 1
    && (forall c :: 0 <= c < |s.heads| ==> s.heads[c] == c % s.size && s.released[c] == c)
    && (forall c :: 0 <= c < |s.tails| ==> s.tails[c] == c % s.size)
    && |s.pushed| < s.seenTail + s.size
    && |s.popped| <= s.seenHead
  }

  ghost predicate Stores<T>(s: State<T>)
    requires s.size > 0
  {
    && |s.stores| == |s.pushed| + (if s.producer.Stored? then 1 else 0)
    && (forall k :: 0 <= k < |s.stores| ==> s.stores[k].slot == k % s.size)
    && (forall k :: 0 <= k < |s.pushed| ==> s.stores[k].item == s.pushed[k])
  }

  ghost predicate ProducerOk<T>(s: State<T>)
    requires s.size > 0
  {
    match s.producer
    case Idle => true
    case HoldsHead(_, h) => h == |s.pushed| % s.size
    case MayStore(_, h) => h == |s.pushed| % s.size && |s.pushed| + 1 < s.seenTail + s.size
    case Stored(item, h) =>
      h == |s.pushed| % s.size && |s.pushed| + 1 < s.seenTail + s.size
      && |s.pushed| < |s.stores| && s.stores[|s.pushed|].item == item
  }

  ghost predicate ConsumerOk<T>(s: State<T>)
    requires s.size > 0
  {
    match s.consumer
    case Resting => true
    case HoldsTail(t) => t == |s.popped| % s.size
    case MayTake(t) => t == |s.popped| % s.size && |s.popped| < s.seenHead
    case Taken(t, item) =>
      t == |s.popped| % s.size && |s.popped| < s.seenHead <= |s.pushed| && item == s.pushed[|s.popped|]
  }

  ghost predicate Inv<T>(s: State<T>) {
    && PowerOfTwo(s.size)
    && Indices(s) && Stores(s) && ProducerOk(s) && ConsumerOk(s)
    && s.popped <= s.pushed
  }

  lemma NextIndex(n: nat, c: nat)
    requires PowerOfTwo(n)
    ensures Next(n, c % n) == (c + 1) % n
  {
    MaskIsMod(c % n + 1, n);
    LastSlot(c, n);
  }

  /** The test in `push`: with `view` pops visible it reads full exactly when the ring
      holds Size - 1 elements as far as the producer can see. */
  lemma PushTest<T>(s: State<T>, view: nat)
    requires Inv(s) && s.producer.HoldsHead? && s.seenTail <= view < |s.tails|
    ensures Rejects(s, LoadTail(view)) <==> |s.pushed| + 1 == view + s.size
  {
    var h, n := |s.pushed|, s.size;
    NextIndex(n, h);
    if (h + 1) % n == view % n { LapApart(view, h + 1, n); }
    if h + 1 == view + n { AddLap(view, n); }
  }

  /** The test in `pop`: it reads empty exactly when no push is visible that has not
      been popped. */
  lemma PopTest<T>(s: State<T>, view: nat)
    requires Inv(s) && s.consumer.HoldsTail? && s.seenHead <= view < |s.heads|
    ensures Rejects(s, LoadHead(view)) <==> view == |s.popped|
  {
    if |s.popped| < view && |s.popped| % s.size == view % s.size { LapApart(|s.popped|, view, s.size); }
  }

  /** The plain read in `pop` has exactly one store to return, the one that pushed the
      oldest element: it is neither missed nor overwritten. */
  lemma ReadIsDetermined<T>(s: State<T>)
    requires Inv(s) && s.consumer.MayTake?
    ensures forall k: nat :: Visible(s, s.consumer.tail, k) <==> k == |s.popped|
  {
    var c, n := |s.popped|, s.size;
    forall k: nat ensures Visible(s, s.consumer.tail, k) <==> k == c {
      if k == c {
        forall l | k < l < |s.stores| && l < s.released[s.seenHead] ensures s.stores[l].slot != c % n {
          if l % n == c % n { LapApart(c, l, n); }
        }
      } else if k < |s.stores| && k % n == c % n {
        if k < c {
          assert s.stores[c].slot == c % n;
        } else {
          LapApart(c, k, n);
        }
      }
    }
  }

  lemma ProducerInv<T>(s: State<T>, a: Action<T>)
    requires Inv(s) && Enabled(s, a) && Pushes(a)
    ensures Inv(Apply(s, a))
  {
    if a.LoadTail? { PushTest(s, a.view); }
    if a.StoreHead? { NextIndex(s.size, |s.pushed|); }
  }

  lemma ConsumerInv<T>(s: State<T>, a: Action<T>)
    requires Inv(s) && Enabled(s, a) && Pops(a)
    ensures Inv(Apply(s, a))
  {
    if a.LoadHead? { PopTest(s, a.view); }
    if a.TakeData? { ReadIsDetermined(s); }
    if a.StoreTail? { NextIndex(s.size, |s.popped|); }
  }

  /** Every step keeps the invariant. */
  lemma StepInv<T>(s: State<T>, a: Action<T>)
    requires Inv(s) && Enabled(s, a)
    ensures Inv(Apply(s, a))
  {
    if Pushes(a) {
      ProducerInv(s, a);
    } else {
      ConsumerInv(s, a);
    }
  }

  lemma EmptyInv<T>(n: nat)
    requires PowerOfTwo(n)
    ensures Inv(Empty<T>(n))
  {
    DivModUnique(0, 0, 0, n);
  }

  lemma {:induction false} RunInv<T>(n: nat, run: seq<State<T>>, acts: seq<Action<T>>, i: nat)
    requires IsRun(n, run, acts) && PowerOfTwo(n) && i < |run|
    ensures Inv(run[i]) && run[i].size == n
  {
    if i == 0 {
      EmptyInv<T>(n);
    } else {
      RunInv(n, run, acts, i - 1);
      assert Enabled(run[i - 1], acts[i - 1]) && run[i - 1 + 1] == Apply(run[i - 1], acts[i - 1]);
      StepInv(run[i - 1], acts[i - 1]);
    }
  }

  // --------------------------------------------------- what calls were given

  /** The producer's calls, read off the actions alone: the argument of the call in progress,
      if any, and the arguments of the calls that returned true, in order. */
  datatype Log<T> = Log(pending: seq<T>, pushed: seq<T>)

  /** A call that is turned away leaves its argument pending until the next one begins. */
  function LogOf<T>(acts: seq<Action<T>>): Log<T> {
    if acts == [] then Log([], []) else LogNext(LogOf(acts[..|acts| - 1]), acts[|acts| - 1])
  }

  function LogNext<T>(log: Log<T>, a: Action<T>): Log<T> {
    match a
    case BeginPush(item) => Log([item], log.pushed)
    case StoreHead => Log([], log.pushed + log.pending)
    case _ => log
  }

  ghost predicate Logged<T>(s: State<T>, log: Log<T>) {
    s.pushed == log.pushed && (!s.producer.Idle? ==> log.pending == [s.producer.item])
  }

  /** A push appends the argument it was called with: what is recorded as pushed is exactly
      what the successful calls were given. */
  lemma {:induction false} PushesItsArgument<T>(n: nat, run: seq<State<T>>, acts: seq<Action<T>>, i: nat)
    requires IsRun(n, run, acts) && i < |run|
    ensures Logged(run[i], LogOf(acts[..i]))
  {
    if i > 0 {
      assert Enabled(run[i - 1], acts[i - 1]) && run[i - 1 + 1] == Apply(run[i - 1], acts[i - 1]);
      PushesItsArgument(n, run, acts, i - 1);
      TakeOneMore(acts, i - 1);
    }
  }

  // ---------------------------------------------------------------- theorems

  /** However stale the indices each side reads: what was popped is a prefix of what was
      pushed, which is what the successful calls were given; at most Size - 1 elements are in
      the ring, the two sides are never on the same slot, and the element `pop` is about to
      read is never in doubt. */
  lemma SafeUnderStaleReads<T>(n: nat, run: seq<State<T>>, acts: seq<Action<T>>, i: nat)
    requires IsRun(n, run, acts) && PowerOfTwo(n) && i < |run|
    ensures var s := run[i];
      && WellFormed(s)
      && s.popped <= s.pushed == LogOf(acts[..i]).pushed && |s.pushed| - |s.popped| <= n - 1
      && ((s.producer.MayStore? || s.producer.Stored?) && (s.consumer.MayTake? || s.consumer.Taken?) ==>
            s.producer.head != s.consumer.tail)
      && (s.consumer.MayTake? ==>
            && |s.popped| < |s.stores| && |s.popped| < |s.pushed|
            && s.stores[|s.popped|].item == s.pushed[|s.popped|]
            && forall k: nat :: Enabled(s, TakeData(k)) <==> k == |s.popped|)
  {
    RunInv(n, run, acts, i);
    PushesItsArgument(n, run, acts, i);
    var s := run[i];
    if |s.popped| < |s.pushed| && |s.popped| % n == |s.pushed| % n { LapApart(|s.popped|, |s.pushed|, n); }
    if s.consumer.MayTake? { ReadIsDetermined(s); }
  }

  /** When a call is turned away, and when it is not: "full" means Size - 1 elements
      against the pops visible to the producer, so with a current view the ring is
      truly full; "empty" means nothing visible is left, so with a current view the ring
      is truly empty. */
  lemma RejectionIsTruthful<T>(n: nat, run: seq<State<T>>, acts: seq<Action<T>>, i: nat)
    requires IsRun(n, run, acts) && PowerOfTwo(n) && i < |acts|
    ensures var s, a := run[i], acts[i];
      && WellFormed(s)
      && (a.LoadTail? ==> (Rejects(s, a) <==> |s.pushed| - a.view == n - 1))
      && (a.LoadHead? ==> (Rejects(s, a) <==> a.view == |s.popped|))
      && (a.LoadTail? && a.view == |s.popped| ==> (Rejects(s, a) <==> |s.pushed| - |s.popped| == n - 1))
      && (a.LoadHead? && a.view == |s.pushed| ==> (Rejects(s, a) <==> s.pushed == s.popped))
  {
    RunInv(n, run, acts, i);
    var s, a := run[i], acts[i];
    if a.LoadTail? { PushTest(s, a.view); }
    if a.LoadHead? {
      PopTest(s, a.view);
      assert a.view == |s.pushed| == |s.popped| ==> s.pushed == s.popped;
    }
  }

  // --------------------------------------------------- how stale reads can be

  /** A load may return any value from the last one that side saw to the newest: in every state
      of every run just these are possible. */
  lemma ViewsAllowed<T>(n: nat, run: seq<State<T>>, acts: seq<Action<T>>, i: nat, view: nat)
    requires IsRun(n, run, acts) && PowerOfTwo(n) && i < |run|
    ensures var s := run[i];
      && (Enabled(s, LoadTail(view)) <==> s.producer.HoldsHead? && s.seenTail <= view <= |s.popped|)
      && (Enabled(s, LoadHead(view)) <==> s.consumer.HoldsTail? && s.seenHead <= view <= |s.pushed|)
  {
    RunInv(n, run, acts, i);
  }

  /** What a side saw is what it last loaded; the other side's stores do not refresh it. */
  lemma SeenIsLastLoad<T>(s: State<T>, a: Action<T>)
    requires Enabled(s, a)
    ensures Apply(s, a).seenTail == if a.LoadTail? then a.view else s.seenTail
    ensures Apply(s, a).seenHead == if a.LoadHead? then a.view else s.seenHead
  {
  }

  lemma Then<T>(n: nat, run: seq<State<T>>, acts: seq<Action<T>>, a: Action<T>)
      returns (run': seq<State<T>>, acts': seq<Action<T>>)
    requires IsRun(n, run, acts) && Enabled(run[|acts|], a)
    ensures IsRun(n, run', acts') && acts' == acts + [a] && run'[|acts'|] == Apply(run[|acts|], a)
  {
    run', acts' := run + [Apply(run[|acts|], a)], acts + [a];
  }

  /** A push on its own, in a run: it refreshes what the producer has seen, and only that. */
  lemma PushOnce<T>(n: nat, run: seq<State<T>>, acts: seq<Action<T>>, item: T)
      returns (run': seq<State<T>>, acts': seq<Action<T>>)
    requires IsRun(n, run, acts) && PowerOfTwo(n)
    requires var s := run[|acts|];
      s.producer.Idle? && |s.pushed| - |s.popped| < n - 1
    ensures IsRun(n, run', acts')
    ensures var s, s' := run[|acts|], run'[|acts'|];
      && s'.producer.Idle? && s'.consumer == s.consumer && s'.pushed == s.pushed + [item] && s'.popped == s.popped
      && s'.seenTail == |s.popped| && s'.seenHead == s.seenHead
  {
    RunInv(n, run, acts, |acts|);
    var s := run[|acts|];
    var r1, r2, r3, r4 := PushPath(s, item);
    SeenIsLastLoad(s, BeginPush(item));
    SeenIsLastLoad(r1, LoadTail(|s.popped|));
    SeenIsLastLoad(r2, StoreData);
    SeenIsLastLoad(r3, StoreHead);
    run', acts' := Then(n, run, acts, BeginPush(item));
    run', acts' := Then(n, run', acts', LoadTail(|s.popped|));
    run', acts' := Then(n, run', acts', StoreData);
    run', acts' := Then(n, run', acts', StoreHead);
  }

  lemma PopOnce<T>(n: nat, run: seq<State<T>>, acts: seq<Action<T>>)
      returns (run': seq<State<T>>, acts': seq<Action<T>>)
    requires IsRun(n, run, acts) && PowerOfTwo(n)
    requires var s := run[|acts|];
      s.consumer.Resting? && |s.popped| < |s.pushed|
    ensures IsRun(n, run', acts')
    ensures var s, s' := run[|acts|], run'[|acts'|];
      && s'.consumer.Resting? && s'.producer == s.producer && s'.pushed == s.pushed
      && s'.popped == s.popped + [s.pushed[|s.popped|]]
      && s'.seenHead == |s.pushed| && s'.seenTail == s.seenTail
  {
    RunInv(n, run, acts, |acts|);
    var s := run[|acts|];
    var r1, r2, r3, r4 := PopPath(s);
    SeenIsLastLoad(s, BeginPop);
    SeenIsLastLoad(r1, LoadHead(|s.pushed|));
    SeenIsLastLoad(r2, TakeData(|s.popped|));
    SeenIsLastLoad(r3, StoreTail);
    run', acts' := Then(n, run, acts, BeginPop);
    run', acts' := Then(n, run', acts', LoadHead(|s.pushed|));
    run', acts' := Then(n, run', acts', TakeData(|s.popped|));
    run', acts' := Then(n, run', acts', StoreTail);
  }

  lemma TwoSlots<T>() returns (run: seq<State<T>>, acts: seq<Action<T>>)
    ensures PowerOfTwo(2) && IsRun(2, run, acts) && acts == [] && run[0] == Empty(2)
  {
    Pow2IsPowerOfTwo(1);
    run, acts := [Empty(2)], [];
  }

  /** So `pop` can report empty although an element has been pushed, ... */
  lemma EmptyWhileHeld<T>(x: T) returns (run: seq<State<T>>, acts: seq<Action<T>>)
    ensures IsRun(2, run, acts) && run[|acts|].pushed == [x] && run[|acts|].popped == []
    ensures Enabled(run[|acts|], LoadHead(0)) && Rejects(run[|acts|], LoadHead(0))
  {
    run, acts := TwoSlots();
    run, acts := PushOnce(2, run, acts, x);
    RunInv(2, run, acts, |acts|);
    run, acts := Then(2, run, acts, BeginPop);
    RunInv(2, run, acts, |acts|);
    PopTest(run[|acts|], 0);
  }

  /** ... and `push` full although all has been popped. */
  lemma FullWhileEmpty<T>(x: T, y: T) returns (run: seq<State<T>>, acts: seq<Action<T>>)
    ensures IsRun(2, run, acts) && run[|acts|].pushed == run[|acts|].popped == [x]
    ensures Enabled(run[|acts|], LoadTail(0)) && Rejects(run[|acts|], LoadTail(0))
  {
    run, acts := TwoSlots();
    run, acts := PushOnce(2, run, acts, x);
    run, acts := PopOnce(2, run, acts);
    RunInv(2, run, acts, |acts|);
    run, acts := Then(2, run, acts, BeginPush(y));
    RunInv(2, run, acts, |acts|);
    PushTest(run[|acts|], 0);
  }

  /** A plain read really is in doubt without synchronization: of two stores to a slot that no
      acquire has made visible, either may be returned; one that an acquire has made visible
      hides the older ones. */
  lemma ReadsInDoubt<T>(s: State<T>, slot: nat, j: nat, k: nat)
    requires WellFormed(s) && j < k < |s.stores| && s.stores[j].slot == s.stores[k].slot == slot
    requires forall l :: j < l < |s.stores| && l != k ==> s.stores[l].slot != slot
    ensures Visible(s, slot, k)
    ensures Visible(s, slot, j) <==> s.released[s.seenHead] <= k
  {
  }

  // ------------------------------------------------- what one step does to a call

  /** A push is busy with one item from its first step to its last; it appends that item
      if it ends in success and nothing otherwise, and leaves the consumer's side alone. */
  lemma ProducerEffect<T>(s: State<T>, a: Action<T>)
    requires Inv(s) && Enabled(s, a) && Pushes(a)
    ensures var s' := Apply(s, a);
      && Inv(s') && s'.size == s.size && s'.popped == s.popped && s'.consumer == s.consumer
      && s.producer.Idle? == a.BeginPush? && s'.producer.Idle? == Ends(s, a)
      && s'.pushed == s.pushed + (if a.StoreHead? then [s.producer.item] else [])
      && (a.StoreHead? ==> !Rejects(s, a))
      && (!Ends(s, a) ==> s'.producer.item == if a.BeginPush? then a.item else s.producer.item)
  {
    ProducerInv(s, a);
  }

  /** A pop that ends in success hands out the oldest element not yet popped. */
  lemma ConsumerEffect<T>(s: State<T>, a: Action<T>)
    requires Inv(s) && Enabled(s, a) && Pops(a)
    ensures var s' := Apply(s, a);
      && Inv(s') && s'.size == s.size && s'.pushed == s.pushed && s'.producer == s.producer
      && s.consumer.Resting? == a.BeginPop? && s'.consumer.Resting? == Ends(s, a)
      && s'.popped == s.popped + (if a.StoreTail? then [s.consumer.item] else [])
      && (a.StoreTail? ==> |s.popped| < |s.pushed| && s.consumer.item == s.pushed[|s.popped|])
  {
    ConsumerInv(s, a);
  }

  /** A call under way always has a next step. */
  lemma CallsGoOn<T>(s: State<T>)
    requires Inv(s)
    ensures !s.producer.Idle? ==> exists a :: Pushes(a) && !a.BeginPush? && Enabled(s, a)
    ensures !s.consumer.Resting? ==> exists a :: Pops(a) && !a.BeginPop? && Enabled(s, a)
  {
    var a :=
      if s.producer.HoldsHead? then LoadTail(s.seenTail)
      else if s.producer.MayStore? then StoreData
      else StoreHead;
    assert !s.producer.Idle? ==> Pushes(a) && Enabled(s, a);
    var b :=
      if s.consumer.HoldsTail? then LoadHead(s.seenHead)
      else if s.consumer.MayTake? then TakeData(|s.popped|)
      else StoreTail;
    if s.consumer.MayTake? { ReadIsDetermined(s); }
    assert !s.consumer.Resting? ==> Pops(b) && Enabled(s, b);
  }

  /** How many more steps a push or a pop can take. */
  function PushRank<T>(pc: Producer<T>): nat {
    match pc
    case Idle => 0
    case HoldsHead(_, _) => 3
    case MayStore(_, _) => 2
    case Stored(_, _) => 1
  }

  function PopRank<T>(pc: Consumer<T>): nat {
    match pc
    case Resting => 0
    case HoldsTail(_) => 3
    case MayTake(_) => 2
    case Taken(_, _) => 1
  }

  /** Every step of a call lowers its rank, and the other side's steps leave it alone. */
  lemma RankFalls<T>(s: State<T>, a: Action<T>)
    requires Enabled(s, a)
    ensures var s' := Apply(s, a);
      && (Pushes(a) && !a.BeginPush? ==> PushRank(s'.producer) < PushRank(s.producer))
      && (Pops(a) && !a.BeginPop? ==> PopRank(s'.consumer) < PopRank(s.consumer))
      && (Pushes(a) ==> s'.consumer == s.consumer) && (Pops(a) ==> s'.producer == s.producer)
  {
  }

  /** How many of the steps from `i` to `j` are the producer's, or the consumer's. */
  function PushSteps<T>(acts: seq<Action<T>>, i: nat, j: nat): nat
    requires i <= j <= |acts|
  {
    if i == j then 0 else PushSteps(acts, i, j - 1) + if Pushes(acts[j - 1]) then 1 else 0
  }

  function PopSteps<T>(acts: seq<Action<T>>, i: nat, j: nat): nat
    requires i <= j <= |acts|
  {
    if i == j then 0 else PopSteps(acts, i, j - 1) + if Pops(acts[j - 1]) then 1 else 0
  }

  /** Both operations are wait-free: once begun, a call takes at most three more steps of its
      own, whatever the other side does in between and however stale what it reads. */
  lemma {:induction false} WaitFree<T>(n: nat, run: seq<State<T>>, acts: seq<Action<T>>, i: nat, j: nat)
    requires IsRun(n, run, acts) && i <= j < |run|
    ensures (forall k :: i <= k < j ==> !acts[k].BeginPush?) ==>
      PushSteps(acts, i, j) + PushRank(run[j].producer) <= PushRank(run[i].producer) <= 3
    ensures (forall k :: i <= k < j ==> !acts[k].BeginPop?) ==>
      PopSteps(acts, i, j) + PopRank(run[j].consumer) <= PopRank(run[i].consumer) <= 3
  {
    if i < j {
      WaitFree(n, run, acts, i, j - 1);
      assert Enabled(run[j - 1], acts[j - 1]) && run[j - 1 + 1] == Apply(run[j - 1], acts[j - 1]);
      RankFalls(run[j - 1], acts[j - 1]);
    }
  }

  // -------------------------------------------------- calls that run undisturbed

  /** The steps of a call that nothing interrupts and whose load is current: a push that
      finds room, ... */
  lemma PushPath<T>(s: State<T>, item: T) returns (r1: State<T>, r2: State<T>, r3: State<T>, r4: State<T>)
    requires Inv(s) && s.producer.Idle? && |s.pushed| - |s.popped| < s.size - 1
    ensures Enabled(s, BeginPush(item)) && r1 == Apply(s, BeginPush(item))
    ensures Enabled(r1, LoadTail(|s.popped|)) && !Rejects(r1, LoadTail(|s.popped|))
    ensures r2 == Apply(r1, LoadTail(|s.popped|))
    ensures Enabled(r2, StoreData) && r3 == Apply(r2, StoreData)
    ensures Enabled(r3, StoreHead) && r4 == Apply(r3, StoreHead)
    ensures Inv(r4) && r4.producer.Idle? && r4.consumer == s.consumer && r4.size == s.size
    ensures r4.pushed == s.pushed + [item] && r4.popped == s.popped
  {
    StepInv(s, BeginPush(item));
    r1 := Apply(s, BeginPush(item));
    PushTest(r1, |s.popped|);
    StepInv(r1, LoadTail(|s.popped|));
    r2 := Apply(r1, LoadTail(|s.popped|));
    StepInv(r2, StoreData);
    r3 := Apply(r2, StoreData);
    StepInv(r3, StoreHead);
    r4 := Apply(r3, StoreHead);
  }

  /** ... a push that finds the ring full, ... */
  lemma FullPath<T>(s: State<T>, item: T) returns (r1: State<T>, r2: State<T>)
    requires Inv(s) && s.producer.Idle? && |s.pushed| - |s.popped| >= s.size - 1
    ensures Enabled(s, BeginPush(item)) && r1 == Apply(s, BeginPush(item))
    ensures Enabled(r1, LoadTail(|s.popped|)) && Rejects(r1, LoadTail(|s.popped|))
    ensures r2 == Apply(r1, LoadTail(|s.popped|))
    ensures Inv(r2) && r2.producer.Idle? && r2.consumer == s.consumer && r2.size == s.size
    ensures r2.pushed == s.pushed && r2.popped == s.popped
  {
    StepInv(s, BeginPush(item));
    r1 := Apply(s, BeginPush(item));
    PushTest(r1, |s.popped|);
    StepInv(r1, LoadTail(|s.popped|));
    r2 := Apply(r1, LoadTail(|s.popped|));
  }

  /** ... a pop that finds nothing, ... */
  lemma EmptyPath<T>(s: State<T>) returns (r1: State<T>, r2: State<T>)
    requires Inv(s) && s.consumer.Resting? && |s.popped| == |s.pushed|
    ensures Enabled(s, BeginPop) && r1 == Apply(s, BeginPop)
    ensures Enabled(r1, LoadHead(|s.pushed|)) && Rejects(r1, LoadHead(|s.pushed|))
    ensures r2 == Apply(r1, LoadHead(|s.pushed|))
    ensures Inv(r2) && r2.consumer.Resting? && r2.producer == s.producer && r2.size == s.size
    ensures r2.pushed == s.pushed && r2.popped == s.popped
  {
    StepInv(s, BeginPop);
    r1 := Apply(s, BeginPop);
    PopTest(r1, |s.pushed|);
    StepInv(r1, LoadHead(|s.pushed|));
    r2 := Apply(r1, LoadHead(|s.pushed|));
  }

  /** ... and a pop that finds an element. */
  lemma PopPath<T>(s: State<T>) returns (r1: State<T>, r2: State<T>, r3: State<T>, r4: State<T>)
    requires Inv(s) && s.consumer.Resting? && |s.popped| < |s.pushed|
    ensures Enabled(s, BeginPop) && r1 == Apply(s, BeginPop)
    ensures Enabled(r1, LoadHead(|s.pushed|)) && !Rejects(r1, LoadHead(|s.pushed|))
    ensures r2 == Apply(r1, LoadHead(|s.pushed|))
    ensures Enabled(r2, TakeData(|s.popped|)) && r3 == Apply(r2, TakeData(|s.popped|))
    ensures Enabled(r3, StoreTail) && r3.consumer.item == s.pushed[|s.popped|] && r4 == Apply(r3, StoreTail)
    ensures Inv(r4) && r4.consumer.Resting? && r4.producer == s.producer && r4.size == s.size
    ensures r4.popped == s.popped + [s.pushed[|s.popped|]] && r4.pushed == s.pushed
  {
    StepInv(s, BeginPop);
    r1 := Apply(s, BeginPop);
    PopTest(r1, |s.pushed|);
    StepInv(r1, LoadHead(|s.pushed|));
    r2 := Apply(r1, LoadHead(|s.pushed|));
    ReadIsDetermined(r2);
    StepInv(r2, TakeData(|s.popped|));
    r3 := Apply(r2, TakeData(|s.popped|));
    StepInv(r3, StoreTail);
    r4 := Apply(r3, StoreTail);
  }

  /** So such a `push` succeeds exactly when fewer than Size - 1 elements are held. */
  lemma PushAlone<T>(s: State<T>, item: T) returns (ok: bool, s': State<T>)
    requires Inv(s) && s.producer.Idle?
    ensures Inv(s') && s'.producer.Idle? && s'.consumer == s.consumer && s'.size == s.size
    ensures Head(s) == |s.pushed| % s.size && Tail(s) == |s.popped| % s.size
    ensures ok == (Next(s.size, Head(s)) != Tail(s)) == (|s.pushed| - |s.popped| < s.size - 1)
    ensures s'.pushed == (if ok then s.pushed + [item] else s.pushed) && s'.popped == s.popped
    ensures Head(s') == (if ok then Next(s.size, Head(s)) else Head(s)) && Tail(s') == Tail(s)
  {
    ok := |s.pushed| - |s.popped| < s.size - 1;
    NextIndex(s.size, |s.pushed|);
    if ok {
      var _, _, _, r4 := PushPath(s, item);
      s' := r4;
    } else {
      var _, r2 := FullPath(s, item);
      s' := r2;
    }
  }

  /** And such a `pop` succeeds exactly when an element is held. */
  lemma PopAlone<T>(s: State<T>) returns (ok: bool, s': State<T>)
    requires Inv(s) && s.consumer.Resting?
    ensures Inv(s') && s'.consumer.Resting? && s'.producer == s.producer && s'.size == s.size
    ensures Head(s) == |s.pushed| % s.size && Tail(s) == |s.popped| % s.size
    ensures ok == (Tail(s) != Head(s)) == (|s.popped| < |s.pushed|)
    ensures s'.popped == (if ok then s.popped + [s.pushed[|s.popped|]] else s.popped) && s'.pushed == s.pushed
    ensures Tail(s') == (if ok then Next(s.size, Tail(s)) else Tail(s)) && Head(s') == Head(s)
  {
    ok := |s.popped| < |s.pushed|;
    NextIndex(s.size, |s.popped|);
    if ok {
      var _, _, _, r4 := PopPath(s);
      s' := r4;
    } else {
      var _, r2 := EmptyPath(s);
      s' := r2;
    }
  }

  // --------------------------------------------------------------- observers

  /** `(head - tail) & (Size - 1)`, the subtraction wrapping at 2^64. */
  function SizeOf(n: nat, head: nat, tail: nat): nat
    requires n > 0
  {
    And((head - tail) % TWO_64, n - 1)
  }

  /** The word size is a whole number of laps. */
  lemma {:induction false} LapsInWord(n: nat) returns (m: nat)
    requires PowerOfTwo(n) && n <= TWO_64
    ensures TWO_64 == m * n
  {
    var k := PowerOfTwoIsPow2(n);
    WordSizes();
    if k > 64 { Pow2Grows(64, k); assert false; }
    Pow2Sum(64 - k, k);
    m := Pow2(64 - k);
  }

  /** `size()` on the values `head_` had after `a` pushes and `tail_` after `b` pops. */
  lemma SizeIsDifference(n: nat, a: nat, b: nat)
    requires PowerOfTwo(n) && n <= TWO_64
    ensures SizeOf(n, a % n, b % n) < n
    ensures SizeOf(n, a % n, b % n) == (a - b) % n
    ensures SizeOf(n, a % n, b % n) == a - b <==> b <= a < b + n
  {
    SizeIsResidue(n, a, b);
    WithinLap(a - b, n);
  }

  lemma SizeIsResidue(n: nat, a: nat, b: nat)
    requires PowerOfTwo(n) && n <= TWO_64
    ensures SizeOf(n, a % n, b % n) == (a - b) % n
  {
    var d := a % n - b % n;
    MaskIsMod(d % TWO_64, n);
    WordLaps(d, n);
    ResidueDifference(a, b, n);
  }

  lemma WordLaps(d: int, n: nat)
    requires PowerOfTwo(n) && n <= TWO_64
    ensures (d % TWO_64) % n == d % n
  {
    var m := LapsInWord(n);
    var q := d / TWO_64;
    assert d == d % TWO_64 + (q * m) * n by { assert q * TWO_64 == (q * m) * n; }
    SameSlot(d, d % TWO_64, q * m, n);
  }

  /** `size()` at any point of any run. It never exceeds `capacity()`. Both loads current,
      it is the number of elements in the ring. Called by the consumer, whose view of
      `head_` may be stale, it is at most that number; called by the producer, whose view
      of `tail_` may be stale, it is at least that number. */
  lemma SizeObserver<T>(n: nat, run: seq<State<T>>, acts: seq<Action<T>>, i: nat, headView: nat, tailView: nat)
    requires IsRun(n, run, acts) && PowerOfTwo(n) && n <= TWO_64 && i < |run|
    requires WellFormed(run[i]) && headView < |run[i].heads| && tailView < |run[i].tails|
    ensures var s := run[i]; var answer := SizeOf(n, s.heads[headView], s.tails[tailView]);
      var held := |s.pushed| - |s.popped|;
      && answer <= n - 1
      && (headView == |s.pushed| && tailView == |s.popped| ==> answer == held)
      && (tailView == |s.popped| && s.seenHead <= headView ==> answer == headView - |s.popped| <= held)
      && (headView == |s.pushed| && s.seenTail <= tailView ==> answer == |s.pushed| - tailView >= held)
  {
    RunInv(n, run, acts, i);
    SizeIsDifference(n, headView, tailView);
  }

  /** `empty()` and `full()` agree with `size()`, whatever the two views. */
  lemma EmptyFullObservers(n: nat, a: nat, b: nat)
    requires PowerOfTwo(n) && n <= TWO_64
    ensures b % n == a % n <==> SizeOf(n, a % n, b % n) == 0
    ensures Next(n, a % n) == b % n <==> SizeOf(n, a % n, b % n) == n - 1
  {
    SizeIsDifference(n, a, b);
    NextIndex(n, a);
    Congruent(a, b, n);
    Congruent(a + 1, b, n);
    LastSlot(a - b, n);
  }
}

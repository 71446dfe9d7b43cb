/** The multi-producer queue as the object it is: two counters and a ring of nodes, each
    with a sequence number and data. A call on it, undisturbed, takes the steps of the
    transition system. */
module MpscObject {
  import opened Bits
  import Q = MpscQueue

  ghost function Done<T>(s: Q.State<T>, a: Q.Action<T>): (s': Q.State<T>)
    requires Q.Inv(s) && Q.Enabled(Q.Ideal, s, a)
    ensures Q.Inv(s')
  {
    Q.StepInv(s, a);
    Q.Apply(Q.Ideal, s, a)
  }

  ghost predicate Quiet<T>(s: Q.State<T>) {
    s.consumer.Resting? && forall p :: 0 <= p < |s.producers| ==> s.producers[p].Idle?
  }

  /** Any number of rounds that end in a failed weak compare-exchange change nothing; the
      round that does not fail claims and publishes if a slot is free, and gives up if not. */
  lemma PushAlone<T>(s: Q.State<T>, p: nat, item: T) returns (ok: bool, s': Q.State<T>)
    requires Q.Inv(s) && Quiet(s) && p < |s.producers|
    ensures ok == (s.head < s.tail + s.size)
    ensures var seen := s.sequence[s.head % s.size]; if ok then seen == s.head else seen < s.head
    ensures Q.Inv(s') && Quiet(s') && |s'.producers| == |s.producers|
    ensures var slot := s.head % s.size;
      if !ok then s' == s
      else
        && s'.size == s.size && s'.head == s.head + 1 && s'.tail == s.tail && s'.popped == s.popped
        && s'.sequence == s.sequence[slot := s.head + 1] && s'.data == s.data[slot := item]
        && s'.tickets == s.tickets + [Q.Ticket(p, item)]
  {
    Q.SequenceMeaning(s, s.head);
    ok := s.sequence[s.head % s.size] == s.head;
    s' := LoadBoth(s, p, item);
    if ok {
      s' := Done(s', Q.CompareExchange(p, false));
      s' := FinishPush(s', p);
    } else {
      s' := Done(s', Q.RejectPush(p));
      assert s'.producers == s.producers;
    }
  }

  /** `head_` and the slot's sequence are loaded, nothing else has changed. */
  lemma LoadBoth<T>(s: Q.State<T>, p: nat, item: T) returns (s': Q.State<T>)
    requires Q.Inv(s) && p < |s.producers| && s.producers[p].Idle?
    ensures Q.Inv(s')
    ensures var pc := Q.HoldsSequence(item, s.head, s.sequence[s.head % s.size]);
      s' == s.(producers := s.producers[p := pc])
  {
    s' := Done(Done(Done(s, Q.BeginPush(p, item)), Q.LoadHead(p)), Q.LoadSequence(p));
  }

  /** The claimed ticket is written and published. */
  lemma FinishPush<T>(s: Q.State<T>, p: nat) returns (s': Q.State<T>)
    requires Q.Inv(s) && p < |s.producers| && s.producers[p].Claimed? && s.consumer.Resting?
    requires forall k :: 0 <= k < |s.producers| && k != p ==> s.producers[k].Idle?
    ensures Q.Inv(s') && Quiet(s') && |s'.producers| == |s.producers|
    ensures var item, head := s.producers[p].item, s.producers[p].head;
      && s'.size == s.size && s'.head == s.head && s'.tail == s.tail && s'.popped == s.popped
      && s'.sequence == s.sequence[head % s.size := head + 1] && s'.data == s.data[head % s.size := item]
      && s'.tickets == s.tickets
  {
    s' := Done(Done(s, Q.WriteData(p)), Q.Publish(p));
  }

  lemma OldestPublished<T>(s: Q.State<T>)
    requires Q.Inv(s) && Quiet(s)
    ensures s.tail in s.published <==> s.tail < s.head
  {
    if s.tail < s.head { assert Q.TicketOk(s, s.tail); }
  }

  /** The oldest item is taken, its slot recycled and `tail_` advanced. */
  lemma FinishPop<T>(s: Q.State<T>) returns (s': Q.State<T>)
    requires Q.Inv(s) && s.consumer.HoldsTailSequence? && Q.PopDiff(Q.Ideal, s).Zero() && s.tail < s.head
    requires forall p :: 0 <= p < |s.producers| ==> s.producers[p].Idle?
    ensures Q.Inv(s') && s'.consumer.Resting? && s'.producers == s.producers
    ensures var slot := s.tail % s.size;
      && s'.size == s.size && s'.head == s.head && s'.tail == s.tail + 1 && s'.data == s.data
      && s'.sequence == s.sequence[slot := s.tail + s.size] && s'.tickets == s.tickets
      && s'.popped == s.popped + [s.data[slot]]
  {
    s' := Done(s, Q.TakeData);
    s' := Done(Done(s', Q.Recycle), Q.AdvanceTail);
  }

  lemma PopAlone<T>(s: Q.State<T>) returns (ok: bool, s': Q.State<T>)
    requires Q.Inv(s) && Quiet(s)
    ensures ok == (s.tail < s.head) == (s.sequence[s.tail % s.size] == s.tail + 1)
    ensures Q.Inv(s') && Quiet(s') && |s'.producers| == |s.producers|
    ensures var slot := s.tail % s.size;
      if !ok then s' == s
      else
        && s.tail < |s.tickets| && s.data[slot] == s.tickets[s.tail].item
        && s'.size == s.size && s'.head == s.head && s'.tail == s.tail + 1 && s'.data == s.data
        && s'.sequence == s.sequence[slot := s.tail + s.size] && s'.tickets == s.tickets
        && s'.popped == s.popped + [s.data[slot]]
  {
    OldestPublished(s);
    Q.TailMeaning(s, s.tail);
    ok := s.tail < s.head;
    s' := Done(Done(s, Q.LoadTail), Q.LoadTailSequence);
    if ok {
      assert Q.SlotOk(s, s.tail);
      s' := FinishPop(s');
    } else {
      s' := Done(s', Q.RejectPop);
    }
  }

  class MPSCQueue<T(0)> {
    const size: nat
    const sequence: array<nat>
    const data: array<T>
    var head: nat
    var tail: nat
    /** The state of the transition system this object is in. */
    ghost var model: Q.State<T>

    ghost predicate Valid()
      reads this, sequence, data
    {
      && PowerOfTwo(size) && sequence.Length == data.Length == size && sequence as object != data as object
      && model.size == size && Q.Inv(model) && Quiet(model)
      && head == model.head && tail == model.tail
      && sequence[..] == model.sequence && data[..] == model.data
    }

    /** The tickets not yet popped, oldest first. */
    ghost function Contents(): seq<Q.Ticket<T>>
      requires |model.popped| <= |model.tickets|
      reads this
    {
      model.tickets[|model.popped|..]
    }

    constructor (n: nat, ghost producers: nat)
      requires PowerOfTwo(n)
      ensures size == n && head == tail == 0 && fresh(sequence) && fresh(data)
      ensures sequence.Length == data.Length == n && forall i :: 0 <= i < n ==> sequence[i] == i
      ensures model.tickets == [] && model.popped == [] && Contents() == [] && |model.producers| == producers
      ensures n >= 2 ==> Valid()
    {
      size := n;
      sequence := new nat[n];
      data := new T[n];
      head, tail := 0, 0;
      new;
      for i := 0 to n
        invariant forall k :: 0 <= k < i ==> sequence[k] == k
        modifies sequence
      {
        sequence[i] := i;
      }
      model := Q.State(n, 0, 0, sequence[..], data[..], seq(producers, _ => Q.Idle), Q.Resting, [], {}, [],
                       seq(producers, _ => []));
      if n >= 2 { Q.InitInv(n, model); }
    }

    /** Producer `p` pushes; its weak compare-exchange fails for no reason `flaky` times. */
    method Push(ghost p: nat, item: T, flaky: nat) returns (ok: bool)
      requires Valid() && p < |model.producers|
      modifies this, sequence, data
      ensures Valid() && |model.producers| == |old(model).producers|
      ensures ok == (|old(Contents())| < size)
      ensures Contents() == if ok then old(Contents()) + [Q.Ticket(p, item)] else old(Contents())
      ensures model.popped == old(model.popped)
    {
      ghost var succeeds, after := PushAlone(model, p, item);
      MaskIsMod(head, size);
      var failures := flaky;
      while true
        invariant Valid() && model == old(model) && unchanged(this) && unchanged(sequence) && unchanged(data)
        decreases failures
      {
        var h := head;
        var slot := And(h, size - 1);
        var diff: int := sequence[slot] as int - h;
        if diff == 0 {
          if failures == 0 {
            head := h + 1;
            data[slot] := item;
            sequence[slot] := h + 1;
            model := after;
            return true;
          }
          failures := failures - 1;
        } else if diff < 0 {
          return false;
        }
      }
    }

    method Pop() returns (ok: bool, item: T)
      requires Valid()
      modifies this, sequence, data
      ensures Valid() && |model.producers| == |old(model).producers|
      ensures ok == (old(Contents()) != [])
      ensures ok ==> item == old(Contents())[0].item && Contents() == old(Contents())[1..]
      ensures !ok ==> Contents() == old(Contents())
      ensures model.popped == if ok then old(model.popped) + [item] else old(model.popped)
    {
      ghost var succeeds, after := PopAlone(model);
      MaskIsMod(tail, size);
      var t := tail;
      var slot := And(t, size - 1);
      item := data[slot];
      if sequence[slot] as int - (t + 1) != 0 {
        return false, item;
      }
      sequence[slot] := t + size;
      tail := t + 1;
      model := after;
      return true, item;
    }

    method IsEmpty() returns (r: bool)
      requires Valid()
      ensures r == (Contents() == [])
    {
      OldestPublished(model);
      Q.TailMeaning(model, tail);
      MaskIsMod(tail, size);
      var slot := And(tail, size - 1);
      r := sequence[slot] as int - (tail + 1) < 0;
    }
  }
}

/** The single-producer single-consumer queue as the object it is: two indices and a
    buffer. A call on it, undisturbed, takes the steps of the transition system. */
module SpscObject {
  import opened Bits
  import opened Lists
  import Q = SpscQueue

  /** Less than a lap of positions leaves the next one's slot alone. */
  lemma OtherSlots(low: nat, high: nat, n: nat)
    requires n > 0 && low <= high < low + n
    ensures forall k :: low <= k < high ==> k % n != high % n
  {
    forall k | low <= k < high ensures k % n != high % n {
      if k % n == high % n { LapApart(k, high, n); }
    }
  }

  /** The elements held stand in their slots. */
  ghost predicate Stands<T>(buffer: seq<T>, pushed: seq<T>, popped: nat) {
    |buffer| > 0 && forall k :: popped <= k < |pushed| ==> buffer[k % |buffer|] == pushed[k]
  }

  /** Writing the next element leaves those held in place. */
  lemma StandsNext<T>(buffer: seq<T>, pushed: seq<T>, popped: nat, item: T)
    requires Stands(buffer, pushed, popped) && popped <= |pushed| < popped + |buffer|
    ensures Stands(buffer[|pushed| % |buffer| := item], pushed + [item], popped)
  {
    OtherSlots(popped, |pushed|, |buffer|);
  }

  class SPSCQueue<T(0)> {
    const size: nat
    const buffer: array<T>
    var head: nat
    var tail: nat
    /** The state of the transition system this object is in. */
    ghost var model: Q.State<T>

    ghost predicate Valid()
      reads this, buffer
    {
      && PowerOfTwo(size) && size <= TWO_64 && buffer.Length == size
      && model.size == size && Q.Inv(model) && model.producer.Idle? && model.consumer.Resting?
      && head == Q.Head(model) && tail == Q.Tail(model)
      && Stands(buffer[..], model.pushed, |model.popped|)
    }

    /** The elements pushed and not yet popped, oldest first. */
    ghost function Contents(): seq<T>
      requires |model.popped| <= |model.pushed|
      reads this
    {
      model.pushed[|model.popped|..]
    }

    constructor (n: nat)
      requires PowerOfTwo(n) && n <= TWO_64
      ensures Valid() && fresh(buffer) && size == n && Contents() == []
    {
      size := n;
      buffer := new T[n];
      head, tail := 0, 0;
      model := Q.Empty(n);
      new;
      Q.EmptyInv<T>(n);
    }

    /** Succeeds exactly when fewer than Size - 1 elements are held, and then appends. */
    method Push(item: T) returns (ok: bool)
      requires Valid()
      modifies this, buffer
      ensures Valid()
      ensures ok == (|old(Contents())| < size - 1)
      ensures Contents() == if ok then old(Contents()) + [item] else old(Contents())
      ensures model.pushed == (if ok then old(model.pushed) + [item] else old(model.pushed))
      ensures model.popped == old(model.popped)
    {
      ghost var pushed, popped := model.pushed, model.popped;
      ghost var succeeds, after := Q.PushAlone(model, item);
      model := after;
      var h := head;
      var nextHead := And(h + 1, size - 1);
      if nextHead == tail {
        return false;
      }
      StandsNext(buffer[..], pushed, |popped|, item);
      DropSnoc(pushed, item, |popped|);
      buffer[h] := item;
      head := nextHead;
      return true;
    }

    /** Succeeds exactly when an element is held, and then removes the oldest. */
    method Pop() returns (ok: bool, item: T)
      requires Valid()
      modifies this, buffer
      ensures Valid()
      ensures ok == (old(Contents()) != [])
      ensures ok ==> item == old(Contents())[0] && Contents() == old(Contents())[1..]
      ensures !ok ==> Contents() == old(Contents())
      ensures model.popped == (if ok then old(model.popped) + [item] else old(model.popped))
      ensures model.pushed == old(model.pushed)
    {
      ghost var pushed, popped := model.pushed, model.popped;
      ghost var succeeds, after := Q.PopAlone(model);
      model := after;
      var t := tail;
      if t == head {
        return false, buffer[t];
      }
      item := buffer[t];
      DropOne(pushed, |popped|);
      assert item == pushed[|popped|];
      tail := And(t + 1, size - 1);
      return true, item;
    }

    method IsEmpty() returns (r: bool)
      requires Valid()
      ensures r == (Contents() == [])
    {
      Q.EmptyFullObservers(size, |model.pushed|, |model.popped|);
      Q.SizeIsDifference(size, |model.pushed|, |model.popped|);
      r := tail == head;
    }

    method IsFull() returns (r: bool)
      requires Valid()
      ensures r == (|Contents()| == size - 1)
    {
      Q.EmptyFullObservers(size, |model.pushed|, |model.popped|);
      Q.SizeIsDifference(size, |model.pushed|, |model.popped|);
      var nextHead := And(head + 1, size - 1);
      r := nextHead == tail;
    }

    method Count() returns (r: nat)
      requires Valid()
      ensures r == |Contents()| <= size - 1
    {
      Q.SizeIsDifference(size, |model.pushed|, |model.popped|);
      r := And((head - tail) % TWO_64, size - 1);
    }
  }
}

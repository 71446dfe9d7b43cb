/** The records that travel through the pipeline. */
module Types {
  import opened Bits

  datatype Option<T> = None | Some(value: T)

  type Byte = x: int | 0 <= x < 0x100

  const MAX_PACKET_SIZE: nat := 9000
  const PACKET_RING_SIZE: nat := 0x4000

  type Word64 = x: int | 0 <= x < TWO_64

  /** What a 64-bit counter shows of a total. */
  function Wrap(n: nat): Word64 { n % TWO_64 }

  lemma WrapSmall(n: nat)
    ensures Wrap(n) <= n && (Wrap(n) == n <==> n < TWO_64)
  {
  }

  lemma WrapSum(a: nat, b: nat)
    ensures Wrap(Wrap(a) + b) == Wrap(a + b)
  {
    SameSlot(a + b, a % TWO_64 + b, a / TWO_64, TWO_64);
  }

  /** The number after `n` on 32 bits. */
  function Next32(n: nat): (r: nat)
    ensures r < TWO_32
  {
    (n + 1) % TWO_32
  }

  /** Addition on 64-bit counters. */
  function Add64(a: Word64, b: nat): Word64 { Wrap(a + b) }

  lemma Add64Zero(a: Word64)
    ensures Add64(a, 0) == a
  {
  }

  lemma Add64Twice(a: Word64, b: nat, c: nat)
    ensures Add64(Add64(a, b), c) == Add64(a, b + c)
  {
    WrapSum(a + b, c);
  }

  /** A counter that shows a total shows the new total after an addition. */
  lemma Accumulate(counter: Word64, total: nat, n: nat, total': nat)
    requires counter == Wrap(total) && total' == total + n
    ensures Add64(counter, n) == Wrap(total')
  {
    WrapSum(total, n);
  }

  datatype MessageType =
    | Unknown | Trade | Quote | OrderAdd | OrderModify | OrderDelete | OrderExecute | Imbalance | SystemEvent

  /** A received datagram. */
  datatype Packet = Packet(data: seq<Byte>, timestamp: nat)

  /** A reference to a packet's bytes; `None` is the null pointer. */
  datatype MessageView = MessageView(data: Option<seq<Byte>>, timestamp: nat, sequence: nat) {
    predicate IsValid() { data.Some? && |data.value| > 0 }
  }

  datatype NormalizedMessage = NormalizedMessage(
    kind: MessageType, instrumentId: nat, orderId: nat, price: int, quantity: nat,
    side: nat, timestamp: nat, localTimestamp: nat, sequence: nat)

  const DEFAULT_MESSAGE := NormalizedMessage(Unknown, 0, 0, 0, 0, 0, 0, 0, 0)

  const UINT64_MAX: Word64 := 0xFFFF_FFFF_FFFF_FFFF

  /** The dispatcher's counters. */
  datatype Statistics = Statistics(
    packetsDropped: nat, messagesDispatched: nat, minLatency: Word64, maxLatency: Word64, totalLatency: Word64)
  {
    function UpdateLatency(latency: Word64): Statistics {
      this.(minLatency := if latency < minLatency then latency else minLatency,
            maxLatency := if latency > maxLatency then latency else maxLatency,
            totalLatency := Add64(totalLatency, latency))
    }
  }

  const NO_STATISTICS := Statistics(0, 0, UINT64_MAX, 0, 0)
}

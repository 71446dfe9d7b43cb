/** The parser object: its loop, its counters and its stock map. */
module ItchParser {
  import opened Types
  import opened Wire
  import opened Framing
  import opened ItchFormat

  /** `read_u16_be`, `read_u32_be` or `read_u64_be` of a field. */
  method ReadAt(body: Body, offset: nat, width: nat) returns (r: nat)
    requires offset + width <= |body|
    ensures r == At(body, offset, width)
  {
    r := Read(body[offset..offset + width]);
  }

  /** The two kinds of Add Order, and Trade: type, order, side, shares and price. */
  method DecodeSided(kind: MessageType, body: Body, out: NormalizedMessage) returns (r: NormalizedMessage)
    requires |body| >= 38
    ensures r == out.(kind := kind, orderId := At(body, 13, 8), side := SideCode(At(body, 21, 1)),
                      quantity := At(body, 22, 4), price := At(body, 34, 4))
  {
    var order := ReadAt(body, 13, 8);
    var shares := ReadAt(body, 22, 4);
    var price := ReadAt(body, 34, 4);
    OneByte(body, 21);
    r := out.(kind := kind, orderId := order, side := if body[21] == 'B' as int then 0 else 1,
              quantity := shares, price := price);
  }

  /** The decoder the type byte selects: field by field into the record that was there. */
  method DecodeFields(k: Kind, body: Body, local: nat, out: NormalizedMessage) returns (r: NormalizedMessage)
    requires Accepts(body) && KindOfBody(body) == k
    ensures r == Decode(body, local, out)
  {
    var locate := ReadAt(body, 0, 2);
    var tracking := ReadAt(body, 2, 2);
    var timestamp := ReadAt(body, 4, 8);
    r := out.(instrumentId := locate, timestamp := timestamp, localTimestamp := local, sequence := tracking);
    match k
    case SystemEvent =>
      r := r.(kind := MessageType.SystemEvent, instrumentId := 0);
    case StockDirectory =>
      r := r.(kind := MessageType.SystemEvent);
    case AddOrder =>
      r := DecodeSided(OrderAdd, body, r);
    case AddOrderMpid =>
      r := DecodeSided(OrderAdd, body, r);
    case OrderExecuted =>
      var order := ReadAt(body, 13, 8);
      var shares := ReadAt(body, 21, 4);
      r := r.(kind := OrderExecute, orderId := order, quantity := shares);
    case OrderExecutedWithPrice =>
      var order := ReadAt(body, 13, 8);
      var shares := ReadAt(body, 21, 4);
      var price := ReadAt(body, 34, 4);
      r := r.(kind := OrderExecute, orderId := order, quantity := shares, price := price);
    case OrderCancel =>
      var order := ReadAt(body, 13, 8);
      var shares := ReadAt(body, 21, 4);
      r := r.(kind := OrderModify, orderId := order, quantity := shares);
    case OrderDelete =>
      var order := ReadAt(body, 13, 8);
      r := r.(kind := MessageType.OrderDelete, orderId := order);
    case OrderReplace =>
      var order := ReadAt(body, 21, 8);
      var shares := ReadAt(body, 29, 4);
      var price := ReadAt(body, 33, 4);
      r := r.(kind := OrderModify, orderId := order, quantity := shares, price := price);
    case Trade =>
      r := DecodeSided(MessageType.Trade, body, r);
  }

  class ItchParser {
    var messagesParsed: Word64
    var parseErrors: Word64
    var stockMap: Stocks

    function State(): ParserState
      reads this
    {
      ParserState(messagesParsed, parseErrors, stockMap)
    }

    constructor ()
      ensures State() == FRESH
    {
      messagesParsed, parseErrors, stockMap := 0, 0, map[];
    }

    method Reset()
      modifies this
      ensures State() == FRESH
    {
      messagesParsed, parseErrors, stockMap := 0, 0, map[];
    }

    /** The switch on the type byte and the decoder it selects, writing one output slot. */
    method ParseMessage(body: Body, output: array<NormalizedMessage>, slot: nat, local: nat) returns (ok: bool)
      requires slot < output.Length
      modifies this, output
      ensures ok == Accepts(body)
      ensures Parsed(State(), output[..], if ok then slot + 1 else slot)
           == ParseOne(ITCH, Parsed(old(State()), old(output[..]), slot), body, local)
    {
      if |body| < 13 {
        parseErrors := Add64(parseErrors, 1);
        return false;
      }
      var kind := KindOf(body[12]);
      if kind.None? || |body| < Size(kind.value) {
        return false;
      }
      if kind.value.StockDirectory? {
        var locate := ReadAt(body, 0, 2);
        stockMap := stockMap[locate := body[13..21]];
      }
      output[slot] := DecodeFields(kind.value, body, local, output[slot]);
      return true;
    }

    /** One well-formed frame. */
    method ParseFrame(data: seq<Byte>, offset: nat, length: nat, output: array<NormalizedMessage>, slot: nat,
                      max: nat, local: nat) returns (next: nat)
      requires slot < max <= output.Length && FrameAt(data, offset) && length == LengthAt(data, offset)
      modifies this, output
      ensures Rest(ITCH, Parsed(State(), output[..], next), data, offset + length, local, max)
           == Rest(ITCH, Parsed(old(State()), old(output[..]), slot), data, offset, local, max)
    {
      var body := data[offset + 2..offset + length];
      LoopStep(ITCH, Parsed(State(), output[..], slot), data, offset, offset + length, local, max);
      var ok := ParseMessage(body, output, slot, local);
      next := if ok then slot + 1 else slot;
    }

    /** The loop over the packet: it stays inside the packet and stops. */
    method ParseFrames(data: seq<Byte>, output: array<NormalizedMessage>, max: nat, local: nat) returns (count: nat)
      requires max <= output.Length
      modifies this, output
      ensures Parsed(State(), output[..], count)
           == Rest(ITCH, Parsed(old(State()), old(output[..]), 0), data, 0, local, max)
    {
      count := 0;
      var remaining, offset := |data|, 0;
      ghost var whole := Rest(ITCH, Parsed(State(), output[..], 0), data, 0, local, max);
      while remaining >= 3 && count < max
        invariant 0 <= offset <= |data| && offset + remaining == |data|
        invariant Rest(ITCH, Parsed(State(), output[..], count), data, offset, local, max) == whole
        decreases remaining
      {
        var length := ReadU16(data, offset);
        if length < 3 || length > remaining {
          LoopStops(ITCH, Parsed(State(), output[..], count), data, offset, local, max);
          parseErrors := Add64(parseErrors, 1);
          return;
        }
        count := ParseFrame(data, offset, length, output, count, max, local);
        offset, remaining := offset + length, remaining - length;
      }
      LoopStops(ITCH, Parsed(State(), output[..], count), data, offset, local, max);
    }

    /** `parse` computes exactly what `ParsePacket` says. */
    method Parse(view: MessageView, output: array<NormalizedMessage>, max: nat) returns (count: nat)
      requires max <= output.Length
      modifies this, output
      ensures Parsed(State(), output[..], count) == ParsePacket(ITCH, old(State()), old(output[..]), view, max)
    {
      if !view.IsValid() || max == 0 {
        NothingParsed(ITCH, State(), output[..], view, max);
        return 0;
      }
      ItchValid();
      LoopMeetsSpec(ITCH, State(), output[..], view, max);
      count := ParseFrames(view.data.value, output, max, view.timestamp);
      messagesParsed := Add64(messagesParsed, count);
    }
  }
}

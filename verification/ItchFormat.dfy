/** The ITCH 5.0 messages: which frames the parser accepts, and what each of its ten
    decoders writes. */
module ItchFormat {
  import opened Framing
  import opened Types
  import opened Wire

  predicate TooShort(body: Body) { |body| < 13 }

  predicate Accepts(body: Body) {
    !TooShort(body) && KindOf(body[12]).Some? && |body| >= Size(KindOf(body[12]).value)
  }

  function KindOfBody(body: Body): Kind
    requires Accepts(body)
  {
    KindOf(body[12]).value
  }

  /** The big-endian number of `width` bytes at `offset`. */
  function At(body: Body, offset: nat, width: nat): nat {
    if offset + width <= |body| then BigEndian(body[offset..offset + width]) else 0
  }

  lemma OneByte(body: Body, offset: nat)
    requires offset < |body|
    ensures At(body, offset, 1) == body[offset]
  {
    var d := body[offset..offset + 1];
    assert d[..0] == [] && BigEndian(d[..0]) == 0;
  }

  function SideCode(b: nat): nat { if b == 'B' as int then 0 else 1 }

  /** What one decoder assigns besides instrument, sequence and timestamps: the message
      type, and the fields it reads from the body, with their offsets. */
  datatype Plan = Plan(
    kind: MessageType, order: Option<nat>, side: Option<nat>, quantity: Option<nat>, price: Option<nat>)

  function PlanOf(k: Kind): Plan {
    match k
    case SystemEvent => Plan(MessageType.SystemEvent, None, None, None, None)
    case StockDirectory => Plan(MessageType.SystemEvent, None, None, None, None)
    case AddOrder => Plan(OrderAdd, Some(13), Some(21), Some(22), Some(34))
    case AddOrderMpid => Plan(OrderAdd, Some(13), Some(21), Some(22), Some(34))
    case OrderExecuted => Plan(OrderExecute, Some(13), None, Some(21), None)
    case OrderExecutedWithPrice => Plan(OrderExecute, Some(13), None, Some(21), Some(34))
    case OrderCancel => Plan(OrderModify, Some(13), None, Some(21), None)
    case OrderDelete => Plan(MessageType.OrderDelete, Some(13), None, None, None)
    case OrderReplace => Plan(OrderModify, Some(21), None, Some(29), Some(33))
    case Trade => Plan(MessageType.Trade, Some(13), Some(21), Some(22), Some(34))
  }

  /** What `parse_message` leaves in the output slot: the fields its decoder assigns are
      overwritten, the others stay; a refused message changes nothing. */
  function Decode(body: Body, local: nat, out: NormalizedMessage): NormalizedMessage {
    if !Accepts(body) then out
    else
      var k := KindOfBody(body);
      var plan := PlanOf(k);
      NormalizedMessage(
        plan.kind,
        if k.SystemEvent? then 0 else At(body, 0, 2),
        if plan.order.Some? then At(body, plan.order.value, 8) else out.orderId,
        if plan.price.Some? then At(body, plan.price.value, 4) else out.price,
        if plan.quantity.Some? then At(body, plan.quantity.value, 4) else out.quantity,
        if plan.side.Some? then SideCode(At(body, plan.side.value, 1)) else out.side,
        At(body, 4, 8), local, At(body, 2, 2))
  }

  /** A Stock Directory message names the stock behind its locate code. */
  function NoteStock(stocks: Stocks, body: Body): Stocks {
    if Accepts(body) && KindOfBody(body).StockDirectory? then stocks[At(body, 0, 2) := body[13..21]] else stocks
  }

  const ITCH := Protocol(Accepts, TooShort, Decode, NoteStock)

  lemma ItchValid()
    ensures ITCH.Valid()
  {
  }
}

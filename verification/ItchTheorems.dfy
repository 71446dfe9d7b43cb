/** The ITCH parser and the packet builder against each other, and what the parser's
    stock map and the reused output buffer hold after any series of packets. */
module ItchTheorems {
  import opened Bits
  import opened Lists
  import opened Types
  import opened Wire
  import opened Framing
  import opened ItchFormat
  import opened ItchTable
  import opened ItchCodec
  import opened ItchGenerator
  import opened ParserTheorems

  // -------------------------------------------------------------- round trip

  /** What should come out of the parser for a message that was built: everything it
      carries, and the slot's old price and side where it carries none. */
  function Recovered(m: Built, local: nat, out: NormalizedMessage): NormalizedMessage {
    match m
    case BuiltAdd(locate, tracking, timestamp, orderRef, side, shares, _, price) =>
      var code := if side == 'B' as int then 0 else 1;
      NormalizedMessage(OrderAdd, locate, orderRef, price, shares, code, timestamp, local, tracking)
    case BuiltExecuted(locate, tracking, timestamp, orderRef, shares, _) =>
      NormalizedMessage(OrderExecute, locate, orderRef, out.price, shares, out.side, timestamp, local, tracking)
    case BuiltTrade(locate, tracking, timestamp, orderRef, side, shares, _, price, _) =>
      var code := if side == 'B' as int then 0 else 1;
      NormalizedMessage(MessageType.Trade, locate, orderRef, price, shares, code, timestamp, local, tracking)
  }

  function Bodies(ms: seq<Built>): seq<Body> {
    seq(|ms|, i requires 0 <= i < |ms| => BodyOf(ms[i]))
  }

  lemma Limit(width: nat)
    requires width == 1 || width == 2 || width == 4 || width == 8
    ensures Pow2(8 * width) == if width == 1 then 0x100 else if width == 2 then 0x1_0000
                               else if width == 4 then TWO_32 else TWO_64
  {
    WordSizes();
  }

  lemma BuiltFits(m: Built)
    ensures Fits(Layout(KindOfBuilt(m)), Values(m))
  {
    var w := Layout(KindOfBuilt(m));
    forall i | 0 <= i < |w| ensures Values(m)[i] < Pow2(8 * w[i]) { ValueFits(m, i); }
  }

  lemma ValueFits(m: Built, i: nat)
    requires i < |Layout(KindOfBuilt(m))|
    ensures Values(m)[i] < Pow2(8 * Layout(KindOfBuilt(m))[i])
  {
    Limit(Layout(KindOfBuilt(m))[i]);
    match m
    case BuiltAdd(_, _, _, _, _, _, stock, _) => BigEndianBound(stock);
    case BuiltExecuted(_, _, _, _, _, _) =>
    case BuiltTrade(_, _, _, _, _, _, stock, _, _) => BigEndianBound(stock);
  }

  lemma ExpectedIsRecovered(m: Built, local: nat, out: NormalizedMessage)
    requires |Values(m)| == |Layout(KindOfBuilt(m))|
    ensures Expected(KindOfBuilt(m), Values(m), local, out) == Recovered(m, local, out)
  {
    PlanFollowsLayout(KindOfBuilt(m));
    match m
    case BuiltAdd(_, _, _, _, _, _, _, _) =>
    case BuiltExecuted(_, _, _, _, _, _) =>
    case BuiltTrade(_, _, _, _, _, _, _, _, _) =>
  }

  lemma BuiltDecodes(m: Built, local: nat, out: NormalizedMessage)
    ensures Accepts(BodyOf(m)) && Framable(BodyOf(m)) && KindOfBody(BodyOf(m)) == KindOfBuilt(m)
    ensures Decode(BodyOf(m), local, out) == Recovered(m, local, out)
  {
    var k := KindOfBuilt(m);
    BuiltFits(m);
    SizesMatchLayouts(k);
    DecodePacked(k, Values(m), [], local, out);
    ExpectedIsRecovered(m, local, out);
    NothingAfter(BodyOf(m));
  }

  lemma {:induction false} NothingListed(stocks: Stocks, frames: seq<Body>)
    requires forall f :: f in frames ==> Accepts(f) && !KindOfBody(f).StockDirectory?
    ensures NoteAll(ITCH, stocks, frames) == stocks
  {
    if frames != [] {
      assert frames[|frames| - 1] in frames;
      NothingListed(stocks, frames[..|frames| - 1]);
    }
  }

  lemma VisitedOnly(view: MessageView, bodies: seq<Body>, max: nat)
    requires view.IsValid() && SplitFrames(view.data.value) == Split(bodies, 0)
    ensures forall f :: f in Visited(ITCH, view, max) ==> f in bodies
  {
    UpToAll(Accepts, bodies, max);
  }

  lemma NoErrors(view: MessageView, bodies: seq<Body>, max: nat)
    requires view.IsValid() && SplitFrames(view.data.value) == Split(bodies, 0)
    requires forall b :: b in bodies ==> Accepts(b)
    ensures PacketErrors(ITCH, view, max) == 0
  {
    VisitedOnly(view, bodies, max);
    FilterNone(TooShort, Visited(ITCH, view, max));
  }

  lemma AllAccepted(view: MessageView, bodies: seq<Body>, max: nat)
    requires view.IsValid() && SplitFrames(view.data.value) == Split(bodies, 0) && |bodies| <= max
    requires forall b :: b in bodies ==> Accepts(b)
    ensures Accepted(ITCH, view, max) == bodies
  {
    FilterAll(Accepts, bodies);
    UpToFilter(Accepts, bodies, max);
  }

  /** A packet of accepted frames, none a stock listing, with room for all of them. */
  lemma ParseAccepted(view: MessageView, bodies: seq<Body>, st: ParserState, buffer: seq<NormalizedMessage>, max: nat)
    requires view.IsValid() && SplitFrames(view.data.value) == Split(bodies, 0) && |bodies| <= max
    requires forall b :: b in bodies ==> Accepts(b) && !KindOfBody(b).StockDirectory?
    ensures ParsePacket(ITCH, st, buffer, view, max)
         == Parsed(st.(parsed := Add64(st.parsed, |bodies|)),
                   Overlay(ITCH.Decoder(view.timestamp), buffer, bodies), |bodies|)
  {
    AllAccepted(view, bodies, max);
    NoErrors(view, bodies, max);
    VisitedOnly(view, bodies, max);
    NothingListed(st.stocks, Visited(ITCH, view, max));
    Add64Zero(st.errors);
  }

  lemma BuiltBodies(ms: seq<Built>)
    ensures forall b :: b in Bodies(ms) ==> Framable(b) && Accepts(b) && !KindOfBody(b).StockDirectory?
  {
    forall b | b in Bodies(ms) ensures Framable(b) && Accepts(b) && !KindOfBody(b).StockDirectory? {
      var i :| 0 <= i < |ms| && b == BodyOf(ms[i]);
      BuiltDecodes(ms[i], 0, DEFAULT_MESSAGE);
    }
  }

  /** Parsing a built packet gives back the messages: as many, in order, each field
      recovered, the rest of the buffer untouched, no error counted and no stock noted. */
  lemma PacketRoundTrip(ms: seq<Built>, st: ParserState, buffer: seq<NormalizedMessage>,
                        timestamp: nat, sequence: nat, max: nat)
    requires |ms| <= max <= |buffer|
    ensures var r := ParsePacket(ITCH, st, buffer, MessageView(Some(Framed(Bodies(ms))), timestamp, sequence), max);
      && r.count == |ms|
      && |r.buffer| == |buffer|
      && (forall i :: 0 <= i < |ms| ==> r.buffer[i] == Recovered(ms[i], timestamp, buffer[i]))
      && (forall i :: |ms| <= i < |buffer| ==> r.buffer[i] == buffer[i])
      && r.state == st.(parsed := Add64(st.parsed, |ms|))
  {
    var bodies := Bodies(ms);
    var view := MessageView(Some(Framed(bodies)), timestamp, sequence);
    if ms == [] {
      NothingParsed(ITCH, st, buffer, view, max);
    } else {
      BuiltBodies(ms);
      FramingRoundTrip(bodies);
      ParseAccepted(view, bodies, st, buffer, max);
      forall i | 0 <= i < |ms|
        ensures Decode(bodies[i], timestamp, buffer[i]) == Recovered(ms[i], timestamp, buffer[i])
      {
        BuiltDecodes(ms[i], timestamp, buffer[i]);
      }
    }
  }

  // --------------------------------------------------------------- stock map

  /** The symbol the last frame of type 'R' and at least 41 bytes gave a locate code. */
  function LastListing(frames: seq<Body>, locate: nat): Option<seq<Byte>> {
    if frames == [] then None
    else
      var f := frames[|frames| - 1];
      if |f| >= 41 && f[12] == 'R' as int && BigEndian(f[0..2]) == locate then Some(f[13..21])
      else LastListing(frames[..|frames| - 1], locate)
  }

  /** After any series since a reset the stock map holds, for each locate code, what the
      last Stock Directory frame among the visited ones gave it, and nothing else: frames
      beyond the cap or behind a bad length have no effect. */
  lemma StockMapIsLastListing(max: nat, views: seq<MessageView>, locate: nat)
    ensures var stocks := ParseSeries(ITCH, max, views).state.stocks;
      LastListing(AllVisited(ITCH, max, views), locate)
      == if locate in stocks then Some(stocks[locate]) else None
  {
    SeriesStocks(ITCH, max, views);
    FoldIsLast(AllVisited(ITCH, max, views), locate);
  }

  lemma {:induction false} FoldIsLast(frames: seq<Body>, locate: nat)
    ensures var stocks := NoteAll(ITCH, map[], frames);
      LastListing(frames, locate) == if locate in stocks then Some(stocks[locate]) else None
  {
    if frames != [] {
      FoldIsLast(frames[..|frames| - 1], locate);
      NoteTable(NoteAll(ITCH, map[], frames[..|frames| - 1]), frames[|frames| - 1]);
    }
  }

  // ----------------------------------------------------------- reused buffer

  datatype FieldName =
    | Type | InstrumentId | OrderId | Price | Quantity | Side | Timestamp | LocalTimestamp | Sequence

  /** A field of a record; the message type counts as its position in the enumeration. */
  function Get(m: NormalizedMessage, f: FieldName): int {
    match f
    case Type => TypeNumber(m.kind)
    case InstrumentId => m.instrumentId
    case OrderId => m.orderId
    case Price => m.price
    case Quantity => m.quantity
    case Side => m.side
    case Timestamp => m.timestamp
    case LocalTimestamp => m.localTimestamp
    case Sequence => m.sequence
  }

  function TypeNumber(t: MessageType): int {
    match t
    case Unknown => 0 case Trade => 1 case Quote => 2 case OrderAdd => 3 case OrderModify => 4
    case OrderDelete => 5 case OrderExecute => 6 case Imbalance => 7 case SystemEvent => 8
  }

  /** The nine fields are all there is to a record. */
  lemma FieldsDetermine(m: NormalizedMessage, m': NormalizedMessage)
    requires forall f: FieldName :: Get(m, f) == Get(m', f)
    ensures m == m'
  {
    assert Get(m, Type) == Get(m', Type) && Get(m, InstrumentId) == Get(m', InstrumentId);
    assert Get(m, OrderId) == Get(m', OrderId) && Get(m, Price) == Get(m', Price);
    assert Get(m, Quantity) == Get(m', Quantity) && Get(m, Side) == Get(m', Side);
    assert Get(m, Timestamp) == Get(m', Timestamp) && Get(m, LocalTimestamp) == Get(m', LocalTimestamp);
    assert Get(m, Sequence) == Get(m', Sequence);
  }

  /** Which fields the decoder of a kind assigns. */
  predicate Assigns(k: Kind, f: FieldName) {
    match f
    case OrderId => !k.SystemEvent? && !k.StockDirectory?
    case Price => k.AddOrder? || k.AddOrderMpid? || k.OrderExecutedWithPrice? || k.OrderReplace? || k.Trade?
    case Quantity => !k.SystemEvent? && !k.StockDirectory? && !k.OrderDelete?
    case Side => k.AddOrder? || k.AddOrderMpid? || k.Trade?
    case _ => true
  }

  /** An assigned field depends on the message alone, an unassigned one is kept. */
  lemma DecodeField(body: Body, local: nat, out: NormalizedMessage, f: FieldName)
    requires Accepts(body)
    ensures Get(Decode(body, local, out), f) ==
      if Assigns(KindOfBody(body), f) then Get(Decode(body, local, DEFAULT_MESSAGE), f) else Get(out, f)
  {
  }

  /** The value a slot's field was last given: by the latest packet that put a message of
      an assigning kind into that slot, or zero if there was none. */
  function LastAssigned(max: nat, views: seq<MessageView>, slot: nat, f: FieldName): int {
    if views == [] then 0
    else
      var view := views[|views| - 1];
      var accepted := Accepted(ITCH, view, max);
      if slot < |accepted| && Accepts(accepted[slot]) && Assigns(KindOfBody(accepted[slot]), f) then
        Get(Decode(accepted[slot], view.timestamp, DEFAULT_MESSAGE), f)
      else
        LastAssigned(max, views[..|views| - 1], slot, f)
  }

  /** Through any series of packets into one buffer, every field of every slot holds the
      value it was last assigned, which is a function of the assigning packet alone. */
  lemma {:induction false} BufferIsLastAssigned(max: nat, views: seq<MessageView>, slot: nat, f: FieldName)
    requires slot < max
    ensures Get(ParseSeries(ITCH, max, views).buffer[slot], f) == LastAssigned(max, views, slot, f)
  {
    if views != [] {
      var init, view := views[..|views| - 1], views[|views| - 1];
      BufferIsLastAssigned(max, init, slot, f);
      var accepted, before := Accepted(ITCH, view, max), ParseSeries(ITCH, max, init).buffer;
      assert ParseSeries(ITCH, max, views).buffer[slot] ==
        if slot < |accepted| then Decode(accepted[slot], view.timestamp, before[slot]) else before[slot];
      if slot < |accepted| {
        FilterHolds(Accepts, Visited(ITCH, view, max), slot);
        DecodeField(accepted[slot], view.timestamp, before[slot], f);
      }
    }
  }
}

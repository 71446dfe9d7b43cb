/** The parser's answers with the letters, lengths and byte ranges of the wire format written
    out, kind by kind. */
module ItchTable {
  import opened Lists
  import opened Types
  import opened Wire
  import opened Framing
  import opened ItchFormat
  import opened ParserTheorems

  /** The ten letters the switch knows, each with the least length its decoder takes. */
  function LeastLength(letter: char): Option<nat> {
    match letter
    case 'S' => Some(14) case 'R' => Some(41) case 'A' => Some(38) case 'F' => Some(42) case 'E' => Some(33)
    case 'C' => Some(38) case 'X' => Some(25) case 'D' => Some(21) case 'U' => Some(37) case 'P' => Some(46)
    case _ => None
  }

  function Letter(body: Body): char
    requires |body| >= 13
  {
    body[12] as char
  }

  /** Which frames are accepted, and which count as errors. */
  lemma AcceptsTable(body: Body)
    ensures ITCH.accepts(body) <==>
      |body| >= 13 && LeastLength(Letter(body)).Some? && |body| >= LeastLength(Letter(body)).value
    ensures ITCH.tooShort(body) <==> |body| < 13
  {
  }

  /** Add Order, with and without attribution, and Trade. */
  lemma SidedTable(body: Body, local: nat, out: NormalizedMessage)
    requires |body| >= 13 && (Letter(body) == 'A' || Letter(body) == 'F' || Letter(body) == 'P')
    requires |body| >= (if Letter(body) == 'A' then 38 else if Letter(body) == 'F' then 42 else 46)
    ensures ITCH.decode(body, local, out) == NormalizedMessage(
      if Letter(body) == 'P' then MessageType.Trade else OrderAdd,
      BigEndian(body[0..2]), BigEndian(body[13..21]), BigEndian(body[34..38]), BigEndian(body[22..26]),
      if body[21] == 'B' as int then 0 else 1, BigEndian(body[4..12]), local, BigEndian(body[2..4]))
  {
    OneByte(body, 21);
  }

  /** Order Executed, and with a price: the side is kept, and without a price the price too. */
  lemma ExecutedTable(body: Body, local: nat, out: NormalizedMessage)
    requires |body| >= 13 && (Letter(body) == 'E' || Letter(body) == 'C')
    requires |body| >= (if Letter(body) == 'E' then 33 else 38)
    ensures ITCH.decode(body, local, out) == NormalizedMessage(
      OrderExecute, BigEndian(body[0..2]), BigEndian(body[13..21]),
      if Letter(body) == 'C' then BigEndian(body[34..38]) else out.price, BigEndian(body[21..25]),
      out.side, BigEndian(body[4..12]), local, BigEndian(body[2..4]))
  {
  }

  /** Order Cancel, Delete and Replace: a cancel keeps the price, a delete also the quantity,
      a replacement takes the new reference; all keep the side. */
  lemma ChangedTable(body: Body, local: nat, out: NormalizedMessage)
    requires |body| >= 13 && (Letter(body) == 'X' || Letter(body) == 'D' || Letter(body) == 'U')
    requires |body| >= (if Letter(body) == 'X' then 25 else if Letter(body) == 'D' then 21 else 37)
    ensures ITCH.decode(body, local, out) ==
      match Letter(body)
      case 'X' => NormalizedMessage(
        OrderModify, BigEndian(body[0..2]), BigEndian(body[13..21]), out.price, BigEndian(body[21..25]),
        out.side, BigEndian(body[4..12]), local, BigEndian(body[2..4]))
      case 'D' => NormalizedMessage(
        MessageType.OrderDelete, BigEndian(body[0..2]), BigEndian(body[13..21]), out.price, out.quantity,
        out.side, BigEndian(body[4..12]), local, BigEndian(body[2..4]))
      case _ => NormalizedMessage(
        OrderModify, BigEndian(body[0..2]), BigEndian(body[21..29]), BigEndian(body[33..37]),
        BigEndian(body[29..33]), out.side, BigEndian(body[4..12]), local, BigEndian(body[2..4]))
  {
  }

  /** System Event and Stock Directory keep order, price, quantity and side; the first is for
      no instrument. */
  lemma EventTable(body: Body, local: nat, out: NormalizedMessage)
    requires |body| >= 13 && (Letter(body) == 'S' || Letter(body) == 'R')
    requires |body| >= (if Letter(body) == 'S' then 14 else 41)
    ensures ITCH.decode(body, local, out) == NormalizedMessage(
      MessageType.SystemEvent, if Letter(body) == 'S' then 0 else BigEndian(body[0..2]), out.orderId, out.price,
      out.quantity, out.side, BigEndian(body[4..12]), local, BigEndian(body[2..4]))
  {
  }

  /** A Stock Directory message, and only that, names the stock behind its locate code. */
  lemma NoteTable(stocks: Stocks, body: Body)
    ensures ITCH.note(stocks, body) ==
      if |body| >= 41 && Letter(body) == 'R' then stocks[BigEndian(body[0..2]) := body[13..21]] else stocks
  {
  }

  /** What one frame does to the parser when it is not accepted: fewer than 13 bytes count as an
      error; an unknown letter, or too few bytes for a known one, changes nothing at all. */
  lemma RefusedFrame(p: Parsed, body: Body, local: nat)
    requires |body| < 13 || LeastLength(Letter(body)).None? || |body| < LeastLength(Letter(body)).value
    ensures ParseOne(ITCH, p, body, local) == if |body| < 13 then BadLength(p) else p
  {
    AcceptsTable(body);
    NoteTable(p.state.stocks, body);
    ItchValid();
    Add64Zero(p.state.errors);
    if p.count < |p.buffer| { assert p.buffer[p.count := p.buffer[p.count]] == p.buffer; }
  }

  predicate Under13(body: Body) { |body| < 13 }

  lemma {:induction false} SameFilter(p: Body -> bool, q: Body -> bool, xs: seq<Body>)
    requires forall x :: p(x) <==> q(x)
    ensures Filter(p, xs) == Filter(q, xs)
  {
    if xs != [] { SameFilter(p, q, xs[..|xs| - 1]); }
  }

  /** The error counter over any series since a reset: the visited frames of fewer than 13
      bytes, and the packets stopped by a bad length. */
  lemma ItchErrors(max: nat, views: seq<MessageView>)
    ensures ErrorTotal(ITCH, max, views)
         == |Filter(Under13, AllVisited(ITCH, max, views))| + BadPackets(ITCH, max, views)
    ensures ParseSeries(ITCH, max, views).state.errors == Wrap(ErrorTotal(ITCH, max, views))
  {
    SeriesErrors(ITCH, max, views);
    ErrorKinds(ITCH, max, views);
    forall body: Body ensures ITCH.tooShort(body) <==> Under13(body) { AcceptsTable(body); }
    SameFilter(ITCH.tooShort, Under13, AllVisited(ITCH, max, views));
  }
}

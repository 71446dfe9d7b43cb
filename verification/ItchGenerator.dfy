/** The packet builder: it stores fields into a buffer, byte by byte, and strings the
    messages together behind their lengths. */
module ItchGenerator {
  import opened Bits
  import opened Lists
  import opened Types
  import opened Wire
  import opened Framing

  type U16 = x: int | 0 <= x < 0x1_0000
  type U32 = x: int | 0 <= x < TWO_32

  /** An eight-character symbol, as the builders copy it. */
  type Symbol = s: seq<Byte> | |s| == 8 witness [0, 0, 0, 0, 0, 0, 0, 0]

  datatype Built =
    | BuiltAdd(locate: U16, tracking: U16, timestamp: Word64, orderRef: Word64,
               side: Byte, shares: U32, stock: Symbol, price: U32)
    | BuiltExecuted(locate: U16, tracking: U16, timestamp: Word64, orderRef: Word64,
                    shares: U32, matchNumber: Word64)
    | BuiltTrade(locate: U16, tracking: U16, timestamp: Word64, orderRef: Word64,
                 side: Byte, shares: U32, stock: Symbol, price: U32, matchNumber: Word64)

  function KindOfBuilt(m: Built): Kind {
    match m
    case BuiltAdd(_, _, _, _, _, _, _, _) => AddOrder
    case BuiltExecuted(_, _, _, _, _, _) => OrderExecuted
    case BuiltTrade(_, _, _, _, _, _, _, _, _) => Kind.Trade
  }

  function Values(m: Built): seq<nat> {
    match m
    case BuiltAdd(locate, tracking, timestamp, orderRef, side, shares, stock, price) =>
      [locate, tracking, timestamp, 'A' as int, orderRef, side, shares, BigEndian(stock), price]
    case BuiltExecuted(locate, tracking, timestamp, orderRef, shares, matchNumber) =>
      [locate, tracking, timestamp, 'E' as int, orderRef, shares, matchNumber]
    case BuiltTrade(locate, tracking, timestamp, orderRef, side, shares, stock, price, matchNumber) =>
      [locate, tracking, timestamp, 'P' as int, orderRef, side, shares, BigEndian(stock), price, matchNumber]
  }

  /** The message as a packed structure. */
  function BodyOf(m: Built): Body {
    Pack(Layout(KindOfBuilt(m)), Values(m))
  }

  // ----------------------------------------------------------------- writers

  method WriteU16(dest: array<Byte>, at: nat, value: U16)
    requires at + 2 <= dest.Length
    modifies dest
    ensures dest[..at] == old(dest[..at]) && dest[at + 2..] == old(dest[at + 2..])
    ensures dest[at..at + 2] == ToBytes(value, 2)
  {
    dest[at] := And(Shr(value, 8), 0xFF);
    dest[at + 1] := And(value, 0xFF);
    forall i | 0 <= i < 2 ensures dest[at + i] == ToBytes(value, 2)[i] { DigitAt(value, 2, i); }
  }

  method WriteU32(dest: array<Byte>, at: nat, value: U32)
    requires at + 4 <= dest.Length
    modifies dest
    ensures dest[..at] == old(dest[..at]) && dest[at + 4..] == old(dest[at + 4..])
    ensures dest[at..at + 4] == ToBytes(value, 4)
  {
    dest[at] := And(Shr(value, 24), 0xFF);
    dest[at + 1] := And(Shr(value, 16), 0xFF);
    dest[at + 2] := And(Shr(value, 8), 0xFF);
    dest[at + 3] := And(value, 0xFF);
    forall i | 0 <= i < 4 ensures dest[at + i] == ToBytes(value, 4)[i] { DigitAt(value, 4, i); }
  }

  lemma Digits(value: nat)
    ensures ToBytes(value, 8) ==
      [And(Shr(value, 56), 0xFF), And(Shr(value, 48), 0xFF), And(Shr(value, 40), 0xFF), And(Shr(value, 32), 0xFF),
       And(Shr(value, 24), 0xFF), And(Shr(value, 16), 0xFF), And(Shr(value, 8), 0xFF), And(value, 0xFF)]
  {
    DigitAt(value, 8, 0);
    DigitAt(value, 8, 1);
    DigitAt(value, 8, 2);
    DigitAt(value, 8, 3);
    DigitAt(value, 8, 4);
    DigitAt(value, 8, 5);
    DigitAt(value, 8, 6);
    DigitAt(value, 8, 7);
    assert Shr(value, 0) == value;
  }

  method WriteU64(dest: array<Byte>, at: nat, value: Word64)
    requires at + 8 <= dest.Length
    modifies dest
    ensures dest[..at] == old(dest[..at]) && dest[at + 8..] == old(dest[at + 8..])
    ensures dest[at..at + 8] == ToBytes(value, 8)
  {
    ghost var before := dest[..];
    Digits(value);
    dest[at] := And(Shr(value, 56), 0xFF);
    dest[at + 1] := And(Shr(value, 48), 0xFF);
    dest[at + 2] := And(Shr(value, 40), 0xFF);
    dest[at + 3] := And(Shr(value, 32), 0xFF);
    dest[at + 4] := And(Shr(value, 24), 0xFF);
    dest[at + 5] := And(Shr(value, 16), 0xFF);
    dest[at + 6] := And(Shr(value, 8), 0xFF);
    dest[at + 7] := And(value, 0xFF);
    Eight(dest[..], at, ToBytes(value, 8));
    Around(before, dest[..], at, at + 8);
  }

  lemma Eight(d: seq<Byte>, at: nat, digits: seq<Byte>)
    requires at + 8 <= |d| && |digits| == 8
    requires d[at] == digits[0] && d[at + 1] == digits[1] && d[at + 2] == digits[2] && d[at + 3] == digits[3]
    requires d[at + 4] == digits[4] && d[at + 5] == digits[5] && d[at + 6] == digits[6] && d[at + 7] == digits[7]
    ensures d[at..at + 8] == digits
  {
  }

  lemma Around(before: seq<Byte>, after: seq<Byte>, from: nat, to: nat)
    requires |before| == |after| && from <= to <= |before|
    requires forall k :: 0 <= k < |before| && !(from <= k < to) ==> after[k] == before[k]
    ensures after[..from] == before[..from] && after[to..] == before[to..]
  {
  }

  // ---------------------------------------------------------------- builders

  /** The buffer holds the first `n` fields of a structure. */
  ghost predicate Holds(a: array<Byte>, widths: seq<nat>, values: seq<nat>, n: nat)
    reads a
  {
    && n <= |widths| == |values| && Offset(widths, n) <= a.Length
    && a[..Offset(widths, n)] == PackFirst(widths, values, n)
  }

  /** Storing the next field right behind them. */
  lemma HoldsNext(a: array<Byte>, widths: seq<nat>, values: seq<nat>, n: nat, at: nat, width: nat)
    requires n < |widths| == |values| && at == Offset(widths, n) && width == widths[n] && at + width <= a.Length
    requires a[..at] == PackFirst(widths, values, n) && a[at..at + width] == ToBytes(values[n], width)
    ensures Holds(a, widths, values, n + 1)
  {
    assert a[..at + width] == a[..at] + a[at..at + width];
  }

  lemma OneDigit(b: Byte)
    ensures ToBytes(b, 1) == [b]
  {
  }

  /** The five fields every built message starts with. */
  method WriteHeader(a: array<Byte>, locate: U16, tracking: U16, timestamp: Word64, kind: Byte, orderRef: Word64,
                     ghost w: seq<nat>, ghost v: seq<nat>)
    requires a.Length >= 33 && |w| == |v| && |w| >= 5 && w[..5] == [2, 2, 8, 1, 8]
    requires v[..5] == [locate, tracking, timestamp, kind, orderRef]
    modifies a
    ensures Holds(a, w, v, 5) && Offset(w, 5) == 21
  {
    assert w[0] == w[..5][0] && w[1] == w[..5][1] && w[2] == w[..5][2] && w[3] == w[..5][3] && w[4] == w[..5][4];
    assert v[0] == v[..5][0] && v[1] == v[..5][1] && v[2] == v[..5][2] && v[3] == v[..5][3] && v[4] == v[..5][4];
    assert Offset(w, 1) == 2 && Offset(w, 2) == 4 && Offset(w, 3) == 12 && Offset(w, 4) == 13;
    WriteU16(a, 0, locate);
    HoldsNext(a, w, v, 0, 0, 2);
    WriteU16(a, 2, tracking);
    HoldsNext(a, w, v, 1, 2, 2);
    WriteU64(a, 4, timestamp);
    HoldsNext(a, w, v, 2, 4, 8);
    a[12] := kind;
    OneDigit(kind);
    HoldsNext(a, w, v, 3, 12, 1);
    WriteU64(a, 13, orderRef);
    HoldsNext(a, w, v, 4, 13, 8);
  }

  /** `memcpy` of a symbol. */
  method CopySymbol(dest: array<Byte>, at: nat, stock: Symbol)
    requires at + 8 <= dest.Length
    modifies dest
    ensures dest[..at] == old(dest[..at]) && dest[at + 8..] == old(dest[at + 8..])
    ensures dest[at..at + 8] == ToBytes(BigEndian(stock), 8)
  {
    WriteBack(stock);
    forall i | 0 <= i < 8 {
      dest[at + i] := stock[i];
    }
  }

  lemma SidedOffsets(w: seq<nat>)
    requires |w| >= 9 && w[5] == 1 && w[6] == 4 && w[7] == 8 && w[8] == 4 && Offset(w, 5) == 21
    ensures Offset(w, 6) == 22 && Offset(w, 7) == 26 && Offset(w, 8) == 34 && Offset(w, 9) == 38
  {
  }

  /** The four fields that follow in an Add Order and in a Trade. */
  method WriteSided(a: array<Byte>, side: Byte, shares: U32, stock: Symbol, price: U32,
                    ghost w: seq<nat>, ghost v: seq<nat>)
    requires a.Length >= 38 && |w| == |v| && |w| >= 9 && w[5] == 1 && w[6] == 4 && w[7] == 8 && w[8] == 4
    requires v[5] == side && v[6] == shares && v[7] == BigEndian(stock) && v[8] == price
    requires Holds(a, w, v, 5) && Offset(w, 5) == 21
    modifies a
    ensures Holds(a, w, v, 9) && Offset(w, 9) == 38
  {
    SidedOffsets(w);
    a[21] := side;
    OneDigit(side);
    HoldsNext(a, w, v, 5, 21, 1);
    WriteU32(a, 22, shares);
    HoldsNext(a, w, v, 6, 22, 4);
    CopySymbol(a, 26, stock);
    HoldsNext(a, w, v, 7, 26, 8);
    WriteU32(a, 34, price);
    HoldsNext(a, w, v, 8, 34, 4);
  }

  method BuildAddOrder(locate: U16, tracking: U16, timestamp: Word64, orderRef: Word64,
                       side: Byte, shares: U32, stock: Symbol, price: U32) returns (msg: seq<Byte>)
    ensures msg == BodyOf(BuiltAdd(locate, tracking, timestamp, orderRef, side, shares, stock, price))
  {
    ghost var w := Layout(AddOrder);
    ghost var v := Values(BuiltAdd(locate, tracking, timestamp, orderRef, side, shares, stock, price));
    var a := new Byte[38](i => 0);
    WriteHeader(a, locate, tracking, timestamp, 'A' as int, orderRef, w, v);
    WriteSided(a, side, shares, stock, price, w, v);
    assert a[..38] == a[..];
    msg := a[..];
  }

  method BuildOrderExecuted(locate: U16, tracking: U16, timestamp: Word64, orderRef: Word64,
                            shares: U32, matchNumber: Word64) returns (msg: seq<Byte>)
    ensures msg == BodyOf(BuiltExecuted(locate, tracking, timestamp, orderRef, shares, matchNumber))
  {
    ghost var w := Layout(OrderExecuted);
    ghost var v := Values(BuiltExecuted(locate, tracking, timestamp, orderRef, shares, matchNumber));
    var a := new Byte[33](i => 0);
    WriteHeader(a, locate, tracking, timestamp, 'E' as int, orderRef, w, v);
    WriteU32(a, 21, shares);
    HoldsNext(a, w, v, 5, 21, 4);
    WriteU64(a, 25, matchNumber);
    HoldsNext(a, w, v, 6, 25, 8);
    assert a[..33] == a[..];
    msg := a[..];
  }

  method BuildTrade(locate: U16, tracking: U16, timestamp: Word64, orderRef: Word64,
                    side: Byte, shares: U32, stock: Symbol, price: U32, matchNumber: Word64) returns (msg: seq<Byte>)
    ensures msg == BodyOf(BuiltTrade(locate, tracking, timestamp, orderRef, side, shares, stock, price, matchNumber))
  {
    ghost var w := Layout(Kind.Trade);
    ghost var v := Values(BuiltTrade(locate, tracking, timestamp, orderRef, side, shares, stock, price, matchNumber));
    var a := new Byte[46](i => 0);
    WriteHeader(a, locate, tracking, timestamp, 'P' as int, orderRef, w, v);
    WriteSided(a, side, shares, stock, price, w, v);
    WriteU64(a, 38, matchNumber);
    HoldsNext(a, w, v, 9, 38, 8);
    assert a[..46] == a[..];
    msg := a[..];
  }

  // ------------------------------------------------------- the bytes, written out

  /** Field `i` of a built message stands between its offsets. */
  lemma BytesOfField(m: Built, i: nat, from: nat, to: nat)
    requires i < |Values(m)| == |Layout(KindOfBuilt(m))|
    requires Offset(Layout(KindOfBuilt(m)), i) == from && Offset(Layout(KindOfBuilt(m)), i + 1) == to
    ensures from <= to <= |BodyOf(m)| && BodyOf(m)[from..to] == ToBytes(Values(m)[i], Layout(KindOfBuilt(m))[i])
  {
    PackAt(Layout(KindOfBuilt(m)), Values(m), |Values(m)|, i);
  }

  lemma ByteOfField(m: Built, i: nat, at: nat)
    requires i < |Values(m)| == |Layout(KindOfBuilt(m))| && Layout(KindOfBuilt(m))[i] == 1 && Values(m)[i] < 256
    requires Offset(Layout(KindOfBuilt(m)), i) == at && Offset(Layout(KindOfBuilt(m)), i + 1) == at + 1
    ensures at < |BodyOf(m)| && BodyOf(m)[at] == Values(m)[i]
  {
    BytesOfField(m, i, at, at + 1);
    assert BodyOf(m)[at..at + 1][0] == BodyOf(m)[at] && ToBytes(Values(m)[i], 1)[0] == Values(m)[i];
  }

  lemma HeaderOffsets(w: seq<nat>)
    requires |w| >= 5 && w[0] == w[1] == 2 && w[2] == 8 && w[3] == 1 && w[4] == 8
    ensures Offset(w, 0) == 0 && Offset(w, 1) == 2 && Offset(w, 2) == 4 && Offset(w, 3) == 12
    ensures Offset(w, 4) == 13 && Offset(w, 5) == 21
  {
    assert Offset(w, 2) == 4;
    assert Offset(w, 4) == 13;
  }

  /** The five fields every built message starts with. */
  lemma HeaderBytes(m: Built)
    ensures var body := BodyOf(m);
      && |body| >= 21
      && body[0..2] == ToBytes(m.locate, 2) && body[2..4] == ToBytes(m.tracking, 2)
      && body[4..12] == ToBytes(m.timestamp, 8) && body[13..21] == ToBytes(m.orderRef, 8)
      && body[12] == if m.BuiltAdd? then 'A' as int else if m.BuiltExecuted? then 'E' as int else 'P' as int
  {
    HeaderOffsets(Layout(KindOfBuilt(m)));
    BytesOfField(m, 0, 0, 2);
    BytesOfField(m, 1, 2, 4);
    BytesOfField(m, 2, 4, 12);
    BytesOfField(m, 4, 13, 21);
    ByteOfField(m, 3, 12);
  }

  /** An Add Order is 38 bytes and a Trade 46; both go on with side, shares, symbol and price. */
  lemma SidedBytes(m: Built)
    requires !m.BuiltExecuted?
    ensures var body := BodyOf(m);
      && |body| == (if m.BuiltAdd? then 38 else 46)
      && body[21] == m.side && body[22..26] == ToBytes(m.shares, 4)
      && body[26..34] == m.stock && body[34..38] == ToBytes(m.price, 4)
  {
    var w := Layout(KindOfBuilt(m));
    HeaderOffsets(w);
    SidedOffsets(w);
    ByteOfField(m, 5, 21);
    BytesOfField(m, 6, 22, 26);
    BytesOfField(m, 7, 26, 34);
    BytesOfField(m, 8, 34, 38);
    WriteBack(m.stock);
  }

  /** The match number ends a Trade, and an Order Executed, which is 33 bytes, after the shares. */
  lemma MatchBytes(m: Built)
    requires !m.BuiltAdd?
    ensures var body := BodyOf(m);
      if m.BuiltTrade? then |body| == 46 && body[38..46] == ToBytes(m.matchNumber, 8)
      else |body| == 33 && body[21..25] == ToBytes(m.shares, 4) && body[25..33] == ToBytes(m.matchNumber, 8)
  {
    var w := Layout(KindOfBuilt(m));
    HeaderOffsets(w);
    if m.BuiltTrade? {
      SidedOffsets(w);
      BytesOfField(m, 9, 38, 46);
    } else {
      BytesOfField(m, 5, 21, 25);
      BytesOfField(m, 6, 25, 33);
    }
  }

  // ----------------------------------------------------------------- packets

  /** A message behind its length, which counts itself and has sixteen bits. */
  function Frame(body: Body): seq<Byte> {
    var length := (|body| + 2) % 0x1_0000;
    [length / 256, length % 256] + body
  }

  function Framed(bodies: seq<Body>): seq<Byte> {
    if bodies == [] then [] else Frame(bodies[0]) + Framed(bodies[1..])
  }

  lemma FramedStep(packet: seq<Byte>, messages: seq<Body>, i: nat)
    requires i < |messages|
    ensures packet + Framed(messages[i..]) == (packet + Frame(messages[i])) + Framed(messages[i + 1..])
  {
    DropOne(messages, i);
    Associate(packet, Frame(messages[i]), Framed(messages[i + 1..]));
  }

  lemma LengthDigits(length: nat)
    requires length < 0x1_0000
    ensures And(Shr(length, 8), 0xFF) == length / 256 && And(length, 0xFF) == length % 256
  {
    LowByte(length);
    LowByte(length / 256);
    assert Shr(length, 8) == length / 256 by { EightPlaces(length); }
  }

  lemma LowByte(x: nat)
    ensures And(x, 0xFF) == x % 256
  {
    assert Pow2(8) == 256 by { WordSizes(); }
    AndMask(x, 8);
  }

  method BuildPacket(messages: seq<Body>) returns (packet: seq<Byte>)
    ensures packet == Framed(messages)
  {
    packet := [];
    NothingBefore(Framed(messages));
    assert messages[0..] == messages;
    for i := 0 to |messages|
      invariant packet + Framed(messages[i..]) == Framed(messages)
    {
      var length := (|messages[i]| + 2) % 0x1_0000;
      LengthDigits(length);
      FramedStep(packet, messages, i);
      Associate(packet, [length / 256, length % 256], messages[i]);
      PushTwo(packet, length / 256, length % 256);
      packet := packet + [And(Shr(length, 8), 0xFF)];
      packet := packet + [And(length, 0xFF)];
      packet := packet + messages[i];
    }
    NothingAfter(packet);
  }

  /** A body whose length field tells the truth and is not refused. */
  predicate Framable(body: Body) { 1 <= |body| <= 0xFFFD }

  /** What stands at the front of a framed body, whatever follows. */
  lemma FirstFrame(d: seq<Byte>, before: seq<Byte>, b: Body, after: seq<Byte>)
    requires d == (before + Frame(b)) + after
    ensures LengthAt(d, |before|) == (|b| + 2) % 0x1_0000
    ensures d[|before| + 2..|before| + 2 + |b|] == b
  {
    assert d[|before|] == Frame(b)[0] && d[|before| + 1] == Frame(b)[1];
    assert d[|before| + 2..|before| + 2 + |b|] == Frame(b)[2..];
  }

  lemma SplitOne(d: seq<Byte>, before: seq<Byte>, b: Body, after: seq<Byte>)
    requires d == (before + Frame(b)) + after && Framable(b)
    ensures var more := SplitFrom(d, |before + Frame(b)|);
      SplitFrom(d, |before|) == Split([b] + more.frames, more.left)
  {
    FirstFrame(d, before, b, after);
    assert FrameAt(d, |before|);
  }

  lemma {:induction false} SplitFramed(before: seq<Byte>, bodies: seq<Body>)
    requires forall b :: b in bodies ==> Framable(b)
    ensures SplitFrom(before + Framed(bodies), |before|) == Split(bodies, 0)
    decreases bodies
  {
    if bodies == [] {
      NothingAfter(before);
    } else {
      var b, rest := bodies[0], bodies[1..];
      Associate(before, Frame(b), Framed(rest));
      SplitFramed(before + Frame(b), rest);
      SplitOne(before + Framed(bodies), before, b, Framed(rest));
      Cons(bodies);
    }
  }

  lemma {:induction false} SplitsOnlyFramable(before: seq<Byte>, bodies: seq<Body>)
    requires SplitFrom(before + Framed(bodies), |before|) == Split(bodies, 0)
    ensures forall b :: b in bodies ==> Framable(b)
    decreases bodies
  {
    if bodies != [] {
      var b, rest := bodies[0], bodies[1..];
      var d := before + Framed(bodies);
      Associate(before, Frame(b), Framed(rest));
      FirstFrame(d, before, b, Framed(rest));
      Cons(bodies);
      if Framable(b) {
        SplitOne(d, before, b, Framed(rest));
        ConsInjective(b, SplitFrom(d, |before + Frame(b)|).frames, b, rest);
        SplitsOnlyFramable(before + Frame(b), rest);
      } else {
        FirstFrameLength(d, |before|);
        assert false;
      }
    }
  }

  lemma FirstFrameLength(d: seq<Byte>, offset: nat)
    requires offset + 2 <= |d| && SplitFrom(d, offset).frames != []
    ensures |SplitFrom(d, offset).frames[0]| == LengthAt(d, offset) - 2 >= 1
  {
  }

  /** Framing is undone by splitting exactly when every body has between 1 and 65533 bytes:
      an empty body reads as a bad length, and a longer one has its length cut to 16 bits. */
  lemma FramingRoundTrip(bodies: seq<Body>)
    ensures SplitFrames(Framed(bodies)) == Split(bodies, 0) <==> forall b :: b in bodies ==> Framable(b)
  {
    NothingBefore(Framed(bodies));
    if forall b :: b in bodies ==> Framable(b) {
      SplitFramed([], bodies);
    } else if SplitFrames(Framed(bodies)) == Split(bodies, 0) {
      SplitsOnlyFramable([], bodies);
    }
  }
}

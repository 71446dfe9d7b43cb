/** Big-endian integers and the packed ITCH message layouts. */
module Wire {
  import opened Bits
  import opened Lists
  import opened Types

  // -------------------------------------------------------------- big-endian

  /** The number a byte string denotes, most significant byte first. */
  function BigEndian(d: seq<Byte>): nat {
    if d == [] then 0 else 256 * BigEndian(d[..|d| - 1]) + d[|d| - 1]
  }

  /** The last `w` base-256 digits of `v`. */
  function ToBytes(v: nat, w: nat): (d: seq<Byte>)
    ensures |d| == w
  {
    if w == 0 then [] else ToBytes(v / 256, w - 1) + [v % 256]
  }

  /** `read_u16_be` */
  method ReadU16(d: seq<Byte>, offset: nat) returns (r: nat)
    requires offset + 2 <= |d|
    ensures r == 256 * (d[offset] as int) + d[offset + 1]
  {
    r := Or(Shl(d[offset], 8), d[offset + 1]);
    EightPlaces(d[offset]);
    WordSizes();
    OrDisjoint(d[offset], d[offset + 1], 8);
  }

  /** `read_u16_be`, `read_u32_be` and `read_u64_be` at their widths: each byte shifted
      to its place and the results or-ed. */
  function ShiftOr(d: seq<Byte>, shift: nat): nat {
    if d == [] then 0
    else Or(ShiftOr(d[..|d| - 1], shift + 8), Shl(d[|d| - 1], shift))
  }

  method Read(d: seq<Byte>) returns (r: nat)
    ensures r == BigEndian(d) && r < Pow2(8 * |d|)
  {
    ShiftOrIsBigEndian(d, 0);
    BigEndianBound(d);
    r := ShiftOr(d, 0);
  }

  lemma {:induction false} ShiftOrIsBigEndian(d: seq<Byte>, shift: nat)
    ensures ShiftOr(d, shift) == Shl(BigEndian(d), shift)
  {
    if d == [] {
      ShlSum(0, 0, shift);
    } else {
      ShiftOrIsBigEndian(d[..|d| - 1], shift + 8);
      OrByte(BigEndian(d[..|d| - 1]), d[|d| - 1], shift);
    }
  }

  lemma OrByte(high: nat, low: Byte, shift: nat)
    ensures Or(Shl(high, shift + 8), Shl(low, shift)) == Shl(256 * high + low, shift)
  {
    WordSizes();
    ShlBound(low, 8, shift);
    OrDisjoint(high, Shl(low, shift), shift + 8);
    EightPlaces(high);
    ShlTwice(high, 8, shift);
    ShlSum(256 * high, low, shift);
  }

  lemma {:induction false} BigEndianBound(d: seq<Byte>)
    ensures BigEndian(d) < Pow2(8 * |d|)
  {
    if d != [] {
      BigEndianBound(d[..|d| - 1]);
      Pow2Eight(8 * (|d| - 1));
    }
  }

  lemma {:induction false} ReadBack(v: nat, w: nat)
    requires v < Pow2(8 * w)
    ensures BigEndian(ToBytes(v, w)) == v
  {
    if w != 0 {
      Pow2Eight(8 * (w - 1));
      ReadBack(v / 256, w - 1);
      assert ToBytes(v, w)[..w - 1] == ToBytes(v / 256, w - 1);
    }
  }

  lemma {:induction false} WriteBack(d: seq<Byte>)
    ensures ToBytes(BigEndian(d), |d|) == d
  {
    if d != [] {
      WriteBack(d[..|d| - 1]);
      assert BigEndian(d) / 256 == BigEndian(d[..|d| - 1]) && BigEndian(d) % 256 == d[|d| - 1];
    }
  }

  /** Digit `i` is what the writers store there: the value shifted down and masked. */
  lemma {:induction false} DigitAt(v: nat, w: nat, i: nat)
    requires i < w
    ensures ToBytes(v, w)[i] == And(Shr(v, 8 * (w - 1 - i)), 0xFF)
    decreases w
  {
    if i == w - 1 {
      AndMask(v, 8);
      WordSizes();
    } else {
      DigitAt(v / 256, w - 1, i);
      EightPlaces(v);
      ShrTwice(v, 8, 8 * (w - 2 - i));
    }
  }

  // ----------------------------------------------------------------- layouts

  datatype Kind =
    | SystemEvent | StockDirectory | AddOrder | AddOrderMpid | OrderExecuted
    | OrderExecutedWithPrice | OrderCancel | OrderDelete | OrderReplace | Trade

  /** The widths of the packed fields, in declaration order. The first four of every
      message are stock locate, tracking number, timestamp and message type. */
  function Layout(k: Kind): seq<nat> {
    match k
    case SystemEvent => [2, 2, 8, 1, 1]
    case StockDirectory => [2, 2, 8, 1, 8, 1, 1, 4, 1, 1, 2, 1, 1, 1, 1, 4, 1]
    case AddOrder => [2, 2, 8, 1, 8, 1, 4, 8, 4]
    case AddOrderMpid => [2, 2, 8, 1, 8, 1, 4, 8, 4, 4]
    case OrderExecuted => [2, 2, 8, 1, 8, 4, 8]
    case OrderExecutedWithPrice => [2, 2, 8, 1, 8, 4, 8, 1, 4]
    case OrderCancel => [2, 2, 8, 1, 8, 4]
    case OrderDelete => [2, 2, 8, 1, 8]
    case OrderReplace => [2, 2, 8, 1, 8, 8, 4, 4]
    case Trade => [2, 2, 8, 1, 8, 1, 4, 8, 4, 8]
  }

  /** The SIZE constants the parser compares lengths with. */
  function Size(k: Kind): nat {
    match k
    case SystemEvent => 14
    case StockDirectory => 41
    case AddOrder => 38
    case AddOrderMpid => 42
    case OrderExecuted => 33
    case OrderExecutedWithPrice => 38
    case OrderCancel => 25
    case OrderDelete => 21
    case OrderReplace => 37
    case Trade => 46
  }

  function TypeByte(k: Kind): Byte {
    match k
    case SystemEvent => 'S' as int
    case StockDirectory => 'R' as int
    case AddOrder => 'A' as int
    case AddOrderMpid => 'F' as int
    case OrderExecuted => 'E' as int
    case OrderExecutedWithPrice => 'C' as int
    case OrderCancel => 'X' as int
    case OrderDelete => 'D' as int
    case OrderReplace => 'U' as int
    case Trade => 'P' as int
  }

  /** The kinds the parser's switch handles. */
  function KindOf(b: Byte): (k: Option<Kind>)
    ensures k.Some? ==> TypeByte(k.value) == b
  {
    if b == 'S' as int then Some(Kind.SystemEvent)
    else if b == 'R' as int then Some(StockDirectory)
    else if b == 'A' as int then Some(AddOrder)
    else if b == 'F' as int then Some(AddOrderMpid)
    else if b == 'E' as int then Some(OrderExecuted)
    else if b == 'C' as int then Some(OrderExecutedWithPrice)
    else if b == 'X' as int then Some(OrderCancel)
    else if b == 'D' as int then Some(Kind.OrderDelete)
    else if b == 'U' as int then Some(OrderReplace)
    else if b == 'P' as int then Some(Kind.Trade)
    else None
  }

  /** Where field `i` of a packed record starts. */
  function Offset(widths: seq<nat>, i: nat): nat
    requires i <= |widths|
    decreases i
  {
    if i == 0 then 0 else Offset(widths, i - 1) + widths[i - 1]
  }

  function Width(widths: seq<nat>): nat { Offset(widths, |widths|) }

  /** The byte string of the first `n` fields of a packed record. */
  function PackFirst(widths: seq<nat>, values: seq<nat>, n: nat): (d: seq<Byte>)
    requires n <= |widths| == |values|
    ensures |d| == Offset(widths, n)
    decreases n
  {
    if n == 0 then [] else PackFirst(widths, values, n - 1) + ToBytes(values[n - 1], widths[n - 1])
  }

  function Pack(widths: seq<nat>, values: seq<nat>): (d: seq<Byte>)
    requires |widths| == |values|
    ensures |d| == Width(widths)
  {
    PackFirst(widths, values, |widths|)
  }

  /** Field `i` of the record at the front of a byte string. */
  function Field(widths: seq<nat>, d: seq<Byte>, i: nat): nat
    requires i < |widths| && |d| >= Offset(widths, i + 1)
  {
    BigEndian(d[Offset(widths, i)..Offset(widths, i + 1)])
  }

  lemma {:induction false} OffsetGrows(widths: seq<nat>, i: nat, j: nat)
    requires i <= j <= |widths|
    ensures Offset(widths, i) <= Offset(widths, j)
    decreases j
  {
    if i < j { OffsetGrows(widths, i, j - 1); }
  }

  predicate Fits(widths: seq<nat>, values: seq<nat>) {
    |widths| == |values| && forall i :: 0 <= i < |widths| ==> values[i] < Pow2(8 * widths[i])
  }

  /** Reading a packed record gives back its fields, whatever follows it. */
  lemma {:induction false} FieldOfPack(widths: seq<nat>, values: seq<nat>, n: nat, extra: seq<Byte>, i: nat)
    requires Fits(widths, values) && i < n <= |widths|
    ensures Offset(widths, i + 1) <= Offset(widths, n)
    ensures Field(widths, PackFirst(widths, values, n) + extra, i) == values[i]
    decreases n
  {
    OffsetGrows(widths, i + 1, n);
    var piece := ToBytes(values[n - 1], widths[n - 1]);
    var d := PackFirst(widths, values, n) + extra;
    assert d == PackFirst(widths, values, n - 1) + (piece + extra);
    if i == n - 1 {
      ReadBack(values[i], widths[i]);
      assert d[Offset(widths, i)..Offset(widths, i + 1)] == piece;
    } else {
      FieldOfPack(widths, values, n - 1, piece + extra, i);
    }
  }

  /** Field `i` of a packed record stands at its offset, digit by digit. */
  lemma {:induction false} PackAt(widths: seq<nat>, values: seq<nat>, n: nat, i: nat)
    requires |widths| == |values| && i < n <= |widths|
    ensures Offset(widths, i + 1) <= Offset(widths, n)
    ensures PackFirst(widths, values, n)[Offset(widths, i)..Offset(widths, i + 1)] == ToBytes(values[i], widths[i])
    decreases n
  {
    OffsetGrows(widths, i + 1, n);
    OffsetGrows(widths, i, i + 1);
    if i < n - 1 {
      PackAt(widths, values, n - 1, i);
      var init, piece := PackFirst(widths, values, n - 1), ToBytes(values[n - 1], widths[n - 1]);
      PrefixSlice(init, piece, Offset(widths, i), Offset(widths, i + 1));
    } else {
      PackLast(widths, values, n);
    }
  }

  lemma PackLast(widths: seq<nat>, values: seq<nat>, n: nat)
    requires |widths| == |values| && 0 < n <= |widths|
    ensures PackFirst(widths, values, n)[Offset(widths, n - 1)..Offset(widths, n)]
         == ToBytes(values[n - 1], widths[n - 1])
  {
    var piece := ToBytes(values[n - 1], widths[n - 1]);
    SuffixSlice(PackFirst(widths, values, n - 1), piece, 0, |piece|);
    TakeAll(piece);
  }

  ghost predicate Carries(widths: seq<nat>, values: seq<nat>, d: seq<Byte>, i: nat)
    requires i < |widths| == |values|
  {
    Offset(widths, i + 1) <= |d| && values[i] == Field(widths, d, i)
  }

  /** Packing what was read gives back the bytes, and what was read fits. */
  lemma {:induction false} PackOfFields(widths: seq<nat>, values: seq<nat>, d: seq<Byte>, n: nat)
    requires n <= |widths| == |values|
    requires forall i :: 0 <= i < |widths| ==> Carries(widths, values, d, i)
    ensures Offset(widths, n) <= |d| && PackFirst(widths, values, n) == d[..Offset(widths, n)]
    ensures Fits(widths, values)
  {
    forall i | 0 <= i < |widths| ensures values[i] < Pow2(8 * widths[i]) {
      assert Carries(widths, values, d, i);
      BigEndianBound(d[Offset(widths, i)..Offset(widths, i + 1)]);
    }
    if n != 0 {
      PackOfFields(widths, values, d, n - 1);
      assert Carries(widths, values, d, n - 1);
      var from, to := Offset(widths, n - 1), Offset(widths, n);
      WriteBack(d[from..to]);
      assert d[..to] == d[..from] + d[from..to];
    }
  }

  /** Every SIZE is the packed width of its structure, except Stock Directory's, which
      is one byte more: a body holding all its fields can still be refused. */
  lemma SizesMatchLayouts(k: Kind)
    ensures Size(k) == Width(Layout(k)) + if k.StockDirectory? then 1 else 0
  {
    var w := Layout(k);
    assert Offset(w, 4) == 13;
    match k
    case SystemEvent => assert Offset(w, 5) == 14;
    case StockDirectory =>
      assert Offset(w, 8) == 27;
      assert Offset(w, 12) == 32;
      assert Offset(w, 17) == 40;
    case AddOrder => assert Offset(w, 9) == 38;
    case AddOrderMpid => assert Offset(w, 10) == 42;
    case OrderExecuted => assert Offset(w, 7) == 33;
    case OrderExecutedWithPrice => assert Offset(w, 9) == 38;
    case OrderCancel => assert Offset(w, 6) == 25;
    case OrderDelete => assert Offset(w, 5) == 21;
    case OrderReplace => assert Offset(w, 8) == 37;
    case Trade => assert Offset(w, 10) == 46;
  }

  /** The message type is the byte at offset 12 of every layout. */
  lemma TypeAtTwelve(k: Kind, d: seq<Byte>)
    requires |d| >= Width(Layout(k))
    ensures |d| > 12 && Offset(Layout(k), 4) == 13 && Field(Layout(k), d, 3) == d[12]
  {
    var w := Layout(k);
    OffsetGrows(w, 4, |w|);
    assert Offset(w, 3) == 12 && Offset(w, 4) == 13;
    assert d[12..13] == [d[12]];
    assert BigEndian([d[12]]) == d[12] by { assert [d[12]][..0] == []; }
  }

  /** The switch finds every kind by its type byte. */
  lemma KindOfTypeByte(k: Kind)
    ensures KindOf(TypeByte(k)) == Some(k)
  {
  }
}

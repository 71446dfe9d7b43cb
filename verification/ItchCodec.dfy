/** The decoders are the inverse of the packed layouts, for all ten kinds of message. */
module ItchCodec {
  import opened Lists
  import opened Types
  import opened Wire
  import opened Framing
  import opened ItchFormat

  /** Which field of the structure carries the order reference: the new one, in a
      replacement. */
  function OrderField(k: Kind): nat { if k.OrderReplace? then 5 else 4 }

  function SideField(k: Kind): nat { 5 }

  function QuantityField(k: Kind): nat {
    if k.AddOrder? || k.AddOrderMpid? || k.Trade? || k.OrderReplace? then 6 else 5
  }

  function PriceField(k: Kind): nat { if k.OrderReplace? then 7 else 8 }

  /** A plan's offset is the structure's offset of the field, and the width is its width. */
  ghost predicate Locates(k: Kind, offset: Option<nat>, field: nat, width: nat) {
    offset.Some? ==>
      field < |Layout(k)| && offset.value == Offset(Layout(k), field) && Layout(k)[field] == width
  }

  lemma PlanFollowsLayout(k: Kind)
    ensures |Layout(k)| > 4
    ensures Offset(Layout(k), 0) == 0 && Offset(Layout(k), 1) == 2 && Offset(Layout(k), 2) == 4
    ensures Layout(k)[0] == Layout(k)[1] == 2 && Layout(k)[2] == 8 && Layout(k)[3] == 1
    ensures Locates(k, PlanOf(k).order, OrderField(k), 8) && Locates(k, PlanOf(k).side, SideField(k), 1)
    ensures Locates(k, PlanOf(k).quantity, QuantityField(k), 4) && Locates(k, PlanOf(k).price, PriceField(k), 4)
  {
    var w := Layout(k);
    assert Offset(w, 1) == 2 && Offset(w, 2) == 4 && Offset(w, 4) == 13;
    if |w| > 5 { assert Offset(w, 5) == 21; }
    if |w| > 6 { assert Offset(w, 6) == Offset(w, 5) + w[5]; }
    if |w| > 7 { assert Offset(w, 7) == Offset(w, 6) + w[6]; }
    if |w| > 8 { assert Offset(w, 8) == Offset(w, 7) + w[7]; }
  }

  /** The record a decoder should produce from the field values of its structure. */
  function Expected(k: Kind, values: seq<nat>, local: nat, out: NormalizedMessage): NormalizedMessage
    requires |values| == |Layout(k)|
  {
    PlanFollowsLayout(k);
    var plan := PlanOf(k);
    NormalizedMessage(
      plan.kind,
      if k.SystemEvent? then 0 else values[0],
      if plan.order.Some? then values[OrderField(k)] else out.orderId,
      if plan.price.Some? then values[PriceField(k)] else out.price,
      if plan.quantity.Some? then values[QuantityField(k)] else out.quantity,
      if plan.side.Some? then SideCode(values[SideField(k)]) else out.side,
      values[2], local, values[1])
  }

  lemma AtIsField(widths: seq<nat>, d: seq<Byte>, i: nat)
    requires i < |widths| && Offset(widths, i + 1) <= |d|
    ensures At(d, Offset(widths, i), widths[i]) == Field(widths, d, i)
  {
    assert Offset(widths, i + 1) == Offset(widths, i) + widths[i];
  }

  lemma AtField(widths: seq<nat>, values: seq<nat>, extra: seq<Byte>, i: nat)
    requires Fits(widths, values) && i < |values|
    ensures At(Pack(widths, values) + extra, Offset(widths, i), widths[i]) == values[i]
  {
    FieldOfPack(widths, values, |values|, extra, i);
    AtIsField(widths, Pack(widths, values) + extra, i);
  }

  /** Decoding is a left inverse of packing: any fields that fit, packed under their type
      byte and followed by anything, are accepted if long enough, and come out in the
      fields of the record that belong to them. */
  lemma DecodePacked(k: Kind, values: seq<nat>, extra: seq<Byte>, local: nat, out: NormalizedMessage)
    requires Fits(Layout(k), values) && |values| > 3 && values[3] == TypeByte(k)
    ensures var body := Pack(Layout(k), values) + extra;
      && |body| > 12 && body[12] == TypeByte(k)
      && (Accepts(body) <==> |body| >= Size(k))
      && (|body| >= Size(k) ==> KindOfBody(body) == k && Decode(body, local, out) == Expected(k, values, local, out))
  {
    var body := Pack(Layout(k), values) + extra;
    TypeAtTwelve(k, body);
    FieldOfPack(Layout(k), values, |values|, extra, 3);
    KindOfTypeByte(k);
    SizesMatchLayouts(k);
    if |body| >= Size(k) { DecodeFields(k, values, extra, local, out); }
  }

  lemma DecodeFields(k: Kind, values: seq<nat>, extra: seq<Byte>, local: nat, out: NormalizedMessage)
    requires Fits(Layout(k), values)
    requires Accepts(Pack(Layout(k), values) + extra) && KindOfBody(Pack(Layout(k), values) + extra) == k
    ensures Decode(Pack(Layout(k), values) + extra, local, out) == Expected(k, values, local, out)
  {
    PlanFollowsLayout(k);
    var plan := PlanOf(k);
    AtField(Layout(k), values, extra, 0);
    AtField(Layout(k), values, extra, 1);
    AtField(Layout(k), values, extra, 2);
    if plan.order.Some? { AtField(Layout(k), values, extra, OrderField(k)); }
    if plan.side.Some? { AtField(Layout(k), values, extra, SideField(k)); }
    if plan.quantity.Some? { AtField(Layout(k), values, extra, QuantityField(k)); }
    if plan.price.Some? { AtField(Layout(k), values, extra, PriceField(k)); }
  }

  /** Exactly which packed structures are accepted: all of them, except a Stock Directory
      with nothing behind it. */
  lemma PackedAccepted(k: Kind, values: seq<nat>, extra: seq<Byte>)
    requires Fits(Layout(k), values) && |values| > 3 && values[3] == TypeByte(k)
    ensures Accepts(Pack(Layout(k), values) + extra) <==> !k.StockDirectory? || extra != []
  {
    DecodePacked(k, values, extra, 0, DEFAULT_MESSAGE);
    SizesMatchLayouts(k);
  }

  /** The forty bytes of a Stock Directory structure, complete in all its fields, are
      refused. */
  lemma StockDirectoryRefused(values: seq<nat>)
    requires Fits(Layout(StockDirectory), values) && |values| > 3 && values[3] == TypeByte(StockDirectory)
    ensures |Pack(Layout(StockDirectory), values)| == 40 && !Accepts(Pack(Layout(StockDirectory), values))
  {
    PackedAccepted(StockDirectory, values, []);
    SizesMatchLayouts(StockDirectory);
    NothingAfter(Pack(Layout(StockDirectory), values));
  }

  /** All fields of the record at the front of a byte string. */
  function FieldsOf(widths: seq<nat>, d: seq<Byte>): (values: seq<nat>)
    ensures |values| == |widths|
  {
    seq(|widths|, i requires 0 <= i < |widths| => At(d, Offset(widths, i), widths[i]))
  }

  lemma FieldsCarried(widths: seq<nat>, d: seq<Byte>, i: nat)
    requires |d| >= Width(widths) && i < |widths|
    ensures Carries(widths, FieldsOf(widths, d), d, i)
  {
    OffsetGrows(widths, i + 1, |widths|);
    AtIsField(widths, d, i);
  }

  /** Every byte string long enough is the packing of some fields that fit, and a rest. */
  lemma IsPacked(widths: seq<nat>, d: seq<Byte>) returns (values: seq<nat>)
    requires |d| >= Width(widths)
    ensures Fits(widths, values) && d == Pack(widths, values) + d[Width(widths)..]
    ensures forall i :: 0 <= i < |widths| ==> Carries(widths, values, d, i)
  {
    values := FieldsOf(widths, d);
    forall i | 0 <= i < |widths| ensures Carries(widths, values, d, i) {
      FieldsCarried(widths, d, i);
    }
    PackOfFields(widths, values, d, |widths|);
    TakeDrop(d, Width(widths));
  }

  /** And a right inverse: every accepted body is the packing of some fields that fit,
      under its type byte, followed by the bytes the structure does not cover. */
  lemma AcceptedIsPacked(body: Body) returns (values: seq<nat>)
    requires Accepts(body)
    ensures var k := KindOfBody(body);
      && Fits(Layout(k), values) && |values| > 3 && values[3] == TypeByte(k)
      && Width(Layout(k)) <= |body| && body == Pack(Layout(k), values) + body[Width(Layout(k))..]
  {
    var k := KindOfBody(body);
    SizesMatchLayouts(k);
    values := IsPacked(Layout(k), body);
    TypeAtTwelve(k, body);
    assert Carries(Layout(k), values, body, 3);
  }
}

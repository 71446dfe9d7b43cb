/** What splitting a packet means, without an offset: a packet is, in exactly one way, a
    sequence of framed bodies followed by bytes at which no frame begins. */
module FramingTheorems {
  import opened Lists
  import opened Types
  import opened Framing
  import opened ItchGenerator

  /** No frame begins here: fewer than three bytes, or a length that is too small or too large. */
  predicate Unframed(rest: seq<Byte>) {
    |rest| < 3 || 256 * (rest[0] as int) + rest[1] < 3 || 256 * (rest[0] as int) + rest[1] > |rest|
  }

  lemma FrameBegins(d: seq<Byte>, offset: nat)
    requires offset <= |d|
    ensures FrameAt(d, offset) <==> !Unframed(d[offset..])
  {
  }

  lemma FrameIs(d: seq<Byte>, offset: nat)
    requires FrameAt(d, offset)
    ensures var next := offset + LengthAt(d, offset);
      Framable(d[offset + 2..next]) && d[offset..next] == Frame(d[offset + 2..next])
  {
  }

  lemma FramedCons(body: Body, bodies: seq<Body>)
    ensures Framed([body] + bodies) == Frame(body) + Framed(bodies)
    ensures forall b :: b in [body] + bodies <==> b == body || b in bodies
  {
    Uncons(body, bodies);
  }

  lemma SliceStep(d: seq<Byte>, offset: nat, next: nat)
    requires offset <= next <= |d|
    ensures d[offset..] == d[offset..next] + d[next..]
  {
  }

  lemma {:induction false} SplitIsFramedFrom(d: seq<Byte>, offset: nat)
    requires offset <= |d|
    ensures var split := SplitFrom(d, offset);
      && split.left <= |d| - offset && Unframed(d[|d| - split.left..])
      && (forall b :: b in split.frames ==> Framable(b))
      && d[offset..] == Framed(split.frames) + d[|d| - split.left..]
    decreases |d| - offset
  {
    FrameBegins(d, offset);
    var split := SplitFrom(d, offset);
    if FrameAt(d, offset) {
      var next := offset + LengthAt(d, offset);
      var body, more := d[offset + 2..next], SplitFrom(d, next);
      SplitIsFramedFrom(d, next);
      FrameIs(d, offset);
      SliceStep(d, offset, next);
      FramedCons(body, more.frames);
      Associate(Frame(body), Framed(more.frames), d[|d| - split.left..]);
    } else {
      NothingBefore(d[offset..]);
    }
  }

  lemma {:induction false} SplitFramedRest(before: seq<Byte>, bodies: seq<Body>, rest: seq<Byte>)
    requires (forall b :: b in bodies ==> Framable(b)) && Unframed(rest)
    ensures SplitFrom(before + (Framed(bodies) + rest), |before|) == Split(bodies, |rest|)
    decreases bodies
  {
    var d := before + (Framed(bodies) + rest);
    if bodies == [] {
      NothingBefore(rest);
      RestAt(before, rest);
      FrameBegins(before + rest, |before|);
    } else {
      var b, more := bodies[0], bodies[1..];
      Associate(Frame(b), Framed(more), rest);
      Associate(before, Frame(b), Framed(more) + rest);
      SplitFramedRest(before + Frame(b), more, rest);
      SplitOne(d, before, b, Framed(more) + rest);
      Cons(bodies);
    }
  }

  lemma RestAt(before: seq<Byte>, rest: seq<Byte>)
    ensures (before + rest)[|before|..] == rest
  {
  }

  /** Every byte string is such a sequence and such a rest, and splitting finds them. */
  lemma SplitFinds(d: seq<Byte>)
    ensures var split := SplitFrames(d);
      && split.left <= |d| && Unframed(d[|d| - split.left..])
      && (forall b :: b in split.frames ==> Framable(b))
      && d == Framed(split.frames) + d[|d| - split.left..]
  {
    SplitIsFramedFrom(d, 0);
    DropNone(d);
  }

  /** And it finds them however the string came about, so there is only one way. */
  lemma SplitUnique(bodies: seq<Body>, rest: seq<Byte>)
    requires (forall b :: b in bodies ==> Framable(b)) && Unframed(rest)
    ensures SplitFrames(Framed(bodies) + rest) == Split(bodies, |rest|)
  {
    SplitFramedRest([], bodies, rest);
    NothingBefore(Framed(bodies) + rest);
  }

  /** A packet is stopped by a bad length exactly when three or more bytes are left at which no
      frame begins, and there is still room for a message: leftovers of one or two bytes are no
      error, and neither is anything behind the message that fills the output. */
  lemma StopsExactlyOnBadLength(pr: Protocol, bodies: seq<Body>, rest: seq<Byte>, view: MessageView, max: nat)
    requires (forall b :: b in bodies ==> Framable(b)) && Unframed(rest)
    requires view.data == Some(Framed(bodies) + rest) && Framed(bodies) + rest != []
    ensures StopsOnBadLength(pr, view, max) <==> |rest| >= 3 && |Filter(pr.accepts, bodies)| < max
  {
    SplitUnique(bodies, rest);
    UpToFilter(pr.accepts, bodies, max);
  }
}

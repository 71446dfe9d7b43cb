/** What parsing satisfies, for any protocol: over one packet, over two joined packets,
    and over any series of packets into one reused buffer. */
module ParserTheorems {
  import opened Lists
  import opened Types
  import opened Framing

  /** The result is the accepted frames of the longest well-formed prefix, cut at the cap;
      every slot beyond them is left alone. */
  lemma CutAtCap(pr: Protocol, st: ParserState, buffer: seq<NormalizedMessage>, view: MessageView, max: nat)
    ensures var r := ParsePacket(pr, st, buffer, view, max);
      var all := if view.IsValid() then Filter(pr.accepts, SplitFrames(view.data.value).frames) else [];
      && Accepted(pr, view, max) == (if |all| <= max then all else all[..max])
      && r.count == (if |all| <= max then |all| else max)
      && |r.buffer| == |buffer|
      && (forall k :: 0 <= k < |buffer| ==>
            r.buffer[k] == if k < r.count then pr.decode(all[k], view.timestamp, buffer[k]) else buffer[k])
  {
    if view.IsValid() {
      UpToFilter(pr.accepts, SplitFrames(view.data.value).frames, max);
    }
  }

  /** Which frames the parser gets to: all of them; or, if the output fills up, those up to
      and including the one that fills it. An invalid view has none, and neither has a call
      with no room. */
  lemma VisitedUpToCap(pr: Protocol, view: MessageView, max: nat)
    ensures var visited := Visited(pr, view, max);
      if !view.IsValid() || max == 0 then visited == []
      else
        var frames := SplitFrames(view.data.value).frames;
        && visited <= frames
        && (visited == frames ||
            (|Filter(pr.accepts, visited)| == max && visited != [] && pr.accepts(visited[|visited| - 1])))
  {
    if view.IsValid() && max > 0 {
      var frames := SplitFrames(view.data.value).frames;
      UpToAll(pr.accepts, frames, max);
      UpToFilter(pr.accepts, frames, max);
    }
  }

  // ---------------------------------------------------------- joined packets

  lemma {:induction false} SplitJoined(a: seq<Byte>, b: seq<Byte>, offset: nat)
    requires offset <= |a| && SplitFrom(a, offset).left == 0
    ensures SplitFrom(a + b, offset) ==
      Split(SplitFrom(a, offset).frames + SplitFrom(a + b, |a|).frames, SplitFrom(a + b, |a|).left)
    decreases |a| - offset
  {
    if FrameAt(a, offset) {
      var next := offset + LengthAt(a, offset);
      SplitJoined(a, b, next);
      PrefixSlice(a, b, offset + 2, next);
      assert LengthAt(a + b, offset) == LengthAt(a, offset) && FrameAt(a + b, offset);
      var tail := SplitFrom(a + b, |a|).frames;
      Associate([a[offset + 2..next]], SplitFrom(a, next).frames, tail);
    } else {
      NothingBefore(SplitFrom(a + b, |a|).frames);
    }
  }

  lemma {:induction false} SplitShifted(a: seq<Byte>, b: seq<Byte>, offset: nat)
    requires offset <= |b|
    ensures SplitFrom(a + b, |a| + offset) == SplitFrom(b, offset)
    decreases |b| - offset
  {
    if offset + 3 <= |b| {
      assert LengthAt(a + b, |a| + offset) == LengthAt(b, offset);
    }
    if FrameAt(b, offset) {
      var next := offset + LengthAt(b, offset);
      SplitShifted(a, b, next);
      SuffixSlice(a, b, offset + 2, next);
    }
  }

  lemma SplitConcat(a: seq<Byte>, b: seq<Byte>)
    requires SplitFrames(a).left == 0
    ensures SplitFrames(a + b) == Split(SplitFrames(a).frames + SplitFrames(b).frames, SplitFrames(b).left)
  {
    SplitJoined(a, b, 0);
    SplitShifted(a, b, 0);
  }

  lemma {:induction false} NoteAllConcat(pr: Protocol, stocks: Stocks, xs: seq<Body>, ys: seq<Body>)
    ensures NoteAll(pr, stocks, xs + ys) == NoteAll(pr, NoteAll(pr, stocks, xs), ys)
  {
    if ys == [] {
      NothingAfter(xs);
    } else {
      var init, y := ys[..|ys| - 1], ys[|ys| - 1];
      NoteAllConcat(pr, stocks, xs, init);
      SnocAssociate(xs, ys);
      Unsnoc(xs + init, y);
    }
  }

  /** Parsing a fully framed packet with another behind it, the cap not reached: the same
      messages, counters and stock map as parsing one and then the other. */
  lemma ParseConcat(pr: Protocol, st: ParserState, buffer: seq<NormalizedMessage>,
                    a: seq<Byte>, b: seq<Byte>, timestamp: nat, sequence: nat, max: nat)
    requires a != [] && SplitFrames(a).left == 0
    requires |Filter(pr.accepts, SplitFrames(a).frames)| + |Filter(pr.accepts, SplitFrames(b).frames)| < max
    ensures
      var first, second := MessageView(Some(a), timestamp, sequence), MessageView(Some(b), timestamp, sequence);
      var joined := MessageView(Some(a + b), timestamp, sequence);
      var r1 := ParsePacket(pr, st, buffer, first, max);
      var r2 := ParsePacket(pr, r1.state, buffer, second, max);
      var r := ParsePacket(pr, st, buffer, joined, max);
      && Accepted(pr, joined, max) == Accepted(pr, first, max) + Accepted(pr, second, max)
      && r.count == r1.count + r2.count && r.state == r2.state
  {
    var first, second := MessageView(Some(a), timestamp, sequence), MessageView(Some(b), timestamp, sequence);
    var joined := MessageView(Some(a + b), timestamp, sequence);
    JoinedVisited(pr, first, second, joined, max);
    var fa, fb := Visited(pr, first, max), Visited(pr, second, max);
    assert Accepted(pr, joined, max) == Accepted(pr, first, max) + Accepted(pr, second, max) by {
      FilterConcat(pr.accepts, fa, fb);
    }
    assert PacketErrors(pr, joined, max) == PacketErrors(pr, first, max) + PacketErrors(pr, second, max) by {
      FilterConcat(pr.tooShort, fa, fb);
    }
    NoteAllConcat(pr, st.stocks, fa, fb);
    Add64Twice(st.parsed, |Accepted(pr, first, max)|, |Accepted(pr, second, max)|);
    Add64Twice(st.errors, PacketErrors(pr, first, max), PacketErrors(pr, second, max));
  }

  lemma JoinedVisited(pr: Protocol, first: MessageView, second: MessageView, joined: MessageView, max: nat)
    requires first.data.Some? && second.data.Some? && joined.data == Some(first.data.value + second.data.value)
    requires first.data.value != [] && SplitFrames(first.data.value).left == 0
    requires |Filter(pr.accepts, SplitFrames(first.data.value).frames)|
           + |Filter(pr.accepts, SplitFrames(second.data.value).frames)| < max
    ensures Visited(pr, joined, max) == Visited(pr, first, max) + Visited(pr, second, max)
    ensures !StopsOnBadLength(pr, first, max)
    ensures StopsOnBadLength(pr, joined, max) <==> StopsOnBadLength(pr, second, max)
  {
    var a, b := first.data.value, second.data.value;
    SplitConcat(a, b);
    FilterConcat(pr.accepts, SplitFrames(a).frames, SplitFrames(b).frames);
    WholeVisited(pr, first, max);
    WholeVisited(pr, second, max);
    WholeVisited(pr, joined, max);
  }

  lemma WholeVisited(pr: Protocol, view: MessageView, max: nat)
    requires view.data.Some? && |Filter(pr.accepts, SplitFrames(view.data.value).frames)| < max
    ensures Visited(pr, view, max) == SplitFrames(view.data.value).frames
    ensures StopsOnBadLength(pr, view, max) <==> SplitFrames(view.data.value).left >= 3
  {
    UpToAll(pr.accepts, SplitFrames(view.data.value).frames, max);
  }

  // ------------------------------------------------------ series of packets

  datatype Series = Series(state: ParserState, buffer: seq<NormalizedMessage>, output: seq<NormalizedMessage>)

  function DefaultBuffer(max: nat): seq<NormalizedMessage> { seq(max, _ => DEFAULT_MESSAGE) }

  /** A parser fresh or reset, fed one view after another into one buffer, and all the
      messages it returned. */
  function ParseSeries(pr: Protocol, max: nat, views: seq<MessageView>): (r: Series)
    ensures |r.buffer| == max
  {
    if views == [] then Series(FRESH, DefaultBuffer(max), [])
    else
      var before := ParseSeries(pr, max, views[..|views| - 1]);
      var r := ParsePacket(pr, before.state, before.buffer, views[|views| - 1], max);
      CutAtCap(pr, before.state, before.buffer, views[|views| - 1], max);
      Series(r.state, r.buffer, before.output + r.buffer[..r.count])
  }

  /** All frames the loop visited in the series. */
  function AllVisited(pr: Protocol, max: nat, views: seq<MessageView>): seq<Body> {
    if views == [] then []
    else AllVisited(pr, max, views[..|views| - 1]) + Visited(pr, views[|views| - 1], max)
  }

  /** The packets of the series that were stopped by a bad length. */
  function BadPackets(pr: Protocol, max: nat, views: seq<MessageView>): nat {
    if views == [] then 0
    else
      BadPackets(pr, max, views[..|views| - 1]) + if StopsOnBadLength(pr, views[|views| - 1], max) then 1 else 0
  }

  lemma {:induction false} SeriesParsed(pr: Protocol, max: nat, views: seq<MessageView>)
    ensures |ParseSeries(pr, max, views).output| == |Filter(pr.accepts, AllVisited(pr, max, views))|
    ensures ParseSeries(pr, max, views).state.parsed == Wrap(|ParseSeries(pr, max, views).output|)
  {
    if views != [] {
      var init, view := views[..|views| - 1], views[|views| - 1];
      SeriesParsed(pr, max, init);
      var r, n := ParseSeries(pr, max, init), |Accepted(pr, view, max)|;
      assert |Filter(pr.accepts, AllVisited(pr, max, views))| == |r.output| + n by {
        FilterConcat(pr.accepts, AllVisited(pr, max, init), Visited(pr, view, max));
      }
      assert |ParseSeries(pr, max, views).output| == |r.output| + n by {
        CutAtCap(pr, r.state, r.buffer, view, max);
      }
      assert ParseSeries(pr, max, views).state.parsed == Add64(r.state.parsed, n);
      Accumulate(r.state.parsed, |r.output|, n, |ParseSeries(pr, max, views).output|);
    }
  }

  function ErrorTotal(pr: Protocol, max: nat, views: seq<MessageView>): nat {
    if views == [] then 0
    else ErrorTotal(pr, max, views[..|views| - 1]) + PacketErrors(pr, views[|views| - 1], max)
  }

  lemma {:induction false} SeriesErrors(pr: Protocol, max: nat, views: seq<MessageView>)
    ensures ParseSeries(pr, max, views).state.errors == Wrap(ErrorTotal(pr, max, views))
  {
    if views != [] {
      var init, view := views[..|views| - 1], views[|views| - 1];
      SeriesErrors(pr, max, init);
      var before := ParseSeries(pr, max, init).state.errors;
      assert ParseSeries(pr, max, views).state.errors == Add64(before, PacketErrors(pr, view, max));
      Accumulate(before, ErrorTotal(pr, max, init), PacketErrors(pr, view, max), ErrorTotal(pr, max, views));
    }
  }

  lemma {:induction false} ErrorKinds(pr: Protocol, max: nat, views: seq<MessageView>)
    ensures ErrorTotal(pr, max, views)
         == |Filter(pr.tooShort, AllVisited(pr, max, views))| + BadPackets(pr, max, views)
  {
    if views != [] {
      var init, view := views[..|views| - 1], views[|views| - 1];
      ErrorKinds(pr, max, init);
      FilterConcat(pr.tooShort, AllVisited(pr, max, init), Visited(pr, view, max));
    }
  }

  lemma {:induction false} SeriesStocks(pr: Protocol, max: nat, views: seq<MessageView>)
    ensures ParseSeries(pr, max, views).state.stocks == NoteAll(pr, map[], AllVisited(pr, max, views))
  {
    if views != [] {
      var init, view := views[..|views| - 1], views[|views| - 1];
      SeriesStocks(pr, max, init);
      NoteAllConcat(pr, map[], AllVisited(pr, max, init), Visited(pr, view, max));
    }
  }

  lemma FramesSplit(pr: Protocol, frames: seq<Body>)
    requires pr.Valid()
    ensures |frames| == |Filter(pr.accepts, frames)| + |Filter(pr.Skips(), frames)| + |Filter(pr.tooShort, frames)|
  {
    Partition(pr.accepts, pr.Skips(), pr.tooShort, frames);
  }

  /** Over any series since a reset: the visited frames split into parsed, skipped and
      too short; the parsed counter is the number of messages returned; the error counter
      is the short frames plus the packets stopped by a bad length; and the stock map is
      the fold over the visited frames. The counters are 64 bits wide. */
  lemma Accounting(pr: Protocol, max: nat, views: seq<MessageView>)
    requires pr.Valid()
    ensures var visited, r := AllVisited(pr, max, views), ParseSeries(pr, max, views);
      && |visited| == |Filter(pr.accepts, visited)| + |Filter(pr.Skips(), visited)| + |Filter(pr.tooShort, visited)|
      && |r.output| == |Filter(pr.accepts, visited)|
      && r.state.parsed == Wrap(|r.output|)
      && r.state.errors == Wrap(ErrorTotal(pr, max, views))
      && ErrorTotal(pr, max, views) == |Filter(pr.tooShort, visited)| + BadPackets(pr, max, views)
      && r.state.stocks == NoteAll(pr, map[], visited)
  {
    FramesSplit(pr, AllVisited(pr, max, views));
    SeriesParsed(pr, max, views);
    SeriesErrors(pr, max, views);
    ErrorKinds(pr, max, views);
    SeriesStocks(pr, max, views);
  }
}

/** The engine with the ITCH parser, fed by the packet builder. */
module PipelineItch {
  import opened Bits
  import opened Lists
  import opened Types
  import opened Framing
  import opened ItchFormat
  import opened ItchGenerator
  import opened ItchTheorems
  import opened ParserTheorems
  import opened Pipeline
  import opened PipelineInvariant
  import opened PipelineTheorems
  import D = Dispatcher

  /** The engine with the ITCH parser and its ring and queue sizes is one the theorems
      about runs speak of. */
  lemma ItchEngine(max: nat)
    ensures PACKET_RING_SIZE == 16384 && D.DEFAULT_QUEUE_SIZE == 65536 && MAX_PACKET_SIZE == 9000
    ensures Good(Config(ITCH, max, 16384, 65536))
  {
    WordSizes();
    Pow2Sum(6, 8);
    Pow2IsPowerOfTwo(14);
    Pow2IsPowerOfTwo(16);
    ItchValid();
  }

  /** A built message and the receive time of the packet it came in. */
  datatype Sent = Sent(message: Built, received: nat)

  function SentIn(ms: seq<Built>, received: nat): (r: seq<Sent>)
    ensures |r| == |ms|
  {
    seq(|ms|, k requires 0 <= k < |ms| => Sent(ms[k], received))
  }

  /** What was sent in a series of packets, packet by packet. */
  function SentOver(built: seq<seq<Built>>, received: seq<nat>): (r: seq<seq<Sent>>)
    requires |built| == |received|
    ensures |r| == |built|
  {
    seq(|built|, k requires 0 <= k < |built| => SentIn(built[k], received[k]))
  }

  /** The record has every field the built message carries, and its packet's receive time. */
  predicate Carried(sent: Sent, out: Msg) { out == Recovered(sent.message, sent.received, out) }

  predicate AllCarried(sent: seq<Sent>, outs: seq<Msg>) {
    |sent| == |outs| && forall k :: 0 <= k < |sent| ==> Carried(sent[k], outs[k])
  }

  lemma CarriedConcat(sent: seq<Sent>, outs: seq<Msg>, sent': seq<Sent>, outs': seq<Msg>)
    requires AllCarried(sent, outs) && AllCarried(sent', outs')
    ensures AllCarried(sent + sent', outs + outs')
  {
  }

  /** The view is of a packet built of the messages sent, no more than the buffer takes. */
  ghost predicate IsBuilt(view: MessageView, sent: seq<Sent>, max: nat) {
    exists ms: seq<Built> ::
      |ms| <= max && sent == SentIn(ms, view.timestamp) && view.data == Some(Framed(Bodies(ms)))
  }

  ghost predicate AreBuilt(views: seq<MessageView>, sent: seq<seq<Sent>>, max: nat) {
    |views| == |sent| && forall k :: 0 <= k < |views| ==> IsBuilt(views[k], sent[k], max)
  }

  lemma PacketCarried(sent: seq<Sent>, st: ParserState, buffer: seq<Msg>, view: MessageView, max: nat)
    requires IsBuilt(view, sent, max) && max == |buffer|
    ensures var r := ParsePacket(ITCH, st, buffer, view, max);
      r.count <= |r.buffer| && AllCarried(sent, r.buffer[..r.count])
  {
    var ms: seq<Built> :|
      |ms| <= max && sent == SentIn(ms, view.timestamp) && view.data == Some(Framed(Bodies(ms)));
    PacketRoundTrip(ms, st, buffer, view.timestamp, view.sequence, max);
    assert view == MessageView(Some(Framed(Bodies(ms))), view.timestamp, view.sequence);
    var r := ParsePacket(ITCH, st, buffer, view, max);
    forall k | 0 <= k < |sent| ensures Carried(sent[k], r.buffer[k]) {
      RecoveredCarries(ms[k], view.timestamp, buffer[k]);
    }
  }

  lemma RecoveredCarries(m: Built, received: nat, out: Msg)
    ensures Carried(Sent(m, received), Recovered(m, received, out))
  {
  }

  lemma {:induction false} SessionCarried(max: nat, views: seq<MessageView>, sent: seq<seq<Sent>>)
    requires AreBuilt(views, sent, max)
    ensures AllCarried(Flatten(sent), ParseSeries(ITCH, max, views).output)
  {
    if views != [] {
      var last := |views| - 1;
      var before := ParseSeries(ITCH, max, views[..last]);
      SessionCarried(max, views[..last], sent[..last]);
      PacketCarried(sent[last], before.state, before.buffer, views[last], max);
      var r := ParsePacket(ITCH, before.state, before.buffer, views[last], max);
      CarriedConcat(Flatten(sent[..last]), before.output, sent[last], r.buffer[..r.count]);
    }
  }

  lemma {:induction false} SessionsCarried(c: Config, sessions: seq<seq<MessageView>>, sent: seq<seq<Sent>>)
    requires c.protocol == ITCH && AreBuilt(Flatten(sessions), sent, c.max)
    ensures AllCarried(Flatten(sent), Produced(c, sessions))
  {
    if sessions != [] {
      var init, last := sessions[..|sessions| - 1], sessions[|sessions| - 1];
      var n := |Flatten(init)|;
      BuiltSplits(Flatten(init), last, sent, c.max);
      SessionsCarried(c, init, sent[..n]);
      SessionCarried(c.max, last, sent[n..]);
      CarriedConcat(Flatten(sent[..n]), Produced(c, init), Flatten(sent[n..]), ParseSeries(ITCH, c.max, last).output);
      FlattenSplit(sent, n);
    }
  }

  lemma BuiltSplits(xs: seq<MessageView>, ys: seq<MessageView>, sent: seq<seq<Sent>>, max: nat)
    requires AreBuilt(xs + ys, sent, max)
    ensures AreBuilt(xs, sent[..|xs|], max) && AreBuilt(ys, sent[|xs|..], max)
  {
    forall k | 0 <= k < |xs| ensures IsBuilt(xs[k], sent[..|xs|][k], max) {
      assert IsBuilt((xs + ys)[k], sent[k], max);
    }
    forall k | 0 <= k < |ys| ensures IsBuilt(ys[k], sent[|xs|..][k], max) {
      assert IsBuilt((xs + ys)[|xs| + k], sent[|xs| + k], max);
    }
  }

  function Times(packets: seq<Packet>): (r: seq<nat>)
    ensures |r| == |packets|
  {
    seq(|packets|, k requires 0 <= k < |packets| => packets[k].timestamp)
  }

  lemma ReadAreBuilt(read: seq<Packet>, built: seq<seq<Built>>, max: nat)
    requires |read| == |built|
    requires forall k :: 0 <= k < |read| ==> read[k].data == Framed(Bodies(built[k])) && |built[k]| <= max
    ensures AreBuilt(Views(read), SentOver(built, Times(read)), max)
  {
    var sent := SentOver(built, Times(read));
    forall k | 0 <= k < |read| ensures IsBuilt(Views(read)[k], sent[k], max) {
      assert sent[k] == SentIn(built[k], Views(read)[k].timestamp);
    }
  }

  /** From the builder to the subscribers: if the packets read so far were built from Add,
      Executed and Trade messages, at most `max` a packet, then parsing produced one record
      for each of those messages, in order, with everything it carries and the receive time
      of its packet; each subscriber sees a subsequence of those records, and when no queue
      dropped any, between packets, exactly the records produced since it joined. */
  lemma BuilderToSubscriber(c: Config, run: seq<State>, acts: seq<Action>, i: nat, j: nat, built: seq<seq<Built>>)
    requires Good(c) && IsRun(c, run, acts) && i < |run| && j < |run[i].dist.lanes| && c.protocol == ITCH
    requires var read := ReadPackets(run[i].ring, run[i].par.pc);
      && |read| == |built|
      && forall k :: 0 <= k < |read| ==> read[k].data == Framed(Bodies(built[k])) && |built[k]| <= c.max
    ensures var s := run[i]; var lane, all := s.dist.lanes[j], Produced(c, s.par.sessions);
      && AllCarried(Flatten(SentOver(built, Times(ReadPackets(s.ring, s.par.pc)))), all)
      && lane.joined <= |all| && Subsequence(Seen(lane, s.dist.pc, j), all[lane.joined..])
      && (s.par.pc.ParseTop? && s.dist.stats.packetsDropped == 0 ==>
            Seen(lane, s.dist.pc, j) == all[lane.joined..])
  {
    var s := run[i];
    EndToEndOrder(c, run, acts, i, j);
    var read := ReadPackets(s.ring, s.par.pc);
    ReadAreBuilt(read, built, c.max);
    SessionsCarried(c, s.par.sessions, SentOver(built, Times(read)));
    if s.par.pc.ParseTop? && s.dist.stats.packetsDropped == 0 {
      Lossless(c, run, acts, i);
      AllDispatched(c, run, acts, i);
    }
  }

  lemma AllDispatched(c: Config, run: seq<State>, acts: seq<Action>, i: nat)
    requires Good(c) && IsRun(c, run, acts) && i < |run| && run[i].par.pc.ParseTop?
    ensures run[i].dist.dispatched == Produced(c, run[i].par.sessions)
  {
    RunInv(c, run, acts, i);
    NothingAfter(run[i].dist.dispatched);
  }
}

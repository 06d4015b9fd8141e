// From the publisher to the player: a subscription of the registry, read by the HTTP-FLV loop.

module EndToEnd {
  import opened Bytes
  import opened MediaTypes
  import opened StreamRegistry
  import opened StreamFanOut
  import opened FlvFormat
  import opened HttpFlv

  // ---------------------------------------------------------------- what a reader took

  // What one event hands to the reader of subscription `id`.
  function TakenStep(w: World, ev: Event, eid: nat, id: nat): seq<Packet> {
    if ev.Take? && ev.eid == eid && ev.id == id && Subscribed(w, eid, id) && LaneOf(w, eid, id, ev.kind).buffer != []
    then [LaneOf(w, eid, id, ev.kind).buffer[0]] else []
  }

  // Everything the reader took from any of its channels, in the order in which it took it.
  function TakenBy(evs: seq<Event>, eid: nat, id: nat): seq<Packet> {
    if evs == [] then [] else
      var before := evs[..|evs| - 1];
      TakenBy(before, eid, id) + TakenStep(Run(before), evs[|evs| - 1], eid, id)
  }

  function OfKind(s: seq<Packet>, k: Kind): seq<Packet> {
    if s == [] then [] else
      OfKind(s[..|s| - 1], k) + if KindOf(s[|s| - 1]) == k then [s[|s| - 1]] else []
  }

  lemma OfKindAppend(s: seq<Packet>, more: seq<Packet>, k: Kind)
    requires |more| <= 1
    ensures OfKind(s + more, k) == OfKind(s, k) + OfKind(more, k)
  {
    if more == [] {
      assert s + more == s;
    } else {
      assert (s + more)[..|s + more| - 1] == s;
      assert more[..|more| - 1] == [];
    }
  }

  // Each lane carries only packets of its own kind.
  predicate LaneKind(c: Chan, k: Kind) {
    forall p | p in c.buffer :: KindOf(p) == k
  }

  lemma {:induction false} QueueKeepsKind(k: Kind, ops: seq<QueueOp>)
    requires forall op | op in ops && op.Offered? :: KindOf(op.packet) == k
    ensures LaneKind(QueueRun(k, ops), k)
  {
    if ops != [] {
      var before, op := ops[..|ops| - 1], ops[|ops| - 1];
      assert op in ops;
      QueueKeepsKind(k, before);
    }
  }

  lemma {:induction false} FeedHasKind(evs: seq<Event>, eid: nat, id: nat, k: Kind)
    ensures forall op | op in Feed(evs, eid, id, k) && op.Offered? :: KindOf(op.packet) == k
  {
    if evs != [] {
      FeedHasKind(evs[..|evs| - 1], eid, id, k);
    }
  }

  lemma LanesHaveKind(evs: seq<Event>, eid: nat, id: nat, k: Kind)
    requires Subscribed(Run(evs), eid, id)
    ensures LaneKind(LaneOf(Run(evs), eid, id, k), k)
  {
    FeedHasKind(evs, eid, id, k);
    QueueKeepsKind(k, Feed(evs, eid, id, k));
    FanOutRefinesPrivateQueues(evs, eid, id, k);
  }

  lemma ReceivedStep(w: World, ev: Event, eid: nat, id: nat, k: Kind)
    requires WorldInv(w) && Subscribed(w, eid, id)
    requires forall j :: LaneKind(LaneOf(w, eid, id, j), j)
    ensures Subscribed(Step(w, ev), eid, id)
    ensures LaneOf(Step(w, ev), eid, id, k).received ==
      LaneOf(w, eid, id, k).received + OfKind(TakenStep(w, ev, eid, id), k)
  {
    LaneStep(w, ev, eid, id, k);
    hide WorldInv, Step;
    var taken := TakenStep(w, ev, eid, id);
    if taken != [] {
      assert taken[..|taken| - 1] == [];
      assert LaneKind(LaneOf(w, eid, id, ev.kind), ev.kind);
    }
  }

  // Taken packet by packet, the reader's channels add up: of each kind it holds exactly what
  // that channel handed out, in that channel's order.
  lemma {:induction false} TakenAddsUp(evs: seq<Event>, eid: nat, id: nat, k: Kind)
    ensures Subscribed(Run(evs), eid, id) ==> OfKind(TakenBy(evs, eid, id), k) == LaneOf(Run(evs), eid, id, k).received
    ensures !Subscribed(Run(evs), eid, id) ==> TakenBy(evs, eid, id) == []
  {
    if evs != [] {
      var before, ev := evs[..|evs| - 1], evs[|evs| - 1];
      TakenAddsUp(before, eid, id, k);
      ChannelLifetime(before);
      OfKindAppend(TakenBy(before, eid, id), TakenStep(Run(before), ev, eid, id), k);
      if Subscribed(Run(before), eid, id) {
        forall j ensures LaneKind(LaneOf(Run(before), eid, id, j), j) {
          LanesHaveKind(before, eid, id, j);
        }
        ReceivedStep(Run(before), ev, eid, id, k);
      } else if Subscribed(Run(evs), eid, id) {
        NewSubscription(Run(before), ev, eid, id, k);
      }
    }
  }

  // ---------------------------------------------------------------- what the player decodes

  // The loop reads the video and the audio channel.
  function SelectsOf(s: seq<Packet>): seq<Select> {
    if s == [] then [] else
      SelectsOf(s[..|s| - 1]) +
      match s[|s| - 1]
      case Video(f) => [GotFrame(f)]
      case Audio(a) => [GotAudio(a)]
      case Opus(_) => []
  }

  function FramesOf(s: seq<Packet>): seq<Frame> {
    if s == [] then [] else FramesOf(s[..|s| - 1]) + if s[|s| - 1].Video? then [s[|s| - 1].frame] else []
  }

  function FromKeyFrame(s: seq<Frame>): seq<Frame> {
    if s == [] || s[0].keyFrame then s else FromKeyFrame(s[1..])
  }

  function FramesIn(inputs: seq<Input>): seq<Frame> {
    if inputs == [] then [] else
      FramesIn(inputs[..|inputs| - 1]) + if inputs[|inputs| - 1].FrameIn? then [inputs[|inputs| - 1].frame] else []
  }

  predicate HasKey(s: seq<Frame>) {
    exists f :: f in s && f.keyFrame
  }

  lemma {:induction false} FromKeyFrameAppend(s: seq<Frame>, f: Frame)
    ensures FromKeyFrame(s + [f]) == if HasKey(s) || f.keyFrame then FromKeyFrame(s) + [f] else FromKeyFrame(s)
  {
    if s == [] {
      assert [f][1..] == [] && s + [f] == [f];
    } else if !s[0].keyFrame {
      FromKeyFrameAppend(s[1..], f);
      assert (s + [f])[1..] == s[1..] + [f];
      assert HasKey(s) <==> HasKey(s[1..]) by {
        assert s == [s[0]] + s[1..];
      }
    } else {
      assert s[0] in s;
    }
  }

  lemma SelectsAppend(s: seq<Packet>, p: Packet)
    ensures SelectsOf(s + [p]) == SelectsOf(s) + SelectsOf([p])
    ensures SelectsOf([p]) == match p case Video(f) => [GotFrame(f)] case Audio(a) => [GotAudio(a)] case Opus(_) => []
  {
    assert (s + [p])[..|s|] == s && [p][..0] == [];
  }

  lemma FramesInAppend(inputs: seq<Input>, more: seq<Input>)
    requires |more| <= 1
    ensures FramesIn(inputs + more) == FramesIn(inputs) + if more != [] && more[0].FrameIn? then [more[0].frame] else []
  {
    if more == [] {
      assert inputs + more == inputs;
    } else {
      assert (inputs + more)[..|inputs|] == inputs;
    }
  }

  lemma HasKeyAppend(s: seq<Frame>, f: Frame)
    ensures HasKey(s + [f]) <==> HasKey(s) || f.keyFrame
  {
    if HasKey(s) {
      var g :| g in s && g.keyFrame;
      assert g in s + [f];
    }
    assert f in s + [f];
  }

  // Whatever order the select picks, the frames that go out are those of the video channel from
  // its first keyframe on.
  lemma {:induction false} VideoIsIndependentOfOrder(s: seq<Packet>, audio: bool)
    ensures FramesIn(Forwarded(SelectsOf(s), audio)) == FromKeyFrame(FramesOf(s))
    ensures FirstKey(SelectsOf(s)) < |SelectsOf(s)| <==> HasKey(FramesOf(s))
  {
    if s == [] {
      assert FirstKey([]) == 0;
      assert Forwarded([], audio) == [];
    } else {
      var before, p := s[..|s| - 1], s[|s| - 1];
      assert s == before + [p];
      VideoIsIndependentOfOrder(before, audio);
      SelectsAppend(before, p);
      var selects := SelectsOf(before);
      if p.Opus? {
        assert selects + [] == selects && FramesOf(before) + [] == FramesOf(before);
      } else {
        var x := SelectsOf([p])[0];
        OneMoreSelect(before, p, x, audio);
      }
    }
  }

  lemma OneMoreSelect(before: seq<Packet>, p: Packet, x: Select, audio: bool)
    requires !p.Opus? && x == match p case Video(f) => GotFrame(f) case Audio(a) => GotAudio(a) case Opus(_) => Ended
    requires FramesIn(Forwarded(SelectsOf(before), audio)) == FromKeyFrame(FramesOf(before))
    requires FirstKey(SelectsOf(before)) < |SelectsOf(before)| <==> HasKey(FramesOf(before))
    ensures FramesIn(Forwarded(SelectsOf(before) + [x], audio)) == FromKeyFrame(FramesOf(before + [p]))
    ensures FirstKey(SelectsOf(before) + [x]) < |SelectsOf(before)| + 1 <==> HasKey(FramesOf(before + [p]))
  {
    var selects, frames := SelectsOf(before), FramesOf(before);
    assert (before + [p])[..|before|] == before;
    assert FramesOf(before + [p]) == frames + if p.Video? then [p.frame] else [];
    FirstKeyAppend(selects, x);
    ForwardedAppend(selects, x, audio);
    var more := if FirstKey(selects) < |selects| || IsKey(x) then InputOf(x, audio) else [];
    FramesInAppend(Forwarded(selects, audio), more);
    hide Forwarded, FirstKey, FramesIn, SelectsOf, FramesOf, FromKeyFrame, HasKey;
    if p.Video? {
      FromKeyFrameAppend(frames, p.frame);
      HasKeyAppend(frames, p.frame);
    } else {
      assert frames + [] == frames;
    }
  }

  // The frames of a reader are those its video channel handed out.
  lemma {:induction false} FramesOfKind(s: seq<Packet>)
    ensures FramesOf(OfKind(s, VideoKind)) == FramesOf(s)
  {
    if s != [] {
      var before, p := s[..|s| - 1], s[|s| - 1];
      FramesOfKind(before);
      if p.Video? {
        assert (OfKind(before, VideoKind) + [p])[..|OfKind(before, VideoKind)|] == OfKind(before, VideoKind);
      } else {
        assert OfKind(before, VideoKind) + [] == OfKind(before, VideoKind);
      }
    }
  }

  predicate PacketFits(p: Packet) {
    match p
    case Video(f) => Fits(FrameIn(f))
    case Audio(a) => Fits(AudioIn(a))
    case Opus(_) => true
  }

  lemma {:induction false} InputsFit(s: seq<Packet>, audio: bool)
    requires forall p | p in s :: PacketFits(p)
    ensures forall i | i in Forwarded(SelectsOf(s), audio) :: Fits(i)
    ensures !audio ==> forall i | i in Forwarded(SelectsOf(s), audio) :: i.FrameIn?
  {
    if s == [] {
      assert FirstKey([]) == 0 && Forwarded([], audio) == [];
    } else {
      var before, p := s[..|s| - 1], s[|s| - 1];
      assert s == before + [p];
      InputsFit(before, audio);
      SelectsAppend(before, p);
      hide FirstKey;
      if p.Opus? {
        assert SelectsOf(before) + [] == SelectsOf(before);
      } else {
        ForwardedAppend(SelectsOf(before), SelectsOf([p])[0], audio);
        assert PacketFits(p);
        hide Fits, SelectsOf, Forwarded;
      }
    }
  }

  lemma {:induction false} TakenIsOfKind(s: seq<Packet>, p: Packet)
    requires p in s
    ensures p in OfKind(s, KindOf(p))
  {
    var before, last := s[..|s| - 1], s[|s| - 1];
    assert s == before + [last];
    if p != last {
      TakenIsOfKind(before, p);
    }
  }

  // Everything a reader took was accepted by the entry while the subscription lasted.
  lemma TakenWasAccepted(evs: seq<Event>, eid: nat, id: nat, p: Packet)
    requires Subscribed(Run(evs), eid, id) && p in TakenBy(evs, eid, id)
    ensures p in OfferedTo(Feed(evs, eid, id, KindOf(p)))
  {
    var k := KindOf(p);
    TakenAddsUp(evs, eid, id, k);
    TakenIsOfKind(TakenBy(evs, eid, id), p);
    SubscriberSeesAcceptedPackets(evs, eid, id, k);
    var c, kept := LaneOf(Run(evs), eid, id, k), Kept(k, Feed(evs, eid, id, k));
    hide Run, TakenBy, OfKind, LaneOf, OfferedTo, Kept, Feed, Overflowed;
    assert p in Delivered(c);
    var i :| 0 <= i < |Delivered(c)| && Delivered(c)[i] == p;
    assert Increasing(kept, |OfferedTo(Feed(evs, eid, id, k))|) && |kept| == |Delivered(c)|;
  }

  // End to end: over any interleaving of publishers, subscribers and readers, and whatever order
  // the select picks, a player decodes from the viewer's response the entry's configuration and
  // then the viewer's own frames from the first keyframe on, with the audio taken after it,
  // provided every accepted packet fits a tag. Without an audio configuration there is no audio.
  lemma PlayerSeesThePublisher(evs: seq<Event>, eid: nat, id: nat)
    requires Subscribed(Run(evs), eid, id)
    requires var c := Run(evs).entries[eid].config; ValidConfig(c) && |c.aac| + 2 < TWO24
    requires forall k, p | p in OfferedTo(Feed(evs, eid, id, k)) :: PacketFits(p)
    ensures var c, selects := Run(evs).entries[eid].config, SelectsOf(TakenBy(evs, eid, id));
      var inputs := Forwarded(selects, c.aac != []);
      && Demux(Response(c, selects)) == Some(Media(c.sps, c.pps, c.aac, ItemsOf(inputs)))
      && FramesIn(inputs) == FromKeyFrame(FramesOf(LaneOf(Run(evs), eid, id, VideoKind).received))
      && (c.aac == [] ==> forall i | i in inputs :: i.FrameIn?)
  {
    var c, taken := Run(evs).entries[eid].config, TakenBy(evs, eid, id);
    forall p | p in taken ensures PacketFits(p) {
      TakenWasAccepted(evs, eid, id, p);
    }
    TakenAddsUp(evs, eid, id, VideoKind);
    hide Run, TakenBy, PacketFits, OfferedTo, Feed, LaneOf;
    FramesOfKind(taken);
    VideoIsIndependentOfOrder(taken, c.aac != []);
    InputsFit(taken, c.aac != []);
    hide Forwarded, SelectsOf, FramesOf, FromKeyFrame, FramesIn, OfKind, Response, Demux, ItemsOf, Fits, ValidConfig;
    ResponseDecodes(c, SelectsOf(taken));
  }
}

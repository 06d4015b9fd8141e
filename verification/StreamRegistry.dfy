// The live-stream registry: one publisher per entry fans packets out to any number of
// subscribers over bounded channels that drop the newest packet when full.

module StreamRegistry {
  import opened Bytes
  import opened MediaTypes

  // ---------------------------------------------------------------- channels as values

  // `received` is the history of what the reader took. `panicked` records the two channel
  // misuses Go answers with a panic: a send on a closed channel and a second close.
  datatype Chan = Chan(capacity: nat, buffer: seq<Packet>, closed: bool, received: seq<Packet>, panicked: bool)

  function Capacity(k: Kind): nat {
    match k
    case VideoKind => 256
    case AudioKind => 512
    case OpusKind => 256
  }

  function NewChan(k: Kind): Chan {
    Chan(Capacity(k), [], false, [], false)
  }

  function TrySend(c: Chan, p: Packet): Chan {
    if c.closed then c.(panicked := true)
    else if |c.buffer| < c.capacity then c.(buffer := c.buffer + [p])
    else c
  }

  function CloseChan(c: Chan): Chan {
    if c.closed then c.(panicked := true) else c.(closed := true)
  }

  // A closed channel still hands out what it buffered.
  function Received(c: Chan): Chan {
    if c.buffer == [] then c else c.(buffer := c.buffer[1..], received := c.received + [c.buffer[0]])
  }

  datatype Lanes = Lanes(video: Chan, audio: Chan, opus: Chan) {
    function Lane(k: Kind): Chan {
      match k
      case VideoKind => video
      case AudioKind => audio
      case OpusKind => opus
    }

    function With(k: Kind, c: Chan): Lanes {
      match k
      case VideoKind => this.(video := c)
      case AudioKind => this.(audio := c)
      case OpusKind => this.(opus := c)
    }
  }

  // All three channels are open, or all three are closed, and none was ever misused.
  predicate Sound(s: Lanes, open: bool) {
    SoundChan(s.video, VideoKind, open) && SoundChan(s.audio, AudioKind, open) && SoundChan(s.opus, OpusKind, open)
  }

  predicate AllOpen(s: Lanes) {
    !s.video.closed && !s.audio.closed && !s.opus.closed
  }

  predicate SoundChan(c: Chan, k: Kind, open: bool) {
    !c.panicked && c.closed != open && c.capacity == Capacity(k) && |c.buffer| <= c.capacity
  }

  function NewLanes(): Lanes {
    Lanes(NewChan(VideoKind), NewChan(AudioKind), NewChan(OpusKind))
  }

  function Offer(s: Lanes, p: Packet): Lanes {
    s.With(KindOf(p), TrySend(s.Lane(KindOf(p)), p))
  }

  function CloseAll(s: Lanes): Lanes {
    Lanes(CloseChan(s.video), CloseChan(s.audio), CloseChan(s.opus))
  }

  // ---------------------------------------------------------------- entries as values

  // `live` is the domain of the subscribers map; `lanes` also keeps the channels of
  // subscriptions that have left it, because their readers may still drain them.
  datatype EntryV = EntryV(key: string, config: Config, hasOpus: bool, totalBytes: nat, nextID: nat,
                           closed: bool, live: set<nat>, lanes: map<nat, Lanes>)

  function FreshEntry(key: string, config: Config): EntryV {
    EntryV(key, config, false, 0, 0, false, {}, map[])
  }

  function NaluBytes(nalus: seq<seq<byte>>): nat {
    if nalus == [] then 0 else NaluBytes(nalus[..|nalus| - 1]) + |nalus[|nalus| - 1]|
  }

  // Opus packets are transcoded audio and are not counted a second time.
  function Counted(p: Packet): nat {
    match p
    case Video(frame) => NaluBytes(frame.nalus)
    case Audio(audio) => |audio.data|
    case Opus(_) => 0
  }

  function PublishedLanes(live: set<nat>, lanes: map<nat, Lanes>, p: Packet): map<nat, Lanes> {
    map id | id in lanes :: if id in live then Offer(lanes[id], p) else lanes[id]
  }

  function ClosedLanes(live: set<nat>, lanes: map<nat, Lanes>): map<nat, Lanes> {
    map id | id in lanes :: if id in live then CloseAll(lanes[id]) else lanes[id]
  }

  lemma PublishOneMore(done: set<nat>, id: nat, lanes: map<nat, Lanes>, p: Packet)
    requires id in lanes && id !in done
    ensures PublishedLanes(done + {id}, lanes, p) == PublishedLanes(done, lanes, p)[id := Offer(lanes[id], p)]
  {
  }

  lemma CloseOneMore(done: set<nat>, id: nat, lanes: map<nat, Lanes>)
    requires id in lanes && id !in done
    ensures ClosedLanes(done + {id}, lanes) == ClosedLanes(done, lanes)[id := CloseAll(lanes[id])]
  {
  }

  function PublishV(e: EntryV, p: Packet): EntryV {
    if e.closed then e else
      e.(totalBytes := (e.totalBytes + Counted(p)) % TWO64,
         lanes := PublishedLanes(e.live, e.lanes, p))
  }

  function SubscribeV(e: EntryV): EntryV {
    if e.closed then e else
      e.(nextID := e.nextID + 1, live := e.live + {e.nextID}, lanes := e.lanes[e.nextID := NewLanes()])
  }

  function CloseSubscriptionV(e: EntryV, id: nat): EntryV {
    if id in e.live && id in e.lanes
    then e.(live := e.live - {id}, lanes := e.lanes[id := CloseAll(e.lanes[id])])
    else e
  }

  function ShutdownV(e: EntryV): EntryV {
    if e.closed then e else
      e.(closed := true, live := {}, lanes := ClosedLanes(e.live, e.lanes))
  }

  function ReceiveV(e: EntryV, id: nat, k: Kind): EntryV {
    if id in e.lanes
    then e.(lanes := e.lanes[id := e.lanes[id].With(k, Received(e.lanes[id].Lane(k)))])
    else e
  }

  // A subscription's channels are open exactly when it is in the map, no send followed a
  // close, nothing was closed twice, and a closed entry has no subscribers.
  ghost predicate EntryInv(e: EntryV) {
    && e.totalBytes < TWO64
    && (forall id: nat :: id in e.lanes <==> id < e.nextID)
    && e.live <= e.lanes.Keys
    && (forall id :: id in e.lanes ==> Sound(e.lanes[id], id in e.live))
    && (e.closed ==> e.live == {})
  }

  lemma PublishKeepsInv(e: EntryV, p: Packet)
    requires EntryInv(e)
    ensures EntryInv(PublishV(e, p))
  {
  }

  lemma SubscribeKeepsInv(e: EntryV)
    requires EntryInv(e)
    ensures EntryInv(SubscribeV(e))
  {
  }

  lemma CloseSubscriptionKeepsInv(e: EntryV, id: nat)
    requires EntryInv(e)
    ensures EntryInv(CloseSubscriptionV(e, id))
  {
  }

  lemma ShutdownKeepsInv(e: EntryV)
    requires EntryInv(e)
    ensures EntryInv(ShutdownV(e))
  {
  }

  lemma ReceiveKeepsInv(e: EntryV, id: nat, k: Kind)
    requires EntryInv(e)
    ensures EntryInv(ReceiveV(e, id, k))
  {
  }

  // ---------------------------------------------------------------- subscriptions and entries in place

  // The three channels of one subscription, shared by the entry and the reader.
  class Subscriber {
    var lanes: Lanes
    ghost const owner: nat

    constructor (ghost id: nat)
      ensures lanes == NewLanes() && owner == id
    {
      lanes := NewLanes();
      owner := id;
    }

    // A select with a default branch: the packet is dropped when the buffer is full. Sending
    // on a closed channel would panic, so the caller has to know that the lane is open.
    method Send(p: Packet)
      requires !lanes.Lane(KindOf(p)).closed
      modifies this
      ensures lanes == Offer(old(lanes), p)
    {
      var k := KindOf(p);
      var c := lanes.Lane(k);
      if |c.buffer| < c.capacity {
        lanes := lanes.With(k, c.(buffer := c.buffer + [p]));
      }
    }

    method Close()
      requires AllOpen(lanes)
      modifies this
      ensures lanes == CloseAll(old(lanes))
    {
      lanes := lanes.(video := lanes.video.(closed := true));
      lanes := lanes.(audio := lanes.audio.(closed := true));
      lanes := lanes.(opus := lanes.opus.(closed := true));
    }

    method Take(k: Kind) returns (p: seq<Packet>)
      modifies this
      ensures lanes == old(lanes).With(k, Received(old(lanes).Lane(k)))
      ensures old(lanes).Lane(k).buffer == p + lanes.Lane(k).buffer && |p| <= 1
      ensures p == [] <==> old(lanes).Lane(k).buffer == []
    {
      var c := lanes.Lane(k);
      p := [];
      if c.buffer != [] {
        p := [c.buffer[0]];
        lanes := lanes.With(k, c.(buffer := c.buffer[1..], received := c.received + p));
      }
    }
  }

  // cloneFrame: the publisher may reuse its NAL buffers, so their contents are copied.
  method CloneFrame(pts: int, dts: int, nalus: seq<array<byte>>, keyFrame: bool) returns (frame: Frame)
    ensures frame.pts == pts && frame.dts == dts && frame.keyFrame == keyFrame
    ensures |frame.nalus| == |nalus|
    ensures forall i :: 0 <= i < |nalus| ==> frame.nalus[i] == nalus[i][..]
  {
    var copied: seq<seq<byte>> := [];
    for i := 0 to |nalus|
      invariant |copied| == i
      invariant forall j :: 0 <= j < i ==> copied[j] == nalus[j][..]
    {
      copied := copied + [nalus[i][..]];
    }
    frame := Frame(pts, dts, copied, keyFrame);
  }

  // What the publisher's buffers hold at the moment of the call.
  ghost function Contents(nalus: seq<array<byte>>): seq<seq<byte>>
    reads nalus
  {
    seq(|nalus|, i requires 0 <= i < |nalus| reads nalus => nalus[i][..])
  }

  class Entry {
    const key: string
    const config: Config
    var hasOpus: bool
    var totalBytes: nat
    var subscribers: map<nat, Subscriber>
    var nextID: nat
    var closed: bool
    // Every subscription this entry ever handed out, the state of its channels, and the
    // objects that hold them.
    ghost var issued: map<nat, Subscriber>
    ghost var lanes: map<nat, Lanes>
    ghost var repr: set<Subscriber>

    // subscribers is the part of issued that has not been closed; owners keep the channels of
    // different subscriptions apart.
    ghost predicate Linked()
      reads this, repr
    {
      && lanes.Keys == issued.Keys
      && (forall id :: id in issued ==> issued[id] in repr && issued[id].owner == id && issued[id].lanes == lanes[id])
      && (forall id :: id in subscribers ==> id in issued && subscribers[id] == issued[id])
    }

    ghost function View(): EntryV
      reads this
    {
      EntryV(key, config, hasOpus, totalBytes, nextID, closed, subscribers.Keys, lanes)
    }

    constructor (key: string, config: Config)
      ensures Linked() && View() == FreshEntry(key, config) && issued == map[] && repr == {}
    {
      this.key, this.config := key, config;
      hasOpus, totalBytes, nextID, closed := false, 0, 0, false;
      subscribers, issued, lanes, repr := map[], map[], map[], {};
    }

    method AddBytes(p: Packet)
      requires totalBytes < TWO64
      modifies this`totalBytes
      ensures totalBytes == (old(totalBytes) + Counted(p)) % TWO64
    {
      match p
      case Video(frame) =>
        var before := totalBytes;
        for i := 0 to |frame.nalus|
          invariant totalBytes == (before + NaluBytes(frame.nalus[..i])) % TWO64
        {
          assert frame.nalus[..i + 1][..i] == frame.nalus[..i];
          totalBytes := (totalBytes + |frame.nalus[i]|) % TWO64;
        }
        assert frame.nalus[..|frame.nalus|] == frame.nalus;
      case Audio(audio) =>
        totalBytes := (totalBytes + |audio.data|) % TWO64;
      case Opus(_) =>
    }

    // publish, publishAudio and publishOpus: they differ in the lane and the byte count.
    method Publish(p: Packet) returns (ok: bool)
      requires Linked() && EntryInv(View())
      modifies this`totalBytes, this`lanes, repr
      ensures Linked()
      ensures ok == !old(closed)
      ensures View() == PublishV(old(View()), p)
    {
      if closed {
        return false;
      }
      AddBytes(p);
      FanOut(p);
      return true;
    }

    // The publisher keeps its buffers; what subscribers get is a copy.
    method PublishFrame(pts: int, dts: int, nalus: seq<array<byte>>, keyFrame: bool) returns (ok: bool)
      requires Linked() && EntryInv(View())
      modifies this`totalBytes, this`lanes, repr
      ensures Linked()
      ensures ok == !old(closed)
      ensures View() == PublishV(old(View()), Video(Frame(pts, dts, Contents(nalus), keyFrame)))
    {
      var frame := CloneFrame(pts, dts, nalus, keyFrame);
      assert frame.nalus == Contents(nalus);
      ok := Publish(Video(frame));
    }

    method PublishAudio(pts: int, data: array<byte>) returns (ok: bool)
      requires Linked() && EntryInv(View())
      modifies this`totalBytes, this`lanes, repr
      ensures Linked()
      ensures ok == !old(closed)
      ensures View() == PublishV(old(View()), Audio(AudioFrame(pts, data[..])))
    {
      ok := Publish(Audio(AudioFrame(pts, data[..])));
    }

    method PublishOpus(sequenceNumber: nat, timestamp: nat, marker: bool, payload: array<byte>) returns (ok: bool)
      requires Linked() && EntryInv(View())
      modifies this`totalBytes, this`lanes, repr
      ensures Linked()
      ensures ok == !old(closed)
      ensures View() == PublishV(old(View()), Opus(OpusFrame(sequenceNumber, timestamp, marker, payload[..])))
    {
      ok := Publish(Opus(OpusFrame(sequenceNumber, timestamp, marker, payload[..])));
    }

    method SendTo(id: nat, p: Packet)
      requires Linked() && id in subscribers && !lanes[id].Lane(KindOf(p)).closed
      modifies this`lanes, subscribers[id]
      ensures Linked()
      ensures lanes == old(lanes)[id := Offer(old(lanes)[id], p)]
    {
      subscribers[id].Send(p);
      lanes := lanes[id := Offer(lanes[id], p)];
    }

    method FanOut(p: Packet)
      requires Linked()
      requires forall id :: id in subscribers ==> !lanes[id].Lane(KindOf(p)).closed
      modifies this`lanes, repr
      ensures Linked()
      ensures lanes == PublishedLanes(subscribers.Keys, old(lanes), p)
    {
      ghost var was := lanes;
      var rest := subscribers.Keys;
      while rest != {}
        invariant rest <= subscribers.Keys
        invariant Linked()
        invariant lanes == PublishedLanes(subscribers.Keys - rest, was, p)
      {
        var id :| id in rest;
        PublishOneMore(subscribers.Keys - rest, id, was, p);
        assert subscribers.Keys - (rest - {id}) == subscribers.Keys - rest + {id};
        SendTo(id, p);
        rest := rest - {id};
      }
    }

    // The entry keeps track of the new subscription.
    ghost method Issue(sub: Subscriber)
      requires Linked() && nextID !in issued
      requires sub !in repr && sub.owner == nextID && sub.lanes == NewLanes()
      modifies this`issued, this`lanes, this`repr
      ensures Linked()
      ensures issued == old(issued)[nextID := sub] &&
        lanes == old(lanes)[nextID := NewLanes()] && repr == old(repr) + {sub}
    {
      issued := issued[nextID := sub];
      lanes := lanes[nextID := NewLanes()];
      repr := repr + {sub};
    }

    method Attach(sub: Subscriber)
      requires Linked() && nextID !in issued && !closed
      requires sub !in repr && sub.owner == nextID && sub.lanes == NewLanes()
      modifies this`nextID, this`subscribers, this`issued, this`lanes, this`repr
      ensures Linked() && View() == SubscribeV(old(View()))
      ensures issued == old(issued)[old(nextID) := sub] && repr == old(repr) + {sub}
    {
      Issue(sub);
      subscribers := subscribers[nextID := sub];
      nextID := nextID + 1;
    }

    // Hands out the channels together with the configuration the player has to know.
    method Subscribe() returns (s: seq<Subscriber>, id: nat, announced: Config, opusNow: bool)
      requires Linked() && EntryInv(View())
      modifies this`nextID, this`subscribers, this`issued, this`lanes, this`repr
      ensures Linked()
      ensures View() == SubscribeV(old(View()))
      ensures announced == config && opusNow == old(hasOpus)
      ensures old(closed) ==> s == [] && issued == old(issued)
      ensures !old(closed) ==> |s| == 1 && id == old(nextID) && issued == old(issued)[id := s[0]]
      ensures fresh(repr - old(repr))
    {
      id, announced, opusNow, s := nextID, config, hasOpus, [];
      if closed {
        return;
      }
      assert id !in issued;
      hide EntryInv;
      var sub := new Subscriber(id);
      Attach(sub);
      s := [sub];
    }

    method Detach(id: nat)
      requires Linked() && id in subscribers && AllOpen(lanes[id])
      modifies this`subscribers, this`lanes, subscribers[id]
      ensures Linked() && subscribers == old(subscribers) - {id}
      ensures lanes == old(lanes)[id := CloseAll(old(lanes)[id])]
    {
      var current := subscribers[id];
      subscribers := subscribers - {id};
      current.Close();
      lanes := lanes[id := CloseAll(lanes[id])];
    }

    // The close closure of a subscription: only a subscriber still in the map is closed.
    method CloseSubscription(id: nat)
      requires Linked() && EntryInv(View())
      modifies this`subscribers, this`lanes, repr
      ensures Linked()
      ensures View() == CloseSubscriptionV(old(View()), id)
    {
      if id in subscribers {
        Detach(id);
      }
    }

    method Shutdown()
      requires Linked() && EntryInv(View())
      modifies this`closed, this`subscribers, this`lanes, repr
      ensures Linked()
      ensures View() == ShutdownV(old(View()))
    {
      if !closed {
        closed := true;
        CloseLive();
      }
    }

    method CloseLive()
      requires Linked()
      requires forall id :: id in subscribers ==> AllOpen(lanes[id])
      modifies this`subscribers, this`lanes, repr
      ensures Linked() && subscribers == map[]
      ensures lanes == ClosedLanes(old(subscribers.Keys), old(lanes))
    {
      ghost var was, live := lanes, subscribers.Keys;
      while subscribers != map[]
        invariant subscribers.Keys <= live
        invariant Linked()
        invariant lanes == ClosedLanes(live - subscribers.Keys, was)
        decreases subscribers.Keys
      {
        var id :| id in subscribers;
        CloseOneMore(live - subscribers.Keys, id, was);
        assert live - (subscribers.Keys - {id}) == live - subscribers.Keys + {id};
        Detach(id);
      }
    }

    // The reader's side of one channel; it runs without the entry lock.
    method Receive(reader: Subscriber, ghost id: nat, k: Kind) returns (p: seq<Packet>)
      requires Linked() && EntryInv(View()) && id in issued && issued[id] == reader
      modifies this`lanes, reader
      ensures Linked()
      ensures View() == ReceiveV(old(View()), id, k)
      ensures old(lanes[id]).Lane(k).buffer == p + lanes[id].Lane(k).buffer && |p| <= 1
      ensures p == [] <==> old(lanes[id]).Lane(k).buffer == []
    {
      p := reader.Take(k);
      lanes := lanes[id := lanes[id].With(k, Received(lanes[id].Lane(k)))];
    }
  }

  class Registry {
    var streams: map<string, Entry>

    // The first half of Start: the swap under the registry lock. The caller shuts the
    // previous entry down afterwards, outside that lock.
    method StartSwap(key: string, config: Config) returns (e: Entry, previous: seq<Entry>)
      modifies this
      ensures fresh(e) && e.Linked() && e.repr == {} && e.View() == FreshEntry(key, config)
      ensures previous == if key in old(streams) then [old(streams[key])] else []
      ensures streams == old(streams)[key := e]
    {
      e := new Entry(key, config);
      previous := if key in streams then [streams[key]] else [];
      streams := streams[key := e];
    }

    method StopSwap(key: string) returns (removed: seq<Entry>)
      modifies this
      ensures removed == if key in old(streams) then [old(streams[key])] else []
      ensures streams == old(streams) - {key}
    {
      removed := if key in streams then [streams[key]] else [];
      if key in streams {
        streams := streams - {key};
      }
    }

    // Start without interleaving: the key's previous entry ends up shut down.
    method Start(key: string, config: Config) returns (e: Entry)
      requires key in streams ==> streams[key].Linked() && EntryInv(streams[key].View())
      modifies this
      modifies if key in streams then {streams[key]} + streams[key].repr else {}
      ensures fresh(e) && e.Linked() && e.View() == FreshEntry(key, config)
      ensures streams == old(streams)[key := e]
      ensures key in old(streams) ==>
        old(streams)[key].Linked() && old(streams)[key].View() == ShutdownV(old(streams[key].View()))
    {
      var previous;
      e, previous := StartSwap(key, config);
      if previous != [] {
        previous[0].Shutdown();
      }
    }

    method Stop(key: string)
      requires key in streams ==> streams[key].Linked() && EntryInv(streams[key].View())
      modifies this
      modifies if key in streams then {streams[key]} + streams[key].repr else {}
      ensures streams == old(streams) - {key}
      ensures key in old(streams) ==>
        old(streams)[key].Linked() && old(streams)[key].View() == ShutdownV(old(streams[key].View()))
    {
      var removed := StopSwap(key);
      if removed != [] {
        removed[0].Shutdown();
      }
    }
  }
}

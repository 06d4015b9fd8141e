// Interleaved runs of the registry. Every registry call looks its entry up under the registry
// lock and then acts on that entry under the entry's own lock; anything may happen in between.

module StreamFanOut {
  import opened MediaTypes
  import opened StreamRegistry

  datatype Op = Shutdown | Publish(packet: Packet) | Subscribe | SetOpus(available: bool)

  // A call that has done its lookup and still has to act on the entry it found.
  datatype Call = Call(target: nat, op: Op)

  datatype World = World(streams: map<string, nat>, entries: seq<EntryV>, calls: map<nat, Call>)

  datatype Event =
    | StartSwap(tid: nat, key: string, config: Config)
    | StopSwap(tid: nat, key: string)
    | Lookup(tid: nat, key: string, op: Op)
    | Act(tid: nat)
    | CloseSubscription(eid: nat, id: nat)
    | Take(eid: nat, id: nat, kind: Kind)

  const EMPTY: World := World(map[], [], map[])

  function ApplyOp(e: EntryV, op: Op): EntryV {
    match op
    case Shutdown => ShutdownV(e)
    case Publish(p) => PublishV(e, p)
    case Subscribe => SubscribeV(e)
    case SetOpus(available) => e.(hasOpus := available)
  }

  function Drop<T>(m: map<nat, T>, k: nat): map<nat, T> {
    map i | i in m && i != k :: m[i]
  }

  function Step(w: World, ev: Event): World {
    match ev
    case StartSwap(tid, key, config) =>
      if tid in w.calls then w else
        var w' := w.(entries := w.entries + [FreshEntry(key, config)], streams := w.streams[key := |w.entries|]);
        if key in w.streams then w'.(calls := w.calls[tid := Call(w.streams[key], Shutdown)]) else w'
    case StopSwap(tid, key) =>
      if tid in w.calls || key !in w.streams then w else
        w.(streams := w.streams - {key}, calls := w.calls[tid := Call(w.streams[key], Shutdown)])
    case Lookup(tid, key, op) =>
      if tid in w.calls || key !in w.streams || op.Shutdown? then w else
        w.(calls := w.calls[tid := Call(w.streams[key], op)])
    case Act(tid) =>
      if tid !in w.calls || w.calls[tid].target >= |w.entries| then w else
        var c := w.calls[tid];
        w.(calls := Drop(w.calls, tid), entries := w.entries[c.target := ApplyOp(w.entries[c.target], c.op)])
    case CloseSubscription(eid, id) =>
      if eid >= |w.entries| then w else
        w.(entries := w.entries[eid := CloseSubscriptionV(w.entries[eid], id)])
    case Take(eid, id, k) =>
      if eid >= |w.entries| then w else
        w.(entries := w.entries[eid := ReceiveV(w.entries[eid], id, k)])
  }

  function Run(evs: seq<Event>): World {
    if evs == [] then EMPTY else Step(Run(evs[..|evs| - 1]), evs[|evs| - 1])
  }

  // ---------------------------------------------------------------- channel lifetime

  ghost predicate ShutdownPending(w: World, i: nat) {
    exists t :: t in w.calls && w.calls[t] == Call(i, Shutdown)
  }

  ghost predicate Current(w: World, i: nat)
    requires i < |w.entries|
  {
    w.entries[i].key in w.streams && w.streams[w.entries[i].key] == i
  }

  ghost predicate TableInv(w: World) {
    && (forall i :: 0 <= i < |w.entries| ==> EntryInv(w.entries[i]))
    && (forall t :: t in w.calls ==> w.calls[t].target < |w.entries|)
    && (forall k :: k in w.streams ==> w.streams[k] < |w.entries| && w.entries[w.streams[k]].key == k)
  }

  // An entry is open while it is current or waits to be shut down; a current one does not wait.
  ghost predicate OpenInv(w: World) {
    && (forall i :: 0 <= i < |w.entries| && !w.entries[i].closed ==> Current(w, i) || ShutdownPending(w, i))
    && (forall i :: 0 <= i < |w.entries| && Current(w, i) ==> !w.entries[i].closed && !ShutdownPending(w, i))
  }

  ghost predicate WorldInv(w: World) {
    TableInv(w) && OpenInv(w)
  }

  lemma ApplyOpKeepsInv(e: EntryV, op: Op)
    requires EntryInv(e)
    ensures EntryInv(ApplyOp(e, op)) && ApplyOp(e, op).key == e.key
    ensures ApplyOp(e, op).closed == (e.closed || op.Shutdown?)
  {
    match op
    case Shutdown => ShutdownKeepsInv(e);
    case Publish(p) => PublishKeepsInv(e, p);
    case Subscribe => SubscribeKeepsInv(e);
    case SetOpus(_) =>
  }

  lemma StartKeepsTable(w: World, tid: nat, key: string, config: Config)
    requires TableInv(w) && tid !in w.calls
    ensures TableInv(Step(w, StartSwap(tid, key, config)))
  {
  }

  lemma StartCurrent(w: World, tid: nat, key: string, config: Config, i: nat)
    requires TableInv(w) && tid !in w.calls && i <= |w.entries|
    ensures var w' := Step(w, StartSwap(tid, key, config));
      && |w'.entries| == |w.entries| + 1
      && w'.entries[i] == (if i < |w.entries| then w.entries[i] else FreshEntry(key, config))
      && (Current(w', i) <==> i == |w.entries| || (Current(w, i) && !(key in w.streams && w.streams[key] == i)))
  {
    hide EntryInv;
  }

  lemma StartKeepsInv(w: World, tid: nat, key: string, config: Config)
    requires WorldInv(w) && tid !in w.calls
    ensures WorldInv(Step(w, StartSwap(tid, key, config)))
  {
    var w' := Step(w, StartSwap(tid, key, config));
    var n := |w.entries|;
    StartKeepsTable(w, tid, key, config);
    assert !ShutdownPending(w, n) && !FreshEntry(key, config).closed;
    assert key in w.streams ==> Current(w, w.streams[key]);
    hide ShutdownPending, Current, Step, EntryInv, FreshEntry, TableInv;
    forall i | 0 <= i < |w'.entries|
      ensures !w'.entries[i].closed ==> Current(w', i) || ShutdownPending(w', i)
      ensures Current(w', i) ==> !w'.entries[i].closed && !ShutdownPending(w', i)
    {
      StartCurrent(w, tid, key, config, 0);
      StartCurrent(w, tid, key, config, i);
      StartPending(w, tid, key, config, i);
    }
  }

  lemma StartPending(w: World, tid: nat, key: string, config: Config, i: nat)
    requires tid !in w.calls
    ensures ShutdownPending(Step(w, StartSwap(tid, key, config)), i) <==>
      ShutdownPending(w, i) || (key in w.streams && i == w.streams[key])
  {
    var w' := Step(w, StartSwap(tid, key, config));
    if ShutdownPending(w, i) {
      var t :| t in w.calls && w.calls[t] == Call(i, Shutdown);
      assert t in w'.calls && w'.calls[t] == Call(i, Shutdown);
    }
    if key in w.streams {
      assert w'.calls[tid] == Call(w.streams[key], Shutdown);
    }
    if ShutdownPending(w', i) {
      var t :| t in w'.calls && w'.calls[t] == Call(i, Shutdown);
      assert t == tid || t in w.calls;
    }
  }

  lemma CallKeepsInv(w: World, tid: nat, key: string, op: Op)
    requires WorldInv(w) && tid !in w.calls && key in w.streams && !op.Shutdown?
    ensures WorldInv(w.(calls := w.calls[tid := Call(w.streams[key], op)]))
  {
    var w' := w.(calls := w.calls[tid := Call(w.streams[key], op)]);
    forall i | 0 <= i < |w.entries|
      ensures ShutdownPending(w', i) <==> ShutdownPending(w, i)
    {
      if ShutdownPending(w, i) {
        var t :| t in w.calls && w.calls[t] == Call(i, Shutdown);
        assert w'.calls[t] == Call(i, Shutdown);
      }
      if ShutdownPending(w', i) {
        var t :| t in w'.calls && w'.calls[t] == Call(i, Shutdown);
        assert t != tid;
      }
    }
    hide ShutdownPending;
  }

  lemma StopKeepsInv(w: World, tid: nat, key: string)
    requires WorldInv(w) && tid !in w.calls && key in w.streams
    ensures WorldInv(w.(streams := w.streams - {key}, calls := w.calls[tid := Call(w.streams[key], Shutdown)]))
  {
    var w' := w.(streams := w.streams - {key}, calls := w.calls[tid := Call(w.streams[key], Shutdown)]);
    assert w'.calls[tid] == Call(w.streams[key], Shutdown);
    forall i | 0 <= i < |w.entries|
      ensures ShutdownPending(w', i) <==> ShutdownPending(w, i) || i == w.streams[key]
    {
      if ShutdownPending(w, i) {
        var t :| t in w.calls && w.calls[t] == Call(i, Shutdown);
        assert w'.calls[t] == Call(i, Shutdown);
      }
      if ShutdownPending(w', i) {
        var t :| t in w'.calls && w'.calls[t] == Call(i, Shutdown);
        assert t == tid || t in w.calls;
      }
    }
    hide ShutdownPending;
  }

  lemma ActKeepsInv(w: World, tid: nat)
    requires WorldInv(w) && tid in w.calls
    ensures WorldInv(Step(w, Act(tid)))
  {
    var w' := Step(w, Act(tid));
    var c := w.calls[tid];
    ApplyOpKeepsInv(w.entries[c.target], c.op);
    forall i | 0 <= i < |w'.entries|
      ensures EntryInv(w'.entries[i]) && w'.entries[i].key == w.entries[i].key
      ensures !w'.entries[i].closed ==> Current(w', i) || ShutdownPending(w', i)
      ensures Current(w', i) ==> !w'.entries[i].closed && !ShutdownPending(w', i)
    {
      if !w'.entries[i].closed && !Current(w', i) {
        var t :| t in w.calls && w.calls[t] == Call(i, Shutdown);
        assert t != tid;
        assert t in w'.calls && w'.calls[t] == Call(i, Shutdown);
      }
      if Current(w', i) {
        assert Current(w, i);
        assert c != Call(i, Shutdown);
      }
    }
  }

  lemma EntryStepKeepsInv(w: World, eid: nat, e: EntryV)
    requires WorldInv(w) && eid < |w.entries| && EntryInv(e)
    requires e.key == w.entries[eid].key && e.closed == w.entries[eid].closed
    ensures WorldInv(w.(entries := w.entries[eid := e]))
  {
    var w' := w.(entries := w.entries[eid := e]);
    forall i | 0 <= i < |w.entries|
      ensures Current(w', i) == Current(w, i) && ShutdownPending(w', i) == ShutdownPending(w, i)
    {
    }
  }

  lemma StepKeepsInv(w: World, ev: Event)
    requires WorldInv(w)
    ensures WorldInv(Step(w, ev))
  {
    match ev
    case StartSwap(tid, key, config) =>
      if tid !in w.calls { StartKeepsInv(w, tid, key, config); }
    case StopSwap(tid, key) =>
      if tid !in w.calls && key in w.streams { StopKeepsInv(w, tid, key); }
    case Lookup(tid, key, op) =>
      if tid !in w.calls && key in w.streams && !op.Shutdown? { CallKeepsInv(w, tid, key, op); }
    case Act(tid) =>
      if tid in w.calls { ActKeepsInv(w, tid); }
    case CloseSubscription(eid, id) =>
      if eid < |w.entries| {
        CloseSubscriptionKeepsInv(w.entries[eid], id);
        EntryStepKeepsInv(w, eid, CloseSubscriptionV(w.entries[eid], id));
      }
    case Take(eid, id, k) =>
      if eid < |w.entries| {
        ReceiveKeepsInv(w.entries[eid], id, k);
        EntryStepKeepsInv(w, eid, ReceiveV(w.entries[eid], id, k));
      }
  }

  // Over every interleaving of Start, Stop, Publish, Subscribe and Close: channels are open
  // exactly while their subscription is in its entry's map, nothing panics, and an open entry
  // is either the current one for its key or about to be shut down by a call in flight.
  lemma {:induction false} ChannelLifetime(evs: seq<Event>)
    ensures WorldInv(Run(evs))
  {
    if evs != [] {
      ChannelLifetime(evs[..|evs| - 1]);
      StepKeepsInv(Run(evs[..|evs| - 1]), evs[|evs| - 1]);
    }
  }

  // ---------------------------------------------------------------- private queues

  // What happens to one subscriber's channel, with no mention of any other subscriber.
  datatype QueueOp = Offered(packet: Packet) | Taken | Shut

  // A bounded queue that drops the newest packet when full and ignores offers once shut.
  function QueueStep(c: Chan, op: QueueOp): Chan {
    match op
    case Offered(p) => if c.closed || |c.buffer| >= c.capacity then c else c.(buffer := c.buffer + [p])
    case Taken => Received(c)
    case Shut => c.(closed := true)
  }

  function QueueRun(k: Kind, ops: seq<QueueOp>): Chan {
    if ops == [] then NewChan(k) else QueueStep(QueueRun(k, ops[..|ops| - 1]), ops[|ops| - 1])
  }

  // The packets the entry accepted since subscription `id` began, interleaved with that
  // reader's own takes and with the events that end the subscription.
  function FeedStep(w: World, ev: Event, eid: nat, id: nat, k: Kind): seq<QueueOp> {
    if eid >= |w.entries| || id >= w.entries[eid].nextID then [] else
      match ev
      case Act(tid) =>
        if tid !in w.calls || w.calls[tid].target != eid || w.entries[eid].closed then []
        else OpFeed(w.calls[tid].op, k)
      case CloseSubscription(e, i) => if e == eid && i == id then [Shut] else []
      case Take(e, i, j) => if e == eid && i == id && j == k then [Taken] else []
      case _ => []
  }

  function Feed(evs: seq<Event>, eid: nat, id: nat, k: Kind): seq<QueueOp> {
    if evs == [] then [] else
      var before := evs[..|evs| - 1];
      Feed(before, eid, id, k) + FeedStep(Run(before), evs[|evs| - 1], eid, id, k)
  }

  predicate Subscribed(w: World, eid: nat, id: nat) {
    eid < |w.entries| && id in w.entries[eid].lanes
  }

  function LaneOf(w: World, eid: nat, id: nat, k: Kind): Chan
    requires Subscribed(w, eid, id)
  {
    w.entries[eid].lanes[id].Lane(k)
  }

  lemma QueueRunAppend(k: Kind, ops: seq<QueueOp>, more: seq<QueueOp>)
    requires |more| <= 1
    ensures QueueRun(k, ops + more) == if more == [] then QueueRun(k, ops) else QueueStep(QueueRun(k, ops), more[0])
  {
    if more == [] {
      assert ops + more == ops;
    } else {
      assert (ops + more)[..|ops + more| - 1] == ops;
    }
  }

  function OpFeed(op: Op, k: Kind): seq<QueueOp> {
    match op
    case Publish(p) => if KindOf(p) == k then [Offered(p)] else []
    case Shutdown => [Shut]
    case _ => []
  }

  function QueueSteps(c: Chan, f: seq<QueueOp>): Chan {
    if f == [] then c else QueueStep(c, f[0])
  }

  lemma OpLane(e: EntryV, op: Op, id: nat, k: Kind)
    requires EntryInv(e) && !e.closed && id in e.lanes
    ensures id in ApplyOp(e, op).lanes
    ensures ApplyOp(e, op).lanes[id].Lane(k) == QueueSteps(e.lanes[id].Lane(k), OpFeed(op, k))
  {
    assert Sound(e.lanes[id], id in e.live);
    match op
    case Publish(p) =>
      assert PublishV(e, p).lanes[id] == if id in e.live then Offer(e.lanes[id], p) else e.lanes[id];
    case Shutdown =>
      assert ShutdownV(e).lanes[id] == if id in e.live then CloseAll(e.lanes[id]) else e.lanes[id];
    case Subscribe =>
    case SetOpus(_) =>
  }

  lemma ClosedOpLane(e: EntryV, op: Op, id: nat)
    requires EntryInv(e) && e.closed && id in e.lanes
    ensures ApplyOp(e, op).lanes == e.lanes
  {
  }

  lemma CloseLane(e: EntryV, i: nat, id: nat, k: Kind)
    requires EntryInv(e) && id in e.lanes
    ensures id in CloseSubscriptionV(e, i).lanes
    ensures CloseSubscriptionV(e, i).lanes[id].Lane(k) ==
      if i == id then QueueStep(e.lanes[id].Lane(k), Shut) else e.lanes[id].Lane(k)
  {
    assert Sound(e.lanes[id], id in e.live);
  }

  lemma TakeLane(e: EntryV, i: nat, j: Kind, id: nat, k: Kind)
    requires EntryInv(e) && id in e.lanes
    ensures id in ReceiveV(e, i, j).lanes
    ensures ReceiveV(e, i, j).lanes[id].Lane(k) ==
      if i == id && j == k then QueueStep(e.lanes[id].Lane(k), Taken) else e.lanes[id].Lane(k)
  {
  }

  // The step is one of the events that act on an entry, and it acts on entry `eid`.
  predicate ActsOn(w: World, ev: Event, eid: nat) {
    match ev
    case Act(tid) => tid in w.calls && w.calls[tid].target == eid
    case CloseSubscription(e, _) => e == eid
    case Take(e, _, _) => e == eid
    case _ => false
  }

  lemma OtherEntries(w: World, ev: Event, eid: nat, id: nat, k: Kind)
    requires eid < |w.entries| && !ActsOn(w, ev, eid)
    ensures eid < |Step(w, ev).entries| && Step(w, ev).entries[eid] == w.entries[eid]
    ensures FeedStep(w, ev, eid, id, k) == []
  {
    hide ApplyOp, CloseSubscriptionV, ReceiveV;
  }

  lemma ActLane(w: World, tid: nat, eid: nat, id: nat, k: Kind)
    requires WorldInv(w) && Subscribed(w, eid, id) && ActsOn(w, Act(tid), eid)
    ensures Subscribed(Step(w, Act(tid)), eid, id)
    ensures LaneOf(Step(w, Act(tid)), eid, id, k) ==
      QueueSteps(LaneOf(w, eid, id, k), FeedStep(w, Act(tid), eid, id, k))
  {
    var e, op := w.entries[eid], w.calls[tid].op;
    assert EntryInv(e);
    hide WorldInv;
    if e.closed { ClosedOpLane(e, op, id); } else { OpLane(e, op, id, k); }
    hide ApplyOp, EntryInv;
  }

  lemma LaneStep(w: World, ev: Event, eid: nat, id: nat, k: Kind)
    requires WorldInv(w) && Subscribed(w, eid, id)
    ensures Subscribed(Step(w, ev), eid, id)
    ensures |FeedStep(w, ev, eid, id, k)| <= 1
    ensures LaneOf(Step(w, ev), eid, id, k) == QueueSteps(LaneOf(w, eid, id, k), FeedStep(w, ev, eid, id, k))
  {
    var e := w.entries[eid];
    assert EntryInv(e);
    if !ActsOn(w, ev, eid) {
      OtherEntries(w, ev, eid, id, k);
      hide Step, FeedStep, WorldInv, EntryInv;
    } else if ev.Act? {
      ActLane(w, ev.tid, eid, id, k);
      hide WorldInv, EntryInv, Step;
    } else if ev.CloseSubscription? {
      hide WorldInv, CloseSubscriptionV, EntryInv;
      CloseLane(e, ev.id, id, k);
    } else {
      hide WorldInv, ReceiveV, EntryInv;
      TakeLane(e, ev.id, ev.kind, id, k);
    }
  }

  lemma FeedBeforeSubscribing(evs: seq<Event>, eid: nat, id: nat, k: Kind)
    ensures !Subscribed(Run(evs), eid, id) ==> Feed(evs, eid, id, k) == []
  {
    ChannelLifetime(evs);
    if evs != [] && !Subscribed(Run(evs), eid, id) {
      var before := evs[..|evs| - 1];
      ChannelLifetime(before);
      if Subscribed(Run(before), eid, id) {
        LaneStep(Run(before), evs[|evs| - 1], eid, id, k);
      } else {
        FeedBeforeSubscribing(before, eid, id, k);
      }
    }
  }

  lemma NewSubscription(w: World, ev: Event, eid: nat, id: nat, k: Kind)
    requires WorldInv(w) && !Subscribed(w, eid, id) && Subscribed(Step(w, ev), eid, id)
    ensures LaneOf(Step(w, ev), eid, id, k) == NewChan(k)
    ensures FeedStep(w, ev, eid, id, k) == []
  {
    match ev
    case Act(tid) =>
      assert eid < |w.entries| && tid in w.calls && w.calls[tid].target == eid;
      assert Step(w, ev).entries[eid] == ApplyOp(w.entries[eid], w.calls[tid].op);
    case CloseSubscription(_, _) =>
    case Take(_, _, _) =>
    case StartSwap(_, _, _) =>
    case StopSwap(_, _) =>
    case Lookup(_, _, _) =>
  }

  // Fan-out refines independent queues: whatever the interleaving, what a subscriber has
  // received, what is still buffered for it and whether its channel is closed are those of a
  // private queue that saw only the packets accepted since it subscribed and its own takes.
  lemma {:induction false} FanOutRefinesPrivateQueues(evs: seq<Event>, eid: nat, id: nat, k: Kind)
    requires Subscribed(Run(evs), eid, id)
    ensures LaneOf(Run(evs), eid, id, k) == QueueRun(k, Feed(evs, eid, id, k))
  {
    if evs != [] {
      var before, ev := evs[..|evs| - 1], evs[|evs| - 1];
      var w := Run(before);
      ChannelLifetime(before);
      QueueRunAppend(k, Feed(before, eid, id, k), FeedStep(w, ev, eid, id, k)) by {
        if Subscribed(w, eid, id) { LaneStep(w, ev, eid, id, k); } else { NewSubscription(w, ev, eid, id, k); }
      }
      if Subscribed(w, eid, id) {
        FanOutRefinesPrivateQueues(before, eid, id, k);
        LaneStep(w, ev, eid, id, k);
      } else {
        FeedBeforeSubscribing(before, eid, id, k);
        NewSubscription(w, ev, eid, id, k);
      }
    }
  }

  // ---------------------------------------------------------------- what a private queue delivers

  // Everything offered while the subscription lasted.
  function OfferedTo(ops: seq<QueueOp>): seq<Packet> {
    if ops == [] then [] else
      var before := OfferedTo(ops[..|ops| - 1]);
      match ops[|ops| - 1]
      case Offered(p) => if Shut in ops then before else before + [p]
      case _ => before
  }

  // The positions, within OfferedTo, of the packets that were kept.
  function Kept(k: Kind, ops: seq<QueueOp>): seq<nat> {
    if ops == [] then [] else
      var before := ops[..|ops| - 1];
      var c := QueueRun(k, before);
      if ops[|ops| - 1].Offered? && !c.closed && |c.buffer| < c.capacity
      then Kept(k, before) + [|OfferedTo(before)|] else Kept(k, before)
  }

  function Delivered(c: Chan): seq<Packet> {
    c.received + c.buffer
  }

  ghost predicate Increasing(s: seq<nat>, bound: nat) {
    (forall i :: 0 <= i < |s| ==> s[i] < bound) && (forall i, j :: 0 <= i < j < |s| ==> s[i] < s[j])
  }

  // A backlog that reached the capacity at some offer.
  predicate Overflowed(k: Kind, ops: seq<QueueOp>) {
    exists n :: 0 <= n < |ops| && OverflowsAt(k, ops, n)
  }

  predicate OverflowsAt(k: Kind, ops: seq<QueueOp>, n: nat)
    requires n < |ops|
  {
    ops[n].Offered? && !QueueRun(k, ops[..n]).closed && |QueueRun(k, ops[..n]).buffer| >= Capacity(k)
  }

  lemma {:induction false} QueueShape(k: Kind, ops: seq<QueueOp>)
    ensures QueueRun(k, ops).closed <==> Shut in ops
    ensures QueueRun(k, ops).capacity == Capacity(k)
    ensures |QueueRun(k, ops).buffer| <= Capacity(k)
  {
    if ops != [] {
      QueueShape(k, ops[..|ops| - 1]);
      assert ops == ops[..|ops| - 1] + [ops[|ops| - 1]];
    }
  }

  // Only an offer that finds an open queue with room adds to what is delivered.
  lemma DeliveredStep(c: Chan, op: QueueOp)
    ensures Delivered(QueueStep(c, op)) ==
      Delivered(c) + if op.Offered? && !c.closed && |c.buffer| < c.capacity then [op.packet] else []
  {
  }

  // In order and without duplicates: the delivered packets are the offered ones at strictly
  // increasing positions.
  lemma {:induction false} DeliveredInOrder(k: Kind, ops: seq<QueueOp>)
    ensures |Kept(k, ops)| == |Delivered(QueueRun(k, ops))|
    ensures Increasing(Kept(k, ops), |OfferedTo(ops)|)
    ensures forall i :: 0 <= i < |Kept(k, ops)| ==> Delivered(QueueRun(k, ops))[i] == OfferedTo(ops)[Kept(k, ops)[i]]
  {
    if ops != [] {
      var before, op := ops[..|ops| - 1], ops[|ops| - 1];
      DeliveredInOrder(k, before);
      QueueShape(k, before);
      DeliveredStep(QueueRun(k, before), op);
      assert ops == before + [op];
      hide QueueStep, Delivered;
    }
  }

  // Lossless exactly when the backlog never reached the capacity at an offer.
  lemma {:induction false} LosslessIffNoOverflow(k: Kind, ops: seq<QueueOp>)
    ensures |Delivered(QueueRun(k, ops))| <= |OfferedTo(ops)|
    ensures Delivered(QueueRun(k, ops)) == OfferedTo(ops) <==> !Overflowed(k, ops)
  {
    if ops != [] {
      var before, op := ops[..|ops| - 1], ops[|ops| - 1];
      LosslessIffNoOverflow(k, before);
      QueueShape(k, before);
      assert ops == before + [op];
      var c := QueueRun(k, before);
      DeliveredInOrder(k, before);
      DeliveredInOrder(k, ops);
      OverflowAppend(k, before, op);
      match op
      case Offered(p) =>
        if !c.closed {
          if |c.buffer| < c.capacity {
            assert Delivered(QueueRun(k, ops)) == Delivered(c) + [p];
            if Delivered(c) + [p] == OfferedTo(before) + [p] {
              assert (Delivered(c) + [p])[..|Delivered(c)|] == Delivered(c);
              assert (OfferedTo(before) + [p])[..|OfferedTo(before)|] == OfferedTo(before);
            }
          } else {
            assert |OfferedTo(ops)| == |OfferedTo(before)| + 1;
          }
        }
      case Taken =>
        assert Delivered(Received(c)) == Delivered(c);
      case Shut =>
    }
  }

  lemma OverflowAppend(k: Kind, before: seq<QueueOp>, op: QueueOp)
    ensures Overflowed(k, before + [op]) <==> Overflowed(k, before) || OverflowsAt(k, before + [op], |before|)
  {
    var ops := before + [op];
    forall n | 0 <= n < |before|
      ensures OverflowsAt(k, ops, n) == OverflowsAt(k, before, n)
    {
      assert ops[..n] == before[..n];
    }
    if Overflowed(k, before) {
      var n :| 0 <= n < |before| && OverflowsAt(k, before, n);
      assert OverflowsAt(k, ops, n);
    }
  }

  // The three facts together, for any subscriber of any run.
  lemma SubscriberSeesAcceptedPackets(evs: seq<Event>, eid: nat, id: nat, k: Kind)
    requires Subscribed(Run(evs), eid, id)
    ensures var c, ops := LaneOf(Run(evs), eid, id, k), Feed(evs, eid, id, k);
      && Increasing(Kept(k, ops), |OfferedTo(ops)|)
      && |Kept(k, ops)| == |Delivered(c)|
      && (forall i :: 0 <= i < |Kept(k, ops)| ==> Delivered(c)[i] == OfferedTo(ops)[Kept(k, ops)[i]])
      && (Delivered(c) == OfferedTo(ops) <==> !Overflowed(k, ops))
  {
    FanOutRefinesPrivateQueues(evs, eid, id, k);
    DeliveredInOrder(k, Feed(evs, eid, id, k));
    LosslessIffNoOverflow(k, Feed(evs, eid, id, k));
  }

  // ---------------------------------------------------------------- independence of other subscribers

  // Events by which some other reader takes from or closes its own subscription.
  predicate Foreign(ev: Event, eid: nat, id: nat) {
    match ev
    case CloseSubscription(e, i) => e != eid || i != id
    case Take(e, i, _) => e != eid || i != id
    case _ => false
  }

  function WithoutForeign(evs: seq<Event>, eid: nat, id: nat): seq<Event> {
    if evs == [] then [] else
      var before := WithoutForeign(evs[..|evs| - 1], eid, id);
      if Foreign(evs[|evs| - 1], eid, id) then before else before + [evs[|evs| - 1]]
  }

  // Two entries that differ at most in what other subscribers took or closed.
  ghost predicate SameFor(e: EntryV, f: EntryV, id: nat) {
    && e.key == f.key && e.closed == f.closed && e.nextID == f.nextID
    && (id in e.lanes <==> id in f.lanes)
    && (id in e.live <==> id in f.live)
    && (id in e.lanes ==> e.lanes[id] == f.lanes[id])
  }

  ghost predicate SameHead(e: EntryV, f: EntryV) {
    e.key == f.key && e.closed == f.closed && e.nextID == f.nextID
  }

  ghost predicate Agree(w: World, v: World, eid: nat, id: nat) {
    && w.streams == v.streams && w.calls == v.calls && |w.entries| == |v.entries|
    && (forall i :: 0 <= i < |w.entries| ==> SameHead(w.entries[i], v.entries[i]))
    && (eid < |w.entries| ==> SameFor(w.entries[eid], v.entries[eid], id))
  }

  lemma OpAgrees(e: EntryV, f: EntryV, op: Op, id: nat)
    requires EntryInv(e) && EntryInv(f) && SameFor(e, f, id)
    ensures SameFor(ApplyOp(e, op), ApplyOp(f, op), id)
  {
  }

  lemma OpKeepsHead(e: EntryV, f: EntryV, op: Op)
    requires SameHead(e, f)
    ensures SameHead(ApplyOp(e, op), ApplyOp(f, op))
  {
  }

  lemma ActAgrees(w: World, v: World, tid: nat, eid: nat, id: nat)
    requires WorldInv(w) && WorldInv(v) && Agree(w, v, eid, id) && tid in w.calls
    ensures Agree(Step(w, Act(tid)), Step(v, Act(tid)), eid, id)
  {
    var c := w.calls[tid];
    OpKeepsHead(w.entries[c.target], v.entries[c.target], c.op);
    if c.target == eid { OpAgrees(w.entries[eid], v.entries[eid], c.op, id); }
  }

  function EntryEvent(e: EntryV, ev: Event): EntryV {
    match ev
    case CloseSubscription(_, i) => CloseSubscriptionV(e, i)
    case Take(_, i, k) => ReceiveV(e, i, k)
    case _ => e
  }

  lemma EntryEventSame(e: EntryV, f: EntryV, ev: Event, eid: nat, id: nat)
    requires EntryInv(e) && EntryInv(f) && SameFor(e, f, id)
    requires ev.CloseSubscription? || ev.Take?
    requires ev.eid == eid
    ensures SameFor(EntryEvent(e, ev), if Foreign(ev, eid, id) then f else EntryEvent(f, ev), id)
  {
  }

  lemma EntryEventHead(e: EntryV, ev: Event)
    ensures SameHead(EntryEvent(e, ev), e)
  {
  }

  // One entry is replaced on both sides.
  lemma ReplaceAgrees(w: World, v: World, i: nat, e: EntryV, f: EntryV, eid: nat, id: nat)
    requires Agree(w, v, eid, id) && i < |w.entries| && SameHead(e, f)
    requires i == eid ==> SameFor(e, f, id)
    ensures Agree(w.(entries := w.entries[i := e]), v.(entries := v.entries[i := f]), eid, id)
  {
    hide SameFor, SameHead;
  }

  lemma EntryEventAgrees(w: World, v: World, ev: Event, eid: nat, id: nat)
    requires WorldInv(w) && WorldInv(v) && Agree(w, v, eid, id)
    requires ev.CloseSubscription? || ev.Take?
    ensures Agree(Step(w, ev), if Foreign(ev, eid, id) then v else Step(v, ev), eid, id)
  {
    if ev.eid < |w.entries| {
      var i, e, f := ev.eid, w.entries[ev.eid], v.entries[ev.eid];
      var f' := if Foreign(ev, eid, id) then f else EntryEvent(f, ev);
      EntryEventHead(e, ev);
      EntryEventHead(f, ev);
      assert Step(w, ev) == w.(entries := w.entries[i := EntryEvent(e, ev)]);
      assert (if Foreign(ev, eid, id) then v else Step(v, ev)) == v.(entries := v.entries[i := f']);
      if i == eid { EntryEventSame(e, f, ev, eid, id); }
      assert SameHead(e, f);
      hide Agree, WorldInv, Step, EntryEvent, SameFor, Foreign;
      ReplaceAgrees(w, v, i, EntryEvent(e, ev), f', eid, id);
    }
  }

  lemma TableEventAgrees(w: World, v: World, ev: Event, eid: nat, id: nat)
    requires Agree(w, v, eid, id)
    requires ev.StartSwap? || ev.StopSwap? || ev.Lookup?
    ensures Agree(Step(w, ev), Step(v, ev), eid, id)
  {
  }

  lemma StepAgrees(w: World, v: World, ev: Event, eid: nat, id: nat)
    requires WorldInv(w) && WorldInv(v) && Agree(w, v, eid, id)
    ensures Agree(Step(w, ev), if Foreign(ev, eid, id) then v else Step(v, ev), eid, id)
  {
    if ev.Act? {
      if ev.tid in w.calls { ActAgrees(w, v, ev.tid, eid, id); }
    } else if ev.CloseSubscription? || ev.Take? {
      EntryEventAgrees(w, v, ev, eid, id);
    } else {
      TableEventAgrees(w, v, ev, eid, id);
    }
  }

  lemma {:induction false} RunsAgree(evs: seq<Event>, eid: nat, id: nat)
    ensures Agree(Run(evs), Run(WithoutForeign(evs, eid, id)), eid, id)
  {
    if evs != [] {
      var before := evs[..|evs| - 1];
      var kept := WithoutForeign(before, eid, id);
      RunsAgree(before, eid, id);
      ChannelLifetime(before);
      ChannelLifetime(kept);
      StepAgrees(Run(before), Run(kept), evs[|evs| - 1], eid, id);
      if !Foreign(evs[|evs| - 1], eid, id) {
        assert WithoutForeign(evs, eid, id)[..|kept|] == kept;
      }
    }
  }

  // A slow, stalled or departing subscriber never changes what another one sees.
  lemma UnaffectedByOthers(evs: seq<Event>, eid: nat, id: nat, k: Kind)
    requires Subscribed(Run(evs), eid, id)
    ensures Subscribed(Run(WithoutForeign(evs, eid, id)), eid, id)
    ensures LaneOf(Run(evs), eid, id, k) == LaneOf(Run(WithoutForeign(evs, eid, id)), eid, id, k)
  {
    RunsAgree(evs, eid, id);
  }
}

// The registry in place and the run machine of StreamFanOut: the registry map of the former is
// that of the latter, and every locked section is one step.

module StreamLink {
  import opened MediaTypes
  import opened StreamRegistry
  import Fan = StreamFanOut

  // No two entries share an object.
  ghost predicate Apart(entries: seq<Entry>)
    reads entries`repr
  {
    forall i, j | 0 <= i < j < |entries| :: entries[i] != entries[j] && entries[i].repr !! entries[j].repr
  }

  ghost predicate Shown(e: Entry, view: EntryV)
    reads e, e.repr
  {
    e.Linked() && e.View() == view
  }

  ghost predicate Shows(entries: seq<Entry>, views: seq<EntryV>)
    reads entries, set e, s | e in entries && s in e.repr :: s
  {
    |entries| == |views| && forall i | 0 <= i < |entries| :: Shown(entries[i], views[i])
  }

  ghost predicate Table(r: Registry, entries: seq<Entry>, streams: map<string, nat>)
    reads r
  {
    && r.streams.Keys == streams.Keys
    && forall k | k in streams :: streams[k] < |entries| && r.streams[k] == entries[streams[k]]
  }

  // The entries ever started, in order, and the registry map, are those of the machine.
  ghost predicate Represents(r: Registry, entries: seq<Entry>, w: Fan.World)
    reads r, entries, set e, s | e in entries && s in e.repr :: s
  {
    Apart(entries) && Shows(entries, w.entries) && Table(r, entries, w.streams)
  }

  lemma StartStep(w: Fan.World, tid: nat, key: string, config: Config)
    requires tid !in w.calls
    ensures var w' := Fan.Step(w, Fan.StartSwap(tid, key, config));
      w'.entries == w.entries + [FreshEntry(key, config)] && w'.streams == w.streams[key := |w.entries|]
  {
  }

  lemma ActStep(w: Fan.World, tid: nat)
    requires Fan.WorldInv(w) && tid in w.calls
    ensures var c := w.calls[tid];
      && c.target < |w.entries| && EntryInv(w.entries[c.target])
      && Fan.Step(w, Fan.Act(tid)).entries == w.entries[c.target := Fan.ApplyOp(w.entries[c.target], c.op)]
      && Fan.Step(w, Fan.Act(tid)).streams == w.streams
  {
    hide EntryInv, Fan.ApplyOp;
  }

  lemma EntryStep(w: Fan.World, i: nat, ev: Fan.Event)
    requires Fan.WorldInv(w) && i < |w.entries|
    requires (ev.CloseSubscription? || ev.Take?) && ev.eid == i
    ensures EntryInv(w.entries[i]) && Fan.Step(w, ev).streams == w.streams
    ensures Fan.Step(w, ev).entries == w.entries[i :=
      if ev.Take? then ReceiveV(w.entries[i], ev.id, ev.kind) else CloseSubscriptionV(w.entries[i], ev.id)]
  {
    hide EntryInv, ReceiveV, CloseSubscriptionV;
  }

  method StartSwap(r: Registry, ghost entries: seq<Entry>, ghost w: Fan.World, ghost tid: nat,
                   key: string, config: Config)
    returns (e: Entry, previous: seq<Entry>)
    requires Represents(r, entries, w) && tid !in w.calls
    modifies r
    ensures fresh(e) && Represents(r, entries + [e], Fan.Step(w, Fan.StartSwap(tid, key, config)))
    ensures previous == [] <==> key !in w.streams
    ensures previous != [] ==> w.streams[key] < |entries| && previous == [entries[w.streams[key]]]
  {
    StartStep(w, tid, key, config);
    hide Fan.Step, FreshEntry, Entry.Linked, Entry.View;
    e, previous := r.StartSwap(key, config);
    assert Apart(entries + [e]) by { hide Table, Shows; }
    assert Shows(entries + [e], w.entries + [FreshEntry(key, config)]) by { hide Table, Apart; }
    assert Table(r, entries + [e], w.streams[key := |entries|]) by { hide Apart, Shows, Shown; }
    hide Apart, Shows, Shown, Table;
  }

  method StopSwap(r: Registry, ghost entries: seq<Entry>, ghost w: Fan.World, ghost tid: nat, key: string)
    returns (removed: seq<Entry>)
    requires Represents(r, entries, w) && tid !in w.calls
    modifies r
    ensures Represents(r, entries, Fan.Step(w, Fan.StopSwap(tid, key)))
    ensures removed == [] <==> key !in w.streams
    ensures removed != [] ==> w.streams[key] < |entries| && removed == [entries[w.streams[key]]]
  {
    hide Apart, Shows, Shown;
    removed := r.StopSwap(key);
  }

  method Publish(r: Registry, e: Entry, p: Packet, ghost entries: seq<Entry>,
                 ghost w: Fan.World, ghost tid: nat, ghost i: nat)
    returns (ok: bool)
    requires Represents(r, entries, w) && Fan.WorldInv(w)
    requires tid in w.calls && w.calls[tid] == Fan.Call(i, Fan.Publish(p)) && i < |entries| && entries[i] == e
    modifies e`totalBytes, e`lanes, e.repr
    ensures Represents(r, entries, Fan.Step(w, Fan.Act(tid)))
    ensures ok == !w.entries[i].closed
  {
    ActStep(w, tid);
    assert Fan.ApplyOp(w.entries[i], Fan.Publish(p)) == PublishV(w.entries[i], p);
    hide EntryInv, PublishV, Fan.WorldInv, Fan.Step, Fan.ApplyOp, Table;
    assert Shown(e, w.entries[i]);
    ok := e.Publish(p);
    assert Shown(e, PublishV(w.entries[i], p));
    hide Entry.Linked, Entry.View, Shown;
    assert Shows(entries, w.entries[i := PublishV(w.entries[i], p)]);
    hide Apart, Shows;
  }

  method Shutdown(r: Registry, e: Entry, ghost entries: seq<Entry>, ghost w: Fan.World, ghost tid: nat, ghost i: nat)
    requires Represents(r, entries, w) && Fan.WorldInv(w)
    requires tid in w.calls && w.calls[tid] == Fan.Call(i, Fan.Shutdown) && i < |entries| && entries[i] == e
    modifies e`closed, e`subscribers, e`lanes, e.repr
    ensures Represents(r, entries, Fan.Step(w, Fan.Act(tid)))
  {
    ActStep(w, tid);
    assert Fan.ApplyOp(w.entries[i], Fan.Shutdown) == ShutdownV(w.entries[i]);
    hide EntryInv, ShutdownV, Fan.WorldInv, Fan.Step, Fan.ApplyOp, Table;
    assert Shown(e, w.entries[i]);
    e.Shutdown();
    assert Shown(e, ShutdownV(w.entries[i]));
    hide Entry.Linked, Entry.View, Shown;
    assert Shows(entries, w.entries[i := ShutdownV(w.entries[i])]);
    hide Apart, Shows;
  }

  method Subscribe(r: Registry, e: Entry, ghost entries: seq<Entry>, ghost w: Fan.World, ghost tid: nat, ghost i: nat)
    returns (s: seq<Subscriber>)
    requires Represents(r, entries, w) && Fan.WorldInv(w)
    requires tid in w.calls && w.calls[tid] == Fan.Call(i, Fan.Subscribe) && i < |entries| && entries[i] == e
    modifies e`nextID, e`subscribers, e`issued, e`lanes, e`repr
    ensures Represents(r, entries, Fan.Step(w, Fan.Act(tid)))
    ensures s == [] <==> w.entries[i].closed
  {
    ActStep(w, tid);
    assert Fan.ApplyOp(w.entries[i], Fan.Subscribe) == SubscribeV(w.entries[i]);
    hide EntryInv, SubscribeV, Fan.WorldInv, Fan.Step, Fan.ApplyOp, Table;
    assert Shown(e, w.entries[i]);
    var id, announced, opusNow;
    s, id, announced, opusNow := e.Subscribe();
    assert Shown(e, SubscribeV(w.entries[i]));
    hide Entry.Linked, Entry.View, Shown;
    assert Shows(entries, w.entries[i := SubscribeV(w.entries[i])]) by { hide Apart; }
    hide Shows;
  }

  method CloseSubscription(r: Registry, e: Entry, id: nat, ghost entries: seq<Entry>, ghost w: Fan.World, ghost i: nat)
    requires Represents(r, entries, w) && Fan.WorldInv(w) && i < |entries| && entries[i] == e
    modifies e`subscribers, e`lanes, e.repr
    ensures Represents(r, entries, Fan.Step(w, Fan.CloseSubscription(i, id)))
  {
    EntryStep(w, i, Fan.CloseSubscription(i, id));
    hide EntryInv, CloseSubscriptionV, Fan.WorldInv, Fan.Step, Table;
    assert Shown(e, w.entries[i]);
    e.CloseSubscription(id);
    assert Shown(e, CloseSubscriptionV(w.entries[i], id));
    hide Entry.Linked, Entry.View, Shown;
    assert Shows(entries, w.entries[i := CloseSubscriptionV(w.entries[i], id)]);
    hide Apart, Shows;
  }

  method TakeShown(e: Entry, reader: Subscriber, ghost id: nat, k: Kind, ghost view: EntryV, ghost queued: seq<Packet>)
    returns (p: seq<Packet>)
    requires Shown(e, view) && EntryInv(view)
    requires id in e.issued && e.issued[id] == reader && id in view.lanes && queued == view.lanes[id].Lane(k).buffer
    modifies e`lanes, e.repr
    ensures Shown(e, ReceiveV(view, id, k))
    ensures |p| <= 1 && p <= queued && (p == [] <==> queued == [])
  {
    assert reader in e.repr;
    hide EntryInv, ReceiveV;
    p := e.Receive(reader, id, k);
  }

  method Take(r: Registry, e: Entry, reader: Subscriber, ghost id: nat, k: Kind,
              ghost entries: seq<Entry>, ghost w: Fan.World, ghost i: nat)
    returns (p: seq<Packet>)
    requires Represents(r, entries, w) && Fan.WorldInv(w) && i < |entries| && entries[i] == e
    requires id in e.issued && e.issued[id] == reader && Fan.Subscribed(w, i, id)
    modifies e`lanes, e.repr
    ensures Represents(r, entries, Fan.Step(w, Fan.Take(i, id, k)))
    ensures var queued := Fan.LaneOf(w, i, id, k).buffer;
      |p| <= 1 && p <= queued && (p == [] <==> queued == [])
  {
    EntryStep(w, i, Fan.Take(i, id, k));
    assert Shown(e, w.entries[i]);
    ghost var view, queued := w.entries[i], Fan.LaneOf(w, i, id, k).buffer;
    assert id in view.lanes && queued == view.lanes[id].Lane(k).buffer;
    hide EntryInv, ReceiveV, Lanes.Lane, Entry.Linked, Entry.View, Shown, Fan.WorldInv, Fan.Step, Fan.LaneOf, Table;
    p := TakeShown(e, reader, id, k, view, queued);
    assert Shows(entries, w.entries[i := ReceiveV(view, id, k)]);
    hide Apart, Shows;
  }
}

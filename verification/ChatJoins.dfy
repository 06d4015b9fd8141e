// Join confirmation over whole runs of the chat protocol: what a client believes about its rooms,
// and which calls a confirmation reaches.

module ChatJoins {
  import opened ChatTypes
  import opened WsClient
  import opened ChatProtocol
  import Hub

  // ---------------------------------------------------------------- one client in a run

  // The state of device d's client after the event.
  function ClientAfter(w: World, ev: Event, d: nat): ClientV {
    var c := ClientOf(w, d);
    match ev
    case Connect(x, _) => if x == d then OnOpen(OnDisconnect(c)) else c
    case Reconnect(x) => if x == d && c.shouldReconnect then OnOpen(c) else c
    case Deliver(k) =>
      if k.0 == d && k in w.conns && w.conns[k].toClient != [] then OnMessage(c, k.1, w.conns[k].toClient[0]).0 else c
    case Break(_, _, _) => c
    case Register(_) => c
    case Unregister(_) => c
    case Receive(_, _) => c
    case Broadcast(_) => c
    case Kick(_, _) => c
    case _ => if ev.dev == d then DeviceAct(c, ev, |w.sendings|).0 else c
  }

  lemma HandleKeepsDevices(w: World, k: ConnKey, m: ClientMsg, l: Hub.Lookups)
    requires k in w.conns
    ensures Handle(w, k, m, l).devices == w.devices
  {
    hide Hub.Step, Hub.Judge, Hub.Rooms, Hub.NormalKind;
  }

  lemma ActSetsClient(w: World, d: nat, act: (ClientV, seq<ClientMsg>), x: nat)
    ensures ClientOf(Act(w, d, act), x) == if x == d then act.0 else ClientOf(w, x)
  {
  }

  lemma DeviceStepClient(w: World, ev: Event, d: nat)
    requires OnOneDevice(ev)
    ensures ClientOf(DeviceStep(w, ev), d) ==
      if ev.dev == d then DeviceAct(ClientOf(w, d), ev, |w.sendings|).0 else ClientOf(w, d)
  {
    ActSetsClient(w, ev.dev, DeviceAct(ClientOf(w, ev.dev), ev, |w.sendings|), d);
    hide Act, OnTransmit;
  }

  lemma ServerKeepsDevices(w: World, ev: Event)
    requires ev.Break? || ev.Register? || ev.Unregister? || ev.Kick? || ev.Broadcast?
    ensures Step(w, ev).devices == w.devices
  {
    hide Hub.Step, Hub.Rooms, IsCurrent;
  }

  lemma ClientStep(w: World, ev: Event, d: nat)
    ensures ClientOf(Step(w, ev), d) == ClientAfter(w, ev, d)
  {
    if ev.Break? || ev.Register? || ev.Unregister? || ev.Kick? || ev.Broadcast? {
      hide Step;
      ServerKeepsDevices(w, ev);
    } else if ev.Receive? {
      hide Handle, Hub.Closes;
      if ev.conn in w.conns && w.conns[ev.conn].toServer != [] {
        HandleKeepsDevices(Popped(w, ev.conn), ev.conn, w.conns[ev.conn].toServer[0], ev.lookups);
      }
    } else if ev.Deliver? {
      var k := ev.conn;
      if k in w.conns && w.conns[k].toClient != [] {
        hide OnMessage, Act;
        var conn := w.conns[k];
        var w' := w.(conns := w.conns[k := conn.(toClient := conn.toClient[1..])]);
        ActSetsClient(w', k.0, OnMessage(ClientOf(w, k.0), k.1, conn.toClient[0]), d);
      }
    } else if !ev.Connect? && !ev.Reconnect? {
      hide DeviceStep, DeviceAct;
      DeviceStepClient(w, ev, d);
    }
  }

  // ---------------------------------------------------------------- join completers

  // Completers of different rooms differ, and a call waits on a completer made for its room.
  ghost predicate CompletersOk(c: ClientV) {
    && (forall r | r in c.completers :: c.completers[r] < c.created)
    && (forall r, s | r in c.completers && s in c.completers && r != s :: c.completers[r] != c.completers[s])
    && (forall id | id in c.calls && c.calls[id].phase.AwaitJoin? ::
          c.calls[id].phase.completer < c.created &&
          forall r | r in c.completers && c.completers[r] == c.calls[id].phase.completer :: r == c.calls[id].room)
  }

  predicate WaitsOn(c: ClientV, call: nat, k: nat) {
    call in c.calls && c.calls[call].phase.AwaitJoin? && c.calls[call].phase.completer == k
  }

  // The completer is the registered one of the call's room.
  predicate Registered(c: ClientV, call: nat, k: nat) {
    WaitsOn(c, call, k) && c.calls[call].room in c.completers && c.completers[c.calls[call].room] == k
  }

  // A call that shares the completer gives up waiting.
  predicate GivesUp(c: ClientV, ev: Event, d: nat, b: nat, k: nat) {
    ev.Timeout? && ev.dev == d && ev.call != b && WaitsOn(c, ev.call, k)
  }

  // What one step of a client keeps, and what it does to a wait that goes on.
  ghost predicate WaitGoesOn(c: ClientV, c': ClientV, b: nat, k: nat, givenUp: bool) {
    && CompletersOk(c')
    && (WaitsOn(c', b, k) ==> (Registered(c', b, k) <==> !WaitsOn(c, b, k) || (Registered(c, b, k) && !givenUp)))
  }

  // An event that leaves the completers alone and starts no wait.
  lemma QuietWait(c: ClientV, c': ClientV, b: nat, k: nat)
    requires CompletersOk(c) && c'.completers == c.completers && c'.created == c.created
    requires forall id | id in c'.calls && c'.calls[id].phase.AwaitJoin? ::
      id in c.calls && c'.calls[id].phase == c.calls[id].phase && c'.calls[id].room == c.calls[id].room
    ensures WaitGoesOn(c, c', b, k, false)
  {
  }

  // An event that settles the completer of one room and ends every wait on it.
  lemma SettledWait(c: ClientV, c': ClientV, room: nat, b: nat, k: nat)
    requires CompletersOk(c) && c'.completers == c.completers - {room} && c'.created == c.created
    requires forall id | id in c'.calls && c'.calls[id].phase.AwaitJoin? ::
      id in c.calls && c'.calls[id].phase == c.calls[id].phase && c'.calls[id].room == c.calls[id].room
      && !WaitsFor(c'.calls[id], c.completers, room)
    ensures WaitGoesOn(c, c', b, k, false)
  {
  }

  lemma CallAfterWait(p: Call, completers: map<nat, nat>, m: ServerMsg)
    ensures var p' := CallAfter(p, completers, m);
      && p'.room == p.room
      && (p'.phase.AwaitJoin? ==> p'.phase == p.phase)
      && (m.RoomJoined? || m.JoinError? ==> !WaitsFor(p', completers, m.room))
  {
  }

  lemma MessageWait(c: ClientV, generation: nat, m: ServerMsg, b: nat, k: nat)
    requires CompletersOk(c)
    ensures WaitGoesOn(c, OnMessage(c, generation, m).0, b, k, false)
  {
    var c' := OnMessage(c, generation, m).0;
    if generation == c.generation {
      assert c'.calls == map id | id in c.calls :: CallAfter(c.calls[id], c.completers, m);
      assert c'.created == c.created
        && c'.completers == if m.RoomJoined? || m.JoinError? then c.completers - {m.room} else c.completers;
      hide OnMessage, CallAfter, CompletersOk, WaitGoesOn, WaitsFor;
      forall id | id in c.calls {
        CallAfterWait(c.calls[id], c.completers, m);
      }
      if m.RoomJoined? || m.JoinError? {
        SettledWait(c, c', m.room, b, k);
      } else {
        QuietWait(c, c', b, k);
      }
    } else {
      QuietWait(c, c, b, k);
    }
  }

  lemma OpenWait(c: ClientV, b: nat, k: nat)
    requires CompletersOk(c)
    ensures WaitGoesOn(c, OnOpen(c), b, k, false) && WaitGoesOn(c, OnDisconnect(c), b, k, false)
    ensures WaitGoesOn(c, OnOpen(OnDisconnect(c)), b, k, false)
  {
  }

  // The room has a completer from here on.
  lemma CompleterExists(c: ClientV, room: nat, b: nat, k: nat)
    requires CompletersOk(c)
    ensures var c1 := WithCompleter(c, room);
      && CompletersOk(c1) && c1.calls == c.calls
      && room in c1.completers && c1.completers[room] == Completer(c, room)
      && (WaitsOn(c, b, k) ==> (Registered(c1, b, k) <==> Registered(c, b, k)))
  {
    CompleterKeepsOk(c, room);
    if WaitsOn(c, b, k) {
      hide CompletersOk;
      assert c.calls[b].room != room ==> (Registered(WithCompleter(c, room), b, k) <==> Registered(c, b, k));
    }
  }

  lemma CompleterKeepsOk(c: ClientV, room: nat)
    requires CompletersOk(c)
    ensures CompletersOk(WithCompleter(c, room))
  {
  }

  // A call starts to wait on the completer registered for its room.
  lemma StartedWait(c: ClientV, id: nat, a: nat, b: nat, k: nat)
    requires CompletersOk(c) && id in c.calls && c.calls[id].room in c.completers && !c.calls[id].phase.AwaitJoin?
    ensures WaitGoesOn(c, WithPhase(c, id, AwaitJoin(a, c.completers[c.calls[id].room])), b, k, false)
  {
  }

  lemma ProceedWait(c: ClientV, id: nat, b: nat, k: nat)
    requires CompletersOk(c)
    ensures WaitGoesOn(c, OnProceed(c, id).0, b, k, false)
  {
    if id in c.calls && c.calls[id].phase.Woken? && c.calls[id].room !in c.confirmed {
      var room := c.calls[id].room;
      var c1 := WithCompleter(c, room);
      CompleterExists(c, room, b, k);
      hide CompletersOk, WithCompleter, Completer;
      StartedWait(c1, id, c.calls[id].phase.attempt, b, k);
    } else {
      hide CompletersOk, WaitGoesOn;
      QuietWait(c, OnProceed(c, id).0, b, k);
    }
  }

  // A waiting call leaves, and takes the completer with it if that is still the registered one.
  lemma GivenUpWait(c: ClientV, id: nat, b: nat, k: nat)
    requires CompletersOk(c) && id in c.calls && c.calls[id].phase.AwaitJoin?
    ensures var p := c.calls[id];
      var rest := if WaitsFor(p, c.completers, p.room) then c.completers - {p.room} else c.completers;
      WaitGoesOn(c, c.(completers := rest, calls := c.calls[id := p.(phase := Threw(NotSent))]), b, k,
                 id != b && WaitsOn(c, id, k))
  {
  }

  lemma TimeoutWait(c: ClientV, id: nat, b: nat, k: nat)
    requires CompletersOk(c)
    ensures WaitGoesOn(c, OnTimeout(c, id), b, k, id != b && WaitsOn(c, id, k))
  {
    if id in c.calls && c.calls[id].phase.AwaitJoin? {
      GivenUpWait(c, id, b, k);
      hide CompletersOk, WaitGoesOn, WaitsOn, WaitsFor;
    } else {
      hide CompletersOk, WaitGoesOn;
      QuietWait(c, OnTimeout(c, id), b, k);
    }
  }

  lemma LeaveWait(c: ClientV, room: nat, b: nat, k: nat)
    requires CompletersOk(c)
    ensures WaitGoesOn(c, OnLeaveRoom(c, room).0, b, k, false)
  {
    hide CompletersOk, WaitGoesOn;
    SettledWait(c, OnLeaveRoom(c, room).0, room, b, k);
  }

  lemma StartWait(c: ClientV, id: nat, room: nat, chat: bool, kind: string, content: string, b: nat, k: nat)
    requires CompletersOk(c)
    ensures WaitGoesOn(c, OnStart(c, id, room, chat, kind, content), b, k, false)
    ensures WaitGoesOn(c, OnWake(c, id), b, k, false)
  {
    hide CompletersOk, WaitGoesOn;
    QuietWait(c, OnStart(c, id, room, chat, kind, content), b, k);
    QuietWait(c, OnWake(c, id), b, k);
  }

  lemma SendWait(c: ClientV, id: nat, cmid: nat, b: nat, k: nat)
    requires CompletersOk(c)
    ensures WaitGoesOn(c, OnTransmit(c, id, cmid).0, b, k, false)
    ensures WaitGoesOn(c, OnResume(c, id), b, k, false)
  {
    hide CompletersOk, WaitGoesOn;
    QuietWait(c, OnTransmit(c, id, cmid).0, b, k);
    QuietWait(c, OnResume(c, id), b, k);
  }

  lemma LostWait(c: ClientV, generation: nat, b: nat, k: nat)
    requires CompletersOk(c)
    ensures WaitGoesOn(c, OnLost(c, generation), b, k, false)
  {
    hide CompletersOk, WaitGoesOn;
    QuietWait(c, OnLost(c, generation), b, k);
  }

  lemma DeviceActWait(c: ClientV, ev: Event, cmid: nat, b: nat, k: nat)
    requires CompletersOk(c) && OnOneDevice(ev)
    ensures WaitGoesOn(c, DeviceAct(c, ev, cmid).0, b, k, GivesUp(c, ev, ev.dev, b, k))
  {
    hide CompletersOk, WaitGoesOn, WaitsOn, OnStart, OnWake, OnProceed, OnTransmit, OnTimeout, OnResume, OnLost;
    hide OnDisconnect, OnLeaveRoom;
    match ev {
      case Start(_, call, room, chat, kind, content) => StartWait(c, call, room, chat, kind, content, b, k);
      case Wake(_, call) => StartWait(c, call, 0, true, "", "", b, k);
      case Proceed(_, call) => ProceedWait(c, call, b, k);
      case Transmit(_, call) => SendWait(c, call, cmid, b, k);
      case Timeout(_, call) => TimeoutWait(c, call, b, k);
      case Resume(_, call) => SendWait(c, call, 0, b, k);
      case Lose(_, generation) => LostWait(c, generation, b, k);
      case Disconnect(_) => OpenWait(c, b, k);
      case LeaveRoom(_, room) => LeaveWait(c, room, b, k);
    }
  }

  lemma StepWait(w: World, ev: Event, d: nat, b: nat, k: nat)
    requires CompletersOk(ClientOf(w, d))
    ensures WaitGoesOn(ClientOf(w, d), ClientOf(Step(w, ev), d), b, k, GivesUp(ClientOf(w, d), ev, d, b, k))
  {
    ClientStep(w, ev, d);
    var c := ClientOf(w, d);
    hide CompletersOk, WaitGoesOn, WaitsOn, OnMessage, OnDisconnect, OnOpen, DeviceAct, ClientOf, Step;
    match ev {
      case Connect(_, _) => OpenWait(c, b, k); QuietWait(c, c, b, k);
      case Reconnect(_) => OpenWait(c, b, k); QuietWait(c, c, b, k);
      case Deliver(conn) =>
        QuietWait(c, c, b, k);
        if conn in w.conns && w.conns[conn].toClient != [] {
          MessageWait(c, conn.1, w.conns[conn].toClient[0], b, k);
        }
      case Break(_, _, _) => QuietWait(c, c, b, k);
      case Register(_) => QuietWait(c, c, b, k);
      case Unregister(_) => QuietWait(c, c, b, k);
      case Receive(_, _) => QuietWait(c, c, b, k);
      case Broadcast(_) => QuietWait(c, c, b, k);
      case Kick(_, _) => QuietWait(c, c, b, k);
      case _ =>
        QuietWait(c, c, b, k);
        DeviceActWait(c, ev, |w.sendings|, b, k);
    }
  }

  lemma {:induction false} CompletersHold(evs: seq<Event>, d: nat)
    ensures CompletersOk(ClientOf(Run(evs), d))
  {
    if evs != [] {
      CompletersHold(evs[..|evs| - 1], d);
      StepWait(Run(evs[..|evs| - 1]), evs[|evs| - 1], d, 0, 0);
      hide CompletersOk, ClientOf, Step;
    }
  }

  // ---------------------------------------------------------------- whom a confirmation reaches

  // After `n` events call b of device d waits on completer k.
  predicate WaitsAt(evs: seq<Event>, n: nat, d: nat, b: nat, k: nat)
    requires n <= |evs|
  {
    WaitsOn(ClientOf(Run(evs[..n]), d), b, k)
  }

  // The i-th event is the time-out of another call that waits on the same completer.
  predicate GivesUpAt(evs: seq<Event>, i: nat, d: nat, b: nat, k: nat)
    requires i < |evs|
  {
    GivesUp(ClientOf(Run(evs[..i]), d), evs[i], d, b, k)
  }

  // Since such a time-out as the i-th event call b has been waiting on the completer.
  ghost predicate SharerTimedOut(evs: seq<Event>, i: nat, d: nat, b: nat, k: nat)
    requires i < |evs|
  {
    && GivesUpAt(evs, i, d, b, k)
    && forall n: nat | i <= n <= |evs| :: WaitsAt(evs, n, d, b, k)
  }

  lemma EarlierMoment(evs: seq<Event>, before: seq<Event>, n: nat, d: nat, b: nat, k: nat)
    requires evs != [] && before == evs[..|evs| - 1] && n < |evs|
    ensures WaitsAt(before, n, d, b, k) == WaitsAt(evs, n, d, b, k)
    ensures n < |before| ==> GivesUpAt(before, n, d, b, k) == GivesUpAt(evs, n, d, b, k)
  {
    assert before[..n] == evs[..n];
    hide GivesUp, WaitsOn, ClientOf, Run;
  }

  lemma SharerTimedOutEarlier(evs: seq<Event>, i: nat, d: nat, b: nat, k: nat)
    requires i + 1 < |evs| && WaitsAt(evs, |evs|, d, b, k)
    ensures SharerTimedOut(evs, i, d, b, k) <==> SharerTimedOut(evs[..|evs| - 1], i, d, b, k)
  {
    var before := evs[..|evs| - 1];
    hide GivesUpAt, WaitsAt;
    EarlierMoment(evs, before, i, d, b, k);
    forall n: nat | n < |evs| ensures WaitsAt(before, n, d, b, k) == WaitsAt(evs, n, d, b, k) {
      EarlierMoment(evs, before, n, d, b, k);
    }
  }

  lemma LastSharer(evs: seq<Event>, d: nat, b: nat, k: nat)
    requires evs != [] && WaitsAt(evs, |evs|, d, b, k)
    ensures var n := |evs| - 1;
      SharerTimedOut(evs, n, d, b, k) <==> GivesUpAt(evs, n, d, b, k) && WaitsAt(evs, n, d, b, k)
  {
    hide GivesUpAt, WaitsAt;
  }

  ghost predicate SomeSharerTimedOut(evs: seq<Event>, d: nat, b: nat, k: nat) {
    exists i: nat :: i < |evs| && SharerTimedOut(evs, i, d, b, k)
  }

  lemma SomeSharerStep(evs: seq<Event>, d: nat, b: nat, k: nat)
    requires evs != [] && WaitsAt(evs, |evs|, d, b, k)
    ensures var n := |evs| - 1;
      SomeSharerTimedOut(evs, d, b, k) <==> SharerTimedOut(evs, n, d, b, k) || SomeSharerTimedOut(evs[..n], d, b, k)
  {
    var n := |evs| - 1;
    var before := evs[..n];
    hide SharerTimedOut, WaitsAt;
    if SomeSharerTimedOut(evs, d, b, k) {
      var i: nat :| i < |evs| && SharerTimedOut(evs, i, d, b, k);
      if i < n {
        SharerTimedOutEarlier(evs, i, d, b, k);
      }
    }
    if SomeSharerTimedOut(before, d, b, k) {
      var i: nat :| i < n && SharerTimedOut(before, i, d, b, k);
      SharerTimedOutEarlier(evs, i, d, b, k);
    }
  }

  // The last event, seen from the call that goes on waiting.
  lemma LastWait(evs: seq<Event>, d: nat, b: nat, k: nat)
    requires evs != [] && WaitsAt(evs, |evs|, d, b, k)
    ensures var n := |evs| - 1;
      var before := evs[..n];
      && (WaitsAt(before, n, d, b, k) <==> WaitsAt(evs, n, d, b, k))
      && (SharerTimedOut(evs, n, d, b, k) ==> WaitsAt(evs, n, d, b, k))
      && (Registered(ClientOf(Run(evs), d), b, k) <==>
          !WaitsAt(evs, n, d, b, k) || (Registered(ClientOf(Run(before), d), b, k) && !SharerTimedOut(evs, n, d, b, k)))
  {
    var n := |evs| - 1;
    var before := evs[..n];
    CompletersHold(before, d);
    StepWait(Run(before), evs[n], d, b, k);
    LastSharer(evs, d, b, k);
    EarlierMoment(evs, before, n, d, b, k);
    var c, c' := ClientOf(Run(before), d), ClientOf(Run(evs), d);
    assert WaitsOn(c', b, k) && (WaitsAt(evs, n, d, b, k) <==> WaitsOn(c, b, k)) by {
      assert evs[..|evs|] == evs;
      hide Run, ClientOf, WaitsOn;
    }
    assert c' == ClientOf(Step(Run(before), evs[n]), d) by { hide Step, ClientOf; }
    hide Run, ClientOf, CompletersOk, GivesUp, WaitsOn, WaitsAt, Registered, Step, SharerTimedOut;
  }

  // The completer a call waits on is still registered exactly if no sharer has timed out since
  // the call began to wait.
  lemma {:induction false} RegisteredIff(evs: seq<Event>, d: nat, b: nat, k: nat)
    requires WaitsAt(evs, |evs|, d, b, k)
    ensures Registered(ClientOf(Run(evs), d), b, k) <==> !SomeSharerTimedOut(evs, d, b, k)
  {
    if evs != [] {
      var n := |evs| - 1;
      LastWait(evs, d, b, k);
      SomeSharerStep(evs, d, b, k);
      NoSharerBefore(evs[..n], d, b, k);
      hide Run, ClientOf, WaitsAt, Registered, SharerTimedOut, SomeSharerTimedOut;
      if WaitsAt(evs[..n], n, d, b, k) {
        RegisteredIff(evs[..n], d, b, k);
      }
    }
  }

  lemma NoSharerBefore(evs: seq<Event>, d: nat, b: nat, k: nat)
    ensures SomeSharerTimedOut(evs, d, b, k) ==> WaitsAt(evs, |evs|, d, b, k)
  {
    hide WaitsAt, GivesUp;
  }

  // What a confirmation on the current connection does to a waiting call of its room.
  lemma ConfirmationReaches(w: World, d: nat, b: nat)
    requires HasCall(w, d, b) && CallOf(w, d, b).phase.AwaitJoin? && CompletersOk(ClientOf(w, d))
    requires var k := (d, ClientOf(w, d).generation);
      k in w.conns && w.conns[k].toClient != [] && w.conns[k].toClient[0] == RoomJoined(CallOf(w, d, b).room)
    ensures var w', p := Step(w, Deliver((d, ClientOf(w, d).generation))), CallOf(w, d, b);
      && HasCall(w', d, b) && p.room in ClientOf(w', d).confirmed
      && CallOf(w', d, b) ==
           if Registered(ClientOf(w, d), b, p.phase.completer) then p.(phase := Ready(p.phase.attempt)) else p
  {
    hide CompletersOk;
  }

  // Calls for one room share the completer of their wait. The confirmation of the room, arriving
  // on the current connection, lets a waiting call go on if and only if no call that shares its
  // completer has timed out since it began to wait; otherwise the call waits on for nothing.
  lemma SharedJoinTimeout(evs: seq<Event>, d: nat, b: nat)
    requires HasCall(Run(evs), d, b) && CallOf(Run(evs), d, b).phase.AwaitJoin?
    requires var w := Run(evs);
      var k := (d, ClientOf(w, d).generation);
      k in w.conns && w.conns[k].toClient != [] && w.conns[k].toClient[0] == RoomJoined(CallOf(w, d, b).room)
    ensures var w, p := Run(evs), CallOf(Run(evs), d, b);
      var w' := Step(w, Deliver((d, ClientOf(w, d).generation)));
      && HasCall(w', d, b) && p.room in ClientOf(w', d).confirmed
      && CallOf(w', d, b).phase ==
           if SomeSharerTimedOut(evs, d, b, p.phase.completer) then p.phase else Ready(p.phase.attempt)
  {
    var w, k := Run(evs), CallOf(Run(evs), d, b).phase.completer;
    CompletersHold(evs, d);
    assert WaitsAt(evs, |evs|, d, b, k) by {
      assert evs[..|evs|] == evs;
    }
    RegisteredIff(evs, d, b, k);
    ConfirmationReaches(w, d, b);
    hide *;
  }

  // ---------------------------------------------------------------- join confirmation

  ghost predicate EverJoined(joins: set<(ConnKey, nat)>, d: nat, room: nat) {
    exists g: nat :: ((d, g), room) in joins
  }

  // What a client believes about joins is true of its current connection.
  ghost predicate BeliefOk(c: ClientV, d: nat, joins: set<(ConnKey, nat)>) {
    && (CanSend(c) ==> forall room: nat | room in c.confirmed :: ((d, c.generation), room) in joins)
    && (forall room: nat | room in c.confirmed :: EverJoined(joins, d, room))
    && (forall id | id in c.calls && c.calls[id].phase.Ready? :: EverJoined(joins, d, c.calls[id].room))
  }

  predicate JoinedOk(ms: seq<ServerMsg>, k: ConnKey, joins: set<(ConnKey, nat)>) {
    forall m | m in ms && m.RoomJoined? :: (k, m.room) in joins
  }

  ghost predicate JoinInv(w: World) {
    && (forall k: ConnKey | k in w.conns :: JoinedOk(w.conns[k].toClient, k, w.joins))
    && (forall d: nat | d in w.devices :: BeliefOk(w.devices[d].client, d, w.joins))
  }

  lemma MessageBelief(c: ClientV, k: ConnKey, m: ServerMsg, joins: set<(ConnKey, nat)>)
    requires BeliefOk(c, k.0, joins) && (m.RoomJoined? ==> (k, m.room) in joins) && CompletersOk(c)
    ensures BeliefOk(OnMessage(c, k.1, m).0, k.0, joins)
  {
    var c' := OnMessage(c, k.1, m).0;
    if k.1 == c.generation {
      assert m.RoomJoined? ==> ((k.0, k.1), m.room) in joins;
      assert forall room | room in c'.confirmed :: EverJoined(joins, k.0, room);
      forall id | id in c'.calls && c'.calls[id].phase.Ready? ensures EverJoined(joins, k.0, c'.calls[id].room) {
      }
    }
  }

  lemma OpenBelief(c: ClientV, d: nat, joins: set<(ConnKey, nat)>)
    requires BeliefOk(c, d, joins)
    ensures BeliefOk(OnDisconnect(c), d, joins) && BeliefOk(OnOpen(c), d, joins)
  {
  }

  lemma CallBelief(c: ClientV, d: nat, id: nat, room: nat, chat: bool, kind: string, content: string, cmid: nat,
                   joins: set<(ConnKey, nat)>)
    requires BeliefOk(c, d, joins)
    ensures BeliefOk(OnStart(c, id, room, chat, kind, content), d, joins) && BeliefOk(OnWake(c, id), d, joins)
    ensures BeliefOk(OnTransmit(c, id, cmid).0, d, joins)
  {
    hide EverJoined;
  }

  lemma ResumeBelief(c: ClientV, d: nat, id: nat, joins: set<(ConnKey, nat)>)
    requires BeliefOk(c, d, joins)
    ensures BeliefOk(OnResume(c, id), d, joins)
  {
    hide EverJoined;
  }

  lemma TimeoutBelief(c: ClientV, d: nat, id: nat, joins: set<(ConnKey, nat)>)
    requires BeliefOk(c, d, joins)
    ensures BeliefOk(OnTimeout(c, id), d, joins)
  {
    hide EverJoined;
  }

  lemma ProceedBelief(c: ClientV, d: nat, id: nat, joins: set<(ConnKey, nat)>)
    requires BeliefOk(c, d, joins)
    ensures BeliefOk(OnProceed(c, id).0, d, joins)
  {
    hide EverJoined;
  }

  lemma LossBelief(c: ClientV, d: nat, generation: nat, room: nat, joins: set<(ConnKey, nat)>)
    requires BeliefOk(c, d, joins)
    ensures BeliefOk(OnLost(c, generation), d, joins) && BeliefOk(OnLeaveRoom(c, room).0, d, joins)
  {
    hide EverJoined;
  }

  lemma DeviceActBelief(c: ClientV, ev: Event, cmid: nat, d: nat, joins: set<(ConnKey, nat)>)
    requires BeliefOk(c, d, joins) && OnOneDevice(ev)
    ensures BeliefOk(DeviceAct(c, ev, cmid).0, d, joins)
  {
    hide BeliefOk, OnStart, OnWake, OnProceed, OnTransmit, OnTimeout, OnResume, OnLost, OnDisconnect, OnLeaveRoom;
    match ev {
      case Start(_, call, room, chat, kind, content) => CallBelief(c, d, call, room, chat, kind, content, 0, joins);
      case Wake(_, call) => CallBelief(c, d, call, 0, true, "", "", 0, joins);
      case Transmit(_, call) => CallBelief(c, d, call, 0, true, "", "", cmid, joins);
      case Proceed(_, call) => ProceedBelief(c, d, call, joins);
      case Timeout(_, call) => TimeoutBelief(c, d, call, joins);
      case Resume(_, call) => ResumeBelief(c, d, call, joins);
      case Disconnect(_) => OpenBelief(c, d, joins);
      case Lose(_, generation) => LossBelief(c, d, generation, 0, joins);
      case LeaveRoom(_, room) => LossBelief(c, d, 0, room, joins);
    }
  }

  lemma JoinsGrow(w: World, more: set<(ConnKey, nat)>)
    requires JoinInv(w)
    ensures JoinInv(w.(joins := w.joins + more))
  {
    forall d: nat, room: nat | EverJoined(w.joins, d, room) ensures EverJoined(w.joins + more, d, room) {
      var g: nat :| ((d, g), room) in w.joins;
      assert ((d, g), room) in w.joins + more;
    }
    forall d: nat | d in w.devices ensures BeliefOk(w.devices[d].client, d, w.joins + more) {
      hide EverJoined;
    }
  }

  lemma ActBelief(w: World, d: nat, act: (ClientV, seq<ClientMsg>))
    requires JoinInv(w) && BeliefOk(act.0, d, w.joins)
    ensures JoinInv(Act(w, d, act))
  {
    hide BeliefOk, JoinedOk;
  }

  lemma BeliefOf(w: World, d: nat)
    requires JoinInv(w)
    ensures BeliefOk(ClientOf(w, d), d, w.joins)
  {
  }

  lemma ReplyBelief(w: World, k: ConnKey, m: ServerMsg)
    requires JoinInv(w) && (m.RoomJoined? ==> (k, m.room) in w.joins)
    ensures JoinInv(Reply(w, k, m))
  {
    hide BeliefOk;
  }

  lemma DeviceEventBelief(w: World, ev: Event)
    requires JoinInv(w) && OnOneDevice(ev)
    ensures JoinInv(DeviceStep(w, ev))
  {
    var c := ClientOf(w, ev.dev);
    BeliefOf(w, ev.dev);
    hide JoinInv, BeliefOk, Act, ClientOf;
    var act := DeviceAct(c, ev, |w.sendings|);
    DeviceActBelief(c, ev, |w.sendings|, ev.dev, w.joins);
    ActBelief(w, ev.dev, act);
    if ev.Transmit? {
      HistoryBelief(Act(w, ev.dev, act), DeviceStep(w, ev));
    }
  }

  // The parts that JoinInv does not look at.
  lemma HistoryBelief(w: World, w': World)
    requires JoinInv(w) && w'.devices == w.devices && w'.conns == w.conns && w'.joins == w.joins
    ensures JoinInv(w')
  {
  }

  lemma OpenEventBelief(w: World, ev: Event)
    requires JoinInv(w) && (ev.Connect? || ev.Reconnect?)
    ensures JoinInv(Step(w, ev))
  {
    var c := ClientOf(w, ev.dev);
    BeliefOf(w, ev.dev);
    OpenBelief(c, ev.dev, w.joins);
    OpenBelief(OnDisconnect(c), ev.dev, w.joins);
    hide BeliefOk, OnDisconnect, OnOpen;
  }

  lemma CutBelief(w: World, k: ConnKey, conn: Conn)
    requires JoinInv(w) && k in w.conns
    requires forall m | m in conn.toClient :: m in w.conns[k].toClient
    ensures JoinInv(w.(conns := w.conns[k := conn]))
  {
    hide BeliefOk;
  }

  lemma AnnounceBelief(w: World, m: ServerMsg)
    requires JoinInv(w)
    ensures JoinInv(Announce(w, m))
  {
    hide BeliefOk, Hub.Rooms, IsCurrent;
  }

  lemma ServerEventBelief(w: World, ev: Event)
    requires JoinInv(w) && (ev.Break? || ev.Register? || ev.Unregister? || ev.Kick? || ev.Broadcast?)
    ensures JoinInv(Step(w, ev))
  {
    hide JoinInv, Hub.Step, Announce, Reply;
    match ev {
      case Break(k, n, m) =>
        if k in w.conns {
          CutBelief(w, k, Step(w, ev).conns[k]);
        }
      case Register(k) =>
        if k in w.conns {
          var w1 := w.(conns := w.conns[k := w.conns[k].(registered := true)]);
          var w2 := w1.(hub := Hub.Step(w.hub, Hub.Register(k, w.conns[k].user)));
          CutBelief(w, k, w1.conns[k]);
          HistoryBelief(w1, w2);
          ReplyBelief(w2, k, Connected);
        }
      case Unregister(_) => HistoryBelief(w, Step(w, ev));
      case Kick(user, room) =>
        if user in w.hub.current {
          var k := w.hub.current[user];
          var w1 := w.(hub := Hub.Step(w.hub, Hub.Leave(k, room)));
          HistoryBelief(w, w1);
          ReplyBelief(w1, k, OtherEvent);
        }
      case Broadcast(i) =>
        if i < |w.pending| {
          var w1 := w.(pending := w.pending[..i] + w.pending[i + 1..]);
          HistoryBelief(w, w1);
          AnnounceBelief(w1, w.pending[i]);
        }
    }
  }

  lemma HandleBelief(w: World, k: ConnKey, m: ClientMsg, l: Hub.Lookups)
    requires JoinInv(w) && k in w.conns
    ensures JoinInv(Handle(w, k, m, l))
  {
    hide JoinInv, Hub.Step, Hub.Judge, Hub.NormalKind, Hub.Rooms, Reply;
    match m {
      case RoomJoin(room) =>
        if l.isMember {
          var w' := w.(joins := w.joins + {(k, room)});
          JoinsGrow(w, {(k, room)});
          HistoryBelief(w', w'.(hub := Hub.Step(w.hub, Hub.Join(k, room))));
          ReplyBelief(w'.(hub := Hub.Step(w.hub, Hub.Join(k, room))), k, RoomJoined(room));
        } else {
          ReplyBelief(w, k, JoinError(room));
        }
      case RoomLeave(room) => HistoryBelief(w, w.(hub := Hub.Step(w.hub, Hub.Leave(k, room))));
      case ChatSend(_, _, _, _) => ChatBelief(w, k, m, l);
    }
  }

  lemma ChatBelief(w: World, k: ConnKey, m: ClientMsg, l: Hub.Lookups)
    requires JoinInv(w) && k in w.conns && m.ChatSend?
    ensures JoinInv(ChatStep(w, k, m, l))
  {
    var verdict := Hub.Judge(m.room in Hub.Rooms(w.hub, k), l, m.kind, m.content);
    hide JoinInv, Hub.Judge, Hub.NormalKind, Hub.Rooms, Reply;
    var w' := Record(w, m, w.conns[k].user, DecisionOf(verdict, |w.log|));
    HistoryBelief(w, w');
    if verdict.StoreAndBroadcast? {
      HistoryBelief(w', ChatStep(w, k, m, l));
    } else {
      ReplyBelief(w', k, ChatError(m.room, Hub.ErrorOf(verdict), m.cmid));
    }
  }

  lemma DeliverBelief(w: World, k: ConnKey)
    requires JoinInv(w) && CompletersOk(ClientOf(w, k.0))
    ensures JoinInv(DeliverStep(w, k))
  {
    if k in w.conns && w.conns[k].toClient != [] {
      var conn := w.conns[k];
      var m := conn.toClient[0];
      var w' := w.(conns := w.conns[k := conn.(toClient := conn.toClient[1..])]);
      assert m in conn.toClient;
      assert JoinedOk(conn.toClient, k, w.joins);
      BeliefOf(w, k.0);
      hide JoinInv, BeliefOk, OnMessage;
      CutBelief(w, k, conn.(toClient := conn.toClient[1..]));
      MessageBelief(ClientOf(w, k.0), k, m, w.joins);
      ActBelief(w', k.0, OnMessage(ClientOf(w, k.0), k.1, m));
    }
  }

  lemma {:induction false} BeliefsHold(evs: seq<Event>)
    ensures JoinInv(Run(evs))
  {
    if evs != [] {
      var w, ev := Run(evs[..|evs| - 1]), evs[|evs| - 1];
      BeliefsHold(evs[..|evs| - 1]);
      forall d: nat ensures CompletersOk(ClientOf(w, d)) { CompletersHold(evs[..|evs| - 1], d); }
      hide JoinInv, Handle, DeviceStep, CompletersOk, ClientOf;
      match ev {
        case Connect(_, _) => OpenEventBelief(w, ev);
        case Reconnect(_) => OpenEventBelief(w, ev);
        case Deliver(k) => DeliverBelief(w, k);
        case Break(_, _, _) => ServerEventBelief(w, ev);
        case Register(_) => ServerEventBelief(w, ev);
        case Unregister(_) => ServerEventBelief(w, ev);
        case Kick(_, _) => ServerEventBelief(w, ev);
        case Broadcast(_) => ServerEventBelief(w, ev);
        case Receive(k, l) =>
          if k in w.conns && w.conns[k].toServer != [] {
            CutBelief(w, k, w.conns[k].(toServer := w.conns[k].toServer[1..]));
            HandleBelief(Popped(w, k), k, w.conns[k].toServer[0], l);
          }
        case _ => DeviceEventBelief(w, ev);
      }
    }
  }

  // A room a connected client takes for confirmed is one that the server has let this very
  // connection into: no confirmation outlives its connection or comes from an older one.
  lemma ConfirmedRoomsAreJoined(evs: seq<Event>, d: nat, room: nat)
    requires CanSend(ClientOf(Run(evs), d)) && room in ClientOf(Run(evs), d).confirmed
    ensures ((d, ClientOf(Run(evs), d).generation), room) in Run(evs).joins
  {
    BeliefsHold(evs);
    BeliefOf(Run(evs), d);
  }

  // No call hands its message over before some connection of its device was let into the room.
  lemma SendsFollowJoins(evs: seq<Event>, d: nat, call: nat)
    requires MaySend(ClientOf(Run(evs), d), call)
    ensures EverJoined(Run(evs).joins, d, ClientOf(Run(evs), d).calls[call].room)
  {
    BeliefsHold(evs);
    BeliefOf(Run(evs), d);
    hide Run;
  }
}

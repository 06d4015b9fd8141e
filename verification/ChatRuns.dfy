// Concrete runs of the chat protocol that reach the failures its general results leave open.

module ChatRuns {
  import opened ChatTypes
  import opened WsClient
  import opened ChatProtocol
  import opened ChatJoins
  import Hub
  import Text

  const GOOD: Hub.Lookups := Hub.Lookups(true, true, true)
  const NO_SENDER: Hub.Lookups := Hub.Lookups(true, true, false)

  // Device 1, account 7, room 5; the second generation is the first one that is opened.
  const LINK: ConnKey := (1, 2)

  lemma Continue(evs: seq<Event>, w: World, ev: Event, w': World)
    requires Run(evs) == w && Step(w, ev) == w'
    ensures Run(evs + [ev]) == w'
  {
    assert (evs + [ev])[..|evs|] == evs;
  }

  // The device is connected and in room 5 if `inRoom`; nothing has been stored yet.
  function At(c: ClientV, toServer: seq<ClientMsg>, toClient: seq<ServerMsg>, inRoom: bool,
              sendings: seq<Sending>): World {
    World(map[1 := Device(7, c)], map[LINK := Conn(7, true, false, toServer, toClient)],
          Hub.HubV(map[7 := LINK], if inRoom then map[LINK := {5}] else map[], map[], []), [], [], [], sendings, map[],
          if inRoom then {(LINK, 5)} else {})
  }

  function Client(joined: seq<nat>, confirmed: set<nat>, calls: map<nat, Call>,
                  completers: map<nat, nat>, created: nat): ClientV {
    ClientV(Up, 2, true, true, joined, confirmed, calls, completers, created)
  }

  function Saying(phase: Phase, sent: seq<nat>): Call {
    Call(5, true, "text", "hi", sent, phase)
  }

  // ---------------------------------------------------------------- single steps

  lemma DeviceRun(evs: seq<Event>, ev: Event, c: ClientV, c': ClientV, out: seq<ClientMsg>,
                  q: seq<ClientMsg>, t: seq<ServerMsg>, inRoom: bool, sendings: seq<Sending>)
    requires Run(evs) == At(c, q, t, inRoom, sendings) && c'.generation == 2
    requires OnOneDevice(ev) && !ev.Transmit? && ev.dev == 1 && DeviceAct(c, ev, |sendings|) == (c', out)
    ensures Run(evs + [ev]) == At(c', q + out, t, inRoom, sendings)
  {
    var w' := At(c', q + out, t, inRoom, sendings);
    assert Act(At(c, q, t, inRoom, sendings), 1, (c', out)) == w';
    assert Step(At(c, q, t, inRoom, sendings), ev) == w' by {
      hide Act, DeviceAct;
    }
    hide Step, At, DeviceAct;
    Continue(evs, At(c, q, t, inRoom, sendings), ev, w');
  }

  lemma Replied(w: World, q: seq<ClientMsg>, m: ServerMsg)
    requires w.conns == map[LINK := Conn(7, true, false, q, [])]
    ensures Reply(w, LINK, m) == w.(conns := map[LINK := Conn(7, true, false, q, [m])])
  {
    var t: seq<ServerMsg> := [];
    assert t + [m] == [m];
    assert Reply(w, LINK, m).conns == map[LINK := Conn(7, true, false, q, [m])];
  }

  lemma JoinHandled(c: ClientV, q: seq<ClientMsg>)
    ensures Handle(At(c, q, [], false, []), LINK, RoomJoin(5), GOOD) == At(c, q, [RoomJoined(5)], true, [])
  {
    var w1, w' := At(c, q, [], false, []), At(c, q, [RoomJoined(5)], true, []);
    assert Hub.Step(w1.hub, Hub.Join(LINK, 5)) == w'.hub by {
      assert Hub.Rooms(w1.hub, LINK) + {5} == {5};
    }
    assert w1.joins + {(LINK, 5)} == w'.joins;
    hide Reply, Hub.Step;
    Replied(w1.(hub := w'.hub, joins := w'.joins), q, RoomJoined(5));
  }

  lemma JoinRun(evs: seq<Event>, c: ClientV, q: seq<ClientMsg>)
    requires Run(evs) == At(c, [RoomJoin(5)] + q, [], false, [])
    ensures Run(evs + [Receive(LINK, GOOD)]) == At(c, q, [RoomJoined(5)], true, [])
  {
    var w, w' := At(c, [RoomJoin(5)] + q, [], false, []), At(c, q, [RoomJoined(5)], true, []);
    assert Popped(w, LINK) == At(c, q, [], false, []) by {
      assert ([RoomJoin(5)] + q)[1..] == q;
      assert Popped(w, LINK).conns == At(c, q, [], false, []).conns;
    }
    JoinHandled(c, q);
    assert Step(w, Receive(LINK, GOOD)) == w' by {
      assert Hub.Closes(w.hub, LINK) == 0;
      hide Popped, Handle;
    }
    hide Step, At;
    Continue(evs, w, Receive(LINK, GOOD), w');
  }

  lemma DeliverRun(evs: seq<Event>, c: ClientV, m: ServerMsg, c': ClientV, q: seq<ClientMsg>)
    requires Run(evs) == At(c, q, [m], true, []) && OnMessage(c, 2, m) == (c', []) && c'.generation == 2
    ensures Run(evs + [Deliver(LINK)]) == At(c', q, [], true, [])
  {
    var w, w1, w' := At(c, q, [m], true, []), At(c, q, [], true, []), At(c', q, [], true, []);
    var conn := w.conns[LINK];
    assert w.(conns := w.conns[LINK := conn.(toClient := conn.toClient[1..])]) == w1 by {
      assert w.conns[LINK := conn.(toClient := conn.toClient[1..])] == w1.conns;
    }
    assert Act(w1, 1, (c', [])) == w' by {
      assert q + [] == q;
      assert Act(w1, 1, (c', [])).conns == w'.conns && Act(w1, 1, (c', [])).devices == w'.devices;
    }
    assert Step(w, Deliver(LINK)) == w' by {
      hide OnMessage, Act;
    }
    hide Step, At, OnMessage;
    Continue(evs, w, Deliver(LINK), w');
  }

  // ---------------------------------------------------------------- connecting

  const CONNECTED: seq<Event> := [] + [Connect(1, 7)] + [Register(LINK)] + [Deliver(LINK)]

  const OPENING: ClientV := ClientV(Opening, 2, true, true, [], {}, map[], map[], 0)

  // The server has registered the connection and greets the device.
  const GREETING: World := START.(devices := map[1 := Device(7, OPENING)],
                                  conns := map[LINK := Conn(7, true, false, [], [Connected])],
                                  hub := Hub.HubV(map[7 := LINK], map[], map[], []))

  lemma GreetingRun()
    ensures Run([] + [Connect(1, 7)] + [Register(LINK)]) == GREETING
  {
    var w1 := START.(devices := map[1 := Device(7, OPENING)], conns := map[LINK := Conn(7, false, false, [], [])]);
    assert OnDisconnect(FRESH) == FRESH.(generation := 1);
    assert Step(START, Connect(1, 7)) == w1;
    assert Step(w1, Register(LINK)) == GREETING by {
      assert Hub.Step(Hub.EMPTY, Hub.Register(LINK, 7)) == GREETING.hub;
      assert w1.conns[LINK := Conn(7, true, false, [], [])] == map[LINK := Conn(7, true, false, [], [])];
      hide Reply, Hub.Step;
      Replied(w1.(hub := GREETING.hub, conns := map[LINK := Conn(7, true, false, [], [])]), [], Connected);
    }
    hide Step;
    Continue([], START, Connect(1, 7), w1);
    Continue([] + [Connect(1, 7)], w1, Register(LINK), GREETING);
  }

  lemma ConnectedRun()
    ensures Run(CONNECTED) == At(Client([], {}, map[], map[], 0), [], [], false, [])
  {
    var w3 := At(Client([], {}, map[], map[], 0), [], [], false, []);
    GreetingRun();
    assert OnMessage(OPENING, 2, Connected) == (Client([], {}, map[], map[], 0), []) by {
      assert JoinRequests([]) == [];
    }
    assert Step(GREETING, Deliver(LINK)) == w3 by {
      hide OnMessage;
      var none: seq<ClientMsg> := [];
      assert none + none == none && GREETING.conns[LINK].toClient[1..] == [];
      assert Step(GREETING, Deliver(LINK)).conns == w3.conns;
    }
    hide Step, At, Run;
    Continue([] + [Connect(1, 7)] + [Register(LINK)], GREETING, Deliver(LINK), w3);
  }

  // ---------------------------------------------------------------- a shared join completer

  function Both(first: Phase, second: Phase): map<nat, Call> {
    map[0 := Saying(first, []), 1 := Saying(second, [])]
  }

  lemma ProceedBoth()
    ensures var k := AwaitJoin(0, 0);
      var c5 := Client([5], {}, Both(k, Woken(0)), map[5 := 0], 1);
      && OnProceed(Client([5], {}, Both(Woken(0), Woken(0)), map[], 0), 0) == (c5, [RoomJoin(5)])
      && OnProceed(c5, 1) == (Client([5], {}, Both(k, k), map[5 := 0], 1), [RoomJoin(5)])
  {
    var k := AwaitJoin(0, 0);
    var c4 := Client([5], {}, Both(Woken(0), Woken(0)), map[], 0);
    var c5 := Client([5], {}, Both(k, Woken(0)), map[5 := 0], 1);
    assert OnProceed(c4, 0).0.calls == c5.calls;
    assert OnProceed(c5, 1).0.calls == Both(k, k);
  }

  const STARTED: seq<Event> :=
    CONNECTED + [Start(1, 0, 5, true, "text", "hi")] + [Start(1, 1, 5, true, "text", "hi")]

  lemma StartedRun()
    ensures Run(STARTED) ==
      At(Client([5], {}, Both(AwaitConnection(0), AwaitConnection(0)), map[], 0), [], [], false, [])
  {
    ConnectedRun();
    var a := AwaitConnection(0);
    var c0 := Client([], {}, map[], map[], 0);
    var c1 := Client([5], {}, map[0 := Saying(a, [])], map[], 0);
    var c2 := Client([5], {}, Both(a, a), map[], 0);
    assert OnStart(c0, 0, 5, true, "text", "hi") == c1 && OnStart(c1, 1, 5, true, "text", "hi") == c2;
    hide OnStart, Both, Saying, Run, At;
    var none: seq<ClientMsg> := [];
    assert none + none == none;
    DeviceRun(CONNECTED, Start(1, 0, 5, true, "text", "hi"), c0, c1, none, none, [], false, []);
    DeviceRun(CONNECTED + [Start(1, 0, 5, true, "text", "hi")], Start(1, 1, 5, true, "text", "hi"),
      c1, c2, none, none, [], false, []);
  }

  const WOKEN: seq<Event> := STARTED + [Wake(1, 0)] + [Wake(1, 1)]

  lemma WokenRun()
    ensures Run(WOKEN) == At(Client([5], {}, Both(Woken(0), Woken(0)), map[], 0), [], [], false, [])
  {
    StartedRun();
    var a := AwaitConnection(0);
    var c2 := Client([5], {}, Both(a, a), map[], 0);
    var c3 := Client([5], {}, Both(Woken(0), a), map[], 0);
    var c4 := Client([5], {}, Both(Woken(0), Woken(0)), map[], 0);
    assert OnWake(c2, 0) == c3 && OnWake(c3, 1) == c4;
    hide OnWake, Both, Saying, Run, At;
    var none: seq<ClientMsg> := [];
    assert none + none == none;
    DeviceRun(STARTED, Wake(1, 0), c2, c3, none, none, [], false, []);
    DeviceRun(STARTED + [Wake(1, 0)], Wake(1, 1), c3, c4, none, none, [], false, []);
  }

  const WAITING: seq<Event> := WOKEN + [Proceed(1, 0)] + [Proceed(1, 1)]

  lemma WaitingRun()
    ensures Run(WAITING) == At(Client([5], {}, Both(AwaitJoin(0, 0), AwaitJoin(0, 0)), map[5 := 0], 1),
                               [RoomJoin(5), RoomJoin(5)], [], false, [])
  {
    WokenRun();
    var k := AwaitJoin(0, 0);
    var c4 := Client([5], {}, Both(Woken(0), Woken(0)), map[], 0);
    var c5 := Client([5], {}, Both(k, Woken(0)), map[5 := 0], 1);
    var c6 := Client([5], {}, Both(k, k), map[5 := 0], 1);
    ProceedBoth();
    hide OnProceed, Both, Saying, Run, At;
    var none: seq<ClientMsg>, ask := [], [RoomJoin(5)];
    assert none + ask == ask && ask + ask == [RoomJoin(5), RoomJoin(5)];
    DeviceRun(WOKEN, Proceed(1, 0), c4, c5, ask, none, [], false, []);
    DeviceRun(WOKEN + [Proceed(1, 0)], Proceed(1, 1), c5, c6, ask, ask, [], false, []);
  }

  const SHARED_JOIN: seq<Event> := WAITING + [Timeout(1, 0)] + [Receive(LINK, GOOD)] + [Deliver(LINK)]

  lemma SharedJoinSteps()
    ensures var k := AwaitJoin(0, 0);
      var c7 := Client([5], {}, Both(Threw(NotSent), k), map[], 1);
      && OnTimeout(Client([5], {}, Both(k, k), map[5 := 0], 1), 0) == c7
      && OnMessage(c7, 2, RoomJoined(5)) == (Client([5], {5}, Both(Threw(NotSent), k), map[], 1), [])
  {
    var k := AwaitJoin(0, 0);
    var c6, c7 := Client([5], {}, Both(k, k), map[5 := 0], 1), Client([5], {}, Both(Threw(NotSent), k), map[], 1);
    assert OnTimeout(c6, 0).calls == c7.calls && OnTimeout(c6, 0).completers == map[];
    assert OnMessage(c7, 2, RoomJoined(5)).0.calls == c7.calls;
    assert c7.completers - {5} == map[] && {} + {5} == {5};
  }

  // The first call gives up, the join is confirmed, and the second call waits on although the
  // device is connected and counts the room as confirmed.
  lemma SharedJoinRun()
    ensures var w := Run(SHARED_JOIN);
      && HasCall(w, 1, 1) && CallOf(w, 1, 1).phase == AwaitJoin(0, 0)
      && 5 in ClientOf(w, 1).confirmed && CanSend(ClientOf(w, 1))
  {
    WaitingRun();
    var k, q := AwaitJoin(0, 0), [RoomJoin(5), RoomJoin(5)];
    var c6 := Client([5], {}, Both(k, k), map[5 := 0], 1);
    var c7 := Client([5], {}, Both(Threw(NotSent), k), map[], 1);
    var c9 := Client([5], {5}, Both(Threw(NotSent), k), map[], 1);
    SharedJoinSteps();
    assert q + [] == q && [RoomJoin(5)] + [RoomJoin(5)] == q;
    assert var w := At(c9, [RoomJoin(5)], [], true, []);
      HasCall(w, 1, 1) && CallOf(w, 1, 1).phase == k && ClientOf(w, 1) == c9;
    hide OnTimeout, OnMessage, Both, Saying, Run, At, HasCall, CallOf, ClientOf;
    DeviceRun(WAITING, Timeout(1, 0), c6, c7, [], q, [], false, []);
    JoinRun(WAITING + [Timeout(1, 0)], c7, [RoomJoin(5)]);
    DeliverRun(WAITING + [Timeout(1, 0)] + [Receive(LINK, GOOD)], c7, RoomJoined(5), c9, [RoomJoin(5)]);
  }

  // ---------------------------------------------------------------- one message handed over

  function Alone(phase: Phase, sent: seq<nat>, confirmed: set<nat>, completers: map<nat, nat>, created: nat): ClientV {
    Client([5], confirmed, map[0 := Saying(phase, sent)], completers, created)
  }

  const ASKED: seq<Event> :=
    CONNECTED + [Start(1, 0, 5, true, "text", "hi")] + [Wake(1, 0)] + [Proceed(1, 0)]

  lemma AskedSteps()
    ensures var c1, c2 := Alone(AwaitConnection(0), [], {}, map[], 0), Alone(Woken(0), [], {}, map[], 0);
      && OnStart(Client([], {}, map[], map[], 0), 0, 5, true, "text", "hi") == c1 && OnWake(c1, 0) == c2
      && OnProceed(c2, 0) == (Alone(AwaitJoin(0, 0), [], {}, map[5 := 0], 1), [RoomJoin(5)])
  {
    var c2 := Alone(Woken(0), [], {}, map[], 0);
    assert OnProceed(c2, 0).0.calls == map[0 := Saying(AwaitJoin(0, 0), [])];
    assert OnProceed(c2, 0).0.completers == map[5 := 0];
  }

  lemma AskedRun()
    ensures Run(ASKED) == At(Alone(AwaitJoin(0, 0), [], {}, map[5 := 0], 1), [RoomJoin(5)], [], false, [])
  {
    ConnectedRun();
    AskedSteps();
    var c0 := Client([], {}, map[], map[], 0);
    var c1, c2 := Alone(AwaitConnection(0), [], {}, map[], 0), Alone(Woken(0), [], {}, map[], 0);
    var c3 := Alone(AwaitJoin(0, 0), [], {}, map[5 := 0], 1);
    assert c1.generation == c2.generation == c3.generation == 2;
    hide OnStart, OnWake, OnProceed, Alone, Saying, Run, At;
    var none: seq<ClientMsg>, ask := [], [RoomJoin(5)];
    assert none + none == none && none + ask == ask;
    DeviceRun(CONNECTED, Start(1, 0, 5, true, "text", "hi"), c0, c1, none, none, [], false, []);
    DeviceRun(CONNECTED + [Start(1, 0, 5, true, "text", "hi")], Wake(1, 0), c1, c2, none, none, [], false, []);
    DeviceRun(CONNECTED + [Start(1, 0, 5, true, "text", "hi")] + [Wake(1, 0)], Proceed(1, 0),
      c2, c3, ask, none, [], false, []);
  }

  const SAID: seq<Event> := ASKED + [Receive(LINK, GOOD)] + [Deliver(LINK)] + [Transmit(1, 0)]

  const MESSAGE: ClientMsg := ChatSend(5, "text", "hi", 0)

  const WAITS: ClientV := Alone(Waiting(0, 0), [0], {5}, map[], 1)

  const SAID_WORLD: World := At(WAITS, [MESSAGE], [], true, [Sending(1, 0, LINK, 7, 5, "text", "hi")])

  lemma SaidConfirmed()
    ensures OnMessage(Alone(AwaitJoin(0, 0), [], {}, map[5 := 0], 1), 2, RoomJoined(5)) ==
      (Alone(Ready(0), [], {5}, map[], 1), [])
  {
    var c3, c4 := Alone(AwaitJoin(0, 0), [], {}, map[5 := 0], 1), Alone(Ready(0), [], {5}, map[], 1);
    assert OnMessage(c3, 2, RoomJoined(5)).0.calls == c4.calls;
    assert c3.completers - {5} == map[] && {} + {5} == {5};
  }

  lemma SaidTransmitted()
    ensures Step(At(Alone(Ready(0), [], {5}, map[], 1), [], [], true, []), Transmit(1, 0)) == SAID_WORLD
  {
    var c4, none: seq<ClientMsg>, sent: seq<nat> := Alone(Ready(0), [], {5}, map[], 1), [], [];
    var w := At(c4, none, [], true, []);
    assert OnTransmit(c4, 0, 0) == (WAITS, [MESSAGE]) by {
      assert sent + [0] == [0];
      assert OnTransmit(c4, 0, 0).0.calls == WAITS.calls;
    }
    hide OnTransmit;
    assert none + [MESSAGE] == [MESSAGE];
    assert Step(w, Transmit(1, 0)).conns == SAID_WORLD.conns;
  }

  lemma SaidRun()
    ensures Run(SAID) == SAID_WORLD
  {
    AskedRun();
    SaidConfirmed();
    SaidTransmitted();
    var c3, c4 := Alone(AwaitJoin(0, 0), [], {}, map[5 := 0], 1), Alone(Ready(0), [], {5}, map[], 1);
    var none: seq<ClientMsg> := [];
    var w := At(c4, none, [], true, []);
    assert c4.generation == 2;
    hide OnMessage, Alone, Saying, Run, At, Step;
    assert [RoomJoin(5)] + none == [RoomJoin(5)];
    JoinRun(ASKED, c3, none);
    DeliverRun(ASKED + [Receive(LINK, GOOD)], c3, RoomJoined(5), c4, none);
    Continue(ASKED + [Receive(LINK, GOOD)] + [Deliver(LINK)], w, Transmit(1, 0), SAID_WORLD);
  }

  lemma Verdicts()
    ensures Hub.NormalKind("text") == "text"
    ensures Hub.Judge(true, GOOD, "text", "hi") == Hub.StoreAndBroadcast
    ensures Hub.Judge(true, NO_SENDER, "text", "hi") == Hub.StoreThenFail
  {
    assert Text.TrimSpace("text") == "text" && Text.TrimSpace("hi") == "hi";
    assert Text.ToLower("text") == "text";
    assert "hi"[..1] == "h" && "h"[..0] == "";
    assert Text.ByteLength("h") == 1;
    assert Text.ByteLength("hi") == 2;
    hide Text.TrimSpace, Text.ToLower, Text.ByteLength;
  }

  // The server takes the message and stores it, whether or not it can tell anyone.
  lemma StoresIt(l: Hub.Lookups)
    requires l == GOOD || l == NO_SENDER
    ensures var w := Step(SAID_WORLD, Receive(LINK, l));
      && w.devices == SAID_WORLD.devices && w.sendings == SAID_WORLD.sendings
      && w.log == [Stored(5, 7, "text", "hi")] && w.origins == [0]
      && LINK in w.conns
      && (l == NO_SENDER ==> w.conns[LINK].toClient == [ChatError(5, SenderLookupFailed, 0)])
  {
    Verdicts();
    hide Hub.Judge, Hub.NormalKind;
    var w1 := Popped(SAID_WORLD, LINK);
    var log: seq<Stored>, origins: seq<nat>, t: seq<ServerMsg> := [], [], [];
    assert log + [Stored(5, 7, "text", "hi")] == [Stored(5, 7, "text", "hi")] && origins + [0] == [0];
    assert t + [ChatError(5, SenderLookupFailed, 0)] == [ChatError(5, SenderLookupFailed, 0)];
    assert w1.conns[LINK].toClient == [] && w1.log == [] && w1.origins == [];
    assert 5 in Hub.Rooms(w1.hub, LINK) && Hub.Closes(SAID_WORLD.hub, LINK) == 0;
  }

  // ---------------------------------------------------------------- what a failure does not tell

  const TIMED_OUT_STORED: seq<Event> := SAID + [Receive(LINK, GOOD)] + [Timeout(1, 0)]

  const TIMED_OUT_UNSTORED: seq<Event> := SAID + [Timeout(1, 0)]

  lemma TimesOut(evs: seq<Event>)
    requires ClientOf(Run(evs), 1) == WAITS
    ensures var w := Run(evs + [Timeout(1, 0)]);
      ClientOf(w, 1) == OnTimeout(WAITS, 0) &&
        w.log == Run(evs).log && w.origins == Run(evs).origins && w.sendings == Run(evs).sendings
  {
    Continue(evs, Run(evs), Timeout(1, 0), Step(Run(evs), Timeout(1, 0)));
    ActSetsClient(Run(evs), 1, (OnTimeout(WAITS, 0), []), 1);
    hide Run, OnTimeout, WAITS;
  }

  // An unconfirmed call may have stored its message or not, and its client is in the same state
  // in both runs: it cannot tell.
  lemma UnconfirmedTellsNothing()
    ensures var stored, unstored := Run(TIMED_OUT_STORED), Run(TIMED_OUT_UNSTORED);
      && HasCall(stored, 1, 0) && CallOf(stored, 1, 0).phase == Threw(Unconfirmed)
      && StoredBy(stored, 0, 1, 0) && stored.log == [Stored(5, 7, "text", "hi")]
      && unstored.log == [] && ClientOf(unstored, 1) == ClientOf(stored, 1)
  {
    SaidRun();
    StoresIt(GOOD);
    assert ClientOf(SAID_WORLD, 1) == WAITS && SAID_WORLD.log == [] &&
      SAID_WORLD.sendings[0].dev == 1 && SAID_WORLD.sendings[0].call == 0;
    assert 0 in OnTimeout(WAITS, 0).calls && OnTimeout(WAITS, 0).calls[0].phase == Threw(Unconfirmed);
    Continue(SAID, SAID_WORLD, Receive(LINK, GOOD), Step(SAID_WORLD, Receive(LINK, GOOD)));
    hide Step, OnTimeout, WAITS;
    TimesOut(SAID);
    TimesOut(SAID + [Receive(LINK, GOOD)]);
  }

  const REFUSED_STORED: seq<Event> := SAID + [Receive(LINK, NO_SENDER)] + [Deliver(LINK)] + [Resume(1, 0)]

  lemma Refusals()
    ensures var c1 := OnMessage(WAITS, 2, ChatError(5, SenderLookupFailed, 0)).0;
      var c2 := OnResume(c1, 0);
      0 in c2.calls && c2.calls[0].phase == Threw(ChatRefused(SenderLookupFailed))
  {
  }

  // Neither delivering an answer nor resuming a call touches what is stored.
  lemma ClientStepsKeepLog(w: World, call: nat)
    ensures var w' := Step(w, Deliver(LINK)); w'.log == w.log && w'.origins == w.origins && w'.sendings == w.sendings
    ensures var w' := Step(w, Resume(1, call)); w'.log == w.log && w'.origins == w.origins && w'.sendings == w.sendings
  {
    hide OnMessage, OnResume;
  }

  // The answer reaches the call.
  lemma RefusalArrives(w: World)
    requires ClientOf(w, 1) == WAITS && LINK in w.conns &&
      w.conns[LINK].toClient == [ChatError(5, SenderLookupFailed, 0)]
    ensures var w' := Step(Step(w, Deliver(LINK)), Resume(1, 0));
      && w'.log == w.log && w'.origins == w.origins && w'.sendings == w.sendings
      && HasCall(w', 1, 0) && CallOf(w', 1, 0).phase == Threw(ChatRefused(SenderLookupFailed))
  {
    var w2 := Step(w, Deliver(LINK));
    Refusals();
    ClientStep(w, Deliver(LINK), 1);
    ClientStep(w2, Resume(1, 0), 1);
    hide Step, OnMessage, OnResume, WAITS;
    ClientStepsKeepLog(w, 0);
    ClientStepsKeepLog(w2, 0);
  }

  // A call refused because its sender could not be looked up has stored its message.
  lemma RefusedButStored()
    ensures var w := Run(REFUSED_STORED);
      && HasCall(w, 1, 0) && CallOf(w, 1, 0).phase == Threw(ChatRefused(SenderLookupFailed))
      && StoredBy(w, 0, 1, 0) && w.log == [Stored(5, 7, "text", "hi")]
  {
    SaidRun();
    StoresIt(NO_SENDER);
    var w1 := Step(SAID_WORLD, Receive(LINK, NO_SENDER));
    assert ClientOf(w1, 1) == WAITS && w1.sendings[0].dev == 1 && w1.sendings[0].call == 0;
    hide Step, Run, WAITS, HasCall, CallOf;
    RefusalArrives(w1);
    var w2 := Step(w1, Deliver(LINK));
    Continue(SAID, SAID_WORLD, Receive(LINK, NO_SENDER), w1);
    Continue(SAID + [Receive(LINK, NO_SENDER)], w1, Deliver(LINK), w2);
    Continue(SAID + [Receive(LINK, NO_SENDER)] + [Deliver(LINK)], w2, Resume(1, 0), Step(w2, Resume(1, 0)));
  }
}

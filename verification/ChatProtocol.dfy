// Chat delivery as a whole: any number of devices, their connections, the hub and the message
// log, joined by first-in first-out links that can break at any moment.

module ChatProtocol {
  import opened ChatTypes
  import opened WsClient
  import Hub
  import Text

  datatype Device = Device(account: nat, client: ClientV)

  // A broken link still delivers what it holds and takes nothing more.
  datatype Conn = Conn(user: nat, registered: bool, broken: bool, toServer: seq<ClientMsg>, toClient: seq<ServerMsg>)

  datatype Stored = Stored(room: nat, sender: nat, kind: string, content: string)

  // History: one entry per chat.send handed to a link; its position is the client message id,
  // which is therefore unique. `sender` is the account of the device at that moment.
  datatype Sending = Sending(dev: nat, call: nat, conn: ConnKey, sender: nat, room: nat, kind: string, content: string)

  // History: what the server did with a chat.send.
  datatype Decision = Turned(reason: Reason) | Kept(index: nat, announced: bool)

  // `pending` is the hub's broadcast queue; `origins[i]` is the client message id behind log[i];
  // `joins` records which connections the server let into which rooms.
  datatype World = World(devices: map<nat, Device>, conns: map<ConnKey, Conn>, hub: Hub.HubV, pending: seq<ServerMsg>,
                         log: seq<Stored>, origins: seq<nat>, sendings: seq<Sending>, decided: map<nat, Decision>,
                         joins: set<(ConnKey, nat)>)

  const START: World := World(map[], map[], Hub.EMPTY, [], [], [], [], map[], {})

  datatype Event =
    | Start(dev: nat, call: nat, room: nat, chat: bool, kind: string, content: string)
    | Wake(dev: nat, call: nat)
    | Proceed(dev: nat, call: nat)
    | Transmit(dev: nat, call: nat)
    | Timeout(dev: nat, call: nat)
    | Resume(dev: nat, call: nat)
    | Connect(dev: nat, account: nat)
    | Reconnect(dev: nat)
    | Disconnect(dev: nat)
    | Lose(dev: nat, generation: nat)
    | LeaveRoom(dev: nat, room: nat)
    | Deliver(conn: ConnKey)
    | Break(conn: ConnKey, toServer: nat, toClient: nat)
    | Register(conn: ConnKey)
    | Unregister(conn: ConnKey)
    | Receive(conn: ConnKey, lookups: Hub.Lookups)
    | Broadcast(index: nat)
    | Kick(user: nat, room: nat)

  // ---------------------------------------------------------------- one step

  function DeviceOf(w: World, d: nat): Device {
    if d in w.devices then w.devices[d] else Device(0, FRESH)
  }

  function ClientOf(w: World, d: nat): ClientV {
    DeviceOf(w, d).client
  }

  function WithClient(w: World, d: nat, c: ClientV): World {
    w.(devices := w.devices[d := Device(DeviceOf(w, d).account, c)])
  }

  // What the client hands to its current channel.
  function Push(w: World, k: ConnKey, out: seq<ClientMsg>): World {
    if k !in w.conns || w.conns[k].broken then w
    else w.(conns := w.conns[k := w.conns[k].(toServer := w.conns[k].toServer + out)])
  }

  function Act(w: World, d: nat, act: (ClientV, seq<ClientMsg>)): World {
    Push(WithClient(w, d, act.0), (d, act.0.generation), act.1)
  }

  function Reply(w: World, k: ConnKey, m: ServerMsg): World {
    if k !in w.conns || w.conns[k].broken then w
    else w.(conns := w.conns[k := w.conns[k].(toClient := w.conns[k].toClient + [m])])
  }

  function OpenFor(w: World, d: nat, account: nat, c: ClientV): World {
    w.(devices := w.devices[d := Device(account, c)],
       conns := w.conns[(d, c.generation) := Conn(account, false, false, [], [])])
  }

  predicate MaySend(c: ClientV, call: nat) {
    call in c.calls && c.calls[call].phase.Ready? && c.calls[call].chat && CanSend(c)
  }

  function Outgoing(c: ClientV, call: nat, cmid: nat): ClientMsg
    requires call in c.calls
  {
    ChatSend(c.calls[call].room, c.calls[call].kind, c.calls[call].content, cmid)
  }

  function TransmitStep(w: World, d: nat, call: nat): World {
    var c := ClientOf(w, d);
    var act := OnTransmit(c, call, |w.sendings|);
    if !MaySend(c, call) then Act(w, d, act) else
      var p := c.calls[call];
      var s := Sending(d, call, (d, c.generation), DeviceOf(w, d).account, p.room, p.kind, p.content);
      Act(w, d, act).(sendings := w.sendings + [s])
  }

  function First<T>(s: seq<T>, n: nat): seq<T> {
    if n <= |s| then s[..n] else s
  }

  // The hub's entry for the connection's user is this very connection.
  predicate IsCurrent(h: Hub.HubV, k: ConnKey, user: nat) {
    user in h.current && h.current[user] == k
  }

  function Announce(w: World, m: ServerMsg): World {
    if !m.ChatMessage? then w else
      w.(conns := map k | k in w.conns ::
        if !w.conns[k].broken && IsCurrent(w.hub, k, w.conns[k].user) && m.room in Hub.Rooms(w.hub, k)
        then w.conns[k].(toClient := w.conns[k].toClient + [m]) else w.conns[k])
  }

  function Record(w: World, m: ClientMsg, sender: nat, decision: Decision): World
    requires m.ChatSend?
  {
    var w' := w.(decided := w.decided[m.cmid := decision]);
    if decision.Turned? then w' else
      w'.(log := w.log + [Stored(m.room, sender, Hub.NormalKind(m.kind), m.content)], origins := w.origins + [m.cmid])
  }

  function DecisionOf(verdict: Hub.Verdict, index: nat): Decision {
    match verdict
    case Refuse(reason) => Turned(reason)
    case StoreThenFail => Kept(index, false)
    case StoreAndBroadcast => Kept(index, true)
  }

  function ChatStep(w: World, k: ConnKey, m: ClientMsg, l: Hub.Lookups): World
    requires k in w.conns && m.ChatSend?
  {
    var verdict := Hub.Judge(m.room in Hub.Rooms(w.hub, k), l, m.kind, m.content);
    var w' := Record(w, m, w.conns[k].user, DecisionOf(verdict, |w.log|));
    if verdict.StoreAndBroadcast?
      then w'.(pending := w'.pending + [ChatMessage(m.room, w.conns[k].user, m.content, m.cmid)])
    else Reply(w', k, ChatError(m.room, Hub.ErrorOf(verdict), m.cmid))
  }

  function JoinStep(w: World, k: ConnKey, room: nat, isMember: bool): World {
    if isMember
    then Reply(w.(hub := Hub.Step(w.hub, Hub.Join(k, room)), joins := w.joins + {(k, room)}), k, RoomJoined(room))
    else Reply(w, k, JoinError(room))
  }

  // The first message of the queue towards the server is taken off.
  function Popped(w: World, k: ConnKey): World
    requires k in w.conns && w.conns[k].toServer != []
  {
    w.(conns := w.conns[k := w.conns[k].(toServer := w.conns[k].toServer[1..])])
  }

  function Handle(w: World, k: ConnKey, m: ClientMsg, l: Hub.Lookups): World
    requires k in w.conns
  {
    match m
    case RoomJoin(room) => JoinStep(w, k, room, l.isMember)
    case RoomLeave(room) => w.(hub := Hub.Step(w.hub, Hub.Leave(k, room)))
    case ChatSend(_, _, _, _) => ChatStep(w, k, m, l)
  }

  function ReceiveStep(w: World, k: ConnKey, l: Hub.Lookups): World {
    if k !in w.conns || w.conns[k].toServer == [] || Hub.Closes(w.hub, k) > 0 then w
    else Handle(Popped(w, k), k, w.conns[k].toServer[0], l)
  }

  function DeliverStep(w: World, k: ConnKey): World {
    if k !in w.conns || w.conns[k].toClient == [] then w else
      var m := w.conns[k].toClient[0];
      var w' := w.(conns := w.conns[k := w.conns[k].(toClient := w.conns[k].toClient[1..])]);
      Act(w', k.0, OnMessage(ClientOf(w, k.0), k.1, m))
  }

  // What a device does on its own accord, without opening a connection.
  predicate OnOneDevice(ev: Event) {
    || ev.Start? || ev.Wake? || ev.Proceed? || ev.Transmit? || ev.Timeout? || ev.Resume?
    || ev.Disconnect? || ev.Lose? || ev.LeaveRoom?
  }

  function DeviceAct(c: ClientV, ev: Event, cmid: nat): (ClientV, seq<ClientMsg>)
    requires OnOneDevice(ev)
  {
    match ev
    case Start(_, call, room, chat, kind, content) => (OnStart(c, call, room, chat, kind, content), [])
    case Wake(_, call) => (OnWake(c, call), [])
    case Proceed(_, call) => OnProceed(c, call)
    case Transmit(_, call) => OnTransmit(c, call, cmid)
    case Timeout(_, call) => (OnTimeout(c, call), [])
    case Resume(_, call) => (OnResume(c, call), [])
    case Disconnect(_) => (OnDisconnect(c), [])
    case Lose(_, generation) => (OnLost(c, generation), [])
    case LeaveRoom(_, room) => OnLeaveRoom(c, room)
  }

  function DeviceStep(w: World, ev: Event): World
    requires OnOneDevice(ev)
  {
    if ev.Transmit? then TransmitStep(w, ev.dev, ev.call)
    else Act(w, ev.dev, DeviceAct(ClientOf(w, ev.dev), ev, |w.sendings|))
  }

  function Step(w: World, ev: Event): World {
    match ev
    case Connect(d, account) => OpenFor(w, d, account, OnOpen(OnDisconnect(ClientOf(w, d))))
    case Reconnect(d) =>
      if ClientOf(w, d).shouldReconnect then OpenFor(w, d, DeviceOf(w, d).account, OnOpen(ClientOf(w, d))) else w
    case Deliver(k) => DeliverStep(w, k)
    case Break(k, n, m) =>
      if k !in w.conns then w else
        var conn := w.conns[k];
        var conn' := conn.(broken := true, toServer := First(conn.toServer, n), toClient := First(conn.toClient, m));
        w.(conns := w.conns[k := conn'])
    case Register(k) =>
      if k !in w.conns || w.conns[k].registered then w else
        Reply(w.(hub := Hub.Step(w.hub, Hub.Register(k, w.conns[k].user)),
                 conns := w.conns[k := w.conns[k].(registered := true)]), k, Connected)
    case Unregister(k) =>
      if k !in w.conns then w else w.(hub := Hub.Step(w.hub, Hub.Unregister(k, w.conns[k].user)))
    case Receive(k, l) => ReceiveStep(w, k, l)
    case Broadcast(i) =>
      // Enqueued by one goroutine per connection, so any entry can be next.
      if i >= |w.pending| then w else
        Announce(w.(pending := w.pending[..i] + w.pending[i + 1..]), w.pending[i])
    case Kick(user, room) =>
      if user !in w.hub.current then w else
        var k := w.hub.current[user];
        Reply(w.(hub := Hub.Step(w.hub, Hub.Leave(k, room))), k, OtherEvent)
    case _ => DeviceStep(w, ev)
  }

  function Run(evs: seq<Event>): World {
    if evs == [] then START else Step(Run(evs[..|evs| - 1]), evs[|evs| - 1])
  }

  // ---------------------------------------------------------------- what every step keeps

  // The server gave `reason` as its answer.
  predicate Answered(decision: Decision, reason: Reason) {
    if reason == SenderLookupFailed then decision.Kept? && !decision.announced else decision == Turned(reason)
  }

  predicate AnswerOk(decided: map<nat, Decision>, m: ServerMsg) {
    match m
    case ChatError(_, reason, cmid) => cmid in decided && Answered(decided[cmid], reason)
    case ChatMessage(_, _, _, cmid) => cmid in decided && decided[cmid].Kept? && decided[cmid].announced
    case _ => true
  }

  predicate AnswersOk(decided: map<nat, Decision>, ms: seq<ServerMsg>) {
    forall m | m in ms :: AnswerOk(decided, m)
  }

  // A chat.send on its way: recorded as sent on this link, and undecided.
  predicate SendOk(m: ClientMsg, k: ConnKey, user: nat, sendings: seq<Sending>, decided: map<nat, Decision>) {
    m.ChatSend? ==>
      && m.cmid < |sendings|
      && m.cmid !in decided
      && var s := sendings[m.cmid];
         s.conn == k && s.sender == user && s.room == m.room && s.kind == m.kind && s.content == m.content
  }

  predicate Distinct(q: seq<ClientMsg>) {
    forall i, j | 0 <= i < j < |q| && q[i].ChatSend? && q[j].ChatSend? :: q[i].cmid != q[j].cmid
  }

  predicate LinkOk(conn: Conn, k: ConnKey, sendings: seq<Sending>, decided: map<nat, Decision>) {
    && (forall m | m in conn.toServer :: SendOk(m, k, conn.user, sendings, decided))
    && Distinct(conn.toServer)
    && AnswersOk(decided, conn.toClient)
  }

  ghost predicate LinksOk(conns: map<ConnKey, Conn>, sendings: seq<Sending>, decided: map<nat, Decision>) {
    forall k | k in conns :: LinkOk(conns[k], k, sendings, decided)
  }

  predicate LogOk(log: seq<Stored>, origins: seq<nat>, sendings: seq<Sending>, decided: map<nat, Decision>) {
    && |origins| == |log|
    && (forall i | 0 <= i < |log| ::
          && origins[i] < |sendings|
          && origins[i] in decided
          && decided[origins[i]].Kept?
          && decided[origins[i]].index == i
          && var s := sendings[origins[i]];
             log[i] == Stored(s.room, s.sender, Hub.NormalKind(s.kind), s.content))
    && (forall c: nat | c in decided ::
          c < |sendings| && (decided[c].Kept? ==> decided[c].index < |log| && origins[decided[c].index] == c))
  }

  function Last<T>(s: seq<T>): T
    requires s != []
  {
    s[|s| - 1]
  }

  // The second attempt was made, or is being made, only because the first was refused as not_in_room.
  predicate RetryOk(p: Call, decided: map<nat, Decision>) {
    |p.sent| > 0 && p.sent[0] in decided && decided[p.sent[0]] == Turned(NotInRoom)
  }

  predicate SentBefore(p: Call, attempt: nat, decided: map<nat, Decision>) {
    attempt <= 1 && |p.sent| == attempt && (attempt == 1 ==> RetryOk(p, decided))
  }

  predicate SentNow(p: Call, attempt: nat, cmid: nat, decided: map<nat, Decision>) {
    && attempt <= 1
    && |p.sent| == attempt + 1
    && p.sent[attempt] == cmid
    && (attempt == 1 ==> RetryOk(p, decided))
  }

  predicate PhaseOk(p: Call, decided: map<nat, Decision>) {
    match p.phase
    case AwaitConnection(a) => SentBefore(p, a, decided)
    case Woken(a) => SentBefore(p, a, decided)
    case AwaitJoin(a, _) => SentBefore(p, a, decided)
    case Ready(a) => SentBefore(p, a, decided)
    case Waiting(a, c) => SentNow(p, a, c, decided)
    case Settled(a, c, outcome) =>
      && SentNow(p, a, c, decided)
      && (outcome.Confirmed? ==> c in decided && decided[c].Kept? && decided[c].announced)
      && (outcome.Refused? ==> c in decided && Answered(decided[c], outcome.reason))
    case Returned(c) =>
      && (SentNow(p, 0, c, decided) || SentNow(p, 1, c, decided))
      && c in decided && decided[c].Kept? && decided[c].announced
    case Threw(NotSent) => SentBefore(p, 0, decided) || SentBefore(p, 1, decided)
    case Threw(Unconfirmed) => p.sent != [] && SentNow(p, |p.sent| - 1, Last(p.sent), decided)
    case Threw(ChatRefused(reason)) =>
      && p.sent != [] && SentNow(p, |p.sent| - 1, Last(p.sent), decided)
      && Last(p.sent) in decided && Answered(decided[Last(p.sent)], reason)
  }

  predicate CallOk(p: Call, d: nat, id: nat, sendings: seq<Sending>, decided: map<nat, Decision>) {
    && PhaseOk(p, decided)
    && forall c | c in p.sent :: c < |sendings| &&
         var s := sendings[c];
         s.dev == d && s.call == id && s.room == p.room && s.kind == p.kind && s.content == p.content
  }

  ghost predicate ClientOk(c: ClientV, d: nat, sendings: seq<Sending>, decided: map<nat, Decision>) {
    && (forall id | id in c.calls :: CallOk(c.calls[id], d, id, sendings, decided))
    && (forall x: nat | x < |sendings| && sendings[x].dev == d ::
          sendings[x].call in c.calls && x in c.calls[sendings[x].call].sent)
  }

  ghost predicate ClientsOk(devices: map<nat, Device>, sendings: seq<Sending>, decided: map<nat, Decision>) {
    && (forall d: nat | d in devices :: ClientOk(devices[d].client, d, sendings, decided))
    && (forall x: nat | x < |sendings| :: sendings[x].dev in devices)
  }

  // The current connection of a device belongs to the account the device is logged in to.
  ghost predicate KeysOk(devices: map<nat, Device>, conns: map<ConnKey, Conn>) {
    && (forall k: ConnKey | k in conns :: k.0 in devices && k.1 <= devices[k.0].client.generation)
    && (forall d: nat | d in devices && (d, devices[d].client.generation) in conns ::
          conns[(d, devices[d].client.generation)].user == devices[d].account)
  }

  ghost predicate Inv(w: World) {
    && LinksOk(w.conns, w.sendings, w.decided)
    && AnswersOk(w.decided, w.pending)
    && LogOk(w.log, w.origins, w.sendings, w.decided)
    && ClientsOk(w.devices, w.sendings, w.decided)
    && KeysOk(w.devices, w.conns)
  }

  // ---------------------------------------------------------------- the client's part

  // Same calls, each with the same data and the same ids handed over.
  ghost predicate SameSent(c: ClientV, c': ClientV) {
    c'.calls.Keys == c.calls.Keys &&
    forall id | id in c.calls :: c'.calls[id] == c.calls[id].(phase := c'.calls[id].phase)
  }

  predicate NoSends(out: seq<ClientMsg>) {
    forall m | m in out :: !m.ChatSend?
  }

  lemma PhasesKept(c: ClientV, c': ClientV, d: nat, sendings: seq<Sending>, decided: map<nat, Decision>)
    requires ClientOk(c, d, sendings, decided) && SameSent(c, c')
    requires forall id | id in c.calls :: PhaseOk(c.calls[id], decided) ==> PhaseOk(c'.calls[id], decided)
    ensures ClientOk(c', d, sendings, decided)
  {
    hide PhaseOk;
    forall id | id in c'.calls ensures CallOk(c'.calls[id], d, id, sendings, decided) {
      assert CallOk(c.calls[id], d, id, sendings, decided);
    }
  }

  lemma PhaseKept(c: ClientV, id: nat, phase: Phase, d: nat, sendings: seq<Sending>, decided: map<nat, Decision>)
    requires ClientOk(c, d, sendings, decided) && id in c.calls
    requires PhaseOk(c.calls[id], decided) ==> PhaseOk(c.calls[id].(phase := phase), decided)
    ensures ClientOk(WithPhase(c, id, phase), d, sendings, decided)
  {
    hide PhaseOk;
    PhasesKept(c, WithPhase(c, id, phase), d, sendings, decided);
  }

  // The phase an event leaves one call in is as consistent as the phase it found.
  lemma CallEvents(p: Call, completers: map<nat, nat>, m: ServerMsg, room: nat, decided: map<nat, Decision>)
    requires PhaseOk(p, decided)
    ensures AnswerOk(decided, m) ==> PhaseOk(CallAfter(p, completers, m), decided)
    ensures PhaseOk(FailPending(p), decided) && PhaseOk(JoinFails(p, completers, room), decided)
  {
  }

  // What a message does to the calls of a client.
  lemma MessageShape(c: ClientV, generation: nat, m: ServerMsg)
    ensures var act := OnMessage(c, generation, m);
      && NoSends(act.1) && act.0.generation == c.generation
      && act.0.calls == if generation == c.generation
        then map id | id in c.calls :: CallAfter(c.calls[id], c.completers, m) else c.calls
  {
    hide CallAfter;
  }

  lemma CallAfterKeepsData(p: Call, completers: map<nat, nat>, m: ServerMsg)
    ensures CallAfter(p, completers, m) == p.(phase := CallAfter(p, completers, m).phase)
  {
  }

  lemma MessageKeeps(c: ClientV, generation: nat, m: ServerMsg, d: nat,
                     sendings: seq<Sending>, decided: map<nat, Decision>)
    requires ClientOk(c, d, sendings, decided) && AnswerOk(decided, m)
    ensures var act := OnMessage(c, generation, m);
      ClientOk(act.0, d, sendings, decided) && NoSends(act.1) && act.0.generation == c.generation
  {
    hide PhaseOk, AnswerOk, CallAfter, OnMessage;
    var c' := OnMessage(c, generation, m).0;
    MessageShape(c, generation, m);
    forall id | id in c.calls && PhaseOk(c.calls[id], decided) ensures PhaseOk(c'.calls[id], decided) {
      CallEvents(c.calls[id], c.completers, m, 0, decided);
    }
    forall id | id in c.calls {
      CallAfterKeepsData(c.calls[id], c.completers, m);
    }
    PhasesKept(c, c', d, sendings, decided);
  }

  lemma LostKeeps(c: ClientV, generation: nat, d: nat, sendings: seq<Sending>, decided: map<nat, Decision>)
    requires ClientOk(c, d, sendings, decided)
    ensures ClientOk(OnLost(c, generation), d, sendings, decided) && OnLost(c, generation).generation == c.generation
  {
    hide PhaseOk;
    var lost := OnLost(c, generation);
    if generation == c.generation {
      forall id | id in c.calls && PhaseOk(c.calls[id], decided) ensures PhaseOk(lost.calls[id], decided) {
        CallEvents(c.calls[id], map[], OtherEvent, 0, decided);
      }
      PhasesKept(c, lost, d, sendings, decided);
    }
  }

  lemma OpenKeeps(c: ClientV, d: nat, sendings: seq<Sending>, decided: map<nat, Decision>)
    requires ClientOk(c, d, sendings, decided)
    ensures ClientOk(OnOpen(c), d, sendings, decided)
  {
    hide PhaseOk;
    PhasesKept(c, OnOpen(c), d, sendings, decided);
  }

  lemma DisconnectKeeps(c: ClientV, d: nat, sendings: seq<Sending>, decided: map<nat, Decision>)
    requires ClientOk(c, d, sendings, decided)
    ensures ClientOk(OnDisconnect(c), d, sendings, decided)
  {
    hide PhaseOk;
    var c' := OnDisconnect(c);
    forall id | id in c.calls && PhaseOk(c.calls[id], decided) ensures PhaseOk(c'.calls[id], decided) {
      CallEvents(c.calls[id], map[], OtherEvent, 0, decided);
      CallEvents(FailPending(c.calls[id]), c.completers, OtherEvent, c.calls[id].room, decided);
    }
    PhasesKept(c, c', d, sendings, decided);
  }

  lemma LeaveKeeps(c: ClientV, room: nat, d: nat, sendings: seq<Sending>, decided: map<nat, Decision>)
    requires ClientOk(c, d, sendings, decided)
    ensures var act := OnLeaveRoom(c, room);
      ClientOk(act.0, d, sendings, decided) && NoSends(act.1) && act.0.generation == c.generation
  {
    hide PhaseOk;
    var c' := OnLeaveRoom(c, room).0;
    forall id | id in c.calls && PhaseOk(c.calls[id], decided) ensures PhaseOk(c'.calls[id], decided) {
      CallEvents(c.calls[id], c.completers, OtherEvent, room, decided);
    }
    PhasesKept(c, c', d, sendings, decided);
  }

  lemma StartKeeps(c: ClientV, id: nat, room: nat, chat: bool, kind: string, content: string, d: nat,
                   sendings: seq<Sending>, decided: map<nat, Decision>)
    requires ClientOk(c, d, sendings, decided)
    ensures ClientOk(OnStart(c, id, room, chat, kind, content), d, sendings, decided)
  {
    var c' := OnStart(c, id, room, chat, kind, content);
    assert PhaseOk(Call(room, chat, kind, content, [], AwaitConnection(0)), decided);
    hide PhaseOk;
    forall x | x in c'.calls ensures CallOk(c'.calls[x], d, x, sendings, decided) {
      assert x in c.calls ==> CallOk(c.calls[x], d, x, sendings, decided);
    }
  }

  // Getting on with the wait for a room, or giving it up, before anything of this attempt is sent.
  lemma WaitingPhases(p: Call, k: nat, decided: map<nat, Decision>)
    requires PhaseOk(p, decided) && (p.phase.AwaitConnection? || p.phase.Woken? || p.phase.AwaitJoin?)
    ensures var a := p.phase.attempt;
      forall phase | phase in [Woken(a), Ready(a), AwaitJoin(a, k), Threw(NotSent)] ::
        PhaseOk(p.(phase := phase), decided)
  {
  }

  lemma WakeKeeps(c: ClientV, id: nat, d: nat, sendings: seq<Sending>, decided: map<nat, Decision>)
    requires ClientOk(c, d, sendings, decided)
    ensures ClientOk(OnWake(c, id), d, sendings, decided)
  {
    if id in c.calls && c.calls[id].phase.AwaitConnection? {
      var p := c.calls[id];
      assert CallOk(p, d, id, sendings, decided);
      WaitingPhases(p, 0, decided);
      hide PhaseOk, ClientOk;
      PhaseKept(c, id, Woken(p.phase.attempt), d, sendings, decided);
      PhaseKept(c, id, Threw(NotSent), d, sendings, decided);
    }
  }

  lemma ProceedKeeps(c: ClientV, id: nat, d: nat, sendings: seq<Sending>, decided: map<nat, Decision>)
    requires ClientOk(c, d, sendings, decided)
    ensures var act := OnProceed(c, id);
      ClientOk(act.0, d, sendings, decided) && NoSends(act.1) && act.0.generation == c.generation
  {
    if id in c.calls && c.calls[id].phase.Woken? {
      var p := c.calls[id];
      var k := Completer(c, p.room);
      assert CallOk(p, d, id, sendings, decided);
      WaitingPhases(p, k, decided);
      hide PhaseOk;
      PhasesKept(c, WithCompleter(c, p.room), d, sendings, decided);
      hide ClientOk;
      PhaseKept(c, id, Ready(p.phase.attempt), d, sendings, decided);
      PhaseKept(WithCompleter(c, p.room), id, AwaitJoin(p.phase.attempt, k), d, sendings, decided);
    }
  }

  lemma TimeoutKeeps(c: ClientV, id: nat, d: nat, sendings: seq<Sending>, decided: map<nat, Decision>)
    requires ClientOk(c, d, sendings, decided)
    ensures ClientOk(OnTimeout(c, id), d, sendings, decided)
  {
    if id in c.calls {
      var p := c.calls[id];
      assert CallOk(p, d, id, sendings, decided);
      assert p.phase.Waiting? ==> PhaseOk(p.(phase := Threw(Unconfirmed)), decided);
      if p.phase.AwaitConnection? || p.phase.AwaitJoin? {
        WaitingPhases(p, 0, decided);
        hide PhaseOk;
        PhasesKept(c, c.(completers := c.completers - {p.room}), d, sendings, decided);
        hide ClientOk;
        PhaseKept(c, id, Threw(NotSent), d, sendings, decided);
        PhaseKept(c.(completers := c.completers - {p.room}), id, Threw(NotSent), d, sendings, decided);
      } else if p.phase.Waiting? {
        hide PhaseOk, ClientOk;
        PhaseKept(c, id, Threw(Unconfirmed), d, sendings, decided);
      }
    }
  }

  function Resumed(p: Call): Phase
    requires p.phase.Settled?
  {
    match p.phase.outcome
    case Confirmed => Returned(p.phase.cmid)
    case Lost => Threw(Unconfirmed)
    case Refused(reason) =>
      if reason != NotInRoom || p.phase.attempt > 0 then Threw(ChatRefused(reason)) else AwaitConnection(1)
  }

  lemma ResumeKeeps(c: ClientV, id: nat, d: nat, sendings: seq<Sending>, decided: map<nat, Decision>)
    requires ClientOk(c, d, sendings, decided)
    ensures ClientOk(OnResume(c, id), d, sendings, decided)
  {
    if id in c.calls && c.calls[id].phase.Settled? {
      var p := c.calls[id];
      var phase := Resumed(p);
      assert PhaseOk(p, decided) ==> PhaseOk(p.(phase := phase), decided);
      hide PhaseOk;
      PhaseKept(c, id, phase, d, sendings, decided);
      PhasesKept(c, OnResume(c, id), d, sendings, decided);
    }
  }

  lemma TransmitKeeps(c: ClientV, call: nat, s: Sending, d: nat, sendings: seq<Sending>, decided: map<nat, Decision>)
    requires ClientOk(c, d, sendings, decided) && call in c.calls && c.calls[call].phase.Ready? && c.calls[call].chat
    requires forall x: nat | x in decided :: x < |sendings|
    requires var p := c.calls[call];
      s.dev == d && s.call == call && s.room == p.room && s.kind == p.kind && s.content == p.content
    ensures CanSend(c) ==> ClientOk(OnTransmit(c, call, |sendings|).0, d, sendings + [s], decided)
    ensures !CanSend(c) ==> ClientOk(OnTransmit(c, call, |sendings|).0, d, sendings, decided)
  {
    var p := c.calls[call];
    var a, n := p.phase.attempt, |sendings|;
    var p' := p.(sent := p.sent + [n], phase := Waiting(a, n));
    assert CallOk(p, d, call, sendings, decided);
    assert PhaseOk(p', decided) && PhaseOk(p.(phase := Threw(NotSent)), decided);
    hide PhaseOk;
    if CanSend(c) {
      var c' := OnTransmit(c, call, n).0;
      forall id | id in c'.calls ensures CallOk(c'.calls[id], d, id, sendings + [s], decided) {
        assert CallOk(c.calls[id], d, id, sendings, decided);
      }
    } else {
      PhaseKept(c, call, Threw(NotSent), d, sendings, decided);
    }
  }

  // ---------------------------------------------------------------- the world's part

  ghost predicate Grows(decided: map<nat, Decision>, decided': map<nat, Decision>) {
    forall c | c in decided :: c in decided' && decided'[c] == decided[c]
  }

  lemma ClientGrows(c: ClientV, d: nat, sendings: seq<Sending>, more: seq<Sending>,
                    decided: map<nat, Decision>, decided': map<nat, Decision>)
    requires ClientOk(c, d, sendings, decided) && Grows(decided, decided')
    requires forall s | s in more :: s.dev != d
    ensures ClientOk(c, d, sendings + more, decided')
  {
    forall id | id in c.calls ensures CallOk(c.calls[id], d, id, sendings + more, decided') {
      assert CallOk(c.calls[id], d, id, sendings, decided);
      PhaseGrows(c.calls[id], decided, decided');
      hide PhaseOk;
    }
    hide CallOk;
    assert forall i | 0 <= i < |more| :: more[i].dev != d;
  }

  lemma PhaseGrows(p: Call, decided: map<nat, Decision>, decided': map<nat, Decision>)
    requires PhaseOk(p, decided) && Grows(decided, decided')
    ensures PhaseOk(p, decided')
  {
  }

  lemma AnswersGrow(ms: seq<ServerMsg>, decided: map<nat, Decision>, decided': map<nat, Decision>)
    requires AnswersOk(decided, ms) && Grows(decided, decided')
    ensures AnswersOk(decided', ms)
  {
  }

  lemma ClientOfOk(w: World, d: nat)
    requires ClientsOk(w.devices, w.sendings, w.decided)
    ensures ClientOk(ClientOf(w, d), d, w.sendings, w.decided)
  {
    hide CallOk;
  }

  // One link is replaced, its owner staying the same.
  lemma LinkChangeKeeps(w: World, k: ConnKey, conn: Conn)
    requires Inv(w) && k in w.conns && conn.user == w.conns[k].user
    requires LinkOk(conn, k, w.sendings, w.decided)
    ensures Inv(w.(conns := w.conns[k := conn]))
  {
    hide LinkOk, LogOk, ClientsOk, AnswersOk;
  }

  // Handing messages other than chat.send to a link.
  lemma PushKeeps(w: World, k: ConnKey, out: seq<ClientMsg>)
    requires Inv(w) && NoSends(out)
    ensures Inv(Push(w, k, out))
  {
    if k in w.conns && !w.conns[k].broken {
      var conn := w.conns[k];
      var q := conn.toServer + out;
      assert LinkOk(conn, k, w.sendings, w.decided);
      hide Inv, AnswersOk;
      assert forall m | m in q :: m in conn.toServer || m in out;
      assert Distinct(q) by {
        assert forall i | 0 <= i < |out| :: out[i] in out;
      }
      LinkChangeKeeps(w, k, conn.(toServer := q));
    }
  }

  lemma ClientChangeKeeps(w: World, d: nat, c: ClientV)
    requires Inv(w) && ClientOk(c, d, w.sendings, w.decided)
    requires c.generation == ClientOf(w, d).generation || c.generation == ClientOf(w, d).generation + 1
    ensures Inv(WithClient(w, d, c))
  {
    hide ClientOk, LinksOk, LogOk, AnswersOk;
  }

  lemma ActKeeps(w: World, d: nat, act: (ClientV, seq<ClientMsg>))
    requires Inv(w) && ClientOk(act.0, d, w.sendings, w.decided) && NoSends(act.1)
    requires act.0.generation == ClientOf(w, d).generation || act.0.generation == ClientOf(w, d).generation + 1
    ensures Inv(Act(w, d, act))
  {
    hide Inv, ClientOk;
    ClientChangeKeeps(w, d, act.0);
    PushKeeps(WithClient(w, d, act.0), (d, act.0.generation), act.1);
  }

  lemma OpenForKeepsKeys(w: World, d: nat, account: nat, c: ClientV)
    requires KeysOk(w.devices, w.conns) && c.generation > ClientOf(w, d).generation
    ensures KeysOk(OpenFor(w, d, account, c).devices, OpenFor(w, d, account, c).conns)
  {
  }

  lemma OpenForKeeps(w: World, d: nat, account: nat, c: ClientV)
    requires Inv(w) && ClientOk(c, d, w.sendings, w.decided)
    requires c.generation > ClientOf(w, d).generation
    ensures Inv(OpenFor(w, d, account, c))
  {
    OpenForKeepsKeys(w, d, account, c);
    assert LinkOk(Conn(account, false, false, [], []), (d, c.generation), w.sendings, w.decided);
    hide ClientOk, LogOk, LinkOk, AnswersOk, KeysOk;
  }

  lemma ReplyKeeps(w: World, k: ConnKey, m: ServerMsg)
    requires Inv(w) && AnswerOk(w.decided, m)
    ensures Inv(Reply(w, k, m))
  {
    hide AnswerOk, SendOk, Distinct;
    if k in w.conns && !w.conns[k].broken {
      var conn := w.conns[k];
      assert LinkOk(conn, k, w.sendings, w.decided);
      hide Inv;
      LinkChangeKeeps(w, k, conn.(toClient := conn.toClient + [m]));
    }
  }

  lemma AnnounceKeeps(w: World, m: ServerMsg)
    requires Inv(w) && AnswerOk(w.decided, m)
    ensures Inv(Announce(w, m))
  {
    hide LogOk, ClientsOk, SendOk, Distinct, AnswerOk;
    var w' := Announce(w, m);
    forall k | k in w'.conns ensures LinkOk(w'.conns[k], k, w.sendings, w.decided) {
      assert LinkOk(w.conns[k], k, w.sendings, w.decided);
    }
  }

  // Taking messages off the front of the queues of a link, or losing those at the back.
  lemma CutKeeps(w: World, k: ConnKey, conn: Conn, lo: nat, hi: nat, lo': nat, hi': nat)
    requires Inv(w) && k in w.conns
    requires lo <= hi <= |w.conns[k].toServer| && lo' <= hi' <= |w.conns[k].toClient|
    requires conn == w.conns[k].(registered := conn.registered, broken := conn.broken,
                                 toServer := w.conns[k].toServer[lo..hi], toClient := w.conns[k].toClient[lo'..hi'])
    ensures Inv(w.(conns := w.conns[k := conn]))
  {
    hide SendOk, AnswerOk;
    assert LinkOk(w.conns[k], k, w.sendings, w.decided);
    hide Inv;
    LinkChangeKeeps(w, k, conn);
  }

  // Handing a chat.send to a link under a new id.
  lemma SendingKeepsLinks(w: World, k: ConnKey, s: Sending, m: ClientMsg)
    requires LinksOk(w.conns, w.sendings, w.decided) && m.ChatSend? && m.cmid == |w.sendings| && m.cmid !in w.decided
    requires k in w.conns ==> s == Sending(s.dev, s.call, k, w.conns[k].user, m.room, m.kind, m.content)
    ensures LinksOk(Push(w, k, [m]).conns, w.sendings + [s], w.decided)
  {
    hide AnswersOk;
    var conns, conns' := w.conns, Push(w, k, [m]).conns;
    forall x | x in conns' ensures LinkOk(conns'[x], x, w.sendings + [s], w.decided) {
      assert LinkOk(conns[x], x, w.sendings, w.decided);
      assert forall m' | m' in conns'[x].toServer :: m' in conns[x].toServer || (x == k && !conns[k].broken && m' == m);
      assert forall i | 0 <= i < |conns[x].toServer| :: conns[x].toServer[i] in conns[x].toServer;
    }
  }

  lemma SendingKeepsClients(w: World, d: nat, call: nat, s: Sending)
    requires Inv(w) && d in w.devices && MaySend(ClientOf(w, d), call)
    requires var p := ClientOf(w, d).calls[call];
      s.dev == d && s.call == call && s.room == p.room && s.kind == p.kind && s.content == p.content
    ensures var c' := OnTransmit(ClientOf(w, d), call, |w.sendings|).0;
      ClientsOk(WithClient(w, d, c').devices, w.sendings + [s], w.decided)
  {
    assert forall x: nat | x in w.decided :: x < |w.sendings|;
    var c' := OnTransmit(ClientOf(w, d), call, |w.sendings|).0;
    TransmitKeeps(ClientOf(w, d), call, s, d, w.sendings, w.decided);
    hide LinksOk, LogOk, OnTransmit;
    forall x: nat | x in w.devices && x != d ensures ClientOk(w.devices[x].client, x, w.sendings + [s], w.decided) {
      ClientGrows(w.devices[x].client, x, w.sendings, [s], w.decided, w.decided);
    }
    hide ClientOk;
  }

  lemma KeysKept(w: World, d: nat, c: ClientV, k: ConnKey, out: seq<ClientMsg>)
    requires KeysOk(w.devices, w.conns) && c.generation == ClientOf(w, d).generation
    ensures var w' := Push(WithClient(w, d, c), k, out); KeysOk(w'.devices, w'.conns)
  {
  }

  lemma TransmitStepKeeps(w: World, d: nat, call: nat)
    requires Inv(w)
    ensures Inv(TransmitStep(w, d, call))
  {
    var c := ClientOf(w, d);
    ClientOfOk(w, d);
    if MaySend(c, call) {
      HandOverKeeps(w, d, call);
    } else {
      assert call in c.calls && c.calls[call].phase.Ready? && PhaseOk(c.calls[call], w.decided) ==>
        PhaseOk(c.calls[call].(phase := Threw(NotSent)), w.decided);
      hide PhaseOk, Inv;
      if call in c.calls && c.calls[call].phase.Ready? {
        PhaseKept(c, call, Threw(NotSent), d, w.sendings, w.decided);
      }
      ActKeeps(w, d, OnTransmit(c, call, |w.sendings|));
    }
  }

  lemma HandOverKeeps(w: World, d: nat, call: nat)
    requires Inv(w) && MaySend(ClientOf(w, d), call)
    ensures Inv(TransmitStep(w, d, call))
  {
    var c := ClientOf(w, d);
    var p, k, n := c.calls[call], (d, c.generation), |w.sendings|;
    var s := Sending(d, call, k, DeviceOf(w, d).account, p.room, p.kind, p.content);
    var c' := OnTransmit(c, call, n).0;
    var w' := Push(WithClient(w, d, c'), k, [Outgoing(c, call, n)]).(sendings := w.sendings + [s]);
    assert w' == TransmitStep(w, d, call);
    assert c'.generation == c.generation;
    assert n !in w.decided;
    assert k in w.conns ==> w.conns[k].user == s.sender;
    hide TransmitStep, OnTransmit, ClientsOk, LinksOk;
    SendingKeepsClients(w, d, call, s);
    SendingKeepsLinks(w, k, s, Outgoing(c, call, n));
    LogGrows(w.log, w.origins, w.sendings, s, w.decided);
    KeysKept(w, d, c', k, [Outgoing(c, call, n)]);
    hide KeysOk, LogOk, AnswersOk;
  }

  lemma LogGrows(log: seq<Stored>, origins: seq<nat>, sendings: seq<Sending>, s: Sending, decided: map<nat, Decision>)
    requires LogOk(log, origins, sendings, decided)
    ensures LogOk(log, origins, sendings + [s], decided)
  {
  }

  // ---------------------------------------------------------------- the server's part

  // The message has left its queue and no queue holds another of its id.
  ghost predicate Taken(w: World, k: ConnKey, m: ClientMsg) {
    && k in w.conns && m.ChatSend? && SendOk(m, k, w.conns[k].user, w.sendings, w.decided)
    && forall x, m' | x in w.conns && m' in w.conns[x].toServer && m'.ChatSend? :: m'.cmid != m.cmid
  }

  lemma RecordKeepsLinks(w: World, k: ConnKey, m: ClientMsg, decision: Decision)
    requires LinksOk(w.conns, w.sendings, w.decided) && Taken(w, k, m)
    ensures LinksOk(w.conns, w.sendings, w.decided[m.cmid := decision])
  {
    var decided := w.decided[m.cmid := decision];
    forall x | x in w.conns ensures LinkOk(w.conns[x], x, w.sendings, decided) {
      assert LinkOk(w.conns[x], x, w.sendings, w.decided);
      AnswersGrow(w.conns[x].toClient, w.decided, decided);
      hide AnswersOk, Distinct, Grows;
    }
  }

  lemma RecordKeepsClients(w: World, m: ClientMsg, decision: Decision)
    requires ClientsOk(w.devices, w.sendings, w.decided) && m.ChatSend? && m.cmid !in w.decided
    ensures ClientsOk(w.devices, w.sendings, w.decided[m.cmid := decision])
  {
    var decided := w.decided[m.cmid := decision];
    forall d: nat | d in w.devices ensures ClientOk(w.devices[d].client, d, w.sendings, decided) {
      ClientGrows(w.devices[d].client, d, w.sendings, [], w.decided, decided);
      assert w.sendings + [] == w.sendings;
    }
    hide ClientOk;
  }

  lemma RecordKeepsLog(w: World, k: ConnKey, m: ClientMsg, decision: Decision)
    requires LogOk(w.log, w.origins, w.sendings, w.decided) && Taken(w, k, m)
    requires decision.Kept? ==> decision.index == |w.log|
    ensures var w' := Record(w, m, w.conns[k].user, decision); LogOk(w'.log, w'.origins, w'.sendings, w'.decided)
  {
  }

  lemma RecordKeeps(w: World, k: ConnKey, m: ClientMsg, decision: Decision)
    requires Inv(w) && Taken(w, k, m)
    requires decision.Kept? ==> decision.index == |w.log|
    ensures Inv(Record(w, m, w.conns[k].user, decision))
  {
    var w' := Record(w, m, w.conns[k].user, decision);
    hide LinksOk, ClientsOk, KeysOk, LogOk, AnswersOk;
    RecordKeepsLog(w, k, m, decision);
    AnswersGrow(w.pending, w.decided, w'.decided);
    RecordKeepsLinks(w, k, m, decision);
    RecordKeepsClients(w, m, decision);
  }

  lemma RefusalsAreHonest(inRoom: bool, l: Hub.Lookups, raw: string, content: string)
    ensures Hub.Judge(inRoom, l, raw, content) != Hub.Refuse(SenderLookupFailed)
  {
    hide Text.TrimSpace, Text.ByteLength, Hub.NormalKind;
  }

  lemma ChatStepKeeps(w: World, k: ConnKey, m: ClientMsg, l: Hub.Lookups)
    requires Inv(w) && Taken(w, k, m)
    ensures Inv(ChatStep(w, k, m, l))
  {
    hide Hub.Judge, Inv;
    var verdict := Hub.Judge(m.room in Hub.Rooms(w.hub, k), l, m.kind, m.content);
    RefusalsAreHonest(m.room in Hub.Rooms(w.hub, k), l, m.kind, m.content);
    var w' := Record(w, m, w.conns[k].user, DecisionOf(verdict, |w.log|));
    RecordKeeps(w, k, m, DecisionOf(verdict, |w.log|));
    assert m.cmid in w'.decided && w'.decided[m.cmid] == DecisionOf(verdict, |w.log|);
    hide Taken, Record;
    if verdict.StoreAndBroadcast? {
      PendingKeeps(w', ChatMessage(m.room, w.conns[k].user, m.content, m.cmid));
    } else {
      ReplyKeeps(w', k, ChatError(m.room, Hub.ErrorOf(verdict), m.cmid));
    }
  }

  lemma PendingKeeps(w: World, m: ServerMsg)
    requires Inv(w) && AnswerOk(w.decided, m)
    ensures Inv(w.(pending := w.pending + [m]))
  {
    hide AnswerOk, LogOk, LinksOk, ClientsOk, KeysOk;
  }

  lemma PoppedKeeps(w: World, k: ConnKey)
    requires Inv(w) && k in w.conns && w.conns[k].toServer != []
    ensures Inv(Popped(w, k))
    ensures w.conns[k].toServer[0].ChatSend? ==> Taken(Popped(w, k), k, w.conns[k].toServer[0])
  {
    var conn := w.conns[k];
    if conn.toServer[0].ChatSend? {
      HeadTaken(w, k);
    }
    hide Inv, Taken;
    CutKeeps(w, k, conn.(toServer := conn.toServer[1..]), 1, |conn.toServer|, 0, |conn.toClient|);
  }

  lemma HeadTaken(w: World, k: ConnKey)
    requires LinksOk(w.conns, w.sendings, w.decided)
    requires k in w.conns && w.conns[k].toServer != [] && w.conns[k].toServer[0].ChatSend?
    ensures Taken(Popped(w, k), k, w.conns[k].toServer[0])
  {
    hide AnswersOk;
    var conn := w.conns[k];
    var m := conn.toServer[0];
    assert LinkOk(conn, k, w.sendings, w.decided);
    assert m in conn.toServer;
    forall x, m' | x in w.conns && x != k && m' in w.conns[x].toServer && m'.ChatSend? ensures m'.cmid != m.cmid {
      assert LinkOk(w.conns[x], x, w.sendings, w.decided);
      assert SendOk(m', x, w.conns[x].user, w.sendings, w.decided);
    }
  }

  lemma JoinKeeps(w: World, k: ConnKey, room: nat, isMember: bool)
    requires Inv(w)
    ensures Inv(JoinStep(w, k, room, isMember))
  {
    hide Inv, Hub.Step, Reply;
    var w' := w.(hub := Hub.Step(w.hub, Hub.Join(k, room)), joins := w.joins + {(k, room)});
    HubChangeKeeps(w, w'.hub, w'.joins);
    ReplyKeeps(w', k, RoomJoined(room));
    ReplyKeeps(w, k, JoinError(room));
  }

  lemma HandleKeeps(w: World, k: ConnKey, m: ClientMsg, l: Hub.Lookups)
    requires Inv(w) && k in w.conns && (m.ChatSend? ==> Taken(w, k, m))
    ensures Inv(Handle(w, k, m, l))
  {
    hide Inv, ChatStep, Taken, Hub.Step, JoinStep;
    match m {
      case RoomJoin(room) => JoinKeeps(w, k, room, l.isMember);
      case RoomLeave(room) => HubChangeKeeps(w, Hub.Step(w.hub, Hub.Leave(k, room)), w.joins);
      case ChatSend(_, _, _, _) => ChatStepKeeps(w, k, m, l);
    }
  }

  lemma ReceiveKeeps(w: World, k: ConnKey, l: Hub.Lookups)
    requires Inv(w)
    ensures Inv(ReceiveStep(w, k, l))
  {
    hide Inv, Handle, Taken;
    if k in w.conns && w.conns[k].toServer != [] {
      PoppedKeeps(w, k);
      HandleKeeps(Popped(w, k), k, w.conns[k].toServer[0], l);
    }
  }

  lemma HubChangeKeeps(w: World, h: Hub.HubV, joins: set<(ConnKey, nat)>)
    requires Inv(w)
    ensures Inv(w.(hub := h, joins := joins))
  {
    hide LinksOk, LogOk, ClientsOk, KeysOk, AnswersOk;
  }

  lemma DeliverKeeps(w: World, k: ConnKey)
    requires Inv(w)
    ensures Inv(DeliverStep(w, k))
  {
    if k in w.conns && w.conns[k].toClient != [] {
      var conn := w.conns[k];
      var m := conn.toClient[0];
      var w' := w.(conns := w.conns[k := conn.(toClient := conn.toClient[1..])]);
      assert AnswerOk(w.decided, m) by {
        assert LinkOk(conn, k, w.sendings, w.decided);
        assert m in conn.toClient;
      }
      ClientOfOk(w, k.0);
      hide Inv, ClientOk, AnswerOk, OnMessage;
      CutKeeps(w, k, w'.conns[k], 0, |conn.toServer|, 1, |conn.toClient|);
      MessageKeeps(ClientOf(w, k.0), k.1, m, k.0, w.sendings, w.decided);
      ActKeeps(w', k.0, OnMessage(ClientOf(w, k.0), k.1, m));
    }
  }

  lemma BroadcastKeeps(w: World, i: nat)
    requires Inv(w) && i < |w.pending|
    ensures Inv(Step(w, Broadcast(i)))
  {
    var w' := w.(pending := w.pending[..i] + w.pending[i + 1..]);
    hide LinksOk, LogOk, ClientsOk, KeysOk, AnswerOk;
    assert AnswerOk(w.decided, w.pending[i]);
    assert forall m | m in w'.pending :: m in w.pending;
    assert Inv(w');
    hide Inv;
    AnnounceKeeps(w', w.pending[i]);
  }

  lemma DeviceActKeeps(c: ClientV, ev: Event, d: nat, sendings: seq<Sending>, decided: map<nat, Decision>)
    requires ClientOk(c, d, sendings, decided) && OnOneDevice(ev) && !ev.Transmit?
    ensures var act := DeviceAct(c, ev, |sendings|);
      && ClientOk(act.0, d, sendings, decided) && NoSends(act.1)
      && c.generation <= act.0.generation <= c.generation + 1
  {
    hide ClientOk;
    match ev {
      case Start(_, call, room, chat, kind, content) =>
        StartKeeps(c, call, room, chat, kind, content, d, sendings, decided);
      case Wake(_, call) => WakeKeeps(c, call, d, sendings, decided);
      case Proceed(_, call) => ProceedKeeps(c, call, d, sendings, decided);
      case Timeout(_, call) => TimeoutKeeps(c, call, d, sendings, decided);
      case Resume(_, call) => ResumeKeeps(c, call, d, sendings, decided);
      case Disconnect(_) => DisconnectKeeps(c, d, sendings, decided);
      case Lose(_, generation) => LostKeeps(c, generation, d, sendings, decided);
      case LeaveRoom(_, room) => LeaveKeeps(c, room, d, sendings, decided);
    }
  }

  lemma DeviceEventKeeps(w: World, ev: Event)
    requires Inv(w) && OnOneDevice(ev)
    ensures Inv(DeviceStep(w, ev))
  {
    if ev.Transmit? {
      hide Inv;
      TransmitStepKeeps(w, ev.dev, ev.call);
    } else {
      ClientOfOk(w, ev.dev);
      hide Inv, ClientOk, DeviceAct, Act, ClientOf;
      DeviceActKeeps(ClientOf(w, ev.dev), ev, ev.dev, w.sendings, w.decided);
      ActKeeps(w, ev.dev, DeviceAct(ClientOf(w, ev.dev), ev, |w.sendings|));
    }
  }

  lemma OpenEventKeeps(w: World, ev: Event)
    requires Inv(w) && (ev.Connect? || ev.Reconnect?)
    ensures Inv(Step(w, ev))
  {
    var c := ClientOf(w, ev.dev);
    ClientOfOk(w, ev.dev);
    hide Inv, ClientOk;
    DisconnectKeeps(c, ev.dev, w.sendings, w.decided);
    OpenKeeps(OnDisconnect(c), ev.dev, w.sendings, w.decided);
    OpenKeeps(c, ev.dev, w.sendings, w.decided);
    if ev.Connect? {
      OpenForKeeps(w, ev.dev, ev.account, OnOpen(OnDisconnect(c)));
    } else {
      OpenForKeeps(w, ev.dev, DeviceOf(w, ev.dev).account, OnOpen(c));
    }
  }

  lemma LinkEventKeeps(w: World, ev: Event)
    requires Inv(w) && (ev.Break? || ev.Register? || ev.Unregister? || ev.Kick?)
    ensures Inv(Step(w, ev))
  {
    hide Inv, Hub.Step;
    if ev.Kick? {
      if ev.user in w.hub.current {
        var k := w.hub.current[ev.user];
        HubChangeKeeps(w, Hub.Step(w.hub, Hub.Leave(k, ev.room)), w.joins);
        ReplyKeeps(w.(hub := Hub.Step(w.hub, Hub.Leave(k, ev.room))), k, OtherEvent);
      }
    } else if ev.conn in w.conns {
      var k, conn := ev.conn, w.conns[ev.conn];
      if ev.Break? {
        var conn' := Step(w, ev).conns[k];
        CutKeeps(w, k, conn', 0, |conn'.toServer|, 0, |conn'.toClient|);
      } else if ev.Unregister? {
        HubChangeKeeps(w, Hub.Step(w.hub, Hub.Unregister(k, conn.user)), w.joins);
      } else {
        CutKeeps(w, k, conn.(registered := true), 0, |conn.toServer|, 0, |conn.toClient|);
        var w' := w.(conns := w.conns[k := conn.(registered := true)]);
        HubChangeKeeps(w', Hub.Step(w.hub, Hub.Register(k, conn.user)), w.joins);
        ReplyKeeps(w'.(hub := Hub.Step(w.hub, Hub.Register(k, conn.user))), k, Connected);
      }
    }
  }

  lemma StepKeeps(w: World, ev: Event)
    requires Inv(w)
    ensures Inv(Step(w, ev))
  {
    hide Inv, DeviceStep, DeliverStep, ReceiveStep;
    match ev {
      case Connect(_, _) => OpenEventKeeps(w, ev);
      case Reconnect(_) => OpenEventKeeps(w, ev);
      case Deliver(k) => DeliverKeeps(w, k);
      case Break(_, _, _) => LinkEventKeeps(w, ev);
      case Register(_) => LinkEventKeeps(w, ev);
      case Unregister(_) => LinkEventKeeps(w, ev);
      case Kick(_, _) => LinkEventKeeps(w, ev);
      case Receive(k, l) => ReceiveKeeps(w, k, l);
      case Broadcast(i) => if i < |w.pending| { BroadcastKeeps(w, i); }
      case _ => DeviceEventKeeps(w, ev);
    }
  }

  lemma {:induction false} Reachable(evs: seq<Event>)
    ensures Inv(Run(evs))
  {
    if evs == [] {
    } else {
      Reachable(evs[..|evs| - 1]);
      StepKeeps(Run(evs[..|evs| - 1]), evs[|evs| - 1]);
      hide Inv, Step;
    }
  }

  // ---------------------------------------------------------------- results

  // The i-th stored message came from this call.
  predicate StoredBy(w: World, i: int, d: nat, call: nat) {
    && 0 <= i < |w.log| && i < |w.origins| && w.origins[i] < |w.sendings|
    && w.sendings[w.origins[i]].dev == d && w.sendings[w.origins[i]].call == call
  }

  predicate HasCall(w: World, d: nat, call: nat) {
    d in w.devices && call in w.devices[d].client.calls
  }

  function CallOf(w: World, d: nat, call: nat): Call
    requires HasCall(w, d, call)
  {
    w.devices[d].client.calls[call]
  }

  // A stored message goes back to one of the ids its call handed over.
  lemma StoredIsSent(w: World, i: int, d: nat, call: nat)
    requires Inv(w) && StoredBy(w, i, d, call)
    ensures HasCall(w, d, call) && CallOk(CallOf(w, d, call), d, call, w.sendings, w.decided)
    ensures w.origins[i] in CallOf(w, d, call).sent
    ensures w.origins[i] in w.decided && w.decided[w.origins[i]].Kept? && w.decided[w.origins[i]].index == i
  {
    hide LinksOk, KeysOk, CallOk, AnswersOk;
    assert w.sendings[w.origins[i]].dev in w.devices;
  }

  // One sendChat call, whatever it goes through, leads to at most one stored message.
  lemma AtMostOnce(evs: seq<Event>, d: nat, call: nat, i: int, j: int)
    requires StoredBy(Run(evs), i, d, call) && StoredBy(Run(evs), j, d, call)
    ensures i == j
  {
    var w := Run(evs);
    Reachable(evs);
    hide Run, Inv;
    StoredIsSent(w, i, d, call);
    StoredIsSent(w, j, d, call);
  }

  // A call that returns normally has stored exactly one message, with its room, its content,
  // its type in normal form and the account it was sent from.
  lemma ConfirmedMeansStored(evs: seq<Event>, d: nat, call: nat)
    requires HasCall(Run(evs), d, call) && CallOf(Run(evs), d, call).phase.Returned?
    ensures exists i :: StoredBy(Run(evs), i, d, call)
    ensures forall i | StoredBy(Run(evs), i, d, call) ::
      var w, p := Run(evs), CallOf(Run(evs), d, call);
      w.log[i] == Stored(p.room, w.sendings[w.origins[i]].sender, Hub.NormalKind(p.kind), p.content)
      && w.origins[i] == p.phase.cmid
  {
    var w := Run(evs);
    Reachable(evs);
    hide Run;
    var p := CallOf(w, d, call);
    assert CallOk(p, d, call, w.sendings, w.decided);
    assert LogOk(w.log, w.origins, w.sendings, w.decided);
    hide Inv;
    var c := p.phase.cmid;
    assert c in p.sent && c in w.decided && w.decided[c].Kept?;
    var n := w.decided[c].index;
    assert StoredBy(w, n, d, call);
    forall i | StoredBy(w, i, d, call) ensures i == n {
      AtMostOnce(evs, d, call, i, n);
    }
  }

  // Whatever a call ends in, its message is in the log exactly if the server accepted the last
  // one handed over; so a time-out or a lost connection by itself tells nothing.
  lemma StoredIffLastKept(evs: seq<Event>, d: nat, call: nat)
    requires HasCall(Run(evs), d, call)
    ensures var w, sent := Run(evs), CallOf(Run(evs), d, call).sent;
      (exists i :: StoredBy(w, i, d, call)) <==>
      (sent != [] && Last(sent) in w.decided && w.decided[Last(sent)].Kept?)
  {
    var w := Run(evs);
    Reachable(evs);
    hide Run;
    var p := CallOf(w, d, call);
    assert CallOk(p, d, call, w.sendings, w.decided);
    assert LogOk(w.log, w.origins, w.sendings, w.decided);
    hide Inv;
    forall i | StoredBy(w, i, d, call)
      ensures p.sent != [] &&
        w.origins[i] == Last(p.sent) && Last(p.sent) in w.decided && w.decided[Last(p.sent)].Kept?
    {
      StoredIsSent(w, i, d, call);
    }
    if p.sent != [] && Last(p.sent) in w.decided && w.decided[Last(p.sent)].Kept? {
      var c := Last(p.sent);
      assert c in p.sent;
      assert StoredBy(w, w.decided[c].index, d, call);
    }
  }

  // A call that throws has stored nothing, except that an unconfirmed call may have stored its
  // message, and a call refused because the sender could not be looked up certainly has.
  lemma FailureMeaning(evs: seq<Event>, d: nat, call: nat)
    requires HasCall(Run(evs), d, call) && CallOf(Run(evs), d, call).phase.Threw?
    ensures var f := CallOf(Run(evs), d, call).phase.failure;
      && (f.NotSent? ==> !exists i :: StoredBy(Run(evs), i, d, call))
      && (f.ChatRefused? ==> ((exists i :: StoredBy(Run(evs), i, d, call)) <==> f.reason == SenderLookupFailed))
  {
    var w := Run(evs);
    Reachable(evs);
    hide Run;
    var p := CallOf(w, d, call);
    assert CallOk(p, d, call, w.sendings, w.decided);
    assert LogOk(w.log, w.origins, w.sendings, w.decided);
    hide Inv;
    forall i | StoredBy(w, i, d, call) && !p.phase.failure.Unconfirmed?
      ensures p.phase.failure == ChatRefused(SenderLookupFailed) {
      Reachable(evs);
      StoredIsSent(w, i, d, call);
    }
    if p.phase.failure == ChatRefused(SenderLookupFailed) {
      var c := Last(p.sent);
      assert c in p.sent;
      assert StoredBy(w, w.decided[c].index, d, call);
    }
  }

  // Every stored message carries the account that owned the connection it came in on, and no
  // message is stored that a client did not send.
  lemma StoredMeansSent(evs: seq<Event>, i: nat)
    requires i < |Run(evs).log|
    ensures var w := Run(evs);
      && i < |w.origins| && w.origins[i] < |w.sendings|
      && var s := w.sendings[w.origins[i]];
         && HasCall(w, s.dev, s.call)
         && var p := CallOf(w, s.dev, s.call);
            w.log[i] == Stored(p.room, s.sender, Hub.NormalKind(p.kind), p.content)
  {
    var w := Run(evs);
    Reachable(evs);
    hide Run;
    assert LogOk(w.log, w.origins, w.sendings, w.decided);
    var s := w.sendings[w.origins[i]];
    StoredIsSent(w, i, s.dev, s.call);
  }

  // ---------------------------------------------------------------- what may be stored

  // One of the three message types, some content, and no more of it than the type allows.
  predicate Storable(m: Stored) {
    && m.kind in ["text", "image", "file"]
    && Text.TrimSpace(m.content) != ""
    && Text.ByteLength(m.content) <= (if m.kind == "text" then 8000 else 4096)
  }

  lemma ChatLog(w: World, k: ConnKey, m: ClientMsg, l: Hub.Lookups)
    requires k in w.conns && m.ChatSend?
    ensures var log := ChatStep(w, k, m, l).log;
      log == w.log || exists x :: Storable(x) && x.sender == w.conns[k].user && log == w.log + [x]
  {
    hide Text.TrimSpace, Text.ByteLength, Hub.NormalKind, Hub.Rooms;
    var x := Stored(m.room, w.conns[k].user, Hub.NormalKind(m.kind), m.content);
    assert !Hub.Judge(m.room in Hub.Rooms(w.hub, k), l, m.kind, m.content).Refuse? ==> Storable(x);
    hide Hub.Judge, Storable;
  }

  // Only a chat.send that is received can add to the log, and it adds at the end.
  lemma LogStep(w: World, ev: Event)
    ensures var log := Step(w, ev).log; log == w.log || exists x :: Storable(x) && log == w.log + [x]
  {
    hide ChatStep, Hub.Step, Hub.Rooms, Hub.Closes, Storable;
    hide OnMessage, OnDisconnect, OnOpen, OnTransmit, DeviceAct;
    if ev.Receive? && ev.conn in w.conns && w.conns[ev.conn].toServer != [] && w.conns[ev.conn].toServer[0].ChatSend? {
      ChatLog(Popped(w, ev.conn), ev.conn, w.conns[ev.conn].toServer[0], ev.lookups);
    }
  }

  // In every run the log only grows, and everything in it passed the checks.
  lemma {:induction false} StoredMessagesAreValid(evs: seq<Event>)
    ensures forall x | x in Run(evs).log :: Storable(x)
    ensures evs != [] ==> Run(evs[..|evs| - 1]).log <= Run(evs).log
  {
    if evs != [] {
      StoredMessagesAreValid(evs[..|evs| - 1]);
      LogStep(Run(evs[..|evs| - 1]), evs[|evs| - 1]);
      hide Step, Storable;
    }
  }

  // ---------------------------------------------------------------- who hears a message

  // What one event means to the hub.
  function HubEventOf(w: World, ev: Event): seq<Hub.Event> {
    match ev
    case Register(k) => if k in w.conns && !w.conns[k].registered then [Hub.Register(k, w.conns[k].user)] else []
    case Unregister(k) => if k in w.conns then [Hub.Unregister(k, w.conns[k].user)] else []
    case Kick(user, room) => if user in w.hub.current then [Hub.Leave(w.hub.current[user], room)] else []
    case Receive(k, l) =>
      if k !in w.conns || w.conns[k].toServer == [] || Hub.Closes(w.hub, k) > 0 then [] else
        (match w.conns[k].toServer[0]
         case RoomJoin(room) => if l.isMember then [Hub.Join(k, room)] else []
         case RoomLeave(room) => [Hub.Leave(k, room)]
         case _ => [])
    case _ => []
  }

  function HubHistory(evs: seq<Event>): seq<Hub.Event> {
    if evs == [] then [] else HubHistory(evs[..|evs| - 1]) + HubEventOf(Run(evs[..|evs| - 1]), evs[|evs| - 1])
  }

  lemma HandleHub(w: World, k: ConnKey, m: ClientMsg, l: Hub.Lookups)
    requires k in w.conns
    ensures Handle(w, k, m, l).hub ==
      match m
      case RoomJoin(room) => if l.isMember then Hub.Step(w.hub, Hub.Join(k, room)) else w.hub
      case RoomLeave(room) => Hub.Step(w.hub, Hub.Leave(k, room))
      case _ => w.hub
  {
    hide Hub.Step, Hub.Judge, Hub.Rooms;
  }

  lemma HubStep(w: World, ev: Event)
    ensures var es := HubEventOf(w, ev);
      |es| <= 1 && Step(w, ev).hub == if es == [] then w.hub else Hub.Step(w.hub, es[0])
  {
    hide Hub.Step, Handle, OnMessage, OnDisconnect, OnOpen, OnTransmit, DeviceAct;
    if ev.Receive? && ev.conn in w.conns && w.conns[ev.conn].toServer != [] {
      HandleHub(Popped(w, ev.conn), ev.conn, w.conns[ev.conn].toServer[0], ev.lookups);
    }
  }

  lemma {:induction false} HubFollows(evs: seq<Event>)
    ensures Run(evs).hub == Hub.Run(HubHistory(evs))
  {
    if evs != [] {
      var before, ev := evs[..|evs| - 1], evs[|evs| - 1];
      HubFollows(before);
      HubStep(Run(before), ev);
      var hs, es := HubHistory(before), HubEventOf(Run(before), ev);
      assert es == [] ==> hs + es == hs;
      assert es != [] ==> (hs + es)[..|hs + es| - 1] == hs && (hs + es)[|hs + es| - 1] == es[0];
      hide Step, HubEventOf, Hub.Step;
    }
  }

  // The connection is the latest one its user registered, and is still registered.
  ghost predicate Latest(hs: seq<Hub.Event>, user: nat, k: ConnKey) {
    Hub.Online(hs, user) && hs[Hub.LastRegister(hs, user)].conn == k
  }

  lemma CurrentIsLatest(evs: seq<Event>, user: nat, k: ConnKey)
    ensures IsCurrent(Run(evs).hub, k, user) <==> Latest(HubHistory(evs), user, k)
  {
    HubFollows(evs);
    hide Run, HubHistory, Hub.Run, Hub.Online;
    Hub.LatestConnectionWins(HubHistory(evs), user);
  }

  lemma AnnounceReaches(w: World, i: nat, k: ConnKey)
    requires i < |w.pending| && w.pending[i].ChatMessage? && k in w.conns
    ensures var w' := Step(w, Broadcast(i));
      k in w'.conns && w'.conns[k].toClient ==
        if !w.conns[k].broken && IsCurrent(w.hub, k, w.conns[k].user) && w.pending[i].room in Hub.Rooms(w.hub, k)
        then w.conns[k].toClient + [w.pending[i]] else w.conns[k].toClient
  {
    hide IsCurrent, Hub.Rooms;
  }

  // A broadcast reaches an unbroken connection exactly if it is its user's latest one, still
  // registered, and joined to the room.
  lemma BroadcastReaches(evs: seq<Event>, i: nat, k: ConnKey)
    requires i < |Run(evs).pending| && Run(evs).pending[i].ChatMessage? && k in Run(evs).conns
    ensures var w, w' := Run(evs), Step(Run(evs), Broadcast(i));
      k in w'.conns && w'.conns[k].toClient ==
        if !w.conns[k].broken && Latest(HubHistory(evs), w.conns[k].user, k) && w.pending[i].room in Hub.Rooms(w.hub, k)
        then w.conns[k].toClient + [w.pending[i]] else w.conns[k].toClient
  {
    CurrentIsLatest(evs, Run(evs).conns[k].user, k);
    hide Run, Latest, IsCurrent, Step, HubHistory;
    AnnounceReaches(Run(evs), i, k);
  }
}

// The client's WebSocket service: connection generations, join confirmation and chat calls.

module WsClient {
  import opened ChatTypes

  datatype LinkState = Down | Opening | Up

  datatype Outcome = Confirmed | Refused(reason: Reason) | Lost

  // Refused by the server; never handed to the link; handed over but not confirmed.
  datatype Failure = ChatRefused(reason: Reason) | NotSent | Unconfirmed

  // Where one call is suspended. The completer of its pending message is settled by an event
  // and the call resumes afterwards. Calls for one room may wait on the same join completer.
  datatype Phase =
    | AwaitConnection(attempt: nat)
    | Woken(attempt: nat)
    | AwaitJoin(attempt: nat, completer: nat)
    | Ready(attempt: nat)
    | Waiting(attempt: nat, cmid: nat)
    | Settled(attempt: nat, cmid: nat, outcome: Outcome)
    | Returned(cmid: nat)
    | Threw(failure: Failure)

  // A sendChat call, or a joinRoom call, which is done once it is ready. `sent` is the history
  // of the client message ids the call handed to the link.
  datatype Call = Call(room: nat, chat: bool, kind: string, content: string, sent: seq<nat>, phase: Phase)

  // `joined` keeps insertion order, as a Dart set literal does. `completers` holds the registered
  // join completer of each room, identified by the number of completers created before it.
  datatype ClientV = ClientV(state: LinkState, generation: nat, channel: bool, shouldReconnect: bool,
                             joined: seq<nat>, confirmed: set<nat>, calls: map<nat, Call>,
                             completers: map<nat, nat>, created: nat)

  const FRESH: ClientV := ClientV(Down, 0, false, false, [], {}, map[], map[], 0)

  function Add(s: seq<nat>, x: nat): seq<nat> {
    if x in s then s else s + [x]
  }

  function Remove(s: seq<nat>, x: nat): seq<nat> {
    if s == [] then s
    else if s[|s| - 1] == x then Remove(s[..|s| - 1], x)
    else Remove(s[..|s| - 1], x) + [s[|s| - 1]]
  }

  function JoinRequests(rooms: seq<nat>): seq<ClientMsg> {
    seq(|rooms|, i requires 0 <= i < |rooms| => RoomJoin(rooms[i]))
  }

  predicate CanSend(c: ClientV) {
    c.channel && c.state == Up
  }

  // ---------------------------------------------------------------- effects on suspended calls

  // The call waits on the completer registered for the room.
  predicate WaitsFor(p: Call, completers: map<nat, nat>, room: nat) {
    p.phase.AwaitJoin? && room in completers && completers[room] == p.phase.completer
  }

  function JoinSucceeds(p: Call, completers: map<nat, nat>, room: nat): Call {
    if WaitsFor(p, completers, room) then p.(phase := Ready(p.phase.attempt)) else p
  }

  function JoinFails(p: Call, completers: map<nat, nat>, room: nat): Call {
    if WaitsFor(p, completers, room) then p.(phase := Threw(NotSent)) else p
  }

  function Settle(p: Call, cmid: nat, o: Outcome): Call {
    if p.phase.Waiting? && p.phase.cmid == cmid then p.(phase := Settled(p.phase.attempt, cmid, o)) else p
  }

  function FailPending(p: Call): Call {
    if p.phase.Waiting? then p.(phase := Settled(p.phase.attempt, p.phase.cmid, Lost)) else p
  }

  function FailJoin(p: Call, completers: map<nat, nat>): Call {
    JoinFails(p, completers, p.room)
  }

  // The effect a server message has on one call.
  function CallAfter(p: Call, completers: map<nat, nat>, m: ServerMsg): Call {
    match m
    case RoomJoined(room) => JoinSucceeds(p, completers, room)
    case JoinError(room) => JoinFails(p, completers, room)
    case ChatError(_, reason, cmid) => Settle(p, cmid, Refused(reason))
    case ChatMessage(_, _, _, cmid) => Settle(p, cmid, Confirmed)
    case _ => p
  }

  // ---------------------------------------------------------------- events

  // A message of an older generation is ignored.
  function OnMessage(c: ClientV, generation: nat, m: ServerMsg): (ClientV, seq<ClientMsg>) {
    if generation != c.generation then (c, []) else
      var c' := c.(calls := map id | id in c.calls :: CallAfter(c.calls[id], c.completers, m));
      match m
      case Connected =>
        (c'.(state := Up, confirmed := {}), if c.channel then JoinRequests(c.joined) else [])
      case RoomJoined(room) => (c'.(confirmed := c.confirmed + {room}, completers := c.completers - {room}), [])
      case JoinError(room) => (c'.(confirmed := c.confirmed - {room}, completers := c.completers - {room}), [])
      case ChatError(room, _, _) => (if room in c.joined then c'.(confirmed := c.confirmed - {room}) else c', [])
      case _ => (c', [])
  }

  // onDone, onError, a failed handshake and the connect timeout.
  function OnLost(c: ClientV, generation: nat): ClientV {
    if generation != c.generation then c else
      c.(channel := false, confirmed := {}, state := Down,
         calls := map id | id in c.calls :: FailPending(c.calls[id]))
  }

  // connect() and the reconnect timer.
  function OnOpen(c: ClientV): ClientV {
    c.(generation := c.generation + 1, channel := true, state := Opening, shouldReconnect := true)
  }

  function OnDisconnect(c: ClientV): ClientV {
    c.(generation := c.generation + 1, channel := false, shouldReconnect := false, joined := [], confirmed := {},
       state := Down, calls := map id | id in c.calls :: FailJoin(FailPending(c.calls[id]), c.completers),
       completers := map[])
  }

  function OnLeaveRoom(c: ClientV, room: nat): (ClientV, seq<ClientMsg>) {
    (c.(joined := Remove(c.joined, room), confirmed := c.confirmed - {room},
        calls := map id | id in c.calls :: JoinFails(c.calls[id], c.completers, room),
        completers := c.completers - {room}),
     if CanSend(c) then [RoomLeave(room)] else [])
  }

  function WithPhase(c: ClientV, id: nat, phase: Phase): ClientV
    requires id in c.calls
  {
    c.(calls := c.calls[id := c.calls[id].(phase := phase)])
  }

  // sendChat and joinRoom up to their first await.
  function OnStart(c: ClientV, id: nat, room: nat, chat: bool, kind: string, content: string): ClientV {
    if id in c.calls then c else
      c.(joined := Add(c.joined, room), calls := c.calls[id := Call(room, chat, kind, content, [], AwaitConnection(0))])
  }

  // The wait for the connection is over, or pointless from the start.
  function OnWake(c: ClientV, id: nat): ClientV {
    if id !in c.calls || !c.calls[id].phase.AwaitConnection? then c
    else if CanSend(c) then WithPhase(c, id, Woken(c.calls[id].phase.attempt))
    else if !c.shouldReconnect then WithPhase(c, id, Threw(NotSent))
    else c
  }

  // The completer of the room, created if there is none.
  function Completer(c: ClientV, room: nat): nat {
    if room in c.completers then c.completers[room] else c.created
  }

  function WithCompleter(c: ClientV, room: nat): ClientV {
    if room in c.completers then c else c.(completers := c.completers[room := c.created], created := c.created + 1)
  }

  // The rest of ensureRoomJoined; the connection may be gone again by now.
  function OnProceed(c: ClientV, id: nat): (ClientV, seq<ClientMsg>) {
    if id !in c.calls || !c.calls[id].phase.Woken? then (c, []) else
      var p := c.calls[id];
      if p.room in c.confirmed then (WithPhase(c, id, Ready(p.phase.attempt)), [])
      else (WithPhase(WithCompleter(c, p.room), id, AwaitJoin(p.phase.attempt, Completer(c, p.room))),
            if CanSend(c) then [RoomJoin(p.room)] else [])
  }

  // _sendChatOnce up to its await; `cmid` is the new client message id.
  function OnTransmit(c: ClientV, id: nat, cmid: nat): (ClientV, seq<ClientMsg>) {
    if id !in c.calls || !c.calls[id].phase.Ready? || !c.calls[id].chat then (c, []) else
      var p := c.calls[id];
      if CanSend(c) then
        (c.(calls := c.calls[id := p.(sent := p.sent + [cmid], phase := Waiting(p.phase.attempt, cmid))]),
         [ChatSend(p.room, p.kind, p.content, cmid)])
      else (WithPhase(c, id, Threw(NotSent)), [])
  }

  function OnTimeout(c: ClientV, id: nat): ClientV {
    if id !in c.calls then c else
      match c.calls[id].phase
      case AwaitConnection(_) => WithPhase(c, id, Threw(NotSent))
      case AwaitJoin(_, _) =>
        var p := c.calls[id];
        var c' := if WaitsFor(p, c.completers, p.room) then c.(completers := c.completers - {p.room}) else c;
        WithPhase(c', id, Threw(NotSent))
      case Waiting(_, _) => WithPhase(c, id, Threw(Unconfirmed))
      case _ => c
  }

  // The rest of the loop body of sendChat: only a first not_in_room is tried again.
  function OnResume(c: ClientV, id: nat): ClientV {
    if id !in c.calls || !c.calls[id].phase.Settled? then c else
      var p := c.calls[id];
      match p.phase.outcome
      case Confirmed => WithPhase(c, id, Returned(p.phase.cmid))
      case Lost => WithPhase(c, id, Threw(Unconfirmed))
      case Refused(reason) =>
        if reason != NotInRoom || p.phase.attempt > 0 then WithPhase(c, id, Threw(ChatRefused(reason)))
        else WithPhase(c, id, AwaitConnection(1)).(confirmed := c.confirmed - {p.room}, joined := Add(c.joined, p.room))
  }

  // ---------------------------------------------------------------- in place

  class WsService {
    var state: LinkState
    var generation: nat
    var channel: bool
    var shouldReconnect: bool
    var joined: seq<nat>
    var confirmed: set<nat>
    var calls: map<nat, Call>
    var completers: map<nat, nat>
    var created: nat

    constructor ()
      ensures View() == FRESH
    {
      state, generation, channel, shouldReconnect := Down, 0, false, false;
      joined, confirmed, calls := [], {}, map[];
      completers, created := map[], 0;
    }

    function View(): ClientV
      reads this
    {
      ClientV(state, generation, channel, shouldReconnect, joined, confirmed, calls, completers, created)
    }

    method Open()
      modifies this
      ensures View() == OnOpen(old(View()))
    {
      shouldReconnect := true;
      state := Opening;
      generation := generation + 1;
      channel := true;
    }

    method FailPendingChats()
      modifies this`calls
      ensures calls == map id | id in old(calls) :: FailPending(old(calls)[id])
    {
      calls := map id | id in calls :: FailPending(calls[id]);
    }

    method FailRoomJoins()
      modifies this`calls, this`completers
      ensures calls == map id | id in old(calls) :: FailJoin(old(calls)[id], old(completers))
      ensures completers == map[]
    {
      calls := map id | id in calls :: FailJoin(calls[id], completers);
      completers := map[];
    }

    method HandleLost(gen: nat)
      modifies this
      ensures View() == OnLost(old(View()), gen)
    {
      if gen != generation {
        return;
      }
      channel := false;
      confirmed := {};
      FailPendingChats();
      state := Down;
    }

    method Disconnect()
      modifies this
      ensures View() == OnDisconnect(old(View()))
    {
      generation := generation + 1;
      shouldReconnect := false;
      channel := false;
      joined := [];
      confirmed := {};
      FailPendingChats();
      FailRoomJoins();
      state := Down;
    }

    method HandleMessage(gen: nat, m: ServerMsg) returns (out: seq<ClientMsg>)
      modifies this
      ensures (View(), out) == OnMessage(old(View()), gen, m)
    {
      out := [];
      if gen != generation {
        return;
      }
      calls := map id | id in calls :: CallAfter(calls[id], completers, m);
      match m {
        case Connected =>
          state := Up;
          confirmed := {};
          if channel {
            for i := 0 to |joined|
              invariant out == JoinRequests(joined[..i])
            {
              out := out + [RoomJoin(joined[i])];
            }
            assert joined[..|joined|] == joined;
          }
        case RoomJoined(room) =>
          confirmed := confirmed + {room};
          completers := completers - {room};
        case JoinError(room) =>
          confirmed := confirmed - {room};
          completers := completers - {room};
        case ChatError(room, _, _) =>
          if room in joined {
            confirmed := confirmed - {room};
          }
        case _ =>
      }
    }

    method StartCall(id: nat, room: nat, chat: bool, kind: string, content: string)
      requires id !in calls
      modifies this
      ensures View() == OnStart(old(View()), id, room, chat, kind, content)
    {
      if room !in joined {
        joined := joined + [room];
      }
      calls := calls[id := Call(room, chat, kind, content, [], AwaitConnection(0))];
    }

    method SendChatOnce(id: nat, cmid: nat) returns (out: seq<ClientMsg>)
      requires id in calls && calls[id].phase.Ready? && calls[id].chat
      modifies this
      ensures (View(), out) == OnTransmit(old(View()), id, cmid)
    {
      var p := calls[id];
      if channel && state == Up {
        out := [ChatSend(p.room, p.kind, p.content, cmid)];
        calls := calls[id := p.(sent := p.sent + [cmid], phase := Waiting(p.phase.attempt, cmid))];
      } else {
        out := [];
        calls := calls[id := p.(phase := Threw(NotSent))];
      }
    }

    method ResumeSendChat(id: nat)
      requires id in calls && calls[id].phase.Settled?
      modifies this
      ensures View() == OnResume(old(View()), id)
    {
      var p := calls[id];
      match p.phase.outcome {
        case Confirmed =>
          calls := calls[id := p.(phase := Returned(p.phase.cmid))];
        case Lost =>
          calls := calls[id := p.(phase := Threw(Unconfirmed))];
        case Refused(reason) =>
          if reason != NotInRoom || p.phase.attempt > 0 {
            calls := calls[id := p.(phase := Threw(ChatRefused(reason)))];
          } else {
            confirmed := confirmed - {p.room};
            joined := Add(joined, p.room);
            calls := calls[id := p.(phase := AwaitConnection(1))];
          }
      }
    }

    method WaitUntilConnected(id: nat)
      requires id in calls && calls[id].phase.AwaitConnection?
      modifies this
      ensures View() == OnWake(old(View()), id)
    {
      var p := calls[id];
      if channel && state == Up {
        calls := calls[id := p.(phase := Woken(p.phase.attempt))];
      } else if !shouldReconnect {
        calls := calls[id := p.(phase := Threw(NotSent))];
      }
    }

    method EnsureRoomJoined(id: nat) returns (out: seq<ClientMsg>)
      requires id in calls && calls[id].phase.Woken?
      modifies this
      ensures (View(), out) == OnProceed(old(View()), id)
    {
      out := [];
      var p := calls[id];
      if p.room in confirmed {
        calls := calls[id := p.(phase := Ready(p.phase.attempt))];
        return;
      }
      if p.room !in completers {
        completers := completers[p.room := created];
        created := created + 1;
      }
      calls := calls[id := p.(phase := AwaitJoin(p.phase.attempt, completers[p.room]))];
      if channel && state == Up {
        out := [RoomJoin(p.room)];
      }
    }

    method LeaveRoom(room: nat) returns (out: seq<ClientMsg>)
      modifies this
      ensures (View(), out) == OnLeaveRoom(old(View()), room)
    {
      joined := Remove(joined, room);
      confirmed := confirmed - {room};
      calls := map id | id in calls :: JoinFails(calls[id], completers, room);
      completers := completers - {room};
      out := if channel && state == Up then [RoomLeave(room)] else [];
    }

    // The ten-second limits of a call's three waits.
    method Timeout(id: nat)
      requires id in calls
      modifies this
      ensures View() == OnTimeout(old(View()), id)
    {
      var p := calls[id];
      if p.phase.AwaitJoin? && p.room in completers && completers[p.room] == p.phase.completer {
        completers := completers - {p.room};
      }
      if p.phase.AwaitConnection? || p.phase.AwaitJoin? {
        calls := calls[id := p.(phase := Threw(NotSent))];
      } else if p.phase.Waiting? {
        calls := calls[id := p.(phase := Threw(Unconfirmed))];
      }
    }
  }
}

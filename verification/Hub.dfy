// The server's hub: which connection represents a user, who is announced as having left, and
// what happens to a chat message before it is stored.

module Hub {
  import opened ChatTypes
  import opened Text

  // ---------------------------------------------------------------- connections

  // `current` is the Clients map, `closes` counts the closes of each Send channel, and
  // `announced` records the rooms announced as left, newest last.
  datatype HubV = HubV(current: map<nat, ConnKey>, rooms: map<ConnKey, set<nat>>, closes: map<ConnKey, nat>,
                       announced: seq<(ConnKey, set<nat>)>)

  datatype Event =
    | Register(conn: ConnKey, user: nat)
    | Unregister(conn: ConnKey, user: nat)
    | Overflow(conn: ConnKey)
    | Join(conn: ConnKey, room: nat)
    | Leave(conn: ConnKey, room: nat)

  const EMPTY: HubV := HubV(map[], map[], map[], [])

  function Rooms(h: HubV, conn: ConnKey): set<nat> {
    if conn in h.rooms then h.rooms[conn] else {}
  }

  function Closes(h: HubV, conn: ConnKey): nat {
    if conn in h.closes then h.closes[conn] else 0
  }

  // closeOnce.Do(close)
  function CloseSend(h: HubV, conn: ConnKey): HubV {
    if Closes(h, conn) > 0 then h else h.(closes := h.closes[conn := 1])
  }

  function Step(h: HubV, ev: Event): HubV {
    match ev
    case Register(conn, user) => h.(current := h.current[user := conn])
    case Unregister(conn, user) =>
      if user in h.current && h.current[user] == conn
      then CloseSend(h.(current := h.current - {user}, announced := h.announced + [(conn, Rooms(h, conn))]), conn)
      else CloseSend(h, conn)
    case Overflow(conn) => CloseSend(h, conn)
    case Join(conn, room) => h.(rooms := h.rooms[conn := Rooms(h, conn) + {room}])
    case Leave(conn, room) => h.(rooms := h.rooms[conn := Rooms(h, conn) - {room}])
  }

  function Run(evs: seq<Event>): HubV {
    if evs == [] then EMPTY else Step(Run(evs[..|evs| - 1]), evs[|evs| - 1])
  }

  class Hub {
    var clients: map<nat, ConnKey>
    var rooms: map<ConnKey, set<nat>>
    var closes: map<ConnKey, nat>
    ghost var announced: seq<(ConnKey, set<nat>)>

    constructor ()
      ensures View() == EMPTY
    {
      clients, rooms, closes, announced := map[], map[], map[], [];
    }

    ghost function View(): HubV
      reads this
    {
      HubV(clients, rooms, closes, announced)
    }

    method RegisterClient(conn: ConnKey, user: nat)
      modifies this
      ensures View() == Step(old(View()), Register(conn, user))
    {
      clients := clients[user := conn];
    }

    method CloseOnce(conn: ConnKey)
      modifies this`closes
      ensures View() == CloseSend(old(View()), conn)
    {
      if conn !in closes || closes[conn] == 0 {
        closes := closes[conn := 1];
      }
    }

    // Returns the rooms in which the departure is announced.
    method UnregisterClient(conn: ConnKey, user: nat) returns (roomsToNotify: set<nat>)
      modifies this
      ensures View() == Step(old(View()), Unregister(conn, user))
      ensures roomsToNotify ==
        if user in old(clients) && old(clients)[user] == conn then Rooms(old(View()), conn) else {}
    {
      roomsToNotify := {};
      if user in clients && clients[user] == conn {
        if conn in rooms {
          roomsToNotify := rooms[conn];
        }
        clients := clients - {user};
        announced := announced + [(conn, roomsToNotify)];
      }
      CloseOnce(conn);
    }
  }

  // ---------------------------------------------------------------- latest connection wins

  // The position of the user's latest registration.
  function LastRegister(evs: seq<Event>, user: nat): (n: int)
    ensures -1 <= n < |evs|
    ensures n >= 0 ==> evs[n].Register? && evs[n].user == user
    ensures forall i :: n < i < |evs| ==> !(evs[i].Register? && evs[i].user == user)
  {
    if evs == [] then -1
    else if evs[|evs| - 1].Register? && evs[|evs| - 1].user == user then |evs| - 1
    else LastRegister(evs[..|evs| - 1], user)
  }

  // That registration is still in force.
  ghost predicate Online(evs: seq<Event>, user: nat) {
    var n := LastRegister(evs, user);
    n >= 0 && forall i :: n < i < |evs| ==> evs[i] != Unregister(evs[n].conn, user)
  }

  // Over any interleaving, the hub's entry for a user is the most recently registered
  // connection unless that very connection has been unregistered since.
  lemma {:induction false} LatestConnectionWins(evs: seq<Event>, user: nat)
    ensures user in Run(evs).current <==> Online(evs, user)
    ensures Online(evs, user) ==> Run(evs).current[user] == evs[LastRegister(evs, user)].conn
  {
    if evs != [] {
      var before, ev := evs[..|evs| - 1], evs[|evs| - 1];
      LatestConnectionWins(before, user);
      var n, m := LastRegister(evs, user), LastRegister(before, user);
      assert forall i :: 0 <= i < |before| ==> before[i] == evs[i];
      if !(ev.Register? && ev.user == user) {
        assert n == m;
        if m >= 0 && (user in Run(before).current) {
          assert user in Run(evs).current <==> ev != Unregister(evs[n].conn, user);
        }
      }
    }
  }

  // An unregister announces a departure exactly when it removes the user's current
  // connection; a stale one changes no entry and announces nothing.
  lemma StaleUnregisterIsSilent(evs: seq<Event>, conn: ConnKey, user: nat)
    ensures var h, h' := Run(evs), Run(evs + [Unregister(conn, user)]);
      if Online(evs, user) && evs[LastRegister(evs, user)].conn == conn
      then h'.current == h.current - {user} && h'.announced == h.announced + [(conn, Rooms(h, conn))]
      else h'.current == h.current && h'.announced == h.announced
  {
    assert (evs + [Unregister(conn, user)])[..|evs|] == evs;
    LatestConnectionWins(evs, user);
  }

  // scheduleWGPeerCleanup, once its delay is over: is the user's peer removed?
  predicate CleansUp(h: HubV, user: nat, room: nat) {
    !(user in h.current && room in Rooms(h, h.current[user]))
  }

  // A reconnect within the delay saves the peer exactly if the user's latest connection is in
  // force and has joined the room again.
  lemma CleanupSparesReconnected(evs: seq<Event>, user: nat, room: nat)
    ensures CleansUp(Run(evs), user, room) <==>
      !(Online(evs, user) && room in Rooms(Run(evs), evs[LastRegister(evs, user)].conn))
  {
    LatestConnectionWins(evs, user);
    hide Run, Online;
  }

  // Each Send channel closes at most once, and exactly if its connection was unregistered or
  // its buffer overflowed.
  lemma {:induction false} SendClosesOnce(evs: seq<Event>, conn: ConnKey)
    ensures Closes(Run(evs), conn) ==
      if exists i :: 0 <= i < |evs| && (evs[i] == Overflow(conn) || (evs[i].Unregister? && evs[i].conn == conn))
      then 1 else 0
  {
    if evs != [] {
      var before := evs[..|evs| - 1];
      SendClosesOnce(before, conn);
      assert evs == before + [evs[|evs| - 1]];
    }
  }

  // ---------------------------------------------------------------- deciding on a message

  // Lookups and the insert happen outside this model; their results are inputs.
  datatype Lookups = Lookups(isMember: bool, createOk: bool, senderFound: bool)

  datatype Verdict = Refuse(reason: Reason) | StoreAndBroadcast | StoreThenFail

  function MaxLength(kind: string): nat {
    if kind == "text" then 8000 else 4096
  }

  function NormalKind(raw: string): string {
    ToLower(TrimSpace(raw))
  }

  function Judge(inRoom: bool, l: Lookups, raw: string, content: string): Verdict {
    var kind := NormalKind(raw);
    if !inRoom then Refuse(NotInRoom)
    else if !l.isMember then Refuse(NotAMember)
    else if kind != "text" && kind != "image" && kind != "file" then Refuse(UnsupportedType)
    else if TrimSpace(content) == "" then Refuse(EmptyContent)
    else if ByteLength(content) > MaxLength(kind) then Refuse(ContentTooLarge)
    else if !l.createOk then Refuse(PersistenceFailed)
    else if !l.senderFound then StoreThenFail
    else StoreAndBroadcast
  }

  // The only error answer to a message that was stored.
  function ErrorOf(v: Verdict): Reason
    requires !v.StoreAndBroadcast?
  {
    match v
    case Refuse(reason) => reason
    case StoreThenFail => SenderLookupFailed
  }
}

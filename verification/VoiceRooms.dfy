// The voice engine's rooms: which peer receives whose track, and when each is renegotiated.

module VoiceRooms {
  import S = VoiceSignaling

  // `pid` identifies the peer object; `senders` maps a publisher to the track sent on.
  datatype PeerV = PeerV(pid: nat, senders: map<nat, nat>, muted: bool, speaking: bool, sig: S.Sig)

  // `tracks` maps a publisher to its forwarded track; every track is a new number.
  datatype RoomV = RoomV(peers: map<nat, PeerV>, tracks: map<nat, nat>)

  datatype EngineV = EngineV(rooms: map<nat, RoomV>, nextPid: nat, nextTrack: nat)

  const EMPTY: EngineV := EngineV(map[], 0, 0)

  // How the calls of one offer into the peer connection turn out.
  datatype OfferCalls = OfferCalls(createOk: bool, applyOk: bool, answerOk: bool)

  // `failing` holds the (room, user) pairs whose peer cannot create an offer. Closed is the
  // callback of the peer object `pid` when its connection has failed or closed.
  datatype Event =
    | Offer(room: nat, user: nat, empty: bool, calls: OfferCalls, failing: set<(nat, nat)>)
    | Answer(room: nat, user: nat, applyOk: bool)
    | TaskRuns(room: nat, user: nat, createOk: bool)
    | TrackArrives(room: nat, user: nat, pid: nat, failing: set<(nat, nat)>)
    | Leave(room: nat, user: nat, failing: set<(nat, nat)>)
    | Closed(room: nat, user: nat, pid: nat, failing: set<(nat, nat)>)
    | LeaveUser(user: nat, failing: set<(nat, nat)>)
    | Close
    | SetVoiceState(room: nat, user: nat, muted: bool, speaking: bool)
    | SetMuted(room: nat, user: nat, muted: bool)
    | SetSpeaking(room: nat, user: nat, speaking: bool)

  // ---------------------------------------------------------------- one room

  function Asked(p: PeerV, createOk: bool): PeerV {
    p.(sig := S.Renegotiate(p.sig, createOk))
  }

  function WithTrack(p: PeerV, publisher: nat, track: nat): PeerV {
    if p.sig.closed || publisher in p.senders then p else p.(senders := p.senders[publisher := track])
  }

  function WithoutTrack(p: PeerV, publisher: nat): PeerV {
    p.(senders := p.senders - {publisher})
  }

  // addTrackLocked for every track but the peer's own.
  function WithTracks(p: PeerV, self: nat, tracks: map<nat, nat>): PeerV {
    if p.sig.closed then p else p.(senders := (tracks - {self}) + p.senders)
  }

  function AfterLeave(p: PeerV, publisher: nat, createOk: bool): PeerV {
    Asked(WithoutTrack(p, publisher), createOk)
  }

  function RoomLeave(room: RoomV, r: nat, u: nat, failing: set<(nat, nat)>): RoomV {
    RoomV(map v | v in room.peers && v != u :: AfterLeave(room.peers[v], u, (r, v) !in failing), room.tracks - {u})
  }

  function AfterTrack(p: PeerV, publisher: nat, track: nat, createOk: bool): PeerV {
    Asked(WithTrack(p, publisher, track), createOk)
  }

  function RoomTrack(room: RoomV, r: nat, u: nat, track: nat, failing: set<(nat, nat)>): RoomV {
    RoomV(map v | v in room.peers ::
            if v == u then room.peers[v] else AfterTrack(room.peers[v], u, track, (r, v) !in failing),
          room.tracks[u := track])
  }

  // ---------------------------------------------------------------- the engine

  predicate Has(e: EngineV, r: nat, u: nat) {
    r in e.rooms && u in e.rooms[r].peers
  }

  function PeerOf(e: EngineV, r: nat, u: nat): PeerV
    requires Has(e, r, u)
  {
    e.rooms[r].peers[u]
  }

  function WithPeer(e: EngineV, r: nat, u: nat, p: PeerV): EngineV
    requires r in e.rooms
  {
    e.(rooms := e.rooms[r := e.rooms[r].(peers := e.rooms[r].peers[u := p])])
  }

  function DoLeave(e: EngineV, r: nat, u: nat, failing: set<(nat, nat)>): EngineV {
    if !Has(e, r, u) then e else
      var room := RoomLeave(e.rooms[r], r, u, failing);
      if room.peers == map[] then e.(rooms := e.rooms - {r}) else e.(rooms := e.rooms[r := room])
  }

  // The user leaves those of the rooms in `from` that have a peer of theirs.
  function DoLeaveRooms(e: EngineV, u: nat, failing: set<(nat, nat)>, from: set<nat>): EngineV {
    e.(rooms := map r | r in e.rooms && !(r in from && e.rooms[r].peers.Keys == {u}) ::
         if r in from && u in e.rooms[r].peers then RoomLeave(e.rooms[r], r, u, failing) else e.rooms[r])
  }

  function DoLeaveUser(e: EngineV, u: nat, failing: set<(nat, nat)>): EngineV {
    DoLeaveRooms(e, u, failing, e.rooms.Keys)
  }

  // ensurePeer for a user who has no peer in the room.
  function Insert(e: EngineV, r: nat, u: nat): EngineV {
    var room := if r in e.rooms then e.rooms[r] else RoomV(map[], map[]);
    e.(rooms := e.rooms[r := room.(peers := room.peers[u := PeerV(e.nextPid, map[], true, false, S.NEW)])],
       nextPid := e.nextPid + 1)
  }

  function DoOffer(e: EngineV, r: nat, u: nat, empty: bool, calls: OfferCalls, failing: set<(nat, nat)>): EngineV {
    if empty then e
    else if Has(e, r, u) then
      var p := PeerOf(e, r, u);
      WithPeer(e, r, u, p.(sig := S.HandleOffer(p.sig, calls.applyOk, calls.answerOk)))
    else if !calls.createOk then e
    else
      var e' := Insert(e, r, u);
      if !calls.applyOk then DoLeave(e', r, u, failing) else
        var p := WithTracks(PeerOf(e', r, u), u, e'.rooms[r].tracks);
        WithPeer(e', r, u, p.(sig := S.HandleOffer(p.sig, true, calls.answerOk)))
  }

  function DoTrack(e: EngineV, r: nat, u: nat, pid: nat, failing: set<(nat, nat)>): EngineV {
    if !Has(e, r, u) || PeerOf(e, r, u).pid != pid then e
    else e.(rooms := e.rooms[r := RoomTrack(e.rooms[r], r, u, e.nextTrack, failing)], nextTrack := e.nextTrack + 1)
  }

  function OnPeer(e: EngineV, r: nat, u: nat, p: PeerV -> PeerV): EngineV {
    if !Has(e, r, u) then e else WithPeer(e, r, u, p(PeerOf(e, r, u)))
  }

  function Step(e: EngineV, ev: Event): EngineV {
    match ev
    case Offer(r, u, empty, calls, failing) => DoOffer(e, r, u, empty, calls, failing)
    case Answer(r, u, ok) => OnPeer(e, r, u, (p: PeerV) => p.(sig := S.HandleAnswer(p.sig, ok)))
    case TaskRuns(r, u, ok) => OnPeer(e, r, u, (p: PeerV) => p.(sig := S.Step(p.sig, S.TaskRuns(ok))))
    case TrackArrives(r, u, pid, failing) => DoTrack(e, r, u, pid, failing)
    case Leave(r, u, failing) => DoLeave(e, r, u, failing)
    case Closed(r, u, _, failing) => DoLeave(e, r, u, failing)
    case LeaveUser(u, failing) => DoLeaveUser(e, u, failing)
    case Close => e.(rooms := map[])
    case SetVoiceState(r, u, muted, speaking) =>
      OnPeer(e, r, u, (p: PeerV) => p.(muted := muted, speaking := speaking && !muted))
    case SetMuted(r, u, muted) =>
      OnPeer(e, r, u, (p: PeerV) => p.(muted := muted, speaking := if muted then false else p.speaking))
    case SetSpeaking(r, u, speaking) =>
      OnPeer(e, r, u, (p: PeerV) => p.(speaking := speaking && !p.muted))
  }

  function Run(evs: seq<Event>): EngineV {
    if evs == [] then EMPTY else Step(Run(evs[..|evs| - 1]), evs[|evs| - 1])
  }

  // ---------------------------------------------------------------- the forwarding matrix

  predicate PeerOk(p: PeerV, u: nat, tracks: map<nat, nat>, nextPid: nat) {
    && p.senders.Keys == tracks.Keys - {u}
    && !p.sig.closed
    && !(p.muted && p.speaking)
    && p.pid < nextPid
  }

  predicate RoomOk(room: RoomV, nextPid: nat) {
    && room.peers != map[]
    && room.tracks.Keys <= room.peers.Keys
    && forall u | u in room.peers :: PeerOk(room.peers[u], u, room.tracks, nextPid)
  }

  predicate EngineOk(e: EngineV) {
    forall r | r in e.rooms :: RoomOk(e.rooms[r], e.nextPid)
  }

  lemma PeerEventKeeps(p: PeerV, v: nat, u: nat, track: nat, ok: bool, tracks: map<nat, nat>, nextPid: nat)
    requires PeerOk(p, v, tracks, nextPid)
    ensures v == u ==> PeerOk(p, v, tracks[u := track], nextPid)
    ensures v != u ==> PeerOk(AfterTrack(p, u, track, ok), v, tracks[u := track], nextPid)
    ensures v != u ==> PeerOk(AfterLeave(p, u, ok), v, tracks - {u}, nextPid)
  {
  }

  lemma RoomLeaveKeeps(room: RoomV, r: nat, u: nat, failing: set<(nat, nat)>, nextPid: nat)
    requires RoomOk(room, nextPid) && u in room.peers
    ensures var room' := RoomLeave(room, r, u, failing);
      room'.peers.Keys == room.peers.Keys - {u} && (room'.peers != map[] ==> RoomOk(room', nextPid))
  {
    hide PeerOk, AfterLeave;
    var room' := RoomLeave(room, r, u, failing);
    forall v | v in room'.peers ensures PeerOk(room'.peers[v], v, room'.tracks, nextPid) {
      PeerEventKeeps(room.peers[v], v, u, 0, (r, v) !in failing, room.tracks, nextPid);
    }
  }

  lemma RoomTrackKeeps(room: RoomV, r: nat, u: nat, track: nat, failing: set<(nat, nat)>, nextPid: nat)
    requires RoomOk(room, nextPid) && u in room.peers
    ensures RoomOk(RoomTrack(room, r, u, track, failing), nextPid)
  {
    hide PeerOk, AfterTrack;
    var room' := RoomTrack(room, r, u, track, failing);
    assert u in room'.peers;
    forall v | v in room'.peers ensures PeerOk(room'.peers[v], v, room'.tracks, nextPid) {
      PeerEventKeeps(room.peers[v], v, u, track, (r, v) !in failing, room.tracks, nextPid);
    }
  }

  lemma LeaveKeeps(e: EngineV, r: nat, u: nat, failing: set<(nat, nat)>)
    requires EngineOk(e)
    ensures EngineOk(DoLeave(e, r, u, failing)) && !Has(DoLeave(e, r, u, failing), r, u)
  {
    if Has(e, r, u) {
      RoomLeaveKeeps(e.rooms[r], r, u, failing, e.nextPid);
      hide RoomOk;
    }
  }

  lemma WithPeerKeeps(e: EngineV, r: nat, u: nat, p: PeerV)
    requires EngineOk(e) && r in e.rooms && PeerOk(p, u, e.rooms[r].tracks, e.nextPid)
    ensures EngineOk(WithPeer(e, r, u, p))
  {
    hide PeerOk;
    assert RoomOk(e.rooms[r], e.nextPid);
    assert u in WithPeer(e, r, u, p).rooms[r].peers;
  }

  lemma OfferKeeps(e: EngineV, r: nat, u: nat, empty: bool, calls: OfferCalls, failing: set<(nat, nat)>)
    requires EngineOk(e)
    ensures EngineOk(DoOffer(e, r, u, empty, calls, failing))
  {
    if !empty && Has(e, r, u) {
      var p := PeerOf(e, r, u);
      assert PeerOk(p, u, e.rooms[r].tracks, e.nextPid) by { assert RoomOk(e.rooms[r], e.nextPid); }
      WithPeerKeeps(e, r, u, p.(sig := S.HandleOffer(p.sig, calls.applyOk, calls.answerOk)));
    } else if !empty && calls.createOk {
      NewPeerKeeps(e, r, u, calls, failing);
    }
  }

  lemma LaterPidKeeps(room: RoomV, nextPid: nat)
    requires RoomOk(room, nextPid)
    ensures RoomOk(room, nextPid + 1)
  {
  }

  lemma InsertKeeps(e: EngineV, r: nat, u: nat)
    requires EngineOk(e) && !Has(e, r, u)
    ensures var e' := Insert(e, r, u);
      var room := e'.rooms[r];
      && (forall x | x in e'.rooms && x != r :: RoomOk(e'.rooms[x], e'.nextPid))
      && room.tracks.Keys <= room.peers.Keys - {u}
      && (forall v | v in room.peers && v != u :: PeerOk(room.peers[v], v, room.tracks, e'.nextPid))
  {
    forall x | x in e.rooms ensures RoomOk(e.rooms[x], e.nextPid + 1) {
      LaterPidKeeps(e.rooms[x], e.nextPid);
    }
    assert r in e.rooms ==> RoomOk(e.rooms[r], e.nextPid);
  }

  lemma NewPeerKeeps(e: EngineV, r: nat, u: nat, calls: OfferCalls, failing: set<(nat, nat)>)
    requires EngineOk(e) && !Has(e, r, u) && calls.createOk
    ensures EngineOk(DoOffer(e, r, u, false, calls, failing))
  {
    var e' := Insert(e, r, u);
    var room := e'.rooms[r];
    InsertKeeps(e, r, u);
    if calls.applyOk {
      var p := WithTracks(PeerOf(e', r, u), u, room.tracks);
      var p' := p.(sig := S.HandleOffer(p.sig, true, calls.answerOk));
      assert PeerOk(p', u, room.tracks, e'.nextPid);
      hide PeerOk, Insert;
      assert u in room.peers[u := p'];
      assert RoomOk(WithPeer(e', r, u, p').rooms[r], e'.nextPid);
    } else {
      hide PeerOk, Insert;
      var room' := RoomLeave(room, r, u, failing);
      forall v | v in room'.peers ensures PeerOk(room'.peers[v], v, room'.tracks, e'.nextPid) {
        PeerEventKeeps(room.peers[v], v, u, 0, (r, v) !in failing, room.tracks, e'.nextPid);
      }
    }
  }

  // The events that change flags or the signalling state of one peer.
  predicate TouchesOnePeer(ev: Event) {
    ev.Answer? || ev.TaskRuns? || ev.SetVoiceState? || ev.SetMuted? || ev.SetSpeaking?
  }

  lemma OnePeerKeeps(e: EngineV, ev: Event)
    requires EngineOk(e) && TouchesOnePeer(ev)
    ensures EngineOk(Step(e, ev))
  {
    if Has(e, ev.room, ev.user) {
      var p := PeerOf(e, ev.room, ev.user);
      var p' := PeerOf(Step(e, ev), ev.room, ev.user);
      assert Step(e, ev) == WithPeer(e, ev.room, ev.user, p');
      assert PeerOk(p', ev.user, e.rooms[ev.room].tracks, e.nextPid) by {
        assert RoomOk(e.rooms[ev.room], e.nextPid);
        assert PeerOk(p, ev.user, e.rooms[ev.room].tracks, e.nextPid);
      }
      hide PeerOk, Step, EngineOk;
      WithPeerKeeps(e, ev.room, ev.user, p');
    }
  }

  lemma StepKeeps(e: EngineV, ev: Event)
    requires EngineOk(e)
    ensures EngineOk(Step(e, ev))
  {
    hide RoomOk, DoOffer, DoLeave, DoLeaveUser;
    match ev {
      case Offer(r, u, empty, calls, failing) => OfferKeeps(e, r, u, empty, calls, failing);
      case TrackArrives(r, u, pid, failing) =>
        if Has(e, r, u) {
          RoomTrackKeeps(e.rooms[r], r, u, e.nextTrack, failing, e.nextPid);
        }
      case Leave(r, u, failing) => LeaveKeeps(e, r, u, failing);
      case Closed(r, u, _, failing) => LeaveKeeps(e, r, u, failing);
      case LeaveUser(u, failing) => LeaveUserKeeps(e, u, failing);
      case Close =>
      case _ => OnePeerKeeps(e, ev);
    }
  }

  lemma LeaveUserKeeps(e: EngineV, u: nat, failing: set<(nat, nat)>)
    requires EngineOk(e)
    ensures EngineOk(DoLeaveUser(e, u, failing))
  {
    var e' := DoLeaveUser(e, u, failing);
    forall r | r in e'.rooms ensures RoomOk(e'.rooms[r], e.nextPid) {
      if u in e.rooms[r].peers {
        RoomLeaveKeeps(e.rooms[r], r, u, failing, e.nextPid);
        assert exists v :: v in e.rooms[r].peers.Keys && v != u;
      }
    }
  }

  lemma {:induction false} RunsAreOk(evs: seq<Event>)
    ensures EngineOk(Run(evs))
  {
    if evs != [] {
      RunsAreOk(evs[..|evs| - 1]);
      StepKeeps(Run(evs[..|evs| - 1]), evs[|evs| - 1]);
    }
  }

  // ---------------------------------------------------------------- who publishes

  // The step registers a track of the user's current peer.
  predicate Publishes(e: EngineV, ev: Event, r: nat, u: nat) {
    ev.TrackArrives? && ev.room == r && ev.user == u && Has(e, r, u) && ev.pid == PeerOf(e, r, u).pid
  }

  // What a step did to member v of room r: a peer that stays keeps its identity, its senders
  // change only together with a request to renegotiate, and a new peer starts without a track.
  predicate Moved(e: EngineV, e': EngineV, r: nat, v: nat, signal: S.Event, published: bool) {
    Has(e', r, v) ==>
      var p' := PeerOf(e', r, v);
      if Has(e, r, v) then
        var p := PeerOf(e, r, v);
        && p'.pid == p.pid
        && (v in e'.rooms[r].tracks <==> published || v in e.rooms[r].tracks)
        && ((p'.sig == p.sig && p'.senders == p.senders) ||
            (p'.sig == S.Step(p.sig, signal) && (p'.senders != p.senders ==> signal.Request?)))
      else p'.pid == e.nextPid && v !in e'.rooms[r].tracks && p'.sig == S.Step(S.NEW, signal)
  }

  // The signalling event that an engine event means to member v of room r, if any.
  function SignalOf(ev: Event, r: nat, v: nat): S.Event {
    match ev
    case Offer(_, u, _, calls, failing) =>
      if u == v then S.RemoteOffer(calls.applyOk, calls.answerOk) else S.Request((r, v) !in failing)
    case Answer(_, _, ok) => S.Answer(ok)
    case TaskRuns(_, _, ok) => S.TaskRuns(ok)
    case TrackArrives(_, _, _, failing) => S.Request((r, v) !in failing)
    case Leave(_, _, failing) => S.Request((r, v) !in failing)
    case Closed(_, _, _, failing) => S.Request((r, v) !in failing)
    case LeaveUser(_, failing) => S.Request((r, v) !in failing)
    case _ => S.Answer(false)
  }

  lemma RoomLeaveMoves(room: RoomV, r: nat, u: nat, v: nat, failing: set<(nat, nat)>)
    requires v in room.peers && v != u
    ensures var room', p := RoomLeave(room, r, u, failing), room.peers[v];
      && v in room'.peers && (v in room'.tracks <==> v in room.tracks)
      && room'.peers[v] == p.(senders := p.senders - {u}, sig := S.Step(p.sig, S.Request((r, v) !in failing)))
  {
  }

  lemma LeaveMoves(e: EngineV, r0: nat, u: nat, failing: set<(nat, nat)>, r: nat, v: nat)
    ensures Moved(e, DoLeave(e, r0, u, failing), r, v, S.Request((r, v) !in failing), false)
  {
    hide RoomLeave, S.Step;
    if Has(e, r0, u) && Has(e, r, v) && v != u {
      RoomLeaveMoves(e.rooms[r], r, u, v, failing);
    }
    if Has(e, r0, u) && r == r0 && v == u {
      assert !Has(DoLeave(e, r0, u, failing), r, v) by { LeftIsGone(e.rooms[r], r, u, failing); }
    }
    if Has(e, r0, u) && r == r0 && !Has(e, r, v) {
      LeftIsGone(e.rooms[r], r, u, failing);
    }
  }

  lemma LeftIsGone(room: RoomV, r: nat, u: nat, failing: set<(nat, nat)>)
    ensures RoomLeave(room, r, u, failing).peers.Keys == room.peers.Keys - {u}
  {
  }

  lemma LeaveUserMoves(e: EngineV, u: nat, failing: set<(nat, nat)>, r: nat, v: nat)
    ensures Moved(e, DoLeaveUser(e, u, failing), r, v, S.Request((r, v) !in failing), false)
  {
    hide RoomLeave, S.Step;
    if r in e.rooms {
      LeftIsGone(e.rooms[r], r, u, failing);
      if v in e.rooms[r].peers && v != u {
        RoomLeaveMoves(e.rooms[r], r, u, v, failing);
      }
    }
  }

  lemma TrackMoves(e: EngineV, r0: nat, u: nat, pid: nat, failing: set<(nat, nat)>, r: nat, v: nat)
    ensures Moved(e, DoTrack(e, r0, u, pid, failing), r, v, S.Request((r, v) !in failing),
                  r == r0 && v == u && Has(e, r, u) && pid == PeerOf(e, r, u).pid)
  {
    hide S.Renegotiate;
  }

  lemma KnownOfferMoves(e: EngineV, r0: nat, u: nat, calls: OfferCalls, r: nat, v: nat, signal: S.Event)
    requires Has(e, r0, u) && (u == v ==> signal == S.RemoteOffer(calls.applyOk, calls.answerOk))
    ensures var p := PeerOf(e, r0, u);
      Moved(e, WithPeer(e, r0, u, p.(sig := S.HandleOffer(p.sig, calls.applyOk, calls.answerOk))), r, v, signal, false)
  {
    hide S.HandleOffer, S.Renegotiate;
  }

  // The failed first offer of a new peer.
  lemma RefusedOfferMoves(e: EngineV, r0: nat, u: nat, failing: set<(nat, nat)>, r: nat, v: nat, signal: S.Event)
    requires !Has(e, r0, u) && (u != v ==> signal == S.Request((r, v) !in failing))
    ensures Moved(e, DoLeave(Insert(e, r0, u), r0, u, failing), r, v, signal, false)
  {
    var e1 := Insert(e, r0, u);
    LeaveMoves(e1, r0, u, failing, r, v);
    LeaveKeepsOut(e1, r0, u, failing);
    if r != r0 && v == u {
      assert Has(DoLeave(e1, r0, u, failing), r, v) ==>
        DoLeave(e1, r0, u, failing).rooms[r] == e.rooms[r] by { hide RoomLeave; }
    }
    hide DoLeave, S.Step;
  }

  lemma NewOfferMoves(e: EngineV, r0: nat, u: nat, answerOk: bool, r: nat, v: nat, signal: S.Event)
    requires !Has(e, r0, u) && (r0 in e.rooms ==> u !in e.rooms[r0].tracks)
    requires u == v ==> signal == S.RemoteOffer(true, answerOk)
    ensures var e1 := Insert(e, r0, u);
      var p := WithTracks(PeerOf(e1, r0, u), u, e1.rooms[r0].tracks);
      Moved(e, WithPeer(e1, r0, u, p.(sig := S.HandleOffer(p.sig, true, answerOk))), r, v, signal, false)
  {
    hide S.HandleOffer, S.Renegotiate;
  }

  lemma OfferMoves(e: EngineV, r0: nat, u: nat, empty: bool, calls: OfferCalls,
                   failing: set<(nat, nat)>, r: nat, v: nat)
    requires EngineOk(e)
    ensures var signal := SignalOf(Offer(r0, u, empty, calls, failing), r, v);
      Moved(e, DoOffer(e, r0, u, empty, calls, failing), r, v, signal, false)
  {
    assert r0 in e.rooms && !Has(e, r0, u) ==> u !in e.rooms[r0].tracks
      by { assert r0 in e.rooms ==> RoomOk(e.rooms[r0], e.nextPid); }
    hide Moved, S.HandleOffer, S.Renegotiate, DoLeave, WithPeer, WithTracks, Insert, EngineOk;
    var signal := SignalOf(Offer(r0, u, empty, calls, failing), r, v);
    if !empty && Has(e, r0, u) {
      KnownOfferMoves(e, r0, u, calls, r, v, signal);
    } else if !empty && calls.createOk && calls.applyOk {
      NewOfferMoves(e, r0, u, calls.answerOk, r, v, signal);
    } else if !empty && calls.createOk {
      RefusedOfferMoves(e, r0, u, failing, r, v, signal);
    } else {
      StaysPut(e, r, v, signal);
    }
  }

  lemma StaysPut(e: EngineV, r: nat, v: nat, signal: S.Event)
    ensures Moved(e, e, r, v, signal, false)
  {
  }

  lemma LeaveKeepsOut(e: EngineV, r: nat, u: nat, failing: set<(nat, nat)>)
    ensures !Has(DoLeave(e, r, u, failing), r, u)
    ensures forall x, v :: Has(DoLeave(e, r, u, failing), x, v) ==> Has(e, x, v)
  {
    if Has(e, r, u) {
      LeftIsGone(e.rooms[r], r, u, failing);
      hide RoomLeave;
    }
  }

  lemma OnePeerMoves(e: EngineV, ev: Event, r: nat, v: nat)
    requires TouchesOnePeer(ev)
    ensures Moved(e, Step(e, ev), r, v, SignalOf(ev, r, v), false)
  {
    hide S.Renegotiate;
  }

  lemma StepMoves(e: EngineV, ev: Event, r: nat, v: nat)
    requires EngineOk(e)
    ensures Moved(e, Step(e, ev), r, v, SignalOf(ev, r, v), Publishes(e, ev, r, v))
  {
    hide Moved, S.Step, DoOffer, DoTrack, DoLeave, DoLeaveUser;
    match ev {
      case Offer(r0, u, empty, calls, failing) => OfferMoves(e, r0, u, empty, calls, failing, r, v);
      case TrackArrives(r0, u, pid, failing) => TrackMoves(e, r0, u, pid, failing, r, v);
      case Leave(r0, u, failing) => LeaveMoves(e, r0, u, failing, r, v);
      case Closed(r0, u, _, failing) => LeaveMoves(e, r0, u, failing, r, v);
      case LeaveUser(u, failing) => LeaveUserMoves(e, u, failing, r, v);
      case Close => CloseMoves(e, r, v);
      case _ => OnePeerMoves(e, ev, r, v);
    }
  }

  lemma CloseMoves(e: EngineV, r: nat, v: nat)
    ensures Moved(e, e.(rooms := map[]), r, v, S.Answer(false), false)
  {
  }

  lemma NextPidStep(e: EngineV, ev: Event)
    ensures e.nextPid <= Step(e, ev).nextPid
  {
    hide RoomLeave, RoomTrack, WithTracks, S.HandleOffer;
  }

  lemma {:induction false} NextPidGrows(evs: seq<Event>, i: nat)
    requires i <= |evs|
    ensures Run(evs[..i]).nextPid <= Run(evs).nextPid
  {
    if i == |evs| {
      assert evs[..i] == evs;
    } else {
      var before := evs[..|evs| - 1];
      NextPidGrows(before, i);
      assert before[..i] == evs[..i];
      NextPidStep(Run(before), evs[|evs| - 1]);
    }
  }

  lemma TracksStep(e: EngineV, ev: Event, r: nat, u: nat)
    requires EngineOk(e)
    ensures var e' := Step(e, ev);
      Has(e', r, u) ==>
        && (u in e'.rooms[r].tracks <==> Publishes(e, ev, r, u) || (Has(e, r, u) && u in e.rooms[r].tracks))
        && PeerOf(e', r, u).pid == (if Has(e, r, u) then PeerOf(e, r, u).pid else e.nextPid)
  {
    StepMoves(e, ev, r, u);
    hide EngineOk, Step, S.Step;
  }

  // A track of the user's present peer was registered in the course of the run.
  ghost predicate HasPublished(evs: seq<Event>, r: nat, u: nat) {
    Has(Run(evs), r, u) &&
    exists i :: 0 <= i < |evs| && PublishedAt(evs, i, r, u)
  }

  ghost predicate PublishedAt(evs: seq<Event>, i: int, r: nat, u: nat)
    requires 0 <= i < |evs| && Has(Run(evs), r, u)
  {
    Publishes(Run(evs[..i]), evs[i], r, u) && evs[i].pid == PeerOf(Run(evs), r, u).pid
  }

  // A registration at an earlier moment counts exactly if it counted before the last event and
  // its peer is still there.
  lemma PublishedEarlier(evs: seq<Event>, i: nat, r: nat, u: nat)
    requires i + 1 < |evs| && Has(Run(evs), r, u)
    ensures PublishedAt(evs, i, r, u) <==>
      var before := evs[..|evs| - 1]; Has(Run(before), r, u) && PublishedAt(before, i, r, u)
  {
    var before, ev := evs[..|evs| - 1], evs[|evs| - 1];
    RunsAreOk(before);
    TracksStep(Run(before), ev, r, u);
    assert Run(evs) == Step(Run(before), ev);
    assert before[..i] == evs[..i] && before[i] == evs[i];
    NextPidGrows(before, i);
    RunsAreOk(evs[..i]);
    PidsBelow(Run(evs[..i]), r, u);
    hide EngineOk, Run, Step;
  }

  // The last event.
  lemma PublishedNow(evs: seq<Event>, r: nat, u: nat)
    requires evs != [] && Has(Run(evs), r, u)
    ensures var n := |evs| - 1;
      var e, e' := Run(evs[..n]), Run(evs);
      && (PublishedAt(evs, n, r, u) <==> Publishes(e, evs[n], r, u))
      && (u in e'.rooms[r].tracks <==> PublishedAt(evs, n, r, u) || (Has(e, r, u) && u in e.rooms[r].tracks))
  {
    var n := |evs| - 1;
    RunsAreOk(evs[..n]);
    TracksStep(Run(evs[..n]), evs[n], r, u);
    assert Run(evs) == Step(Run(evs[..n]), evs[n]);
    hide EngineOk, Step, Run;
  }

  lemma HasPublishedBefore(evs: seq<Event>, before: seq<Event>, r: nat, u: nat)
    requires evs != [] && before == evs[..|evs| - 1] && HasPublished(evs, r, u)
    ensures Has(Run(evs), r, u)
    ensures PublishedAt(evs, |evs| - 1, r, u) || (Has(Run(before), r, u) && HasPublished(before, r, u))
  {
    hide PublishedAt, Run, Has;
    var i :| 0 <= i < |evs| && PublishedAt(evs, i, r, u);
    hide *;
    if i < |evs| - 1 {
      PublishedEarlier(evs, i, r, u);
      SomePublished(before, i, r, u);
    }
  }

  lemma HasPublishedAfter(evs: seq<Event>, before: seq<Event>, r: nat, u: nat)
    requires evs != [] && before == evs[..|evs| - 1] && Has(Run(evs), r, u)
    requires Has(Run(before), r, u) && HasPublished(before, r, u)
    ensures HasPublished(evs, r, u)
  {
    hide PublishedAt, Run, Has;
    var i :| 0 <= i < |before| && PublishedAt(before, i, r, u);
    hide *;
    PublishedEarlier(evs, i, r, u);
    SomePublished(evs, i, r, u);
  }

  lemma HasPublishedStep(evs: seq<Event>, r: nat, u: nat)
    requires evs != [] && Has(Run(evs), r, u)
    ensures var n := |evs| - 1;
      HasPublished(evs, r, u) <==>
        PublishedAt(evs, n, r, u) || (Has(Run(evs[..n]), r, u) && HasPublished(evs[..n], r, u))
  {
    var n := |evs| - 1;
    var before := evs[..n];
    hide *;
    if PublishedAt(evs, n, r, u) {
      SomePublished(evs, n, r, u);
    } else if HasPublished(evs, r, u) {
      HasPublishedBefore(evs, before, r, u);
    } else if Has(Run(before), r, u) && HasPublished(before, r, u) {
      HasPublishedAfter(evs, before, r, u);
    }
  }

  lemma SomePublished(evs: seq<Event>, i: nat, r: nat, u: nat)
    requires i < |evs| && Has(Run(evs), r, u) && PublishedAt(evs, i, r, u)
    ensures HasPublished(evs, r, u)
  {
    hide PublishedAt, Run, Has;
  }

  lemma {:induction false} TracksArePublished(evs: seq<Event>, r: nat, u: nat)
    requires Has(Run(evs), r, u)
    ensures u in Run(evs).rooms[r].tracks <==> HasPublished(evs, r, u)
  {
    if evs != [] {
      PublishedNow(evs, r, u);
      HasPublishedStep(evs, r, u);
      hide PublishedAt, Publishes, HasPublished, Run;
      if Has(Run(evs[..|evs| - 1]), r, u) {
        TracksArePublished(evs[..|evs| - 1], r, u);
      }
    }
  }

  lemma PidsBelow(e: EngineV, r: nat, u: nat)
    requires EngineOk(e)
    ensures Has(e, r, u) ==> PeerOf(e, r, u).pid < e.nextPid
  {
    assert r in e.rooms ==> RoomOk(e.rooms[r], e.nextPid);
  }

  // The forwarding matrix: in every run of whole operations, a member has a sender for exactly
  // the other members whose present peer has published a track.
  lemma ForwardingMatrix(evs: seq<Event>, r: nat, u: nat, v: nat)
    requires Has(Run(evs), r, u)
    ensures v in PeerOf(Run(evs), r, u).senders <==> v != u && HasPublished(evs, r, v)
  {
    RunsAreOk(evs);
    var room := Run(evs).rooms[r];
    assert RoomOk(room, Run(evs).nextPid);
    assert PeerOk(room.peers[u], u, room.tracks, Run(evs).nextPid);
    if v in room.peers {
      TracksArePublished(evs, r, v);
    }
  }

  // Rooms in the map are never empty, their tracks are those of present members, and a present
  // member is neither closed nor both muted and speaking.
  lemma RoomsAreTidy(evs: seq<Event>, r: nat)
    requires r in Run(evs).rooms
    ensures var room := Run(evs).rooms[r];
      && room.peers != map[]
      && room.tracks.Keys <= room.peers.Keys
      && forall u | u in room.peers :: !room.peers[u].sig.closed && !(room.peers[u].muted && room.peers[u].speaking)
  {
    RunsAreOk(evs);
    var room := Run(evs).rooms[r];
    assert RoomOk(room, Run(evs).nextPid);
    assert forall u | u in room.peers :: PeerOk(room.peers[u], u, room.tracks, Run(evs).nextPid);
  }

  // ---------------------------------------------------------------- renegotiation of every member

  predicate Faultless(ev: Event) {
    match ev
    case Offer(_, _, _, calls, failing) => calls.answerOk && failing == {}
    case TaskRuns(_, _, ok) => ok
    case TrackArrives(_, _, _, failing) => failing == {}
    case Leave(_, _, failing) => failing == {}
    case Closed(_, _, _, failing) => failing == {}
    case LeaveUser(_, failing) => failing == {}
    case _ => true
  }

  // In every run each member has at most one server offer outstanding; and as long as offers
  // and answers can be created, no member is left waiting for a renegotiation that will not come.
  lemma {:induction false} NoMemberForgotten(evs: seq<Event>, r: nat, v: nat)
    requires Has(Run(evs), r, v)
    ensures S.Balanced(PeerOf(Run(evs), r, v).sig)
    ensures (forall ev | ev in evs :: Faultless(ev)) ==> !S.Lost(PeerOf(Run(evs), r, v).sig)
    ensures (forall ev | ev in evs :: Faultless(ev)) ==> S.Calm(PeerOf(Run(evs), r, v).sig)
  {
    if evs != [] {
      var before, ev := evs[..|evs| - 1], evs[|evs| - 1];
      RunsAreOk(before);
      StepMoves(Run(before), ev, r, v);
      hide EngineOk, Step, S.Step;
      assert ev in evs;
      if Has(Run(before), r, v) {
        NoMemberForgotten(before, r, v);
        S.StepKeepsBalance(PeerOf(Run(before), r, v).sig, SignalOf(ev, r, v));
      }
      S.StepKeepsBalance(S.NEW, SignalOf(ev, r, v));
      assert Faultless(ev) ==> S.Faultless(SignalOf(ev, r, v));
    }
  }

  // A member's senders never change without the member being asked to renegotiate in the same step.
  lemma SenderChangesAreAnnounced(evs: seq<Event>, ev: Event, r: nat, v: nat)
    requires var e, e' := Run(evs), Step(Run(evs), ev);
      Has(e, r, v) && Has(e', r, v) && PeerOf(e, r, v).senders != PeerOf(e', r, v).senders
    ensures var p, p' := PeerOf(Run(evs), r, v), PeerOf(Step(Run(evs), ev), r, v);
      p'.sig == S.Renegotiate(p.sig, true) || p'.sig == S.Renegotiate(p.sig, false)
  {
    RunsAreOk(evs);
    StepMoves(Run(evs), ev, r, v);
    hide EngineOk, Step, S.Renegotiate, SignalOf;
    assert SignalOf(ev, r, v).Request?;
  }

  // ---------------------------------------------------------------- late close callbacks

  // Leave does something exactly if the user has a peer in the room.
  lemma LeaveChangesIff(e: EngineV, r: nat, u: nat, failing: set<(nat, nat)>)
    requires EngineOk(e)
    ensures DoLeave(e, r, u, failing) == e <==> !Has(e, r, u)
  {
    LeaveKeeps(e, r, u, failing);
  }

  // Some peer object other than `pid` is gone.
  ghost predicate RemovesOther(e: EngineV, e': EngineV, pid: nat) {
    exists r, u :: Has(e, r, u) && PeerOf(e, r, u).pid != pid && !Has(e', r, u)
  }

  lemma LeaveRemovesOnly(e: EngineV, r: nat, u: nat, failing: set<(nat, nat)>, x: nat, v: nat)
    ensures Has(DoLeave(e, r, u, failing), x, v) <==> Has(e, x, v) && !(x == r && v == u)
  {
    if Has(e, r, u) {
      LeftIsGone(e.rooms[r], r, u, failing);
      hide RoomLeave;
      var room := RoomLeave(e.rooms[r], r, u, failing);
      assert v in room.peers <==> v in e.rooms[r].peers && v != u by {
        assert v in room.peers <==> v in room.peers.Keys;
      }
      if room.peers == map[] {
        assert DoLeave(e, r, u, failing).rooms == e.rooms - {r};
      } else {
        assert DoLeave(e, r, u, failing).rooms == e.rooms[r := room];
      }
    }
  }

  // The callback of a peer object acts on its room and user, not on itself. In every run it
  // removes a different peer if and only if the user has another peer in the room by then.
  lemma LateCloseRemovesNewPeer(evs: seq<Event>, r: nat, u: nat, pid: nat, failing: set<(nat, nat)>)
    ensures RemovesOther(Run(evs), Step(Run(evs), Closed(r, u, pid, failing)), pid)
      <==> Has(Run(evs), r, u) && PeerOf(Run(evs), r, u).pid != pid
  {
    var e := Run(evs);
    hide Run, DoLeave;
    forall x, v ensures Has(DoLeave(e, r, u, failing), x, v) <==> Has(e, x, v) && !(x == r && v == u) {
      LeaveRemovesOnly(e, r, u, failing, x, v);
    }
    if Has(e, r, u) && PeerOf(e, r, u).pid != pid {
      assert !Has(DoLeave(e, r, u, failing), r, u);
    }
  }

  lemma NewPeersByOffer(e: EngineV, ev: Event, r: nat, u: nat)
    ensures Has(Step(e, ev), r, u) && !Has(e, r, u) ==> ev.Offer? && ev.room == r && ev.user == u
  {
    hide RoomLeave, DoLeave, WithTracks, S.HandleOffer, S.HandleAnswer, S.Step;
    match ev {
      case Offer(r0, u0, _, _, failing) => LeaveRemovesOnly(Insert(e, r0, u0), r0, u0, failing, r, u);
      case Leave(r0, u0, failing) => LeaveRemovesOnly(e, r0, u0, failing, r, u);
      case Closed(r0, u0, _, failing) => LeaveRemovesOnly(e, r0, u0, failing, r, u);
      case LeaveUser(u0, failing) => if r in e.rooms { LeftIsGone(e.rooms[r], r, u0, failing); }
      case _ =>
    }
  }

  // A pid stands for one peer object: no two present peers share it.
  lemma {:induction false} PidsAreUnique(evs: seq<Event>, r: nat, u: nat, x: nat, v: nat)
    requires Has(Run(evs), r, u) && Has(Run(evs), x, v) && PeerOf(Run(evs), r, u).pid == PeerOf(Run(evs), x, v).pid
    ensures r == x && u == v
  {
    if evs != [] {
      var before, ev := evs[..|evs| - 1], evs[|evs| - 1];
      var e := Run(before);
      RunsAreOk(before);
      TracksStep(e, ev, r, u);
      TracksStep(e, ev, x, v);
      PidsBelow(e, r, u);
      PidsBelow(e, x, v);
      NewPeersByOffer(e, ev, r, u);
      NewPeersByOffer(e, ev, x, v);
      assert Run(evs) == Step(e, ev);
      hide EngineOk, Step, Run, Publishes;
      if Has(e, r, u) && Has(e, x, v) {
        PidsAreUnique(before, r, u, x, v);
      }
    }
  }

  lemma OfferInserts(e: EngineV, r: nat, u: nat, failing: set<(nat, nat)>)
    requires !Has(e, r, u)
    ensures var e' := DoOffer(e, r, u, false, OfferCalls(true, true, true), failing);
      Has(e', r, u) && PeerOf(e', r, u).pid == e.nextPid
  {
    hide S.HandleOffer;
  }

  lemma LateCloseSteps(e: EngineV, r: nat, u: nat, failing: set<(nat, nat)>)
    requires Has(e, r, u) && PeerOf(e, r, u).pid < e.nextPid
    ensures var offer := Offer(r, u, false, OfferCalls(true, true, true), failing);
      var back := Step(Step(e, Leave(r, u, failing)), offer);
      && Has(back, r, u) && PeerOf(back, r, u).pid != PeerOf(e, r, u).pid
      && !Has(Step(back, Closed(r, u, PeerOf(e, r, u).pid, failing)), r, u)
  {
    var left := DoLeave(e, r, u, failing);
    var back := DoOffer(left, r, u, false, OfferCalls(true, true, true), failing);
    assert left.nextPid == e.nextPid;
    hide DoLeave, DoOffer;
    LeaveRemovesOnly(e, r, u, failing, r, u);
    OfferInserts(left, r, u, failing);
    LeaveRemovesOnly(back, r, u, failing, r, u);
  }

  // It can happen after any run: the user leaves and comes back before the old peer's callback.
  lemma LateCloseRun(evs: seq<Event>, r: nat, u: nat, failing: set<(nat, nat)>)
    requires Has(Run(evs), r, u)
    ensures var gone := PeerOf(Run(evs), r, u).pid;
      var back := evs + [Leave(r, u, failing)] + [Offer(r, u, false, OfferCalls(true, true, true), failing)];
      && Has(Run(back), r, u) && PeerOf(Run(back), r, u).pid != gone
      && !Has(Run(back + [Closed(r, u, gone, failing)]), r, u)
  {
    var e := Run(evs);
    var offer := Offer(r, u, false, OfferCalls(true, true, true), failing);
    RunsAreOk(evs);
    PidsBelow(e, r, u);
    LateCloseSteps(e, r, u, failing);
    hide *;
    RunSnoc(evs, Leave(r, u, failing));
    RunSnoc(evs + [Leave(r, u, failing)], offer);
    RunSnoc(evs + [Leave(r, u, failing)] + [offer], Closed(r, u, PeerOf(e, r, u).pid, failing));
  }

  lemma RunSnoc(evs: seq<Event>, ev: Event)
    ensures Run(evs + [ev]) == Step(Run(evs), ev)
  {
    assert (evs + [ev])[..|evs|] == evs;
  }

  // ---------------------------------------------------------------- in place

  lemma LeaveOneMore(e: EngineV, u: nat, failing: set<(nat, nat)>, left: set<nat>, r: nat)
    requires r in e.rooms && u in e.rooms[r].peers && r !in left
    ensures DoLeave(DoLeaveRooms(e, u, failing, left), r, u, failing) == DoLeaveRooms(e, u, failing, left + {r})
  {
    LeftIsGone(e.rooms[r], r, u, failing);
    var e1, e2 := DoLeaveRooms(e, u, failing, left), DoLeaveRooms(e, u, failing, left + {r});
    assert e1.rooms[r] == e.rooms[r];
    hide RoomLeave;
    var room := RoomLeave(e.rooms[r], r, u, failing);
    assert room.peers == map[] <==> e.rooms[r].peers.Keys == {u} by {
      assert room.peers == map[] <==> room.peers.Keys == {};
      assert u in e.rooms[r].peers.Keys;
      assert e.rooms[r].peers.Keys == room.peers.Keys + {u};
    }
    assert DoLeave(e1, r, u, failing).rooms == e2.rooms;
  }

  lemma LeftAll(e: EngineV, u: nat, failing: set<(nat, nat)>, left: set<nat>)
    requires left == set r | r in e.rooms && u in e.rooms[r].peers
    ensures DoLeaveRooms(e, u, failing, left) == DoLeaveUser(e, u, failing)
  {
    forall r | r in e.rooms ensures r in left <==> u in e.rooms[r].peers.Keys {
    }
    hide RoomLeave;
    assert DoLeaveRooms(e, u, failing, left).rooms == DoLeaveUser(e, u, failing).rooms;
  }

  lemma RoomHasMember(e: EngineV, r: nat)
    requires EngineOk(e) && r in e.rooms
    ensures exists u :: Has(e, r, u)
  {
    assert RoomOk(e.rooms[r], e.nextPid);
    var u :| u in e.rooms[r].peers;
    assert Has(e, r, u);
  }

  class Engine {
    var rooms: map<nat, RoomV>
    var nextPid: nat
    var nextTrack: nat

    constructor ()
      ensures View() == EMPTY
    {
      rooms, nextPid, nextTrack := map[], 0, 0;
    }

    function View(): EngineV
      reads this
    {
      EngineV(rooms, nextPid, nextTrack)
    }

    method LeaveRoom(r: nat, u: nat, failing: set<(nat, nat)>)
      modifies this`rooms
      ensures View() == DoLeave(old(View()), r, u, failing)
    {
      if r !in rooms || u !in rooms[r].peers {
        return;
      }
      ghost var room := rooms[r];
      var peers := rooms[r].peers - {u};
      var tracks := rooms[r].tracks - {u};
      var subscribers := peers.Keys;
      while subscribers != {}
        invariant peers.Keys == room.peers.Keys - {u} && subscribers <= peers.Keys
        invariant forall v | v in peers ::
          peers[v] == if v in subscribers then room.peers[v] else AfterLeave(room.peers[v], u, (r, v) !in failing)
        decreases subscribers
      {
        var v :| v in subscribers;
        var p := peers[v];
        p := p.(senders := p.senders - {u});
        p := p.(sig := S.Renegotiate(p.sig, (r, v) !in failing));
        peers := peers[v := p];
        subscribers := subscribers - {v};
      }
      assert RoomV(peers, tracks) == RoomLeave(room, r, u, failing);
      if peers == map[] {
        rooms := rooms - {r};
      } else {
        rooms := rooms[r := RoomV(peers, tracks)];
      }
    }

    // The callback knows its room and user only; `pid` is the peer object it belongs to.
    method PeerClosed(r: nat, u: nat, ghost pid: nat, failing: set<(nat, nat)>)
      modifies this`rooms
      ensures View() == Step(old(View()), Closed(r, u, pid, failing))
    {
      LeaveRoom(r, u, failing);
    }

    method LeaveAll(u: nat, failing: set<(nat, nat)>)
      modifies this`rooms
      ensures View() == DoLeaveUser(old(View()), u, failing)
    {
      ghost var e := View();
      var todo := set r | r in rooms && u in rooms[r].peers;
      ghost var all := todo;
      assert View() == DoLeaveRooms(e, u, failing, all - todo) by {
        assert View().rooms == DoLeaveRooms(e, u, failing, {}).rooms;
        assert all - todo == {};
      }
      while todo != {}
        invariant todo <= all
        invariant View() == DoLeaveRooms(e, u, failing, all - todo)
        decreases todo
      {
        var r :| r in todo;
        LeaveOneMore(e, u, failing, all - todo, r);
        assert all - (todo - {r}) == (all - todo) + {r};
        LeaveRoom(r, u, failing);
        todo := todo - {r};
      }
      assert all - todo == all;
      LeftAll(e, u, failing, all);
    }

    method CloseAll(failing: set<(nat, nat)>)
      requires EngineOk(View())
      modifies this`rooms
      ensures View() == Step(old(View()), Close)
    {
      var todo := set r, u | r in rooms && u in rooms[r].peers :: (r, u);
      while todo != {}
        invariant EngineOk(View())
        invariant forall r, u | Has(View(), r, u) :: (r, u) in todo
        decreases todo
      {
        var entry :| entry in todo;
        var (r, u) := entry;
        ghost var e := View();
        LeaveKeeps(e, r, u, failing);
        LeaveKeepsOut(e, r, u, failing);
        LeaveRoom(r, u, failing);
        todo := todo - {(r, u)};
      }
      if rooms != map[] {
        var r :| r in rooms;
        RoomHasMember(View(), r);
      }
    }

    // ensurePeer after the peer connection has been created.
    method InsertPeer(r: nat, u: nat)
      requires !Has(View(), r, u)
      modifies this
      ensures View() == Insert(old(View()), r, u)
    {
      var room := if r in rooms then rooms[r] else RoomV(map[], map[]);
      var p := PeerV(nextPid, map[], true, false, S.NEW);
      rooms := rooms[r := room.(peers := room.peers[u := p])];
      nextPid := nextPid + 1;
    }

    // `ok` is false when the source returns an error.
    method HandleOffer(r: nat, u: nat, empty: bool, calls: OfferCalls, failing: set<(nat, nat)>) returns (ok: bool)
      modifies this
      ensures View() == DoOffer(old(View()), r, u, empty, calls, failing)
      ensures ok ==> Has(View(), r, u) && PeerOf(View(), r, u).sig.state == S.Stable
    {
      ok := false;
      if empty {
        return;
      }
      var created := !(r in rooms && u in rooms[r].peers);
      if created {
        if !calls.createOk {
          return;
        }
        InsertPeer(r, u);
      }
      var p := rooms[r].peers[u];
      if !S.OfferApplies(p.sig, calls.applyOk) {
        if created {
          LeaveRoom(r, u, failing);
        } else {
          assert rooms[r].peers[u := p] == rooms[r].peers && rooms[r := rooms[r]] == rooms;
        }
        return;
      }
      if created {
        p := AddExistingTracks(p, r, u);
      }
      p := p.(sig := S.HandleOffer(p.sig, calls.applyOk, calls.answerOk));
      rooms := rooms[r := rooms[r].(peers := rooms[r].peers[u := p])];
      ok := calls.answerOk;
    }

    method AddExistingTracks(p: PeerV, r: nat, self: nat) returns (p': PeerV)
      requires r in rooms && !p.sig.closed
      ensures p' == WithTracks(p, self, rooms[r].tracks)
    {
      var tracks := rooms[r].tracks - {self};
      p' := p;
      var todo := tracks.Keys;
      while todo != {}
        invariant todo <= tracks.Keys
        invariant p' == p.(senders := p'.senders)
        invariant p'.senders.Keys == p.senders.Keys + (tracks.Keys - todo)
        invariant forall v | v in p'.senders :: p'.senders[v] == if v in p.senders then p.senders[v] else tracks[v]
        decreases todo
      {
        var v :| v in todo;
        p' := WithTrack(p', v, tracks[v]);
        todo := todo - {v};
      }
      assert p'.senders == tracks + p.senders;
    }

    // forwardAudio up to its read loop, by the peer object `pid`.
    method RegisterTrack(r: nat, u: nat, pid: nat, failing: set<(nat, nat)>)
      modifies this
      ensures View() == DoTrack(old(View()), r, u, pid, failing)
    {
      if r !in rooms || u !in rooms[r].peers || rooms[r].peers[u].pid != pid {
        return;
      }
      ghost var room := rooms[r];
      var local := nextTrack;
      nextTrack := nextTrack + 1;
      var peers := rooms[r].peers;
      var subscribers := peers.Keys - {u};
      while subscribers != {}
        invariant peers.Keys == room.peers.Keys && subscribers <= peers.Keys - {u}
        invariant forall v | v in peers ::
          peers[v] ==
            if v == u || v in subscribers then room.peers[v]
            else AfterTrack(room.peers[v], u, local, (r, v) !in failing)
        decreases subscribers
      {
        var v :| v in subscribers;
        var p := WithTrack(peers[v], u, local);
        peers := peers[v := p.(sig := S.Renegotiate(p.sig, (r, v) !in failing))];
        subscribers := subscribers - {v};
      }
      assert peers == RoomTrack(room, r, u, local, failing).peers;
      rooms := rooms[r := RoomV(peers, rooms[r].tracks[u := local])];
    }

    method SetVoiceFlags(r: nat, u: nat, muted: bool, speaking: bool)
      modifies this`rooms
      ensures View() == Step(old(View()), SetVoiceState(r, u, muted, speaking))
    {
      if r in rooms && u in rooms[r].peers {
        var p := rooms[r].peers[u].(muted := muted, speaking := speaking && !muted);
        rooms := rooms[r := rooms[r].(peers := rooms[r].peers[u := p])];
      }
    }

    method Mute(r: nat, u: nat, muted: bool)
      modifies this`rooms
      ensures View() == Step(old(View()), SetMuted(r, u, muted))
    {
      if r in rooms && u in rooms[r].peers {
        var p := rooms[r].peers[u].(muted := muted);
        if muted {
          p := p.(speaking := false);
        }
        rooms := rooms[r := rooms[r].(peers := rooms[r].peers[u := p])];
      }
    }

    method Speak(r: nat, u: nat, speaking: bool)
      modifies this`rooms
      ensures View() == Step(old(View()), SetSpeaking(r, u, speaking))
    {
      if r in rooms && u in rooms[r].peers {
        var p := rooms[r].peers[u];
        rooms := rooms[r := rooms[r].(peers := rooms[r].peers[u := p.(speaking := speaking && !p.muted)])];
      }
    }
  }
}

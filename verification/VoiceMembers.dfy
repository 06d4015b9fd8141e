// Every member of a voice room as one renegotiation machine of its own.

module VoiceMembers {
  import opened Bytes
  import opened VoiceRooms
  import S = VoiceSignaling

  // What an engine event is to the signalling of member v of room r, in the state it meets.
  function SignalTo(e: EngineV, ev: Event, r: nat, v: nat): Option<S.Event> {
    match ev
    case Offer(r0, u, empty, calls, failing) =>
      if r0 != r || empty then None
      else if u == v then
        if Has(e, r, v) || (calls.createOk && calls.applyOk)
        then Some(S.RemoteOffer(calls.applyOk, calls.answerOk)) else None
      else if !Has(e, r, u) && calls.createOk && !calls.applyOk then Some(S.Request((r, v) !in failing))
      else None
    case Answer(r0, u, ok) => if r0 == r && u == v then Some(S.Answer(ok)) else None
    case TaskRuns(r0, u, ok) => if r0 == r && u == v then Some(S.TaskRuns(ok)) else None
    case TrackArrives(r0, u, pid, failing) =>
      if r0 == r && u != v && Has(e, r, u) && PeerOf(e, r, u).pid == pid
      then Some(S.Request((r, v) !in failing)) else None
    case Leave(r0, u, failing) =>
      if r0 == r && u != v && Has(e, r, u) then Some(S.Request((r, v) !in failing)) else None
    case Closed(r0, u, _, failing) =>
      if r0 == r && u != v && Has(e, r, u) then Some(S.Request((r, v) !in failing)) else None
    case LeaveUser(u, failing) =>
      if u != v && Has(e, r, u) then Some(S.Request((r, v) !in failing)) else None
    case _ => None
  }

  function After(s: S.Sig, signal: Option<S.Event>): S.Sig {
    match signal
    case None => s
    case Some(ev) => S.Step(s, ev)
  }

  // The machine of a member that has just come in starts afresh.
  function Before(e: EngineV, r: nat, v: nat): S.Sig {
    if Has(e, r, v) then PeerOf(e, r, v).sig else S.NEW
  }

  predicate Follows(e: EngineV, e': EngineV, r: nat, v: nat, signal: Option<S.Event>) {
    Has(e', r, v) ==> PeerOf(e', r, v).sig == After(Before(e, r, v), signal)
  }

  lemma LeaveFollows(e: EngineV, r0: nat, u: nat, failing: set<(nat, nat)>, r: nat, v: nat)
    ensures Follows(e, DoLeave(e, r0, u, failing), r, v,
                    if r0 == r && u != v && Has(e, r, u) then Some(S.Request((r, v) !in failing)) else None)
  {
    LeaveRemovesOnly(e, r0, u, failing, r, v);
    if Has(e, r0, u) && Has(e, r, v) && v != u {
      RoomLeaveMoves(e.rooms[r], r, u, v, failing);
    }
    hide S.Step, RoomLeave;
  }

  lemma LeaveUserFollows(e: EngineV, u: nat, failing: set<(nat, nat)>, r: nat, v: nat)
    ensures Follows(e, DoLeaveUser(e, u, failing), r, v,
                    if u != v && Has(e, r, u) then Some(S.Request((r, v) !in failing)) else None)
  {
    if r in e.rooms {
      LeftIsGone(e.rooms[r], r, u, failing);
      if v in e.rooms[r].peers && v != u {
        RoomLeaveMoves(e.rooms[r], r, u, v, failing);
      }
    }
    hide S.Step, RoomLeave;
  }

  lemma TrackFollows(e: EngineV, r0: nat, u: nat, pid: nat, failing: set<(nat, nat)>, r: nat, v: nat)
    ensures Follows(e, DoTrack(e, r0, u, pid, failing), r, v, SignalTo(e, TrackArrives(r0, u, pid, failing), r, v))
  {
    hide S.Renegotiate;
  }

  lemma KnownOfferFollows(e: EngineV, r0: nat, u: nat, calls: OfferCalls, failing: set<(nat, nat)>, r: nat, v: nat)
    requires Has(e, r0, u)
    ensures Follows(e, DoOffer(e, r0, u, false, calls, failing), r, v,
                    SignalTo(e, Offer(r0, u, false, calls, failing), r, v))
  {
    hide S.HandleOffer;
  }

  lemma NewOfferFollows(e: EngineV, r0: nat, u: nat, answerOk: bool, r: nat, v: nat)
    requires !Has(e, r0, u)
    ensures var e1 := Insert(e, r0, u);
      var p := WithTracks(PeerOf(e1, r0, u), u, e1.rooms[r0].tracks);
      Follows(e, WithPeer(e1, r0, u, p.(sig := S.HandleOffer(p.sig, true, answerOk))), r, v,
              if r0 == r && u == v then Some(S.RemoteOffer(true, answerOk)) else None)
  {
    hide S.HandleOffer;
  }

  lemma RefusedOfferFollows(e: EngineV, r0: nat, u: nat, failing: set<(nat, nat)>, r: nat, v: nat)
    requires !Has(e, r0, u)
    ensures Follows(e, DoLeave(Insert(e, r0, u), r0, u, failing), r, v,
                    if r0 == r && u != v then Some(S.Request((r, v) !in failing)) else None)
  {
    var e1 := Insert(e, r0, u);
    LeaveFollows(e1, r0, u, failing, r, v);
    LeaveRemovesOnly(e1, r0, u, failing, r, v);
    assert !(r == r0 && v == u) ==> (Has(e1, r, v) <==> Has(e, r, v)) && Before(e1, r, v) == Before(e, r, v);
    hide DoLeave, Insert, S.Step;
  }

  lemma OfferFollows(e: EngineV, r0: nat, u: nat, empty: bool, calls: OfferCalls, failing: set<(nat, nat)>,
                     r: nat, v: nat)
    ensures Follows(e, DoOffer(e, r0, u, empty, calls, failing), r, v,
                    SignalTo(e, Offer(r0, u, empty, calls, failing), r, v))
  {
    if !empty && Has(e, r0, u) {
      KnownOfferFollows(e, r0, u, calls, failing, r, v);
    } else if !empty && calls.createOk && calls.applyOk {
      NewOfferFollows(e, r0, u, calls.answerOk, r, v);
      hide Insert, WithTracks, WithPeer, S.HandleOffer, Follows;
    } else if !empty && calls.createOk {
      RefusedOfferFollows(e, r0, u, failing, r, v);
      hide Insert, DoLeave, Follows;
    }
  }

  lemma OnePeerFollows(e: EngineV, ev: Event, r: nat, v: nat)
    requires TouchesOnePeer(ev)
    ensures Follows(e, Step(e, ev), r, v, SignalTo(e, ev, r, v))
  {
    hide S.HandleAnswer, S.Renegotiate;
  }

  // One engine step is one step, or none, of each member's machine.
  lemma StepFollows(e: EngineV, ev: Event, r: nat, v: nat)
    ensures Follows(e, Step(e, ev), r, v, SignalTo(e, ev, r, v))
  {
    hide Follows, DoOffer, DoTrack, DoLeave, DoLeaveUser;
    match ev {
      case Offer(r0, u, empty, calls, failing) => OfferFollows(e, r0, u, empty, calls, failing, r, v);
      case TrackArrives(r0, u, pid, failing) => TrackFollows(e, r0, u, pid, failing, r, v);
      case Leave(r0, u, failing) => LeaveFollows(e, r0, u, failing, r, v);
      case Closed(r0, u, _, failing) => LeaveFollows(e, r0, u, failing, r, v);
      case LeaveUser(u, failing) => LeaveUserFollows(e, u, failing, r, v);
      case Close => CloseFollows(e, r, v);
      case _ => OnePeerFollows(e, ev, r, v);
    }
  }

  lemma CloseFollows(e: EngineV, r: nat, v: nat)
    ensures Follows(e, e.(rooms := map[]), r, v, None)
  {
  }

  // ---------------------------------------------------------------- whole runs

  // What the present peer of v has gone through, as events of the single-peer machine.
  function Signals(evs: seq<Event>, r: nat, v: nat): seq<S.Event> {
    if evs == [] || !Has(Run(evs), r, v) then [] else
      var before, ev := evs[..|evs| - 1], evs[|evs| - 1];
      var signal := SignalTo(Run(before), ev, r, v);
      Signals(before, r, v) + if signal.Some? then [signal.value] else []
  }

  lemma RunAppend(evs: seq<S.Event>, signal: Option<S.Event>)
    ensures S.Run(evs + if signal.Some? then [signal.value] else []) == After(S.Run(evs), signal)
  {
    match signal
    case None => assert evs + [] == evs;
    case Some(ev) => S.RunSnoc(S.NEW, evs, ev);
  }

  lemma {:induction false} NoSignalsWithoutPeer(evs: seq<Event>, r: nat, v: nat)
    requires !Has(Run(evs), r, v)
    ensures S.Run(Signals(evs, r, v)) == S.NEW
  {
  }

  // In every run each member's signalling is a run of the single-peer machine, so that whatever
  // holds of all runs of that machine holds of every member of every room.
  lemma {:induction false} MembersArePeers(evs: seq<Event>, r: nat, v: nat)
    requires Has(Run(evs), r, v)
    ensures PeerOf(Run(evs), r, v).sig == S.Run(Signals(evs, r, v))
  {
    if evs == [] {
    } else {
      var before, ev := evs[..|evs| - 1], evs[|evs| - 1];
      StepFollows(Run(before), ev, r, v);
      assert Run(evs) == Step(Run(before), ev);
      RunAppend(Signals(before, r, v), SignalTo(Run(before), ev, r, v));
      if Has(Run(before), r, v) {
        MembersArePeers(before, r, v);
      } else {
        NoSignalsWithoutPeer(before, r, v);
      }
      hide Run, Step, S.Run, SignalTo, After;
    }
  }

  // With any faults: a member waits for a renegotiation that will not come if and only if one of
  // its signals lost the request and no offer to it has been created since.
  lemma MemberForgottenIff(evs: seq<Event>, r: nat, v: nat)
    requires Has(Run(evs), r, v)
    ensures S.Lost(PeerOf(Run(evs), r, v).sig) <==> exists i :: S.LosesAt(Signals(evs, r, v), i)
  {
    MembersArePeers(evs, r, v);
    S.LostIff(Signals(evs, r, v));
    hide Run, S.LosesAt, S.Lost;
  }

  const APPLIED: OfferCalls := OfferCalls(true, true, true)
  const UNANSWERED: OfferCalls := OfferCalls(true, true, false)

  // The first member's answer fails, the second one publishes, and the first one's next offer
  // leaves it stable with its request forgotten.
  const FORGETTING: seq<Event> :=
    [] + [Offer(1, 1, false, UNANSWERED, {})] + [Offer(1, 2, false, APPLIED, {})]
       + [TrackArrives(1, 2, 1, {})] + [Offer(1, 1, false, APPLIED, {})]

  function AfterOne(): EngineV {
    EngineV(map[1 := RoomV(map[1 := PeerV(0, map[], true, false, S.NEW.(state := S.HaveRemoteOffer))], map[])], 1, 0)
  }

  function AfterTwo(): EngineV {
    EngineV(map[1 := RoomV(map[1 := PeerV(0, map[], true, false, S.NEW.(state := S.HaveRemoteOffer)),
                               2 := PeerV(1, map[], true, false, S.NEW)], map[])], 2, 0)
  }

  lemma JoinedOne()
    ensures DoOffer(EMPTY, 1, 1, false, UNANSWERED, {}) == AfterOne()
  {
    var e := DoOffer(EMPTY, 1, 1, false, UNANSWERED, {});
    assert e.rooms[1].peers == AfterOne().rooms[1].peers;
    assert e.rooms == AfterOne().rooms;
  }

  lemma JoinedTwo()
    ensures DoOffer(AfterOne(), 1, 2, false, APPLIED, {}) == AfterTwo()
  {
    var e := DoOffer(AfterOne(), 1, 2, false, APPLIED, {});
    assert e.rooms[1].peers[2].senders == map[];
    assert e.rooms[1].peers == AfterTwo().rooms[1].peers;
    assert e.rooms == AfterTwo().rooms;
  }

  lemma ForgottenRun()
    ensures Has(Run(FORGETTING), 1, 1) && S.Lost(PeerOf(Run(FORGETTING), 1, 1).sig)
  {
    var a, b := Offer(1, 1, false, UNANSWERED, {}), Offer(1, 2, false, APPLIED, {});
    var t, c := TrackArrives(1, 2, 1, {}), Offer(1, 1, false, APPLIED, {});
    assert Run([]) == EMPTY;
    JoinedOne();
    JoinedTwo();
    RunSnoc([], a);
    RunSnoc([] + [a], b);
    RunSnoc([] + [a] + [b], t);
    RunSnoc([] + [a] + [b] + [t], c);
    assert Run([] + [a] + [b]) == AfterTwo();
    hide Run;
    LastSteps(AfterTwo(), t, c);
  }

  lemma LastSteps(e: EngineV, t: Event, c: Event)
    requires e == AfterTwo() && t == TrackArrives(1, 2, 1, {}) && c == Offer(1, 1, false, APPLIED, {})
    ensures Has(Step(Step(e, t), c), 1, 1) && S.Lost(PeerOf(Step(Step(e, t), c), 1, 1).sig)
  {
    assert Has(e, 1, 2) && PeerOf(e, 1, 2).pid == 1;
    assert PeerOf(Step(e, t), 1, 1).sig == S.NEW.(state := S.HaveRemoteOffer, pending := true, unserved := true);
  }
}

// Which of a publisher's tracks each member of a voice room gets.

module VoiceTracks {
  import opened Bytes
  import opened VoiceRooms
  import S = VoiceSignaling

  // The room's entry for publisher u.
  function Current(e: EngineV, r: nat, u: nat): Option<nat>
    requires r in e.rooms
  {
    if u in e.rooms[r].tracks then Some(e.rooms[r].tracks[u]) else None
  }

  // The track of u that member w is sent.
  function Sent(e: EngineV, r: nat, w: nat, u: nat): Option<nat>
    requires Has(e, r, w)
  {
    if u in PeerOf(e, r, w).senders then Some(PeerOf(e, r, w).senders[u]) else None
  }

  predicate Both(e: EngineV, r: nat, u: nat, w: nat) {
    Has(e, r, u) && Has(e, r, w)
  }

  // Member w is sent a track of u that is not the room's entry for u.
  predicate Stale(e: EngineV, r: nat, u: nat, w: nat) {
    Both(e, r, u, w) && Current(e, r, u).Some? && Sent(e, r, w, u).Some? && Sent(e, r, w, u) != Current(e, r, u)
  }

  // ---------------------------------------------------------------- numbers are new

  predicate PeerNumbered(p: PeerV, n: nat) {
    forall u | u in p.senders :: p.senders[u] < n
  }

  predicate RoomNumbered(room: RoomV, n: nat) {
    && (forall u | u in room.tracks :: room.tracks[u] < n)
    && (forall v | v in room.peers :: PeerNumbered(room.peers[v], n))
  }

  predicate Numbered(e: EngineV) {
    forall r | r in e.rooms :: RoomNumbered(e.rooms[r], e.nextTrack)
  }

  lemma LeaveNumbered(e: EngineV, r: nat, u: nat, failing: set<(nat, nat)>)
    requires Numbered(e)
    ensures Numbered(DoLeave(e, r, u, failing))
  {
    hide S.Renegotiate;
  }

  lemma LeaveUserNumbered(e: EngineV, u: nat, failing: set<(nat, nat)>)
    requires Numbered(e)
    ensures Numbered(DoLeaveUser(e, u, failing))
  {
    hide S.Renegotiate;
  }

  lemma OfferNumbered(e: EngineV, r: nat, u: nat, empty: bool, calls: OfferCalls, failing: set<(nat, nat)>)
    requires Numbered(e)
    ensures Numbered(DoOffer(e, r, u, empty, calls, failing))
  {
    hide S.HandleOffer, RoomLeave;
    if !empty && !Has(e, r, u) && calls.createOk {
      assert Numbered(Insert(e, r, u));
      hide Numbered, Insert;
      if !calls.applyOk {
        LeaveNumbered(Insert(e, r, u), r, u, failing);
      } else {
        NewPeerNumbered(Insert(e, r, u), r, u, calls.answerOk);
      }
    }
  }

  lemma NewPeerNumbered(e: EngineV, r: nat, u: nat, answerOk: bool)
    requires Numbered(e) && Has(e, r, u)
    ensures var p := WithTracks(PeerOf(e, r, u), u, e.rooms[r].tracks);
      Numbered(WithPeer(e, r, u, p.(sig := S.HandleOffer(p.sig, true, answerOk))))
  {
    hide S.HandleOffer;
  }

  lemma TrackNumbered(e: EngineV, r: nat, u: nat, pid: nat, failing: set<(nat, nat)>)
    requires Numbered(e)
    ensures Numbered(DoTrack(e, r, u, pid, failing))
  {
    hide S.Renegotiate;
  }

  lemma OnePeerNumbered(e: EngineV, ev: Event)
    requires Numbered(e) && TouchesOnePeer(ev)
    ensures Numbered(Step(e, ev))
  {
    hide S.HandleAnswer, S.Step;
  }

  lemma StepNumbered(e: EngineV, ev: Event)
    requires Numbered(e)
    ensures Numbered(Step(e, ev))
  {
    hide RoomNumbered, DoOffer, DoLeave, DoLeaveUser, DoTrack;
    match ev {
      case Offer(r, u, empty, calls, failing) => OfferNumbered(e, r, u, empty, calls, failing);
      case TrackArrives(r, u, pid, failing) => TrackNumbered(e, r, u, pid, failing);
      case Leave(r, u, failing) => LeaveNumbered(e, r, u, failing);
      case Closed(r, u, _, failing) => LeaveNumbered(e, r, u, failing);
      case LeaveUser(u, failing) => LeaveUserNumbered(e, u, failing);
      case Close =>
      case _ => OnePeerNumbered(e, ev);
    }
  }

  // In every run a new track gets a number that nobody is sent yet.
  lemma {:induction false} RunsAreNumbered(evs: seq<Event>)
    ensures Numbered(Run(evs))
  {
    if evs == [] {
    } else {
      RunsAreNumbered(evs[..|evs| - 1]);
      StepNumbered(Run(evs[..|evs| - 1]), evs[|evs| - 1]);
    }
  }

  // ---------------------------------------------------------------- one step for two members

  // Two members that a step leaves in the room keep what the one publishes and the other is sent.
  predicate PairKept(e: EngineV, e': EngineV, r: nat, u: nat, w: nat) {
    Both(e', r, u, w) && Both(e, r, u, w) ==>
      Current(e', r, u) == Current(e, r, u) && Sent(e', r, w, u) == Sent(e, r, w, u)
  }

  // If one of them is new, the other's track is what is sent.
  predicate PairNew(e: EngineV, e': EngineV, r: nat, u: nat, w: nat) {
    Both(e', r, u, w) && !Both(e, r, u, w) ==> Sent(e', r, w, u) == Current(e', r, u)
  }

  lemma LeavePair(e: EngineV, r0: nat, x: nat, failing: set<(nat, nat)>, r: nat, u: nat, w: nat)
    requires u != w
    ensures PairKept(e, DoLeave(e, r0, x, failing), r, u, w)
    ensures Both(DoLeave(e, r0, x, failing), r, u, w) ==> Both(e, r, u, w)
  {
    if Has(e, r0, x) {
      LeftIsGone(e.rooms[r0], r0, x, failing);
      hide S.Renegotiate;
    }
  }

  lemma LeaveUserPair(e: EngineV, x: nat, failing: set<(nat, nat)>, r: nat, u: nat, w: nat)
    requires u != w
    ensures PairKept(e, DoLeaveUser(e, x, failing), r, u, w)
    ensures Both(DoLeaveUser(e, x, failing), r, u, w) ==> Both(e, r, u, w)
  {
    if r in e.rooms {
      LeftIsGone(e.rooms[r], r, x, failing);
    }
    hide S.Renegotiate;
  }

  // The registration of a track, seen from one member.
  lemma TrackSent(p: PeerV, w: nat, u: nat, track: nat, ok: bool, tracks: map<nat, nat>, nextPid: nat)
    requires PeerOk(p, w, tracks, nextPid)
    ensures AfterTrack(p, u, track, ok).senders == if u in p.senders then p.senders else p.senders[u := track]
  {
    hide S.Renegotiate;
  }

  lemma MemberOk(e: EngineV, r: nat, w: nat)
    requires EngineOk(e) && Has(e, r, w)
    ensures PeerOk(PeerOf(e, r, w), w, e.rooms[r].tracks, e.nextPid)
  {
    assert RoomOk(e.rooms[r], e.nextPid);
  }

  lemma PublishPair(e: EngineV, r: nat, u: nat, failing: set<(nat, nat)>, w: nat)
    requires EngineOk(e) && u != w && Both(e, r, u, w)
    ensures var e' := DoTrack(e, r, u, PeerOf(e, r, u).pid, failing);
      && Both(e', r, u, w) && Current(e', r, u) == Some(e.nextTrack)
      && Sent(e', r, w, u) == if Sent(e, r, w, u).Some? then Sent(e, r, w, u) else Some(e.nextTrack)
  {
    MemberOk(e, r, w);
    TrackSent(PeerOf(e, r, w), w, u, e.nextTrack, (r, w) !in failing, e.rooms[r].tracks, e.nextPid);
    hide AfterTrack, EngineOk, PeerOk;
  }

  lemma TrackPair(e: EngineV, r0: nat, x: nat, pid: nat, failing: set<(nat, nat)>, r: nat, u: nat, w: nat)
    requires EngineOk(e) && u != w
    ensures var e' := DoTrack(e, r0, x, pid, failing);
      && (Both(e', r, u, w) ==> Both(e, r, u, w))
      && (!(r == r0 && u == x && Has(e, r, u) && pid == PeerOf(e, r, u).pid) ==> PairKept(e, e', r, u, w))
  {
    if Both(e, r, u, w) && r == r0 && Has(e, r, x) {
      MemberOk(e, r, w);
      TrackSent(PeerOf(e, r, w), w, x, e.nextTrack, (r, w) !in failing, e.rooms[r].tracks, e.nextPid);
    }
    hide AfterTrack, EngineOk, PeerOk;
  }

  lemma OnePeerPair(e: EngineV, ev: Event, r: nat, u: nat, w: nat)
    requires TouchesOnePeer(ev)
    ensures PairKept(e, Step(e, ev), r, u, w) && (Both(Step(e, ev), r, u, w) ==> Both(e, r, u, w))
  {
    hide S.HandleAnswer, S.Step;
  }

  lemma InsertPair(e: EngineV, r0: nat, x: nat, r: nat, u: nat, w: nat)
    requires u != x && w != x
    ensures PairKept(e, Insert(e, r0, x), r, u, w) && (Both(Insert(e, r0, x), r, u, w) ==> Both(e, r, u, w))
  {
  }

  // A first offer: the new peer gets every track of the others and has none of its own.
  lemma NewOfferPair(e: EngineV, r0: nat, x: nat, answerOk: bool, r: nat, u: nat, w: nat)
    requires EngineOk(e) && !Has(e, r0, x) && u != w
    ensures var e1 := Insert(e, r0, x);
      var p := WithTracks(PeerOf(e1, r0, x), x, e1.rooms[r0].tracks);
      var e' := WithPeer(e1, r0, x, p.(sig := S.HandleOffer(p.sig, true, answerOk)));
      PairKept(e, e', r, u, w) && PairNew(e, e', r, u, w)
  {
    if r in e.rooms {
      assert RoomOk(e.rooms[r], e.nextPid);
      if Has(e, r, w) { MemberOk(e, r, w); }
    }
    hide S.HandleOffer, EngineOk;
  }

  lemma RefusedOfferPair(e: EngineV, r0: nat, x: nat, failing: set<(nat, nat)>, r: nat, u: nat, w: nat)
    requires !Has(e, r0, x) && u != w
    ensures var e' := DoLeave(Insert(e, r0, x), r0, x, failing);
      PairKept(e, e', r, u, w) && (Both(e', r, u, w) ==> Both(e, r, u, w))
  {
    var e1 := Insert(e, r0, x);
    LeavePair(e1, r0, x, failing, r, u, w);
    LeaveKeepsOut(e1, r0, x, failing);
    if r == r0 && u != x && w != x {
      InsertPair(e, r0, x, r, u, w);
    }
    if r != r0 {
      assert Both(e1, r, u, w) <==> Both(e, r, u, w);
      assert Both(e, r, u, w) ==> Current(e1, r, u) == Current(e, r, u) && Sent(e1, r, w, u) == Sent(e, r, w, u);
    }
    hide DoLeave, Insert;
  }

  lemma OfferPair(e: EngineV, r0: nat, x: nat, empty: bool, calls: OfferCalls, failing: set<(nat, nat)>,
                  r: nat, u: nat, w: nat)
    requires EngineOk(e) && u != w
    ensures var e' := DoOffer(e, r0, x, empty, calls, failing);
      PairKept(e, e', r, u, w) && PairNew(e, e', r, u, w)
  {
    if !empty && Has(e, r0, x) {
      hide S.HandleOffer;
    } else if !empty && calls.createOk && calls.applyOk {
      NewOfferPair(e, r0, x, calls.answerOk, r, u, w);
      hide Insert, WithPeer, WithTracks, PairKept, PairNew, S.HandleOffer;
    } else if !empty && calls.createOk {
      RefusedOfferPair(e, r0, x, failing, r, u, w);
      hide Insert, DoLeave, PairKept;
    }
  }

  // What one step does to a publisher u and a member w that are both in the room after it.
  lemma StepPair(e: EngineV, ev: Event, r: nat, u: nat, w: nat)
    requires EngineOk(e) && u != w && Both(Step(e, ev), r, u, w)
    ensures Publishes(e, ev, r, u) ==>
      && Both(e, r, u, w) && Current(Step(e, ev), r, u) == Some(e.nextTrack)
      && Sent(Step(e, ev), r, w, u) == if Sent(e, r, w, u).Some? then Sent(e, r, w, u) else Some(e.nextTrack)
    ensures !Publishes(e, ev, r, u) ==> PairKept(e, Step(e, ev), r, u, w) && PairNew(e, Step(e, ev), r, u, w)
  {
    hide DoOffer, DoTrack, DoLeave, DoLeaveUser, PairKept, EngineOk;
    match ev {
      case Offer(r0, x, empty, calls, failing) => OfferPair(e, r0, x, empty, calls, failing, r, u, w);
      case TrackArrives(r0, x, pid, failing) =>
        TrackPair(e, r0, x, pid, failing, r, u, w);
        if Publishes(e, ev, r, u) { PublishPair(e, r, u, failing, w); }
      case Leave(r0, x, failing) => LeavePair(e, r0, x, failing, r, u, w);
      case Closed(r0, x, _, failing) => LeavePair(e, r0, x, failing, r, u, w);
      case LeaveUser(x, failing) => LeaveUserPair(e, x, failing, r, u, w);
      case Close =>
      case _ => OnePeerPair(e, ev, r, u, w);
    }
  }

  lemma SentIsOlder(e: EngineV, r: nat, u: nat, w: nat)
    requires Numbered(e) && Has(e, r, w) && Sent(e, r, w, u).Some?
    ensures Sent(e, r, w, u).value < e.nextTrack
  {
    assert RoomNumbered(e.rooms[r], e.nextTrack);
    assert PeerNumbered(PeerOf(e, r, w), e.nextTrack);
  }

  // A member falls behind exactly when the publisher registers while the member is already sent
  // a track of that publisher, and stays behind as long as both stay.
  lemma StaleStep(e: EngineV, ev: Event, r: nat, u: nat, w: nat)
    requires EngineOk(e) && Numbered(e) && u != w && Both(Step(e, ev), r, u, w)
    ensures Stale(Step(e, ev), r, u, w) <==>
      Both(e, r, u, w) && ((Publishes(e, ev, r, u) && Sent(e, r, w, u).Some?) || Stale(e, r, u, w))
  {
    StepPair(e, ev, r, u, w);
    if Both(e, r, u, w) && Sent(e, r, w, u).Some? {
      SentIsOlder(e, r, u, w);
    }
    hide EngineOk, Numbered, Step, Publishes, Current, Sent, Has;
  }

  // ---------------------------------------------------------------- whole runs

  // At the i-th event the present peer of u registered a track while the present peer of w was
  // already sent one of it.
  ghost predicate OvertakenAt(evs: seq<Event>, i: nat, r: nat, u: nat, w: nat)
    requires i < |evs| && Both(Run(evs), r, u, w)
  {
    var e := Run(evs[..i]);
    && PublishedAt(evs, i, r, u)
    && Has(e, r, w) && PeerOf(e, r, w).pid == PeerOf(Run(evs), r, w).pid && Sent(e, r, w, u).Some?
  }

  ghost predicate Overtaken(evs: seq<Event>, r: nat, u: nat, w: nat)
    requires Both(Run(evs), r, u, w)
  {
    exists i: nat :: i < |evs| && OvertakenAt(evs, i, r, u, w)
  }

  lemma OvertakenEarlier(evs: seq<Event>, i: nat, r: nat, u: nat, w: nat)
    requires i + 1 < |evs| && Both(Run(evs), r, u, w)
    ensures var before := evs[..|evs| - 1];
      OvertakenAt(evs, i, r, u, w) <==> Both(Run(before), r, u, w) && OvertakenAt(before, i, r, u, w)
  {
    var before, ev := evs[..|evs| - 1], evs[|evs| - 1];
    PublishedEarlier(evs, i, r, u);
    RunsAreOk(before);
    TracksStep(Run(before), ev, r, w);
    assert Run(evs) == Step(Run(before), ev);
    assert before[..i] == evs[..i];
    NextPidGrows(before, i);
    RunsAreOk(evs[..i]);
    PidsBelow(Run(evs[..i]), r, w);
    hide EngineOk, Run, Step, PublishedAt;
  }

  lemma OvertakenNow(evs: seq<Event>, r: nat, u: nat, w: nat)
    requires evs != [] && Both(Run(evs), r, u, w) && u != w
    ensures var n := |evs| - 1;
      OvertakenAt(evs, n, r, u, w) <==>
        Publishes(Run(evs[..n]), evs[n], r, u) && Both(Run(evs[..n]), r, u, w) && Sent(Run(evs[..n]), r, w, u).Some?
  {
    var n := |evs| - 1;
    PublishedNow(evs, r, u);
    RunsAreOk(evs[..n]);
    TracksStep(Run(evs[..n]), evs[n], r, w);
    assert Run(evs) == Step(Run(evs[..n]), evs[n]);
    hide EngineOk, Step, Run, PublishedAt;
  }

  lemma OvertakenBefore(evs: seq<Event>, before: seq<Event>, r: nat, u: nat, w: nat)
    requires evs != [] && before == evs[..|evs| - 1] && Both(Run(evs), r, u, w) && Overtaken(evs, r, u, w)
    ensures OvertakenAt(evs, |evs| - 1, r, u, w) || (Both(Run(before), r, u, w) && Overtaken(before, r, u, w))
  {
    hide OvertakenAt, Run, Has;
    var i: nat :| i < |evs| && OvertakenAt(evs, i, r, u, w);
    hide *;
    if i < |evs| - 1 {
      OvertakenEarlier(evs, i, r, u, w);
      SomeOvertaken(before, i, r, u, w);
    }
  }

  lemma OvertakenAfter(evs: seq<Event>, before: seq<Event>, r: nat, u: nat, w: nat)
    requires evs != [] && before == evs[..|evs| - 1] && Both(Run(evs), r, u, w)
    requires Both(Run(before), r, u, w) && Overtaken(before, r, u, w)
    ensures Overtaken(evs, r, u, w)
  {
    hide OvertakenAt, Run, Has;
    var i: nat :| i < |before| && OvertakenAt(before, i, r, u, w);
    hide *;
    OvertakenEarlier(evs, i, r, u, w);
    SomeOvertaken(evs, i, r, u, w);
  }

  lemma OvertakenStep(evs: seq<Event>, r: nat, u: nat, w: nat)
    requires evs != [] && Both(Run(evs), r, u, w)
    ensures var n := |evs| - 1;
      Overtaken(evs, r, u, w) <==>
        OvertakenAt(evs, n, r, u, w) || (Both(Run(evs[..n]), r, u, w) && Overtaken(evs[..n], r, u, w))
  {
    var n := |evs| - 1;
    var before := evs[..n];
    hide *;
    if OvertakenAt(evs, n, r, u, w) {
      SomeOvertaken(evs, n, r, u, w);
    } else if Overtaken(evs, r, u, w) {
      OvertakenBefore(evs, before, r, u, w);
    } else if Both(Run(before), r, u, w) && Overtaken(before, r, u, w) {
      OvertakenAfter(evs, before, r, u, w);
    }
  }

  lemma SomeOvertaken(evs: seq<Event>, i: nat, r: nat, u: nat, w: nat)
    requires i < |evs| && Both(Run(evs), r, u, w) && OvertakenAt(evs, i, r, u, w)
    ensures Overtaken(evs, r, u, w)
  {
    hide OvertakenAt, Run, Has;
  }

  // In every run a member is sent another track of a publisher than the room's entry if and only
  // if the publisher's present peer registered a track when the member's present peer already
  // had one of it: second tracks do not reach the members that hear the first.
  lemma {:induction false} SecondTrackIff(evs: seq<Event>, r: nat, u: nat, w: nat)
    requires Both(Run(evs), r, u, w) && u != w
    ensures Stale(Run(evs), r, u, w) <==> Overtaken(evs, r, u, w)
  {
    if evs == [] {
    } else {
      var n := |evs| - 1;
      var before := evs[..n];
      RunsAreOk(before);
      RunsAreNumbered(before);
      StaleStep(Run(before), evs[n], r, u, w);
      assert Run(evs) == Step(Run(before), evs[n]);
      OvertakenStep(evs, r, u, w);
      OvertakenNow(evs, r, u, w);
      hide EngineOk, Numbered, Step, Run, Stale, Overtaken, OvertakenAt, Publishes, Sent, Has;
      if Both(Run(before), r, u, w) {
        SecondTrackIff(before, r, u, w);
      }
    }
  }

  // Everybody else is sent the room's entry.
  lemma OthersAreSentTheEntry(evs: seq<Event>, r: nat, u: nat, w: nat)
    requires Both(Run(evs), r, u, w) && u != w && HasPublished(evs, r, u)
    ensures Current(Run(evs), r, u).Some? && Sent(Run(evs), r, w, u).Some?
    ensures Sent(Run(evs), r, w, u) == Current(Run(evs), r, u) <==> !Overtaken(evs, r, u, w)
  {
    SecondTrackIff(evs, r, u, w);
    TracksArePublished(evs, r, u);
    RunsAreOk(evs);
    MemberOk(Run(evs), r, w);
    hide Run, EngineOk, Overtaken, HasPublished;
  }

  // The next track of a publisher reaches a member if and only if the publisher's present peer
  // has published none before.
  lemma TrackReaches(evs: seq<Event>, r: nat, u: nat, failing: set<(nat, nat)>, w: nat)
    requires Both(Run(evs), r, u, w) && w != u
    ensures var e := Run(evs);
      var e' := Step(e, TrackArrives(r, u, PeerOf(e, r, u).pid, failing));
      && Both(e', r, u, w) && Current(e', r, u) == Some(e.nextTrack)
      && (Sent(e', r, w, u) == Current(e', r, u) <==> !HasPublished(evs, r, u))
      && (HasPublished(evs, r, u) ==> Sent(e', r, w, u) == Sent(e, r, w, u) && Sent(e, r, w, u).Some?)
  {
    var e := Run(evs);
    RunsAreOk(evs);
    RunsAreNumbered(evs);
    MemberOk(e, r, w);
    TracksArePublished(evs, r, u);
    PublishPair(e, r, u, failing, w);
    if Sent(e, r, w, u).Some? { SentIsOlder(e, r, u, w); }
    hide EngineOk, Numbered, Run, HasPublished, DoTrack, Has;
  }

  const GOOD: OfferCalls := OfferCalls(true, true, true)

  lemma OfferKeepsOthers(e: EngineV, r: nat, u: nat, w: nat)
    requires Has(e, r, u) && u != w && !Has(e, r, w)
    ensures Both(DoOffer(e, r, w, false, GOOD, {}), r, u, w)
    ensures PeerOf(DoOffer(e, r, w, false, GOOD, {}), r, u).pid == PeerOf(e, r, u).pid
  {
    hide S.HandleOffer;
  }

  // Two members join, one registers a track, and then another one.
  lemma SecondTrackRun(r: nat, u: nat, w: nat)
    requires u != w
    ensures var evs := [] + [Offer(r, u, false, GOOD, {})] + [Offer(r, w, false, GOOD, {})]
                       + [TrackArrives(r, u, 0, {})] + [TrackArrives(r, u, 0, {})];
      Stale(Run(evs), r, u, w)
  {
    var a, b, t := Offer(r, u, false, GOOD, {}), Offer(r, w, false, GOOD, {}), TrackArrives(r, u, 0, {});
    var e1 := DoOffer(EMPTY, r, u, false, GOOD, {});
    var e2 := DoOffer(e1, r, w, false, GOOD, {});
    assert Run([]) == EMPTY && !Has(EMPTY, r, u) && EMPTY.nextPid == 0;
    OfferInserts(EMPTY, r, u, {});
    assert !Has(e1, r, w) by { hide S.HandleOffer; }
    RunSnoc([], a);
    RunSnoc([] + [a], b);
    RunSnoc([] + [a] + [b], t);
    RunSnoc([] + [a] + [b] + [t], t);
    assert Run([] + [a] + [b]) == e2;
    hide DoOffer, Run;
    OfferKeepsOthers(e1, r, u, w);
    Registered([] + [a] + [b], r, u, w, {});
  }

  lemma Registered(evs: seq<Event>, r: nat, u: nat, w: nat, failing: set<(nat, nat)>)
    requires Both(Run(evs), r, u, w) && u != w
    ensures var t := TrackArrives(r, u, PeerOf(Run(evs), r, u).pid, failing);
      Stale(Run(evs + [t] + [t]), r, u, w)
  {
    var e := Run(evs);
    var t := TrackArrives(r, u, PeerOf(e, r, u).pid, failing);
    RunSnoc(evs, t);
    RunSnoc(evs + [t], t);
    TrackReaches(evs, r, u, failing, w);
    RunsAreOk(evs);
    TracksStep(e, t, r, u);
    TracksArePublished(evs + [t], r, u);
    TrackReaches(evs + [t], r, u, failing, w);
    hide Run, Step, EngineOk, HasPublished;
  }
}

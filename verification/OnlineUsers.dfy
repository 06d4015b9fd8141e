// The online-user set of one room: events update it at once, and REST snapshots repair missed
// events unless something changed while the request was under way.

module OnlineUsers {
  datatype Event =
    | RefreshStarted(request: nat)
    | RefreshDone(request: nat, users: set<int>)
    | RefreshFailed(request: nat)
    | UserChanged(user: int, online: bool)
    | Connected
    | Connecting
    | Disconnected
    | Disposed

  datatype State = State(online: set<int>, revision: nat, startedAt: map<nat, nat>, disposed: bool)

  const INITIAL: State := State({}, 0, map[], false)

  function Changed(online: set<int>, ev: Event): set<int> {
    if ev.UserChanged? then (if ev.online then online + {ev.user} else online - {ev.user}) else online
  }

  function Step(s: State, ev: Event): State {
    match ev
    case RefreshStarted(r) => s.(startedAt := s.startedAt[r := s.revision])
    case RefreshDone(r, users) =>
      if !s.disposed && r in s.startedAt && s.startedAt[r] == s.revision
      then s.(online := users, startedAt := s.startedAt - {r})
      else s.(startedAt := s.startedAt - {r})
    case RefreshFailed(r) => s.(startedAt := s.startedAt - {r})
    case UserChanged(_, _) => s.(online := Changed(s.online, ev), revision := s.revision + 1)
    case Disconnected => s.(online := {}, revision := s.revision + 1)
    case Connected => s.(revision := s.revision + 1)
    case Connecting => s.(revision := s.revision + 1)
    case Disposed => s.(disposed := true)
  }

  function Run(evs: seq<Event>): State {
    if evs == [] then INITIAL else Step(Run(evs[..|evs| - 1]), evs[|evs| - 1])
  }

  class Provider {
    var online: set<int>
    var revision: nat
    // The revision each refresh under way captured when it started.
    var startedAt: map<nat, nat>
    var disposed: bool

    constructor ()
      ensures View() == INITIAL
    {
      online, revision, startedAt, disposed := {}, 0, map[], false;
    }

    function View(): State
      reads this
    {
      State(online, revision, startedAt, disposed)
    }

    method StartRefresh(r: nat)
      modifies this
      ensures View() == Step(old(View()), RefreshStarted(r))
    {
      startedAt := startedAt[r := revision];
    }

    method FinishRefresh(r: nat, users: set<int>) returns (published: bool)
      modifies this
      ensures View() == Step(old(View()), RefreshDone(r, users))
      ensures !published ==> online == old(online)
      ensures old(disposed) ==> !published
    {
      published := !disposed && r in startedAt && startedAt[r] == revision;
      startedAt := startedAt - {r};
      if published {
        online := {};
        online := online + users;
      }
    }

    method Dispose()
      modifies this`disposed
      ensures View() == Step(old(View()), Disposed)
    {
      disposed := true;
    }

    method SetOnline(user: int, value: bool)
      modifies this
      ensures View() == Step(old(View()), UserChanged(user, value))
    {
      revision := revision + 1;
      if value {
        online := online + {user};
      } else {
        online := online - {user};
      }
    }

    // Returns whether a refresh follows, which it does on every new connection.
    method ConnectionChanged(ev: Event) returns (refresh: bool)
      requires ev.Connected? || ev.Connecting? || ev.Disconnected?
      modifies this
      ensures View() == Step(old(View()), ev) && refresh == ev.Connected?
    {
      revision := revision + 1;
      refresh := ev.Connected?;
      if ev.Disconnected? {
        online := {};
      }
    }
  }

  // ---------------------------------------------------------------- snapshot plus events

  // Applies every user event of a trace to a starting set.
  function Fold(base: set<int>, evs: seq<Event>): set<int> {
    if evs == [] then base else Changed(Fold(base, evs[..|evs| - 1]), evs[|evs| - 1])
  }

  // Events that make a response under way too old to use.
  predicate Bumps(ev: Event) {
    ev.UserChanged? || ev.Connected? || ev.Connecting? || ev.Disconnected?
  }

  // The request a response answers: the latest start of that refresh, if it is still open.
  function RequestedAt(evs: seq<Event>, r: nat): (q: int)
    ensures -1 <= q < |evs|
    ensures q >= 0 ==> evs[q] == RefreshStarted(r)
  {
    if evs == [] then -1 else
      match evs[|evs| - 1]
      case RefreshStarted(x) => if x == r then |evs| - 1 else RequestedAt(evs[..|evs| - 1], r)
      case RefreshDone(x, _) => if x == r then -1 else RequestedAt(evs[..|evs| - 1], r)
      case RefreshFailed(x) => if x == r then -1 else RequestedAt(evs[..|evs| - 1], r)
      case _ => RequestedAt(evs[..|evs| - 1], r)
  }

  // A response counts when nothing happened between its request and its arrival, and the
  // provider is still there.
  ghost predicate Fresh(evs: seq<Event>, r: nat) {
    var q := RequestedAt(evs, r);
    q >= 0 && Disposed !in evs && forall i :: q <= i < |evs| ==> !Bumps(evs[i])
  }

  // Where the current contents come from: a snapshot and the position of its request, or the
  // empty set and the position after a disconnect (or the start).
  datatype Origin = Origin(since: nat, snapshot: set<int>)

  ghost function OriginOf(evs: seq<Event>): (o: Origin)
    ensures o.since <= |evs|
  {
    if evs == [] then Origin(0, {}) else
      var before := evs[..|evs| - 1];
      match evs[|evs| - 1]
      case RefreshDone(r, users) => if Fresh(before, r) then Origin(RequestedAt(before, r), users) else OriginOf(before)
      case Disconnected => Origin(|evs|, {})
      case _ => OriginOf(before)
  }

  function Bumped(evs: seq<Event>): nat {
    if evs == [] then 0 else Bumped(evs[..|evs| - 1]) + if Bumps(evs[|evs| - 1]) then 1 else 0
  }

  lemma {:induction false} BumpedMonotone(evs: seq<Event>, q: nat)
    requires q <= |evs|
    ensures Bumped(evs[..q]) <= Bumped(evs)
    ensures Bumped(evs[..q]) == Bumped(evs) <==> forall i :: q <= i < |evs| ==> !Bumps(evs[i])
  {
    if q == |evs| {
      assert evs[..q] == evs;
    } else {
      var before := evs[..|evs| - 1];
      BumpedMonotone(before, q);
      assert before[..q] == evs[..q];
      assert forall i :: 0 <= i < |before| ==> before[i] == evs[i];
    }
  }

  // The revision counter and the captured revisions say exactly which responses are fresh.
  lemma {:induction false} RevisionsCount(evs: seq<Event>, r: nat)
    ensures Run(evs).revision == Bumped(evs)
    ensures Run(evs).disposed <==> Disposed in evs
    ensures r in Run(evs).startedAt <==> RequestedAt(evs, r) >= 0
    ensures r in Run(evs).startedAt ==> Run(evs).startedAt[r] == Bumped(evs[..RequestedAt(evs, r)])
  {
    if evs != [] {
      var before := evs[..|evs| - 1];
      RevisionsCount(before, r);
      assert evs == before + [evs[|evs| - 1]];
      var q := RequestedAt(evs, r);
      if 0 <= q < |before| {
        assert before[..q] == evs[..q];
      }
    }
  }

  lemma AppliedIffFresh(evs: seq<Event>, r: nat)
    ensures Fresh(evs, r) <==>
      !Run(evs).disposed && r in Run(evs).startedAt && Run(evs).startedAt[r] == Run(evs).revision
  {
    RevisionsCount(evs, r);
    if RequestedAt(evs, r) >= 0 {
      BumpedMonotone(evs, RequestedAt(evs, r));
    }
  }

  lemma {:induction false} FoldAppend(base: set<int>, evs: seq<Event>, ev: Event)
    ensures Fold(base, evs + [ev]) == Changed(Fold(base, evs), ev)
  {
    assert (evs + [ev])[..|evs|] == evs;
  }

  lemma {:induction false} FoldQuiet(base: set<int>, evs: seq<Event>)
    requires forall i :: 0 <= i < |evs| ==> !Bumps(evs[i])
    ensures Fold(base, evs) == base
  {
    if evs != [] { FoldQuiet(base, evs[..|evs| - 1]); }
  }

  // With any number of overlapping refreshes the set is the last applied snapshot (or the
  // empty set after a disconnect) with every event since that snapshot was requested.
  lemma {:induction false} OnlineIsSnapshotPlusEvents(evs: seq<Event>)
    ensures Run(evs).online == Fold(OriginOf(evs).snapshot, evs[OriginOf(evs).since..])
  {
    if evs == [] {
      assert evs[0..] == [];
    } else {
      var before, ev := evs[..|evs| - 1], evs[|evs| - 1];
      OnlineIsSnapshotPlusEvents(before);
      var o := OriginOf(evs);
      if ev.RefreshDone? { AppliedIffFresh(before, ev.request); }
      if ev.RefreshDone? && Fresh(before, ev.request) {
        assert forall i :: 0 <= i < |before| ==> before[i] == evs[i];
        FoldQuiet(o.snapshot, evs[o.since..]);
      } else if ev.Disconnected? {
        assert evs[|evs|..] == [];
      } else {
        assert o == OriginOf(before);
        assert evs[o.since..] == before[o.since..] + [ev];
        FoldAppend(o.snapshot, before[o.since..], ev);
      }
    }
  }

  // ---------------------------------------------------------------- overlapping refreshes

  // The k-th event is a response that replaces the contents.
  ghost predicate AppliedAt(evs: seq<Event>, k: nat) {
    k < |evs| && evs[k].RefreshDone? && Fresh(evs[..k], evs[k].request)
  }

  // The position of the request that the k-th event answers.
  function AskedAt(evs: seq<Event>, k: nat): int
    requires k < |evs| && evs[k].RefreshDone?
  {
    RequestedAt(evs[..k], evs[k].request)
  }

  ghost predicate QuietFrom(evs: seq<Event>, q: int) {
    forall i :: 0 <= i < |evs| && q <= i ==> !Bumps(evs[i])
  }

  // The contents are still those of the k-th event.
  ghost predicate InForce(evs: seq<Event>, k: nat) {
    AppliedAt(evs, k) && QuietFrom(evs, k) && forall i: nat :: k < i < |evs| ==> !AppliedAt(evs, i)
  }

  // In one quiet stretch two responses came in the reverse of the order of their requests, and
  // the later response, to the earlier request, was the last.
  ghost predicate Reversed(evs: seq<Event>, i: nat, j: nat) {
    i < j && AppliedAt(evs, i) && InForce(evs, j) && AskedAt(evs, j) < AskedAt(evs, i)
  }

  // A snapshot that was requested later than the one in force has been applied, with nothing
  // happening since.
  ghost predicate NewerWasApplied(evs: seq<Event>, i: nat) {
    AppliedAt(evs, i) && QuietFrom(evs, i) && OriginOf(evs).since < AskedAt(evs, i)
  }

  lemma AppliedBefore(evs: seq<Event>, k: nat)
    requires k + 1 < |evs|
    ensures AppliedAt(evs[..|evs| - 1], k) <==> AppliedAt(evs, k)
    ensures evs[k].RefreshDone? ==> AskedAt(evs[..|evs| - 1], k) == AskedAt(evs, k)
  {
    assert evs[..|evs| - 1][..k] == evs[..k];
  }

  lemma InForceBefore(evs: seq<Event>, k: nat)
    requires k + 1 < |evs|
    ensures InForce(evs, k) <==>
      InForce(evs[..|evs| - 1], k) && !AppliedAt(evs, |evs| - 1) && !Bumps(evs[|evs| - 1])
  {
    var before := evs[..|evs| - 1];
    forall i: nat | i < |before| ensures AppliedAt(before, i) <==> AppliedAt(evs, i) {
      AppliedBefore(evs, i);
    }
    assert QuietFrom(evs, k) <==> QuietFrom(before, k) && !Bumps(evs[|evs| - 1]) by {
      assert forall i :: 0 <= i < |before| ==> before[i] == evs[i];
    }
    hide AppliedAt, QuietFrom, Bumps;
  }

  // After a response that was applied some response is in force until the next event.
  lemma {:induction false} SomeInForce(evs: seq<Event>, i: nat) returns (j: nat)
    requires AppliedAt(evs, i) && QuietFrom(evs, i)
    ensures i <= j && InForce(evs, j)
  {
    var n := |evs| - 1;
    if AppliedAt(evs, n) {
      j := n;
    } else {
      AppliedBefore(evs, i);
      assert QuietFrom(evs[..n], i) by {
        assert forall k :: 0 <= k < n ==> evs[..n][k] == evs[k];
      }
      j := SomeInForce(evs[..n], i);
      InForceBefore(evs, j);
    }
  }

  lemma {:induction false} InForceIsOrigin(evs: seq<Event>, j: nat)
    requires InForce(evs, j)
    ensures OriginOf(evs) == Origin(AskedAt(evs, j), evs[j].users)
  {
    var n := |evs| - 1;
    if j < n {
      InForceBefore(evs, j);
      AppliedBefore(evs, j);
      InForceIsOrigin(evs[..n], j);
    }
  }

  lemma InForceIsOnline(evs: seq<Event>, j: nat)
    requires InForce(evs, j)
    ensures Run(evs).online == evs[j].users
  {
    var q := AskedAt(evs, j);
    InForceIsOrigin(evs, j);
    OnlineIsSnapshotPlusEvents(evs);
    forall i | 0 <= i < |evs[q..]| ensures !Bumps(evs[q..][i]) {
      assert q + i < j ==> !Bumps(evs[..j][q + i]);
    }
    FoldQuiet(evs[j].users, evs[q..]);
  }

  // In every run, the contents are older than a snapshot applied since the last event if and only
  // if two refreshes of one quiet stretch were answered in reverse; they are then exactly what
  // the earlier request brought, however many refreshes overlap.
  lemma OlderSnapshotWins(evs: seq<Event>)
    ensures (exists i: nat :: NewerWasApplied(evs, i)) <==> exists i: nat, j: nat :: Reversed(evs, i, j)
    ensures forall i: nat, j: nat :: Reversed(evs, i, j) ==> Run(evs).online == evs[j].users
  {
    if exists i: nat :: NewerWasApplied(evs, i) {
      var i: nat :| NewerWasApplied(evs, i);
      var j := SomeInForce(evs, i);
      InForceIsOrigin(evs, j);
      assert Reversed(evs, i, j);
    }
    forall i: nat, j: nat | Reversed(evs, i, j)
      ensures NewerWasApplied(evs, i) && Run(evs).online == evs[j].users
    {
      InForceIsOrigin(evs, j);
      InForceIsOnline(evs, j);
      ReversedIsQuiet(evs, i, j);
    }
  }

  lemma ReversedIsQuiet(evs: seq<Event>, i: nat, j: nat)
    requires Reversed(evs, i, j)
    ensures QuietFrom(evs, i)
  {
    forall k | i <= k < |evs| ensures !Bumps(evs[k]) {
      if k < j {
        assert AskedAt(evs, j) <= k && evs[..j][k] == evs[k];
      }
    }
  }

  // It does happen: two refreshes with no event between them may answer in reverse.
  lemma OlderSnapshotExample()
    ensures var evs := [RefreshStarted(1), RefreshStarted(2), RefreshDone(2, {7})];
      && Run(evs).online == {7} && Run(evs + [RefreshDone(1, {})]).online == {}
      && Reversed(evs + [RefreshDone(1, {})], 2, 3)
  {
    var e1 := [RefreshStarted(1)];
    var e2 := e1 + [RefreshStarted(2)];
    var e3 := e2 + [RefreshDone(2, {7})];
    var e4 := e3 + [RefreshDone(1, {})];
    assert e1[..0] == [] && e2[..1] == e1 && e3[..2] == e2 && e4[..3] == e3;
    assert Run(e1) == State({}, 0, map[1 := 0], false);
    assert Run(e2) == State({}, 0, map[1 := 0, 2 := 0], false);
    assert Run(e3).online == {7} && Run(e3).revision == 0 && Run(e3).startedAt[1] == 0;
    assert e3 == [RefreshStarted(1), RefreshStarted(2), RefreshDone(2, {7})];
    assert RequestedAt(e2, 2) == 1 && e4[..2] == e2;
    assert RequestedAt(e1, 1) == 0;
    assert RequestedAt(e2, 1) == 0;
    assert RequestedAt(e3, 1) == 0;
    assert Fresh(e2, 2) && Fresh(e3, 1);
    assert AppliedAt(e4, 2) && AppliedAt(e4, 3);
    assert InForce(e4, 3);
  }
}

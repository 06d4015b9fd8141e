// Server-side renegotiation with one voice peer. The peer connection is reduced to the
// signalling states of RFC 8829, section 3.2, that the engine can put it in.

module VoiceSignaling {
  datatype Signaling = Stable | HaveLocalOffer | HaveRemoteOffer

  // `tasks` counts scheduled renegotiate goroutines; `offers` and `answers` count the server's
  // offers and the answers taken to them. `unserved` is history: the peer was asked to
  // renegotiate and no offer has been created since.
  datatype Sig = Sig(state: Signaling, pending: bool, closed: bool, tasks: nat, offers: nat,
                     answers: nat, unserved: bool)

  const NEW: Sig := Sig(Stable, false, false, 0, 0, 0, false)

  // The flags say whether the calls into the peer connection succeed: creating and installing
  // an offer, applying the remote description, creating and installing the answer.
  datatype Event =
    | Request(createOk: bool)
    | TaskRuns(createOk: bool)
    | Answer(applyOk: bool)
    | RemoteOffer(applyOk: bool, answerOk: bool)
    | Close

  function Renegotiate(s: Sig, createOk: bool): Sig {
    if s.closed then s
    else if s.state != Stable then s.(pending := true, unserved := true)
    else if !createOk then s.(unserved := true)
    else s.(state := HaveLocalOffer, offers := s.offers + 1, unserved := false)
  }

  function HandleAnswer(s: Sig, applyOk: bool): Sig {
    if s.closed || s.state != HaveLocalOffer || !applyOk then s
    else s.(state := Stable, answers := s.answers + 1,
      pending := false, tasks := if s.pending then s.tasks + 1 else s.tasks)
  }

  predicate OfferApplies(s: Sig, applyOk: bool) {
    !s.closed && s.state != HaveLocalOffer && applyOk
  }

  function HandleOffer(s: Sig, applyOk: bool, answerOk: bool): Sig {
    if !OfferApplies(s, applyOk) then s
    else s.(state := if answerOk then Stable else HaveRemoteOffer)
  }

  function Step(s: Sig, ev: Event): Sig {
    match ev
    case Request(ok) => Renegotiate(s, ok)
    case TaskRuns(ok) => if s.tasks == 0 then s else Renegotiate(s.(tasks := s.tasks - 1), ok)
    case Answer(ok) => HandleAnswer(s, ok)
    case RemoteOffer(applyOk, answerOk) => HandleOffer(s, applyOk, answerOk)
    case Close => s.(closed := true)
  }

  function RunFrom(s: Sig, evs: seq<Event>): Sig {
    if evs == [] then s else Step(RunFrom(s, evs[..|evs| - 1]), evs[|evs| - 1])
  }

  function Run(evs: seq<Event>): Sig {
    RunFrom(NEW, evs)
  }

  // ---------------------------------------------------------------- in place

  class Peer {
    var state: Signaling
    var pending: bool
    var closed: bool
    var tasks: nat
    var offers: nat
    var answers: nat
    ghost var unserved: bool

    constructor ()
      ensures View() == NEW
    {
      state, pending, closed := Stable, false, false;
      tasks, offers, answers, unserved := 0, 0, 0, false;
    }

    ghost function View(): Sig
      reads this
    {
      Sig(state, pending, closed, tasks, offers, answers, unserved)
    }

    // Says whether an offer went out.
    method RenegotiatePeer(createOk: bool) returns (offered: bool)
      modifies this
      ensures View() == Renegotiate(old(View()), createOk)
      ensures offered <==> offers == old(offers) + 1
    {
      offered := false;
      if closed {
        return;
      }
      unserved := true;
      if state != Stable {
        pending := true;
        return;
      }
      if !createOk {
        return;
      }
      state := HaveLocalOffer;
      offers := offers + 1;
      unserved := false;
      offered := true;
    }

    // `ok` is false when the source returns an error.
    method TakeAnswer(applyOk: bool) returns (ok: bool)
      modifies this
      ensures View() == HandleAnswer(old(View()), applyOk)
      ensures ok <==> answers == old(answers) + 1
    {
      ok := false;
      if closed || state != HaveLocalOffer || !applyOk {
        return;
      }
      state := Stable;
      answers := answers + 1;
      var wasPending := pending;
      pending := false;
      if wasPending {
        tasks := tasks + 1;
      }
      ok := true;
    }

    method RunTask(createOk: bool)
      modifies this
      ensures View() == Step(old(View()), TaskRuns(createOk))
    {
      if tasks > 0 {
        tasks := tasks - 1;
        var _ := RenegotiatePeer(createOk);
      }
    }

    method TakeOffer(applyOk: bool, answerOk: bool) returns (ok: bool)
      modifies this
      ensures View() == HandleOffer(old(View()), applyOk, answerOk)
      ensures ok <==> OfferApplies(old(View()), applyOk) && answerOk
    {
      ok := false;
      if closed || state == HaveLocalOffer || !applyOk {
        return;
      }
      state := HaveRemoteOffer;
      if answerOk {
        state := Stable;
        ok := true;
      }
    }

    method ClosePeer()
      modifies this`closed
      ensures View() == Step(old(View()), Close)
    {
      closed := true;
    }
  }

  // ---------------------------------------------------------------- results

  // At most one server offer is ever outstanding, and exactly while the state says so.
  lemma {:induction false} OneOfferOutstanding(evs: seq<Event>)
    ensures var s := Run(evs);
      s.offers == s.answers + if s.state == HaveLocalOffer then 1 else 0
  {
    if evs != [] {
      OneOfferOutstanding(evs[..|evs| - 1]);
    }
  }

  // A live peer was asked to renegotiate and nothing will make it: no offer is out whose answer
  // would trigger the follow-up, and no task is scheduled.
  predicate Lost(s: Sig) {
    s.unserved && !s.closed && !(s.pending && s.state == HaveLocalOffer) && s.tasks == 0
  }

  // The event asks for an offer that is neither created nor remembered to good effect.
  predicate Loses(s: Sig, ev: Event) {
    match ev
    case Request(ok) => !s.closed && s.tasks == 0 && (s.state == HaveRemoteOffer || (s.state == Stable && !ok))
    case TaskRuns(ok) => !s.closed && s.tasks == 1 && (s.state == HaveRemoteOffer || (s.state == Stable && !ok))
    case _ => false
  }

  predicate MakesOffer(s: Sig, ev: Event) {
    Step(s, ev).offers > s.offers
  }

  predicate Sound(s: Sig) {
    s.state == HaveLocalOffer && s.unserved && !s.closed ==> s.pending || s.tasks > 0
  }

  lemma {:induction false} RunsAreSound(evs: seq<Event>)
    ensures Sound(Run(evs))
  {
    if evs != [] {
      RunsAreSound(evs[..|evs| - 1]);
    }
  }

  // One step: a request is lost right after it exactly if the step loses it, or it was lost
  // before and the step neither creates an offer nor closes the peer.
  lemma LostStep(s: Sig, ev: Event)
    requires Sound(s)
    ensures Lost(Step(s, ev)) <==> Loses(s, ev) || (Lost(s) && !MakesOffer(s, ev) && !ev.Close?)
  {
  }

  ghost predicate LosesAt(evs: seq<Event>, i: nat) {
    && i < |evs| && Loses(Run(evs[..i]), evs[i])
    && forall j | i < j < |evs| :: !MakesOffer(Run(evs[..j]), evs[j]) && !evs[j].Close?
  }

  // In any run, a renegotiation request is lost exactly if some event lost it and no offer has
  // been created (and the peer not closed) since.
  lemma {:induction false} LostIff(evs: seq<Event>)
    ensures Lost(Run(evs)) <==> exists i :: LosesAt(evs, i)
  {
    if evs == [] {
      assert forall i: nat :: !LosesAt(evs, i);
    } else {
      var n := |evs| - 1;
      var before, ev := evs[..n], evs[n];
      LostIff(before);
      RunsAreSound(before);
      LostStep(Run(before), ev);
      forall i | 0 <= i < n
        ensures LosesAt(evs, i) <==> LosesAt(before, i) && !MakesOffer(Run(before), ev) && !ev.Close?
      {
        LosesAtExtends(evs, i);
      }
      assert LosesAt(evs, n) <==> Loses(Run(before), ev);
      hide LosesAt, Lost, Loses, Run;
    }
  }

  lemma LosesAtExtends(evs: seq<Event>, i: nat)
    requires i + 1 < |evs|
    ensures var n := |evs| - 1;
      LosesAt(evs, i) <==> LosesAt(evs[..n], i) && !MakesOffer(Run(evs[..n]), evs[n]) && !evs[n].Close?
  {
    var n := |evs| - 1;
    assert forall j | 0 <= j < n :: evs[..n][..j] == evs[..j] && evs[..n][j] == evs[j];
    hide Loses, MakesOffer, Run;
  }

  predicate Faultless(ev: Event) {
    match ev
    case Request(ok) => ok
    case TaskRuns(ok) => ok
    case RemoteOffer(_, answerOk) => answerOk
    case _ => true
  }

  // As long as creating offers and answers succeeds, no request is ever lost.
  lemma {:induction false} NothingLostWithoutFaults(evs: seq<Event>)
    requires forall ev | ev in evs :: Faultless(ev)
    ensures !Lost(Run(evs)) && Run(evs).state != HaveRemoteOffer
  {
    if evs != [] {
      var before := evs[..|evs| - 1];
      NothingLostWithoutFaults(before);
      RunsAreSound(before);
      assert Faultless(evs[|evs| - 1]);
    }
  }

  // What NothingLostWithoutFaults keeps from step to step, for machines that run many peers.
  predicate Calm(s: Sig) {
    Sound(s) && !Lost(s) && s.state != HaveRemoteOffer
  }

  predicate Balanced(s: Sig) {
    s.offers == s.answers + if s.state == HaveLocalOffer then 1 else 0
  }

  lemma StepKeepsBalance(s: Sig, ev: Event)
    ensures Balanced(s) ==> Balanced(Step(s, ev))
    ensures Calm(s) && Faultless(ev) ==> Calm(Step(s, ev))
  {
  }

  // With a fault it can happen: the answer to a client's offer fails, a track arrives, and the
  // client's next offer leaves the peer stable with the request only remembered in a flag that
  // nothing will read.
  lemma LostExample()
    ensures Lost(Run([RemoteOffer(true, false), Request(true), RemoteOffer(true, true)]))
  {
    var a, b, c := RemoteOffer(true, false), Request(true), RemoteOffer(true, true);
    assert RunFrom(NEW, []) == NEW && [] + [a] == [a] && [a] + [b] == [a, b] && [a, b] + [c] == [a, b, c];
    assert Lost(Step(Step(Step(NEW, a), b), c));
    hide RunFrom, Step;
    RunSnoc(NEW, [], a);
    RunSnoc(NEW, [a], b);
    RunSnoc(NEW, [a, b], c);
  }

  lemma RunSnoc(s: Sig, evs: seq<Event>, ev: Event)
    ensures RunFrom(s, evs + [ev]) == Step(RunFrom(s, evs), ev)
  {
    assert (evs + [ev])[..|evs|] == evs;
  }

  // ---------------------------------------------------------------- coalescing

  function TasksIn(evs: seq<Event>): nat {
    if evs == [] then 0 else TasksIn(evs[..|evs| - 1]) + if evs[|evs| - 1].TaskRuns? then 1 else 0
  }

  function Left(tasks: nat, run: nat): nat {
    if run <= tasks then tasks - run else 0
  }

  // A renegotiation is wanted: by a request, or by a task that was scheduled before and runs now.
  ghost predicate Wanted(s: Sig, evs: seq<Event>) {
    exists i :: 0 <= i < |evs| && (evs[i].Request? || (evs[i].TaskRuns? && s.tasks > 0))
  }

  // While an offer is outstanding, whatever happens short of its answer or the end of the peer
  // creates no offer; it uses up scheduled tasks and remembers that an offer is wanted.
  lemma {:induction false} NoOfferMeanwhile(s: Sig, evs: seq<Event>)
    requires s.state == HaveLocalOffer && !s.closed
    requires Answer(true) !in evs && Close !in evs
    ensures RunFrom(s, evs) ==
      s.(pending := s.pending || Wanted(s, evs), unserved := s.unserved || Wanted(s, evs),
         tasks := Left(s.tasks, TasksIn(evs)))
  {
    if evs == [] {
    } else {
      var before, ev := evs[..|evs| - 1], evs[|evs| - 1];
      NoOfferMeanwhile(s, before);
      assert ev in evs;
      assert evs == before + [ev];
      WantedStep(s, before, ev);
      if s.tasks > 0 && TasksIn(before) > 0 {
        TaskIsWanted(s, before);
      }
      hide Wanted;
    }
  }

  lemma {:induction false} TaskIsWanted(s: Sig, evs: seq<Event>)
    requires s.tasks > 0 && TasksIn(evs) > 0
    ensures Wanted(s, evs)
  {
    var before, ev := evs[..|evs| - 1], evs[|evs| - 1];
    assert evs == before + [ev];
    WantedStep(s, before, ev);
    if !ev.TaskRuns? {
      TaskIsWanted(s, before);
    }
  }

  lemma WantedStep(s: Sig, evs: seq<Event>, ev: Event)
    ensures Wanted(s, evs + [ev]) <==> Wanted(s, evs) || ev.Request? || (ev.TaskRuns? && s.tasks > 0)
  {
    var all := evs + [ev];
    assert all[|evs|] == ev;
    if Wanted(s, evs) {
      var i :| 0 <= i < |evs| && (evs[i].Request? || (evs[i].TaskRuns? && s.tasks > 0));
      assert all[i] == evs[i];
    }
  }

  // How many offers are still to come once the outstanding one is answered: one for everything
  // wanted meanwhile, and at most one for each task scheduled earlier that has not run.
  ghost function FollowUps(s: Sig, evs: seq<Event>): nat {
    Left(s.tasks, TasksIn(evs)) + if s.pending || Wanted(s, evs) then 1 else 0
  }

  // The answer schedules exactly one task if an offer is wanted and none otherwise; the first
  // task to run makes one offer, and nothing else is left to do if and only if it was the only one.
  lemma AnswerSchedules(s: Sig, evs: seq<Event>)
    requires s.state == HaveLocalOffer && !s.closed
    requires Answer(true) !in evs && Close !in evs
    ensures var a := Step(RunFrom(s, evs), Answer(true));
      && a.state == Stable && !a.closed && !a.pending && a.tasks == FollowUps(s, evs)
      && a.offers == s.offers && a.answers == s.answers + 1
    ensures FollowUps(s, evs) > 0 ==>
      var o := Step(Step(RunFrom(s, evs), Answer(true)), TaskRuns(true));
      && o.state == HaveLocalOffer && o.offers == s.offers + 1 && !o.pending && !o.unserved
      && (o.tasks == 0 <==> FollowUps(s, evs) == 1)
  {
    NoOfferMeanwhile(s, evs);
  }

  // Scheduled tasks and answers run, offers and answers can be created, and nobody asks again.
  ghost predicate WindsDown(evs: seq<Event>) {
    forall ev :: ev in evs ==> !ev.Request? && !ev.Close? && Faultless(ev)
  }

  predicate Settled(s: Sig) {
    s.state == Stable && s.tasks == 0
  }

  // A stable peer with scheduled tasks makes an offer for the first one, at least one more for
  // the others, and never more than one for each.
  lemma {:induction false} TasksMakeOffers(s: Sig, evs: seq<Event>)
    requires s.state == Stable && !s.closed && !s.pending && WindsDown(evs)
    ensures var t := RunFrom(s, evs);
      var rest := t.tasks + if t.pending then 1 else 0;
      && !t.closed && t.state != HaveRemoteOffer && (t.pending ==> t.state == HaveLocalOffer)
      && s.offers <= t.offers && t.offers + rest <= s.offers + s.tasks
      && (t.offers == s.offers ==> t.state == Stable && rest == s.tasks)
      && (t.offers == s.offers + 1 && s.tasks >= 2 ==> rest >= 1)
  {
    if evs == [] {
    } else {
      var before, ev := evs[..|evs| - 1], evs[|evs| - 1];
      assert ev in evs;
      assert forall e :: e in before ==> e in evs;
      TasksMakeOffers(s, before);
      hide WindsDown;
    }
  }

  // Each task run and answered in turn.
  function InTurn(n: nat): seq<Event> {
    if n == 0 then [] else InTurn(n - 1) + [TaskRuns(true)] + [Answer(true)]
  }

  lemma {:induction false} InTurnWindsDown(n: nat)
    ensures WindsDown(InTurn(n))
  {
    if n == 0 {
    } else {
      InTurnWindsDown(n - 1);
      forall ev | ev in InTurn(n) ensures !ev.Request? && !ev.Close? && Faultless(ev) {
        assert ev in InTurn(n - 1) || ev == TaskRuns(true) || ev == Answer(true);
      }
    }
  }

  // A peer can always wind down, and then each task may have made an offer of its own.
  lemma {:induction false} TasksInTurn(s: Sig, n: nat)
    requires s.state == Stable && !s.closed && !s.pending && n <= s.tasks
    ensures WindsDown(InTurn(n))
    ensures var t := RunFrom(s, InTurn(n));
      t.state == Stable && !t.closed && !t.pending && t.tasks == s.tasks - n && t.offers == s.offers + n
  {
    InTurnWindsDown(n);
    hide WindsDown;
    if n == 0 {
    } else {
      TasksInTurn(s, n - 1);
      RunSnoc(s, InTurn(n - 1), TaskRuns(true));
      RunSnoc(s, InTurn(n - 1) + [TaskRuns(true)], Answer(true));
      hide RunFrom;
    }
  }

  // Requests during one outstanding offer coalesce: after its answer, and once the peer has wound
  // down, at most FollowUps offers have been made, and exactly one if and only if that number is
  // one. So any positive number of requests makes exactly one follow-up offer if and only if no
  // earlier task is still scheduled; with one left over there are at least two.
  lemma RequestsCoalesce(s: Sig, evs: seq<Event>, more: seq<Event>)
    requires s.state == HaveLocalOffer && !s.closed
    requires Answer(true) !in evs && Close !in evs
    requires WindsDown(more) && Settled(RunFrom(Step(RunFrom(s, evs), Answer(true)), more))
    ensures var made := RunFrom(Step(RunFrom(s, evs), Answer(true)), more).offers - s.offers;
      && 0 <= made <= FollowUps(s, evs)
      && (made == 0 <==> FollowUps(s, evs) == 0)
      && (made == 1 <==> FollowUps(s, evs) == 1)
      && (s.pending || Wanted(s, evs) ==> (made == 1 <==> Left(s.tasks, TasksIn(evs)) == 0))
  {
    AnswerSchedules(s, evs);
    TasksMakeOffers(Step(RunFrom(s, evs), Answer(true)), more);
    hide Wanted, WindsDown, RunFrom;
  }

  // The task of an earlier follow-up has not run yet when a request creates the next offer.
  const OVERLAPPING: seq<Event> := [] + [Request(true)] + [Request(true)] + [Answer(true)] + [Request(true)]

  const WINDING_DOWN: seq<Event> :=
    [] + [TaskRuns(true)] + [TaskRuns(true)] + [Answer(true)] + [TaskRuns(true)] + [Answer(true)]

  // From there a single further request ends in two follow-up offers.
  lemma TwoFollowUpsRun()
    ensures var s := Run(OVERLAPPING);
      var t := RunFrom(Step(RunFrom(s, [Request(true)]), Answer(true)), WINDING_DOWN);
      && s.state == HaveLocalOffer && !s.closed && s.tasks == 1
      && Settled(t) && t.offers == s.offers + 2
  {
    var ask, task, answer := Request(true), TaskRuns(true), Answer(true);
    var s := NEW.(state := HaveLocalOffer, tasks := 1, offers := 2, answers := 1);
    assert RunFrom(NEW, []) == NEW;
    RunSnoc(NEW, [], ask);
    RunSnoc(NEW, [] + [ask], ask);
    RunSnoc(NEW, [] + [ask] + [ask], answer);
    RunSnoc(NEW, [] + [ask] + [ask] + [answer], ask);
    assert Run(OVERLAPPING) == s;
    var a := Step(Step(s, ask), answer);
    assert RunFrom(s, []) == s && [] + [ask] == [ask] && RunFrom(a, []) == a;
    RunSnoc(s, [], ask);
    RunSnoc(a, [], task);
    RunSnoc(a, [] + [task], task);
    RunSnoc(a, [] + [task] + [task], answer);
    RunSnoc(a, [] + [task] + [task] + [answer], task);
    RunSnoc(a, [] + [task] + [task] + [answer] + [task], answer);
    hide RunFrom;
  }
}

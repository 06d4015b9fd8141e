// The speaking indicator: threshold hysteresis with a silence hold.

module VoiceActivity {
  datatype Params = Params(startThreshold: real, stopThreshold: real, silenceSamplesToStop: int)

  datatype State = State(speaking: bool, silentSamples: int)

  const IDLE: State := State(false, 0)

  function Update(p: Params, s: State, level: real): State {
    if level > p.startThreshold then State(true, 0)
    else if s.speaking && level < p.stopThreshold then
      if s.silentSamples + 1 >= p.silenceSamplesToStop then IDLE else State(true, s.silentSamples + 1)
    else if s.speaking then State(true, 0)
    else s
  }

  function Run(p: Params, levels: seq<real>): State {
    if levels == [] then IDLE else Update(p, Run(p, levels[..|levels| - 1]), levels[|levels| - 1])
  }

  class Detector {
    const p: Params
    var speaking: bool
    var silentSamples: int

    constructor (p: Params)
      ensures this.p == p && View() == IDLE
    {
      this.p, speaking, silentSamples := p, false, 0;
    }

    function View(): State
      reads this
    {
      State(speaking, silentSamples)
    }

    method Sample(level: real) returns (now: bool)
      modifies this
      ensures View() == Update(p, old(View()), level) && now == speaking
    {
      if level > p.startThreshold {
        speaking := true;
        silentSamples := 0;
      } else if speaking && level < p.stopThreshold {
        silentSamples := silentSamples + 1;
        if silentSamples >= p.silenceSamplesToStop {
          speaking := false;
          silentSamples := 0;
        }
      } else if speaking {
        silentSamples := 0;
      }
      return speaking;
    }

    method Reset()
      modifies this
      ensures View() == IDLE
    {
      speaking := false;
      silentSamples := 0;
    }
  }

  // ---------------------------------------------------------------- whole traces

  predicate Loud(p: Params, x: real) {
    x > p.startThreshold
  }

  // A sample that counts towards the silence hold. With stop <= start it is simply one below
  // the stop threshold.
  predicate Quiet(p: Params, x: real) {
    !Loud(p, x) && x < p.stopThreshold
  }

  // A hold of fewer than one sample acts as one sample.
  function Hold(p: Params): nat {
    if p.silenceSamplesToStop < 1 then 1 else p.silenceSamplesToStop
  }

  ghost predicate QuietWindow(p: Params, levels: seq<real>, j: nat) {
    j + Hold(p) <= |levels| && forall i :: j <= i < j + Hold(p) ==> Quiet(p, levels[i])
  }

  // Some sample was loud and no later window of the hold's length was quiet throughout.
  ghost predicate SpokeAt(p: Params, levels: seq<real>, i: nat) {
    i < |levels| && Loud(p, levels[i]) && forall j: nat :: i < j ==> !QuietWindow(p, levels, j)
  }

  function TrailingQuiet(p: Params, levels: seq<real>): (n: nat)
    ensures n <= |levels|
    ensures forall i :: |levels| - n <= i < |levels| ==> Quiet(p, levels[i])
    ensures n < |levels| ==> !Quiet(p, levels[|levels| - n - 1])
  {
    if levels == [] || !Quiet(p, levels[|levels| - 1]) then 0
    else 1 + TrailingQuiet(p, levels[..|levels| - 1])
  }

  // Windows of the longer trace are those of the shorter one and the one that ends with it.
  lemma WindowAppend(p: Params, levels: seq<real>, x: real, j: nat)
    ensures QuietWindow(p, levels, j) ==> QuietWindow(p, levels + [x], j)
    ensures QuietWindow(p, levels + [x], j) ==>
      QuietWindow(p, levels, j) || (j + Hold(p) == |levels| + 1 && TrailingQuiet(p, levels + [x]) >= Hold(p))
  {
    var all := levels + [x];
    if QuietWindow(p, levels, j) {
      forall i | j <= i < j + Hold(p) ensures Quiet(p, all[i]) { assert all[i] == levels[i]; }
    }
    if QuietWindow(p, all, j) {
      if j + Hold(p) <= |levels| {
        forall i | j <= i < j + Hold(p) ensures Quiet(p, levels[i]) { assert all[i] == levels[i]; }
      } else {
        var n := TrailingQuiet(p, all);
        assert n < |all| ==> |all| - n - 1 < j;
      }
    }
  }

  lemma SpokeAppendQuieter(p: Params, levels: seq<real>, x: real, i: nat)
    requires !Loud(p, x)
    ensures SpokeAt(p, levels + [x], i) <==>
      SpokeAt(p, levels, i) && TrailingQuiet(p, levels + [x]) < Hold(p)
  {
    var all := levels + [x];
    var n := TrailingQuiet(p, all);
    if SpokeAt(p, all, i) {
      assert all[i] == levels[i];
      forall j: nat | i < j ensures !QuietWindow(p, levels, j) { WindowAppend(p, levels, x, j); }
    }
    if n >= Hold(p) && i < |all| {
      var j := |all| - Hold(p);
      assert QuietWindow(p, all, j);
      assert j <= i ==> Quiet(p, all[i]);
    }
    if SpokeAt(p, levels, i) && n < Hold(p) {
      assert all[i] == levels[i];
      forall j: nat | i < j ensures !QuietWindow(p, all, j) { WindowAppend(p, levels, x, j); }
    }
  }

  // After any levels since construction or a reset, for any thresholds and any hold: the
  // indicator is on exactly when some sample was loud and no later quiet window completed.
  lemma {:induction false} SpeakingTrace(p: Params, levels: seq<real>)
    ensures Run(p, levels).speaking <==> exists i: nat :: SpokeAt(p, levels, i)
    ensures Run(p, levels).speaking ==> Run(p, levels).silentSamples == TrailingQuiet(p, levels) < Hold(p)
    ensures !Run(p, levels).speaking ==> Run(p, levels).silentSamples == 0
  {
    if levels != [] {
      var before, x := levels[..|levels| - 1], levels[|levels| - 1];
      assert levels == before + [x];
      SpeakingTrace(p, before);
      if Loud(p, x) {
        assert SpokeAt(p, levels, |before|);
      } else {
        forall i: nat
          ensures SpokeAt(p, levels, i) <==> SpokeAt(p, before, i) && TrailingQuiet(p, levels) < Hold(p)
        {
          SpokeAppendQuieter(p, before, x, i);
        }
        assert TrailingQuiet(p, levels) == if Quiet(p, x) then 1 + TrailingQuiet(p, before) else 0;
        if Run(p, before).speaking {
          var i: nat :| SpokeAt(p, before, i);
          assert SpokeAt(p, levels, i) <==> TrailingQuiet(p, levels) < Hold(p);
        }
      }
    }
  }
}

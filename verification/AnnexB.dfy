// The WebRTC player's video path: Annex B byte streams and sample timing. The splitter follows
// sections B.1.1, B.1.2 and 7.4.1 of ITU-T H.264.

module AnnexB {
  import opened Bytes
  import opened MediaTypes

  const SECOND: int := 1_000_000_000

  // ---------------------------------------------------------------- the byte stream

  function Join(parts: seq<seq<byte>>): seq<byte> {
    if parts == [] then [] else Join(parts[..|parts| - 1]) + [0, 0, 0, 1] + parts[|parts| - 1]
  }

  function Parts(f: Frame, sps: seq<byte>, pps: seq<byte>): seq<seq<byte>> {
    (if f.keyFrame then [sps, pps] else []) + f.nalus
  }

  // 00 00 00 or 00 00 01.
  predicate StopsAt(b: seq<byte>, i: nat) {
    i + 2 < |b| && b[i] == 0 && b[i + 1] == 0 && b[i + 2] <= 1
  }

  // The bytes before the next stop or the end of the stream.
  function NalLength(b: seq<byte>): (n: nat)
    ensures n <= |b|
  {
    if |b| < 3 then |b| else if StopsAt(b, 0) then 0 else 1 + NalLength(b[1..])
  }

  // Skips zero bytes up to and including a three-byte start code.
  function AfterStartCode(b: seq<byte>): (r: Option<seq<byte>>)
    ensures r.Some? ==> |r.value| + 3 <= |b|
  {
    if |b| < 3 || b[0] != 0 then None
    else if b[1] == 0 && b[2] == 1 then Some(b[3..])
    else AfterStartCode(b[1..])
  }

  // An empty NAL unit is malformed: it lacks the one-byte header.
  function Split(b: seq<byte>): Option<seq<seq<byte>>>
    decreases |b|
  {
    if forall x :: x in b ==> x == 0 then Some([]) else
      match AfterStartCode(b)
      case None => None
      case Some(rest) =>
        var n := NalLength(rest);
        if n == 0 then None else
          match Split(Skip(rest, n))
          case None => None
          case Some(parts) => Some([Take(rest, n)] + parts)
  }

  // What emulation prevention guarantees for one NAL unit.
  ghost predicate Clean(p: seq<byte>) {
    forall i: nat :: i < |p| ==> !StopsAt(p, i)
  }

  ghost predicate EndsInZero(p: seq<byte>) {
    p != [] && p[|p| - 1] == 0
  }

  // NAL units that survive the byte stream; only the last one may end in a zero byte.
  ghost predicate Separable(parts: seq<seq<byte>>) {
    forall i :: 0 <= i < |parts| ==>
      parts[i] != [] && Clean(parts[i]) && (i + 1 < |parts| ==> !EndsInZero(parts[i]))
  }

  lemma JoinAppend(parts: seq<seq<byte>>, p: seq<byte>)
    ensures Join(parts + [p]) == Join(parts) + [0, 0, 0, 1] + p
  {
    assert (parts + [p])[..|parts|] == parts;
  }

  lemma JoinOfNothing()
    ensures Join([]) == []
  {
  }

  lemma {:induction false} JoinFront(p: seq<byte>, parts: seq<seq<byte>>)
    ensures Join([p] + parts) == [0, 0, 0, 1] + (p + Join(parts))
  {
    if parts == [] {
      assert [p] + parts == [] + [p] && Join([]) == [];
      JoinAppend([], p);
      hide *;
    } else {
      var before, last := parts[..|parts| - 1], parts[|parts| - 1];
      JoinFront(p, before);
      assert parts == before + [last] && [p] + parts == ([p] + before) + [last];
      hide *;
      JoinAppend(before, last);
      JoinAppend([p] + before, last);
      Regroup([0, 0, 0, 1], p, Join(before), [0, 0, 0, 1], last);
    }
  }

  lemma Regroup(a: seq<byte>, b: seq<byte>, c: seq<byte>, d: seq<byte>, e: seq<byte>)
    ensures (a + (b + c)) + d + e == a + (b + (c + d + e))
  {
  }

  // A stop inside p, or straddling its end, is a stop in p followed by a start code.
  lemma StopInPart(p: seq<byte>, rest: seq<byte>)
    requires p != [] && (rest == [] || (|rest| >= 4 && rest[..4] == [0, 0, 0, 1]))
    ensures StopsAt(p + rest, 0) ==> StopsAt(p, 0) || (rest != [] && EndsInZero(p))
    ensures StopsAt(p, 0) ==> StopsAt(p + rest, 0)
    ensures rest != [] && |p| == 1 && EndsInZero(p) ==> StopsAt(p + rest, 0)
  {
    if rest != [] { assert rest[0] == rest[..4][0] && rest[1] == rest[..4][1]; }
  }

  lemma CleanTail(p: seq<byte>)
    requires p != []
    ensures Clean(p) <==> !StopsAt(p, 0) && Clean(p[1..])
  {
    if Clean(p) {
      forall i: nat | i < |p[1..]| ensures !StopsAt(p[1..], i) { assert !StopsAt(p, i + 1); }
    }
    if !StopsAt(p, 0) && Clean(p[1..]) {
      forall i: nat | i < |p| ensures !StopsAt(p, i) { if i > 0 { assert !StopsAt(p[1..], i - 1); } }
    }
  }

  // The splitter finds the end of p exactly when p hides no stop and does not run into one.
  lemma {:induction false} NalLengthExact(p: seq<byte>, rest: seq<byte>)
    requires rest == [] || (|rest| >= 4 && rest[..4] == [0, 0, 0, 1])
    ensures NalLength(p + rest) == |p| <==> Clean(p) && (rest == [] || !EndsInZero(p))
  {
    var b := p + rest;
    if p == [] {
      assert b == rest;
      if rest != [] { assert rest[0] == rest[..4][0] && rest[1] == rest[..4][1] && rest[2] == rest[..4][2]; }
    } else {
      StopInPart(p, rest);
      CleanTail(p);
      NalLengthExact(p[1..], rest);
      assert b[1..] == p[1..] + rest;
    }
  }

  lemma SplitFront(p: seq<byte>, tail: seq<byte>)
    ensures var b, n := [0, 0, 0, 1] + (p + tail), NalLength(p + tail);
      Split(b) == if n == 0 || Split(Skip(p + tail, n)).None? then None
                  else Some([Take(p + tail, n)] + Split(Skip(p + tail, n)).value)
  {
    var b := [0, 0, 0, 1] + (p + tail);
    assert b[3] == 1 && 1 in b;
    assert b[1..][3..] == p + tail;
    assert AfterStartCode(b[1..]) == Some(p + tail);
    assert AfterStartCode(b) == Some(p + tail);
  }

  lemma SeparableFront(p: seq<byte>, parts: seq<seq<byte>>)
    ensures Separable([p] + parts) <==>
      p != [] && Clean(p) && (parts == [] || !EndsInZero(p)) && Separable(parts)
  {
    var all := [p] + parts;
    if Separable(all) {
      assert all[0] == p;
      forall i | 0 <= i < |parts|
        ensures parts[i] != [] && Clean(parts[i]) && (i + 1 < |parts| ==> !EndsInZero(parts[i]))
      {
        assert all[i + 1] == parts[i];
      }
    }
    if p != [] && Clean(p) && (parts == [] || !EndsInZero(p)) && Separable(parts) {
      forall i | 0 <= i < |all|
        ensures all[i] != [] && Clean(all[i]) && (i + 1 < |all| ==> !EndsInZero(all[i]))
      {
        if i > 0 { assert all[i] == parts[i - 1]; }
      }
    }
  }

  // Splitting on start codes returns the NAL list for exactly the separable lists.
  lemma {:induction false} AnnexBRoundTrip(parts: seq<seq<byte>>)
    ensures Split(Join(parts)) == Some(parts) <==> Separable(parts)
  {
    if parts != [] {
      var p, rest := parts[0], parts[1..];
      assert parts == [p] + rest;
      JoinFront(p, rest);
      SeparableFront(p, rest);
      AnnexBRoundTrip(rest);
      JoinStart(rest);
      NalLengthExact(p, Join(rest));
      SplitFront(p, Join(rest));
      hide Separable, Clean, Join;
      if NalLength(p + Join(rest)) == |p| {
        Cut(p, Join(rest));
      } else if Split(Join(parts)).Some? {
        assert |Split(Join(parts)).value[0]| != |p|;
      }
    }
  }

  lemma JoinStart(parts: seq<seq<byte>>)
    ensures parts == [] ==> Join(parts) == []
    ensures parts != [] ==> |Join(parts)| >= 4 && Join(parts)[..4] == [0, 0, 0, 1]
  {
    if parts != [] {
      JoinFront(parts[0], parts[1..]);
      assert parts == [parts[0]] + parts[1..];
    }
  }

  // annexB: `capacity` is the size computed before the buffer is filled.
  method Annexb(frame: Frame, sps: seq<byte>, pps: seq<byte>) returns (result: seq<byte>, capacity: nat)
    ensures result == Join(Parts(frame, sps, pps))
    ensures |result| == capacity
  {
    var parts: seq<seq<byte>> := [];
    if frame.keyFrame {
      parts := parts + [sps, pps];
    }
    parts := parts + frame.nalus;
    assert parts == Parts(frame, sps, pps) && parts[..0] == [];
    hide Join, Parts;
    JoinOfNothing();
    capacity := JoinedSize(parts);
    result := [];
    for i := 0 to |parts|
      invariant result == Join(parts[..i])
    {
      assert parts[..i + 1] == parts[..i] + [parts[i]];
      JoinAppend(parts[..i], parts[i]);
      result := result + [0, 0, 0, 1];
      result := result + parts[i];
    }
    assert parts[..|parts|] == parts;
  }

  method JoinedSize(parts: seq<seq<byte>>) returns (size: nat)
    ensures size == |Join(parts)|
  {
    size := 0;
    for i := 0 to |parts|
      invariant size == |Join(parts[..i])|
    {
      assert parts[..i + 1][..i] == parts[..i];
      size := size + 4 + |parts[i]|;
    }
    assert parts[..|parts|] == parts;
  }

  // ---------------------------------------------------------------- samples

  datatype Sample = Sample(data: seq<byte>, duration: int)

  function FirstKeyFrame(frames: seq<Frame>): (n: nat)
    ensures n <= |frames|
    ensures forall i :: 0 <= i < n ==> !frames[i].keyFrame
    ensures n < |frames| ==> frames[n].keyFrame
  {
    if frames == [] || frames[0].keyFrame then 0 else 1 + FirstKeyFrame(frames[1..])
  }

  function DurationAfter(lastDTS: int, dts: int): int {
    if lastDTS >= 0 && dts > lastDTS then dts - lastDTS else SECOND / 30
  }

  function SampleAt(frames: seq<Frame>, i: nat, sps: seq<byte>, pps: seq<byte>): Sample
    requires i < |frames|
  {
    Sample(Join(Parts(frames[i], sps, pps)), DurationAfter(if i == 0 then -1 else frames[i - 1].dts, frames[i].dts))
  }

  // writeStream: `accepts` is how many samples the track takes before a write fails for good.
  method WriteStream(frames: seq<Frame>, sps: seq<byte>, pps: seq<byte>, accepts: nat) returns (samples: seq<Sample>)
    ensures var shown := frames[FirstKeyFrame(frames)..];
      && |samples| == (if |shown| <= accepts then |shown| else accepts)
      && forall i :: 0 <= i < |samples| ==> samples[i] == SampleAt(shown, i, sps, pps)
  {
    ghost var k := FirstKeyFrame(frames);
    var started := false;
    var lastDTS := -1;
    samples := [];
    var n := 0;
    while n < |frames|
      invariant n <= |frames|
      invariant started == (k < n)
      invariant started ==> |samples| == n - k && lastDTS == frames[n - 1].dts
      invariant !started ==> samples == [] && lastDTS == -1
      invariant |samples| <= accepts
      invariant forall i :: 0 <= i < |samples| ==> samples[i] == SampleAt(frames[k..], i, sps, pps)
    {
      var frame := frames[n];
      n := n + 1;
      if !started {
        if !frame.keyFrame {
          continue;
        }
        started := true;
      }
      var duration := SECOND / 30;
      if lastDTS >= 0 && frame.dts > lastDTS {
        duration := frame.dts - lastDTS;
      }
      lastDTS := frame.dts;
      var payload, _ := Annexb(frame, sps, pps);
      if |samples| == accepts {
        return;
      }
      assert frames[k..][|samples|] == frame;
      assert Sample(payload, duration) == SampleAt(frames[k..], |samples|, sps, pps);
      samples := samples + [Sample(payload, duration)];
    }
  }

  function TotalDuration(frames: seq<Frame>, n: nat, sps: seq<byte>, pps: seq<byte>): int
    requires n <= |frames|
  {
    if n == 0 then 0 else TotalDuration(frames, n - 1, sps, pps) + SampleAt(frames, n - 1, sps, pps).duration
  }

  // With increasing decode times the durations add up to the elapsed decode time plus the
  // nominal thirtieth of a second that stands in for the first frame.
  lemma {:induction false} DurationsTelescope(frames: seq<Frame>, n: nat, sps: seq<byte>, pps: seq<byte>)
    requires 1 <= n <= |frames| && frames[0].dts >= 0
    requires forall i :: 0 <= i < |frames| - 1 ==> frames[i].dts < frames[i + 1].dts
    ensures frames[n - 1].dts >= 0
    ensures TotalDuration(frames, n, sps, pps) == SECOND / 30 + frames[n - 1].dts - frames[0].dts
  {
    hide Join;
    if n == 1 {
      assert TotalDuration(frames, 0, sps, pps) == 0;
    } else {
      DurationsTelescope(frames, n - 1, sps, pps);
      assert frames[n - 2].dts < frames[n - 2 + 1].dts;
    }
  }

  // Each sample of a well-formed key or delta frame splits back into the frame's NAL units,
  // behind SPS and PPS on a keyframe.
  lemma SampleSplits(frames: seq<Frame>, i: nat, sps: seq<byte>, pps: seq<byte>)
    requires i < |frames|
    ensures Split(SampleAt(frames, i, sps, pps).data) ==
      Some((if frames[i].keyFrame then [sps, pps] else []) + frames[i].nalus)
      <==> Separable(Parts(frames[i], sps, pps))
  {
    AnnexBRoundTrip(Parts(frames[i], sps, pps));
  }
}

// The FLV muxer over a connection that may break, and the HTTP-FLV loop that relays one
// subscription through it.

module HttpFlv {
  import opened Bytes
  import opened MediaTypes
  import opened FlvFormat

  // A connection that takes `room` more bytes and then fails.
  class Writer {
    var out: seq<byte>
    var room: nat

    constructor (room: nat)
      ensures out == [] && this.room == room
    {
      out, this.room := [], room;
    }

    method Write(b: seq<byte>) returns (ok: bool)
      modifies this
      ensures Wrote(old(out), old(room), out, room, b, ok)
    {
      ok := |b| <= room;
      var n := if ok then |b| else room;
      out := out + b[..n];
      room := room - n;
    }
  }

  // Offering `b` succeeds exactly when it fits; otherwise the part that fits is sent.
  ghost predicate Wrote(before: seq<byte>, room: nat, after: seq<byte>, left: nat, b: seq<byte>, ok: bool) {
    && ok == (|b| <= room)
    && after == before + (if ok then b else b[..room])
    && left == if ok then room - |b| else 0
  }

  lemma WroteBoth(o: seq<byte>, r: nat, o1: seq<byte>, r1: nat, o2: seq<byte>, r2: nat,
                  x: seq<byte>, y: seq<byte>, ok: bool)
    requires Wrote(o, r, o1, r1, x, true) && Wrote(o1, r1, o2, r2, y, ok)
    ensures Wrote(o, r, o2, r2, x + y, ok)
  {
    if !ok { assert (x + y)[..r] == x + y[..r1]; }
  }

  lemma WroteFirst(o: seq<byte>, r: nat, o1: seq<byte>, r1: nat, x: seq<byte>, y: seq<byte>)
    requires Wrote(o, r, o1, r1, x, false)
    ensures Wrote(o, r, o1, r1, x + y, false)
  {
    assert (x + y)[..r] == x[..r];
  }

  method PutUint24(dst: array<byte>, at: nat, value: nat)
    requires at + 3 <= dst.Length
    modifies dst
    ensures dst[..] == old(dst[..at]) + BE24(value) + old(dst[at + 3..])
  {
    dst[at] := ByteAt(value, TWO16);
    dst[at + 1] := ByteAt(value, 0x100);
    dst[at + 2] := ByteAt(value, 1);
  }

  method FrameSize(nalus: seq<seq<byte>>) returns (size: nat)
    ensures size == |NalList(nalus)|
  {
    size := 0;
    for i := 0 to |nalus|
      invariant size == |NalList(nalus[..i])|
    {
      assert nalus[..i + 1][..i] == nalus[..i];
      size := size + 4 + |nalus[i]|;
    }
    assert nalus[..|nalus|] == nalus;
  }

  class Muxer {
    const w: Writer

    constructor (w: Writer)
      ensures this.w == w
    {
      this.w := w;
    }

    method WriteTag(kind: byte, timestamp: nat, body: seq<byte>) returns (ok: bool)
      requires timestamp < TWO32
      modifies w
      ensures Wrote(old(w.out), old(w.room), w.out, w.room, TagBytes(kind, timestamp, body), ok)
    {
      ghost var o, r := w.out, w.room;
      var header := TagHeader(kind, timestamp, |body|);
      ok := w.Write(header);
      if !ok {
        WroteFirst(o, r, w.out, w.room, header, body + BE32(11 + |body|));
        assert header + (body + BE32(11 + |body|)) == TagBytes(kind, timestamp, body);
        return;
      }
      ghost var o1, r1 := w.out, w.room;
      ok := w.Write(body);
      WroteBoth(o, r, o1, r1, w.out, w.room, header, body, ok);
      if !ok {
        WroteFirst(o, r, w.out, w.room, header + body, BE32(11 + |body|));
        return;
      }
      ghost var o2, r2 := w.out, w.room;
      ok := w.Write(BE32(11 + |body|));
      WroteBoth(o, r, o2, r2, w.out, w.room, header + body, BE32(11 + |body|), ok);
    }

    method TagHeader(kind: byte, timestamp: nat, size: nat) returns (header: seq<byte>)
      ensures header == TagHead(kind, timestamp, size)
    {
      var h := new byte[11](_ => 0);
      h[0] := kind;
      assert h[..] == [kind] + [0, 0, 0] + [0, 0, 0, 0, 0, 0, 0];
      PutUint24(h, 1, size);
      assert h[..] == [kind] + BE24(size) + [0, 0, 0] + [0, 0, 0, 0];
      PutUint24(h, 4, timestamp % TWO24);
      assert h[..] == ([kind] + BE24(size)) + BE24(timestamp % TWO24) + [0, 0, 0, 0];
      h[7] := ByteAt(timestamp, TWO24);
      header := h[..];
    }

    // A configuration the format cannot carry is refused before anything is written.
    method WriteHeader(c: Config) returns (ok: bool)
      modifies w
      ensures !ValidConfig(c) ==> !ok && w.out == old(w.out) && w.room == old(w.room)
      ensures ValidConfig(c) ==> Wrote(old(w.out), old(w.room), w.out, w.room, HeaderBytes(c), ok)
    {
      if |c.sps| < 4 || |c.pps| == 0 || |c.sps| > 0xffff || |c.pps| > 0xffff {
        return false;
      }
      ghost var o, r := w.out, w.room;
      var flags := if c.aac != [] then 5 else 1;
      ghost var sig, video, audio := Signature(flags), TagBytes(9, 0, VideoHeader(c)), AudioHeader(c);
      hide TagBytes, AvcRecord, AudioHeader, Wrote;
      assert HeaderBytes(c) == sig + video + audio;
      ok := w.Write(Signature(flags));
      if !ok {
        WroteFirst(o, r, w.out, w.room, sig, video + audio);
        assert sig + (video + audio) == sig + video + audio;
        return;
      }
      ghost var o1, r1 := w.out, w.room;
      ok := WriteTag(9, 0, [0x17, 0, 0, 0, 0] + AvcRecord(c.sps, c.pps));
      WroteBoth(o, r, o1, r1, w.out, w.room, sig, video, ok);
      if !ok {
        WroteFirst(o, r, w.out, w.room, sig + video, audio);
        return;
      }
      if c.aac != [] {
        ghost var o2, r2 := w.out, w.room;
        AudioHeaderIsTag(c);
        ok := WriteTag(8, 0, [0xaf, 0] + c.aac);
        WroteBoth(o, r, o2, r2, w.out, w.room, sig + video, audio, ok);
      } else {
        AudioHeaderIsTag(c);
        assert sig + video + audio == sig + video;
      }
    }

    lemma AudioHeaderIsTag(c: Config)
      ensures AudioHeader(c) == if c.aac == [] then [] else TagBytes(8, 0, [0xaf, 0] + c.aac)
    {
    }

    method WriteAudio(frame: AudioFrame) returns (ok: bool)
      modifies w
      ensures Wrote(old(w.out), old(w.room), w.out, w.room, InputBytes(AudioIn(frame)), ok)
    {
      if frame.data == [] {
        return true;
      }
      var body := [0xaf, 1];
      body := body + frame.data;
      ok := WriteTag(8, TruncDiv(frame.pts, MILLISECOND) % TWO32, body);
    }

    method AppendNalus(front: seq<byte>, nalus: seq<seq<byte>>) returns (body: seq<byte>)
      ensures body == front + NalList(nalus)
    {
      hide BE32;
      body := front;
      for i := 0 to |nalus|
        invariant body == front + NalList(nalus[..i])
      {
        assert nalus[..i + 1][..i] == nalus[..i];
        body := body + BE32(|nalus[i]|);
        body := body + nalus[i];
      }
      assert nalus[..|nalus|] == nalus;
    }

    method WriteFrame(frame: Frame) returns (ok: bool)
      modifies w
      ensures Wrote(old(w.out), old(w.room), w.out, w.room, InputBytes(FrameIn(frame)), ok)
    {
      if frame.nalus == [] {
        return true;
      }
      var body: seq<byte> := [];
      if frame.keyFrame {
        body := body + [0x17];
      } else {
        body := body + [0x27];
      }
      body := body + [1];
      var composition := TruncDiv(frame.pts - frame.dts, MILLISECOND);
      body := body + BE24(composition);
      assert body == [if frame.keyFrame then 0x17 else 0x27, 1] + BE24(Composition(frame));
      body := AppendNalus(body, frame.nalus);
      assert body == InputBody(FrameIn(frame));
      hide TagBytes, Wrote, InputBody;
      ok := WriteTag(9, TruncDiv(frame.dts, MILLISECOND) % TWO32, body);
    }
  }

  // ---------------------------------------------------------------- relaying one subscription

  // The outcomes of the loop's select, in the order it picks them.
  datatype Select = GotFrame(frame: Frame) | GotAudio(audio: AudioFrame) | Ended

  // The position of the first keyframe.
  function FirstKey(s: seq<Select>): (n: nat)
    ensures n <= |s|
    ensures forall i :: 0 <= i < n ==> !(s[i].GotFrame? && s[i].frame.keyFrame)
    ensures n < |s| ==> s[n].GotFrame? && s[n].frame.keyFrame
  {
    if s == [] then 0
    else if s[0].GotFrame? && s[0].frame.keyFrame then 0
    else 1 + FirstKey(s[1..])
  }

  function InputsOf(s: seq<Select>, audio: bool): seq<Input> {
    if s == [] then [] else
      InputsOf(s[..|s| - 1], audio) + InputOf(s[|s| - 1], audio)
  }

  // Nothing before the first keyframe; from it on, every frame, and every audio unit if the
  // source announced an audio configuration.
  function Forwarded(s: seq<Select>, audio: bool): seq<Input> {
    InputsOf(s[FirstKey(s)..], audio)
  }

  lemma {:induction false} FirstKeyAppend(s: seq<Select>, x: Select)
    ensures FirstKey(s + [x]) ==
      if FirstKey(s) < |s| then FirstKey(s) else if IsKey(x) then |s| else |s| + 1
  {
    if s != [] && !(s[0].GotFrame? && s[0].frame.keyFrame) {
      FirstKeyAppend(s[1..], x);
      assert (s + [x])[1..] == s[1..] + [x];
    } else if s == [] {
      assert (s + [x])[1..] == [];
    }
  }

  function InputOf(x: Select, audio: bool): seq<Input> {
    match x
    case GotFrame(f) => [FrameIn(f)]
    case GotAudio(a) => if audio then [AudioIn(a)] else []
    case Ended => []
  }

  lemma InputsAppend(s: seq<Select>, x: Select, audio: bool)
    ensures InputsOf(s + [x], audio) == InputsOf(s, audio) + InputOf(x, audio)
  {
    assert (s + [x])[..|s|] == s;
  }

  function IsKey(x: Select): bool {
    x.GotFrame? && x.frame.keyFrame
  }

  // What one more select adds to the output.
  lemma ForwardedAppend(s: seq<Select>, x: Select, audio: bool)
    ensures Forwarded(s + [x], audio) ==
      Forwarded(s, audio) + if FirstKey(s) < |s| || IsKey(x) then InputOf(x, audio) else []
  {
    var k, k' := FirstKey(s), FirstKey(s + [x]);
    FirstKeyAppend(s, x);
    assert Forwarded(s, audio) == InputsOf(s[k..], audio) &&
      Forwarded(s + [x], audio) == InputsOf((s + [x])[k'..], audio);
    assert InputsOf([], audio) == [];
    hide *;
    SuffixAppend(s, x, k);
    InputsAppend(s[k..], x, audio);
  }

  lemma SuffixAppend(s: seq<Select>, x: Select, k: nat)
    requires k <= |s|
    ensures (s + [x])[k..] == s[k..] + [x]
    ensures (s + [x])[|s| + 1..] == [] && (k == |s| ==> s[k..] == [])
  {
  }

  // What the response body should be after the first n selects.
  ghost function Response(c: Config, s: seq<Select>): seq<byte>
    requires ValidConfig(c)
  {
    HeaderBytes(c) + StreamBytes(Forwarded(s, c.aac != []))
  }

  // ProxyStream after a successful Subscribe. The loop takes what the select picks until the
  // viewer leaves, the stream ends or the connection breaks; `n` says how many it took.
  method ProxyStream(w: Writer, c: Config, selects: seq<Select>) returns (ok: bool, n: nat)
    modifies w
    ensures n <= |selects|
    ensures !ValidConfig(c) ==> !ok && n == 0 && w.out == old(w.out)
    ensures ValidConfig(c) ==> Wrote(old(w.out), old(w.room), w.out, w.room, Response(c, selects[..n]), ok)
    ensures Ended !in selects[..n]
    ensures ok ==> n == |selects| || selects[n].Ended?
  {
    n := 0;
    ghost var o, r := w.out, w.room;
    var muxer := new Muxer(w);
    ok := muxer.WriteHeader(c);
    assert selects[..0] == [];
    if ValidConfig(c) {
      assert StreamBytes(Forwarded([], c.aac != [])) == [] && HeaderBytes(c) + [] == HeaderBytes(c);
      assert Relayed(c, [], false, o, r, w.out, w.room, ok);
    }
    hide InputBytes, HeaderBytes, Wrote, Forwarded, FirstKey, Response, Relayed;
    var started := false;
    if ok {
      ok, n, started := Relay(muxer, c, selects, o, r);
    }
    if ValidConfig(c) {
      RelayedIsWrote(c, selects[..n], started, o, r, w.out, w.room, ok);
    }
  }

  // The selects in `done` have been relayed; `started` says whether one of them was a keyframe.
  ghost predicate Relayed(c: Config, done: seq<Select>, started: bool, o: seq<byte>,
                          r: nat, out: seq<byte>, room: nat, ok: bool) {
    && Sent(c, Forwarded(done, c.aac != []), o, r, out, room, ok)
    && started == (FirstKey(done) < |done|)
    && Ended !in done
  }

  ghost predicate RelayedTo(c: Config, selects: seq<Select>, n: nat, started: bool, o: seq<byte>,
                            r: nat, out: seq<byte>, room: nat, ok: bool) {
    n <= |selects| && Relayed(c, selects[..n], started, o, r, out, room, ok)
  }

  method Relay(muxer: Muxer, c: Config, selects: seq<Select>, ghost o: seq<byte>, ghost r: nat)
    returns (ok: bool, n: nat, started: bool)
    requires Relayed(c, [], false, o, r, muxer.w.out, muxer.w.room, true)
    modifies muxer.w
    ensures RelayedTo(c, selects, n, started, o, r, muxer.w.out, muxer.w.room, ok)
    ensures n <= |selects| && (ok ==> n == |selects| || selects[n].Ended?)
  {
    ok, n, started := true, 0, false;
    assert RelayedTo(c, selects, 0, false, o, r, muxer.w.out, muxer.w.room, true) by {
      assert selects[..0] == [];
      hide Relayed;
    }
    hide *;
    while ok && n < |selects| && !selects[n].Ended?
      invariant n <= |selects|
      invariant RelayedTo(c, selects, n, started, o, r, muxer.w.out, muxer.w.room, ok)
    {
      ok, started := RelayNext(muxer, c, selects, n, started, o, r);
      n := n + 1;
    }
  }

  method RelayNext(muxer: Muxer, c: Config, selects: seq<Select>, n: nat, started: bool,
                   ghost o: seq<byte>, ghost r: nat)
    returns (ok: bool, started': bool)
    requires n < |selects| && !selects[n].Ended?
    requires RelayedTo(c, selects, n, started, o, r, muxer.w.out, muxer.w.room, true)
    modifies muxer.w
    ensures RelayedTo(c, selects, n + 1, started', o, r, muxer.w.out, muxer.w.room, ok)
  {
    hide Relayed;
    assert selects[..n + 1] == selects[..n] + [selects[n]];
    ok, started' := RelayOne(muxer, c, selects[n], started, selects[..n], o, r);
  }

  // One round of the loop.
  method RelayOne(muxer: Muxer, c: Config, x: Select, started: bool,
                  ghost done: seq<Select>, ghost o: seq<byte>, ghost r: nat)
    returns (ok: bool, started': bool)
    requires !x.Ended? && Relayed(c, done, started, o, r, muxer.w.out, muxer.w.room, true)
    modifies muxer.w
    ensures Relayed(c, done + [x], started', o, r, muxer.w.out, muxer.w.room, ok)
  {
    ghost var inputs, o1, r1 := Forwarded(done, c.aac != []), muxer.w.out, muxer.w.room;
    FirstKeyAppend(done, x);
    ForwardedAppend(done, x, c.aac != []);
    hide InputBytes, HeaderBytes, Wrote, Forwarded, FirstKey, Sent;
    started' := started;
    ok := true;
    match x
    case GotFrame(frame) =>
      if !started {
        if !frame.keyFrame {
          assert inputs + [] == inputs;
          return;
        }
        started' := true;
      }
      ok := muxer.WriteFrame(frame);
      Extend(c, inputs, FrameIn(frame), o, r, o1, r1, muxer.w.out, muxer.w.room, ok);
    case GotAudio(a) =>
      assert inputs + [] == inputs;
      if started && |c.aac| != 0 {
        ok := muxer.WriteAudio(a);
        Extend(c, inputs, AudioIn(a), o, r, o1, r1, muxer.w.out, muxer.w.room, ok);
      }
  }

  ghost predicate Sent(c: Config, inputs: seq<Input>, o: seq<byte>, r: nat, out: seq<byte>, room: nat, ok: bool) {
    ValidConfig(c) && Wrote(o, r, out, room, HeaderBytes(c) + StreamBytes(inputs), ok)
  }

  lemma RelayedIsWrote(c: Config, done: seq<Select>, started: bool, o: seq<byte>, r: nat,
                       out: seq<byte>, room: nat, ok: bool)
    requires Relayed(c, done, started, o, r, out, room, ok)
    ensures ValidConfig(c) && Wrote(o, r, out, room, Response(c, done), ok) && Ended !in done
  {
    hide Wrote, HeaderBytes, Forwarded, FirstKey;
  }

  lemma Extend(c: Config, inputs: seq<Input>, x: Input,
               o: seq<byte>, r: nat, o1: seq<byte>, r1: nat, o2: seq<byte>, r2: nat, ok: bool)
    requires Sent(c, inputs, o, r, o1, r1, true) && Wrote(o1, r1, o2, r2, InputBytes(x), ok)
    ensures Sent(c, inputs + [x], o, r, o2, r2, ok)
  {
    hide InputBytes, HeaderBytes, Wrote, StreamBytes;
    StreamAppend(inputs, x);
    WroteMore(HeaderBytes(c), StreamBytes(inputs), InputBytes(x), o, r, o1, r1, o2, r2, ok);
  }

  lemma WroteMore(h: seq<byte>, s: seq<byte>, i: seq<byte>,
                  o: seq<byte>, r: nat, o1: seq<byte>, r1: nat, o2: seq<byte>, r2: nat, ok: bool)
    requires Wrote(o, r, o1, r1, h + s, true) && Wrote(o1, r1, o2, r2, i, ok)
    ensures Wrote(o, r, o2, r2, h + (s + i), ok)
  {
    WroteBoth(o, r, o1, r1, o2, r2, h + s, i, ok);
    assert h + (s + i) == (h + s) + i;
  }

  // Whatever order the select picked, a player decodes the header and then exactly the
  // forwarded frames and audio.
  lemma ResponseDecodes(c: Config, s: seq<Select>)
    requires ValidConfig(c) && |c.aac| + 2 < TWO24
    requires forall i :: i in Forwarded(s, c.aac != []) ==> Fits(i)
    ensures Demux(Response(c, s)) == Some(Media(c.sps, c.pps, c.aac, ItemsOf(Forwarded(s, c.aac != []))))
  {
    FlvRoundTrip(c, Forwarded(s, c.aac != []));
  }
}

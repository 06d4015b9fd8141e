// AAC access units framed as ADTS for the transcoder, and a reader for that stream written from
// sections 1.6.2.1 and 1.A.2.2 of ISO/IEC 14496-3.

module Adts {
  import opened Bytes

  datatype AdtsConfig = AdtsConfig(profile: nat, sampleRateIndex: nat, channelConfig: nat)

  datatype ParseResult =
    | Accepted(config: AdtsConfig)
    | TooShort
    | UnsupportedObjectType(objectType: nat)
    | UnsupportedRate(index: nat)
    | UnsupportedChannels(channels: nat)

  // A shift right by k is a division by 2^k and a mask of the low k bits a remainder; fields
  // that do not overlap are added where the source ors them.
  function ParseAudioSpecificConfig(config: seq<byte>): ParseResult {
    if |config| < 2 then TooShort else
      var objectType := config[0] as int / 8;
      var rate := config[0] as int % 8 * 2 + config[1] as int / 128;
      var channels := config[1] as int / 8 % 16;
      if objectType < 1 || objectType > 4 then UnsupportedObjectType(objectType)
      else if rate > 12 then UnsupportedRate(rate)
      else if channels == 0 || channels > 7 then UnsupportedChannels(channels)
      else Accepted(AdtsConfig(objectType - 1, rate, channels))
  }

  // An AudioSpecificConfig with no extension after its 5, 4 and 4 bit fields.
  function AudioSpecificConfig(objectType: nat, rate: nat, channels: nat): seq<byte>
    requires objectType < 32 && rate < 16 && channels < 16
  {
    [objectType * 8 + rate / 2, rate % 2 * 128 + channels * 8]
  }

  // Acceptance is exact, and the accepted fields are the ones that were announced.
  lemma ConfigRoundTrip(objectType: nat, rate: nat, channels: nat)
    requires objectType < 32 && rate < 16 && channels < 16
    ensures var r := ParseAudioSpecificConfig(AudioSpecificConfig(objectType, rate, channels));
      && (r.Accepted? <==> 1 <= objectType <= 4 && rate <= 12 && 1 <= channels <= 7)
      && (r.Accepted? ==> r.config == AdtsConfig(objectType - 1, rate, channels))
  {
    var b := AudioSpecificConfig(objectType, rate, channels);
    assert b[0] as int / 8 == objectType;
    assert b[0] as int % 8 == rate / 2;
    assert b[1] as int / 128 == rate % 2;
    assert b[1] as int / 8 % 16 == channels;
  }

  // The or of shifted and masked fields is their sum, as the byte formulas of the header below
  // and of the parser above assume.
  lemma FieldsDoNotOverlap(profile: bv8, rate: bv8, channels: bv8)
    requires profile < 4 && rate < 16 && channels < 8
    ensures (profile << 6) | (rate << 2) | (channels >> 2) == profile * 64 + rate * 4 + channels / 4
  {
  }

  lemma LengthDoesNotOverlap(channels: bv16, length: bv16)
    requires channels < 8 && length <= 0x1fff
    ensures ((channels & 0x03) << 6) | (length >> 11) == channels % 4 * 64 + length / 2048
    ensures (length >> 3) & 0xff == length / 8 % 256
    ensures ((length & 0x07) << 5) | 0x1f == length % 8 * 32 + 0x1f
  {
  }

  lemma ConfigFieldsDoNotOverlap(first: bv8, second: bv8)
    ensures (first >> 3) & 0x1f == first / 8
    ensures ((first & 0x07) << 1) | (second >> 7) == first % 8 * 2 + second / 128
    ensures (second >> 3) & 0x0f == second / 8 % 16
  {
  }

  predicate ValidAdts(c: AdtsConfig) {
    c.profile < 4 && c.sampleRateIndex <= 12 && 1 <= c.channelConfig <= 7
  }

  const HEADER_SIZE: nat := 7
  const MAX_FRAME: nat := 0x1fff

  function Header(c: AdtsConfig, payloadSize: nat): (r: Option<seq<byte>>)
    requires ValidAdts(c)
    ensures r.Some? <==> payloadSize <= 8184
    ensures r.Some? ==> |r.value| == HEADER_SIZE
  {
    var length := payloadSize + HEADER_SIZE;
    if length > MAX_FRAME then None else
      Some([0xff, 0xf1,
            c.profile * 64 + c.sampleRateIndex * 4 + c.channelConfig / 4,
            c.channelConfig % 4 * 64 + length / 2048,
            length / 8 % 256,
            length % 8 * 32 + 0x1f,
            0xfc])
  }

  function FrameBytes(c: AdtsConfig, unit: seq<byte>): seq<byte>
    requires ValidAdts(c) && |unit| <= 8184
  {
    Header(c, |unit|).value + unit
  }

  // Access units that Write turns into a frame.
  ghost predicate Writable(units: seq<seq<byte>>) {
    forall u :: u in units ==> 1 <= |u| <= 8184
  }

  // What reaches the transcoder after a list of successful writes.
  ghost function StreamOf(c: AdtsConfig, units: seq<seq<byte>>): seq<byte>
    requires ValidAdts(c) && Writable(units)
  {
    if units == [] then [] else StreamOf(c, units[..|units| - 1]) + FrameBytes(c, units[|units| - 1])
  }

  // The units that reach the transcoder: empty ones are skipped and oversized ones refused.
  function Fitting(units: seq<seq<byte>>): (r: seq<seq<byte>>)
    ensures Writable(r)
  {
    if units == [] then [] else
      var unit := units[|units| - 1];
      Fitting(units[..|units| - 1]) + (if 1 <= |unit| <= 8184 then [unit] else [])
  }

  // ---------------------------------------------------------------- the reader

  datatype AccessUnit = AccessUnit(config: AdtsConfig, data: seq<byte>)

  // The fixed and variable header: no CRC, one raw data block, variable bit rate.
  function ParseHeader(h: seq<byte>): Option<(AdtsConfig, nat)>
    requires |h| == HEADER_SIZE
  {
    if h[0] != 0xff || h[1] != 0xf1 || h[5] as int % 32 != 0x1f || h[6] != 0xfc then None else
      var config := AdtsConfig(h[2] as int / 64, h[2] as int / 4 % 16, h[2] as int % 2 * 4 + h[3] as int / 64);
      Some((config, h[3] as int % 4 * 2048 + h[4] as int * 8 + h[5] as int / 32))
  }

  function ParseStream(b: seq<byte>): Option<seq<AccessUnit>>
    decreases |b|
  {
    if b == [] then Some([]) else if |b| < HEADER_SIZE then None else
      var rest := Skip(b, HEADER_SIZE);
      match ParseHeader(Take(b, HEADER_SIZE))
      case None => None
      case Some((config, length)) =>
        if length < HEADER_SIZE || |rest| < length - HEADER_SIZE then None else
          var size := length - HEADER_SIZE;
          match ParseStream(Skip(rest, size))
          case None => None
          case Some(units) => Some([AccessUnit(config, Take(rest, size))] + units)
  }

  // The bit fields of the header, packed and unpacked again.
  lemma PackedConfig(profile: nat, index: nat, channels: nat)
    requires profile < 4 && index < 16 && channels < 8
    ensures var b2 := profile * 64 + index * 4 + channels / 4;
      b2 < 256 && b2 / 64 == profile && b2 / 4 % 16 == index && b2 % 2 == channels / 4
  {
  }

  lemma PackedLength(channels: nat, length: nat)
    requires channels < 8 && length < 0x2000
    ensures var b3 := channels % 4 * 64 + length / 2048;
      b3 < 256 && b3 / 64 == channels % 4 && b3 % 4 == length / 2048
    ensures var b5 := length % 8 * 32 + 0x1f; b5 < 256 && b5 / 32 == length % 8 && b5 % 32 == 0x1f
    ensures length / 2048 * 2048 + length / 8 % 256 * 8 + length % 8 == length
  {
  }

  lemma ParsedFields(h: seq<byte>, c: AdtsConfig, length: nat)
    requires |h| == HEADER_SIZE && h[0] == 0xff && h[1] == 0xf1 && h[6] == 0xfc && h[5] as int % 32 == 0x1f
    requires h[2] as int / 64 == c.profile && h[2] as int / 4 % 16 == c.sampleRateIndex
    requires h[2] as int % 2 * 4 + h[3] as int / 64 == c.channelConfig
    requires h[3] as int % 4 * 2048 + h[4] as int * 8 + h[5] as int / 32 == length
    ensures ParseHeader(h) == Some((c, length))
  {
  }

  // The four packed bytes of a header.
  lemma PackedBytes(c: AdtsConfig, payloadSize: nat) returns (b2: byte, b3: byte, b4: byte, b5: byte)
    requires ValidAdts(c) && payloadSize <= 8184
    ensures Header(c, payloadSize).value == [0xff, 0xf1, b2, b3, b4, b5, 0xfc]
    ensures b2 as int / 64 == c.profile && b2 as int / 4 % 16 == c.sampleRateIndex
    ensures b2 as int % 2 == c.channelConfig / 4 && b3 as int / 64 == c.channelConfig % 4
    ensures b3 as int % 4 * 2048 + b4 as int * 8 + b5 as int / 32 == payloadSize + HEADER_SIZE && b5 as int % 32 == 0x1f
  {
    var h := Header(c, payloadSize).value;
    b2, b3, b4, b5 := h[2], h[3], h[4], h[5];
    assert h == [0xff, 0xf1, b2, b3, b4, b5, 0xfc];
    PackedFirst(c, payloadSize);
    PackedSecond(c, payloadSize);
    hide *;
  }

  lemma PackedFirst(c: AdtsConfig, payloadSize: nat)
    requires ValidAdts(c) && payloadSize <= 8184
    ensures var b2 := Header(c, payloadSize).value[2] as int;
      b2 / 64 == c.profile && b2 / 4 % 16 == c.sampleRateIndex && b2 % 2 == c.channelConfig / 4
  {
    PackedConfig(c.profile, c.sampleRateIndex, c.channelConfig);
  }

  lemma PackedSecond(c: AdtsConfig, payloadSize: nat)
    requires ValidAdts(c) && payloadSize <= 8184
    ensures var h := Header(c, payloadSize).value;
      && h[3] as int / 64 == c.channelConfig % 4
      && h[3] as int % 4 * 2048 + h[4] as int * 8 + h[5] as int / 32 == payloadSize + HEADER_SIZE
      && h[5] as int % 32 == 0x1f
  {
    PackedLength(c.channelConfig, payloadSize + HEADER_SIZE);
  }

  lemma HeaderRoundTrip(c: AdtsConfig, payloadSize: nat)
    requires ValidAdts(c) && payloadSize <= 8184
    ensures ParseHeader(Header(c, payloadSize).value) == Some((c, payloadSize + HEADER_SIZE))
  {
    var b2, b3, b4, b5 := PackedBytes(c, payloadSize);
    var length := payloadSize + HEADER_SIZE;
    assert HEADER_SIZE == 7;
    hide *;
    ParsedFields([0xff, 0xf1, b2, b3, b4, b5, 0xfc], c, length);
  }

  lemma ParseFront(c: AdtsConfig, unit: seq<byte>, tail: seq<byte>)
    requires ValidAdts(c) && |unit| <= 8184 && ParseStream(tail).Some?
    ensures ParseStream(FrameBytes(c, unit) + tail) == Some([AccessUnit(c, unit)] + ParseStream(tail).value)
  {
    var h := Header(c, |unit|).value;
    HeaderRoundTrip(c, |unit|);
    assert FrameBytes(c, unit) + tail == h + (unit + tail);
    hide Header, ParseHeader, Take, Skip;
    Cut(h, unit + tail);
    Cut(unit, tail);
  }

  function UnitsOf(c: AdtsConfig, units: seq<seq<byte>>): seq<AccessUnit> {
    seq(|units|, i requires 0 <= i < |units| => AccessUnit(c, units[i]))
  }

  lemma {:induction false} StreamFront(c: AdtsConfig, unit: seq<byte>, units: seq<seq<byte>>)
    requires ValidAdts(c) && Writable([unit]) && Writable(units)
    ensures StreamOf(c, [unit] + units) == FrameBytes(c, unit) + StreamOf(c, units)
  {
    hide FrameBytes;
    assert unit in [unit];
    if units == [] {
      assert ([unit] + units)[..0] == [];
    } else {
      StreamFront(c, unit, units[..|units| - 1]);
      assert ([unit] + units)[..|units|] == [unit] + units[..|units| - 1];
    }
  }

  lemma UnitsOfFront(c: AdtsConfig, unit: seq<byte>, units: seq<seq<byte>>)
    ensures UnitsOf(c, [unit] + units) == [AccessUnit(c, unit)] + UnitsOf(c, units)
  {
  }

  lemma {:induction false} UnitsRoundTrip(c: AdtsConfig, units: seq<seq<byte>>)
    requires ValidAdts(c) && Writable(units)
    ensures ParseStream(StreamOf(c, units)) == Some(UnitsOf(c, units))
  {
    if units == [] {
      assert UnitsOf(c, units) == [];
    } else {
      var unit, rest := units[0], units[1..];
      assert Writable([unit]) && Writable(rest) && 1 <= |unit| <= 8184;
      assert units == [unit] + rest;
      hide UnitsOf, ParseStream, FrameBytes, StreamOf;
      StreamFront(c, unit, rest);
      UnitsRoundTrip(c, rest);
      ParseFront(c, unit, StreamOf(c, rest));
      UnitsOfFront(c, unit, rest);
    }
  }

  // The stream parses by its 13-bit frame lengths back to the same units, each with the
  // profile, sampling rate index and channel configuration of the AudioSpecificConfig.
  lemma AdtsRoundTrip(asc: seq<byte>, units: seq<seq<byte>>)
    requires ParseAudioSpecificConfig(asc).Accepted? && Writable(units)
    ensures var c := ParseAudioSpecificConfig(asc).config;
      ValidAdts(c) && ParseStream(StreamOf(c, units)) == Some(UnitsOf(c, units))
  {
    var c := ParseAudioSpecificConfig(asc).config;
    assert ValidAdts(c);
    hide ParseAudioSpecificConfig;
    UnitsRoundTrip(c, units);
  }

  // ---------------------------------------------------------------- writing in place

  // One answer of the pipe to a write: how much it took, and whether it reported an error.
  datatype Answer = Answer(takes: nat, fails: bool)

  // The transcoder's input. Its answers are arbitrary; once they run out it takes everything.
  class Pipe {
    var out: seq<byte>
    var answers: seq<Answer>

    method Write(data: seq<byte>) returns (written: nat, failed: bool)
      modifies this
      ensures written <= |data| && out == old(out) + data[..written]
    {
      written, failed := |data|, false;
      if answers != [] {
        written := if answers[0].takes < |data| then answers[0].takes else |data|;
        failed := answers[0].fails;
        answers := answers[1..];
      }
      out := out + data[..written];
    }
  }

  datatype WriteResult = Done | ClosedPipe | TooLarge | WriteError | ShortWrite

  // Repeats short writes until everything is out; gives up on an error or on no progress.
  // `sent` says how much of the data left in either case.
  method WriteAll(pipe: Pipe, all: seq<byte>) returns (r: WriteResult, sent: nat)
    modifies pipe
    ensures r.Done? || r.WriteError? || r.ShortWrite?
    ensures sent <= |all| && pipe.out == old(pipe.out) + all[..sent]
    ensures r.Done? ==> sent == |all|
    ensures r.ShortWrite? ==> sent < |all|
  {
    sent := 0;
    var data := all;
    while |data| > 0
      invariant sent <= |all| && data == all[sent..]
      invariant pipe.out == old(pipe.out) + all[..sent]
      decreases |data|
    {
      var written, failed := pipe.Write(data);
      assert all[..sent] + data[..written] == all[..sent + written];
      if !failed && written != 0 {
        data := data[written..];
      }
      sent := sent + written;
      if failed {
        return WriteError, sent;
      }
      if written == 0 {
        return ShortWrite, sent;
      }
    }
    return Done, sent;
  }

  class AacToOpus {
    const adts: AdtsConfig
    const pipe: Pipe
    var stopped: bool

    constructor (adts: AdtsConfig, pipe: Pipe)
      ensures this.adts == adts && this.pipe == pipe && !stopped
    {
      this.adts, this.pipe, stopped := adts, pipe, false;
    }

    // Empty units are skipped, oversized ones refused before anything is written, and after
    // any other failure the pipe holds a proper prefix or all of the frame.
    method Write(unit: seq<byte>) returns (r: WriteResult)
      requires ValidAdts(adts)
      modifies pipe
      ensures unit == [] ==> r == Done && pipe.out == old(pipe.out)
      ensures unit != [] && stopped ==> r == ClosedPipe && pipe.out == old(pipe.out)
      ensures unit != [] && !stopped && |unit| > 8184 ==> r == TooLarge && pipe.out == old(pipe.out)
      ensures unit != [] && !stopped && |unit| <= 8184 ==>
        && (r.Done? || r.WriteError? || r.ShortWrite?)
        && (r.Done? ==> pipe.out == old(pipe.out) + FrameBytes(adts, unit))
        && exists n :: 0 <= n <= |FrameBytes(adts, unit)| && pipe.out == old(pipe.out) + FrameBytes(adts, unit)[..n]
    {
      if |unit| == 0 {
        return Done;
      }
      if stopped {
        return ClosedPipe;
      }
      var header := Header(adts, |unit|);
      if header.None? {
        return TooLarge;
      }
      ghost var before, frame := pipe.out, FrameBytes(adts, unit);
      var sent;
      r, sent := WriteAll(pipe, header.value);
      assert header.value[..sent] == frame[..sent];
      if !r.Done? {
        return;
      }
      assert header.value[..sent] == header.value;
      ghost var mid := pipe.out;
      r, sent := WriteAll(pipe, unit);
      assert pipe.out == before + frame[..HEADER_SIZE + sent] by {
        assert frame[..HEADER_SIZE + sent] == header.value + unit[..sent];
        assert before + header.value + unit[..sent] == before + (header.value + unit[..sent]);
      }
      if r.Done? {
        assert frame[..HEADER_SIZE + sent] == frame;
      }
    }

    // The publisher's audio loop: every unit is written, whatever happened to the earlier ones,
    // and any failure makes the Opus lane unavailable. As long as the pipe takes the frames, the
    // transcoder's input is the stream of the fitting units and parses back to them; what follows
    // a failure of the pipe comes after that stream.
    method Feed(units: seq<seq<byte>>) returns (results: seq<WriteResult>, available: bool)
      requires ValidAdts(adts) && pipe.out == []
      modifies pipe
      ensures |results| == |units|
      ensures available <==> AllDone(results)
      ensures forall i :: 0 <= i < |units| ==> (results[i].TooLarge? <==> !stopped && |units[i]| > 8184)
      ensures InputOf(adts, units[..Undisturbed(results)]) <= pipe.out
      ensures Undisturbed(results) == |units| ==>
        && pipe.out == InputOf(adts, units)
        && ParseStream(pipe.out) == Some(UnitsOf(adts, Fitting(units)))
    {
      results, available := [], true;
      NothingFed(adts, stopped, units);
      hide *;
      while |results| < |units|
        invariant FedTo(adts, stopped, units, results, available, pipe.out)
        invariant |results| <= |units|
        decreases |units| - |results|
      {
        ghost var before := pipe.out;
        var r := WriteNext(units[|results|]);
        FedNext(adts, stopped, units, results, available, before, r, pipe.out);
        results, available := results + [r], available && r.Done?;
      }
      AllFed(adts, stopped, units, results, available, pipe.out);
    }

    method WriteNext(unit: seq<byte>) returns (r: WriteResult)
      requires ValidAdts(adts)
      modifies pipe
      ensures old(pipe.out) <= pipe.out
      ensures r.TooLarge? <==> !stopped && |unit| > 8184
      ensures r.Done? || r.TooLarge? ==> pipe.out == old(pipe.out) + FrameOrNothing(adts, unit)
    {
      hide FrameBytes;
      r := Write(unit);
    }
  }

  // The state of the loop: everything the results say of the units written so far.
  ghost predicate FedTo(c: AdtsConfig, stopped: bool, units: seq<seq<byte>>, results: seq<WriteResult>,
                        available: bool, out: seq<byte>)
    requires ValidAdts(c)
  {
    && |results| <= |units| && (available <==> AllDone(results))
    && (forall i | 0 <= i < |results| :: results[i].TooLarge? <==> !stopped && |units[i]| > 8184)
    && InputOf(c, units[..Undisturbed(results)]) <= out
    && (Undisturbed(results) == |results| ==> out == InputOf(c, units[..|results|]))
  }

  lemma NothingFed(c: AdtsConfig, stopped: bool, units: seq<seq<byte>>)
    requires ValidAdts(c)
    ensures FedTo(c, stopped, units, [], true, [])
  {
    assert units[..0] == [];
  }

  lemma FedNext(c: AdtsConfig, stopped: bool, units: seq<seq<byte>>, results: seq<WriteResult>, available: bool,
                before: seq<byte>, r: WriteResult, after: seq<byte>)
    requires ValidAdts(c) && FedTo(c, stopped, units, results, available, before) && |results| < |units|
    requires before <= after && (r.TooLarge? <==> !stopped && |units[|results|]| > 8184)
    requires r.Done? || r.TooLarge? ==> after == before + FrameOrNothing(c, units[|results|])
    ensures FedTo(c, stopped, units, results + [r], available && r.Done?, after)
  {
    hide InputOf, FrameOrNothing, Undisturbed, AllDone;
    AllDoneNext(results, r);
    OneMoreWrite(c, units, results, r, before, after);
  }

  lemma AllFed(c: AdtsConfig, stopped: bool, units: seq<seq<byte>>, results: seq<WriteResult>, available: bool,
               out: seq<byte>)
    requires ValidAdts(c) && FedTo(c, stopped, units, results, available, out) && |results| == |units|
    ensures available <==> AllDone(results)
    ensures forall i :: 0 <= i < |units| ==> (results[i].TooLarge? <==> !stopped && |units[i]| > 8184)
    ensures InputOf(c, units[..Undisturbed(results)]) <= out
    ensures Undisturbed(results) == |units| ==>
      out == InputOf(c, units) && ParseStream(out) == Some(UnitsOf(c, Fitting(units)))
  {
    assert units[..|units|] == units;
    hide InputOf, Undisturbed, AllDone, UnitsOf, ParseStream, Fitting;
    InputRoundTrip(c, units);
  }

  predicate AllDone(results: seq<WriteResult>) {
    forall r :: r in results ==> r.Done?
  }

  lemma AllDoneNext(results: seq<WriteResult>, r: WriteResult)
    ensures AllDone(results + [r]) <==> AllDone(results) && r.Done?
  {
    forall q | q in results ensures q in results + [r] {}
    assert r in results + [r];
  }

  // How many writes went by before the first one that the pipe did not take.
  function Undisturbed(results: seq<WriteResult>): (k: nat)
    ensures k <= |results|
    ensures forall i :: 0 <= i < k ==> results[i].Done? || results[i].TooLarge?
    ensures k < |results| ==> !results[k].Done? && !results[k].TooLarge?
  {
    if results == [] || !(results[0].Done? || results[0].TooLarge?) then 0 else 1 + Undisturbed(results[1..])
  }

  lemma UndisturbedNext(results: seq<WriteResult>, r: WriteResult)
    ensures Undisturbed(results + [r]) ==
      if Undisturbed(results) == |results| && (r.Done? || r.TooLarge?) then |results| + 1 else Undisturbed(results)
  {
    var k, all := Undisturbed(results + [r]), results + [r];
    assert k < |results| ==> all[k] == results[k];
    assert Undisturbed(results) < |results| ==> all[Undisturbed(results)] == results[Undisturbed(results)];
    assert all[|results|] == r;
  }

  ghost function FrameOrNothing(c: AdtsConfig, unit: seq<byte>): seq<byte>
    requires ValidAdts(c)
  {
    if 1 <= |unit| <= 8184 then FrameBytes(c, unit) else []
  }

  ghost function InputOf(c: AdtsConfig, units: seq<seq<byte>>): seq<byte>
    requires ValidAdts(c)
  {
    StreamOf(c, Fitting(units))
  }

  lemma InputRoundTrip(c: AdtsConfig, units: seq<seq<byte>>)
    requires ValidAdts(c)
    ensures ParseStream(InputOf(c, units)) == Some(UnitsOf(c, Fitting(units)))
  {
    UnitsRoundTrip(c, Fitting(units));
  }

  lemma InputNext(c: AdtsConfig, units: seq<seq<byte>>, i: nat)
    requires ValidAdts(c) && i < |units|
    ensures InputOf(c, units[..i + 1]) == InputOf(c, units[..i]) + FrameOrNothing(c, units[i])
  {
    assert units[..i + 1][..i] == units[..i];
    var before := Fitting(units[..i]);
    hide FrameBytes;
    if 1 <= |units[i]| <= 8184 {
      assert Fitting(units[..i + 1]) == before + [units[i]];
      assert (before + [units[i]])[..|before|] == before;
    } else {
      assert Fitting(units[..i + 1]) == before;
    }
  }

  lemma OneMoreWrite(c: AdtsConfig, units: seq<seq<byte>>, results: seq<WriteResult>, r: WriteResult,
                     before: seq<byte>, after: seq<byte>)
    requires ValidAdts(c) && |results| < |units|
    requires InputOf(c, units[..Undisturbed(results)]) <= before <= after
    requires Undisturbed(results) == |results| ==> before == InputOf(c, units[..|results|])
    requires r.Done? || r.TooLarge? ==> after == before + FrameOrNothing(c, units[|results|])
    ensures Undisturbed(results + [r]) <= |units| && InputOf(c, units[..Undisturbed(results + [r])]) <= after
    ensures Undisturbed(results + [r]) == |results| + 1 ==> after == InputOf(c, units[..|results| + 1])
  {
    var n, k := |results|, Undisturbed(results);
    UndisturbedNext(results, r);
    if k == n && (r.Done? || r.TooLarge?) {
      InputNext(c, units, n);
      hide *;
      assert after == InputOf(c, units[..n + 1]);
    } else {
      hide *;
      assert Undisturbed(results + [r]) == k;
    }
  }
}

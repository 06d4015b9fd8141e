// The FLV byte layout: what the muxer writes, as functions, and an independent demuxer written
// from sections E.2 to E.4 of the Adobe FLV/F4V Video File Format Specification 10.1 and
// section 5.2.4.1 of ISO/IEC 14496-15.

module FlvFormat {
  import opened Bytes
  import opened MediaTypes

  const MILLISECOND: int := 1_000_000

  datatype Input = FrameIn(frame: Frame) | AudioIn(audio: AudioFrame)

  // ---------------------------------------------------------------- layout

  predicate ValidConfig(c: Config) {
    4 <= |c.sps| <= 0xffff && 1 <= |c.pps| <= 0xffff
  }

  function Signature(flags: byte): seq<byte> {
    [0x46, 0x4c, 0x56, 1, flags, 0, 0, 0, 9, 0, 0, 0, 0]
  }

  function TagHead(kind: byte, timestamp: nat, size: nat): seq<byte> {
    [kind] + BE24(size) + BE24(timestamp % TWO24) + [ByteAt(timestamp, TWO24), 0, 0, 0]
  }

  function TagBytes(kind: byte, timestamp: nat, body: seq<byte>): seq<byte> {
    TagHead(kind, timestamp, |body|) + body + BE32(11 + |body|)
  }

  function AvcRecord(sps: seq<byte>, pps: seq<byte>): seq<byte>
    requires |sps| >= 4
  {
    [1, sps[1], sps[2], sps[3], 0xff, 0xe1] + (BE16(|sps|) + (sps + ([1] + (BE16(|pps|) + pps))))
  }

  function AudioHeader(c: Config): seq<byte> {
    if c.aac == [] then [] else TagBytes(8, 0, [0xaf, 0] + c.aac)
  }

  function VideoHeader(c: Config): seq<byte>
    requires |c.sps| >= 4
  {
    [0x17, 0, 0, 0, 0] + AvcRecord(c.sps, c.pps)
  }

  function HeaderBytes(c: Config): seq<byte>
    requires |c.sps| >= 4
  {
    Signature(if c.aac == [] then 1 else 5) + TagBytes(9, 0, VideoHeader(c)) + AudioHeader(c)
  }

  function NalList(nalus: seq<seq<byte>>): seq<byte> {
    if nalus == [] then [] else NalList(nalus[..|nalus| - 1]) + BE32(|nalus[|nalus| - 1]|) + nalus[|nalus| - 1]
  }

  function Composition(f: Frame): int {
    TruncDiv(f.pts - f.dts, MILLISECOND)
  }

  // uint32(d / time.Millisecond)
  function Timestamp(d: int): nat {
    TruncDiv(d, MILLISECOND) % TWO32
  }

  function InputBody(i: Input): seq<byte> {
    match i
    case FrameIn(f) => [if f.keyFrame then 0x17 else 0x27, 1] + BE24(Composition(f)) + NalList(f.nalus)
    case AudioIn(a) => [0xaf, 1] + a.data
  }

  predicate Skipped(i: Input) {
    match i
    case FrameIn(f) => f.nalus == []
    case AudioIn(a) => a.data == []
  }

  function InputBytes(i: Input): seq<byte> {
    if Skipped(i) then [] else
      match i
      case FrameIn(f) => TagBytes(9, Timestamp(f.dts), InputBody(i))
      case AudioIn(a) => TagBytes(8, Timestamp(a.pts), InputBody(i))
  }

  function StreamBytes(inputs: seq<Input>): seq<byte> {
    if inputs == [] then [] else StreamBytes(inputs[..|inputs| - 1]) + InputBytes(inputs[|inputs| - 1])
  }

  // ---------------------------------------------------------------- demuxer

  datatype Tag = Tag(kind: byte, timestamp: nat, body: seq<byte>)

  datatype Item =
    | VideoItem(keyFrame: bool, timestamp: nat, composition: int, nalus: seq<seq<byte>>)
    | AudioItem(timestamp: nat, data: seq<byte>)

  datatype Media = Media(sps: seq<byte>, pps: seq<byte>, aac: seq<byte>, items: seq<Item>)

  // One tag and its PreviousTagSize, which has to be the size of the tag before it.
  function ParseTag(b: seq<byte>): (r: Option<(Tag, seq<byte>)>)
    ensures r.Some? ==> |r.value.1| < |b|
  {
    if |b| < 11 then None else ParseTagBody(Take(b, 11), Skip(b, 11))
  }

  function ParseTagBody(head: seq<byte>, b: seq<byte>): (r: Option<(Tag, seq<byte>)>)
    requires |head| == 11
    ensures r.Some? ==> |r.value.1| < |b|
  {
    var size := Read24(head[1..4]);
    if |b| < size + 4 || head[8..11] != [0, 0, 0] then None else
      var trailer := Skip(b, size);
      if Read32(Take(trailer, 4)) != 11 + size then None else
        Some((Tag(head[0], head[7] as int * TWO24 + Read24(head[4..7]), Take(b, size)), Skip(trailer, 4)))
  }

  function ParseTags(b: seq<byte>): Option<seq<Tag>>
    decreases |b|
  {
    if b == [] then Some([]) else
      match ParseTag(b)
      case None => None
      case Some((tag, rest)) =>
        match ParseTags(rest)
        case None => None
        case Some(tags) => Some([tag] + tags)
  }

  function ParseNalList(b: seq<byte>): Option<seq<seq<byte>>>
    decreases |b|
  {
    if b == [] then Some([]) else if |b| < 4 then None else
      var size := Read32(Take(b, 4));
      var rest := Skip(b, 4);
      if |rest| < size then None else
        match ParseNalList(Skip(rest, size))
        case None => None
        case Some(nalus) => Some([Take(rest, size)] + nalus)
  }

  // A two's-complement 24-bit field.
  function Signed24(v: int): int {
    if v < 0x80_0000 then v else v - TWO24
  }

  function ParseItem(t: Tag): Option<Item> {
    if t.kind == 8 then
      if |t.body| < 2 || t.body[0] != 0xaf || t.body[1] != 1 then None else Some(AudioItem(t.timestamp, t.body[2..]))
    else if t.kind == 9 then
      if |t.body| < 5 || (t.body[0] != 0x17 && t.body[0] != 0x27) || t.body[1] != 1 then None else
        match ParseNalList(t.body[5..])
        case None => None
        case Some(nalus) =>
          Some(VideoItem(t.body[0] == 0x17, t.timestamp, Signed24(Read24(t.body[2..5])), nalus))
    else None
  }

  function ParseItems(tags: seq<Tag>): Option<seq<Item>> {
    if tags == [] then Some([]) else
      match ParseItem(tags[0])
      case None => None
      case Some(item) =>
        match ParseItems(tags[1..])
        case None => None
        case Some(items) => Some([item] + items)
  }

  // An AVCDecoderConfigurationRecord with one SPS and one PPS; its profile, compatibility and
  // level bytes have to repeat those of the SPS.
  function ParseAvcRecord(b: seq<byte>): Option<(seq<byte>, seq<byte>)> {
    if |b| < 6 || b[0] != 1 || b[4] != 0xff || b[5] != 0xe1 then None else
      match ParseSized(Skip(b, 6))
      case None => None
      case Some((sps, rest)) =>
        if |sps| < 4 || b[1..4] != sps[1..4] || |rest| < 1 || rest[0] != 1 then None else
          match ParseSized(Skip(rest, 1))
          case None => None
          case Some((pps, end)) => if end == [] then Some((sps, pps)) else None
  }

  // A 16-bit length and that many bytes.
  function ParseSized(b: seq<byte>): Option<(seq<byte>, seq<byte>)> {
    if |b| < 2 then None else
      var size := Read16(Take(b, 2));
      var rest := Skip(b, 2);
      if |rest| < size then None else Some((Take(rest, size), Skip(rest, size)))
  }

  function Demux(b: seq<byte>): Option<Media> {
    if |b| < 13 || b[..4] != [0x46, 0x4c, 0x56, 1] || b[5..13] != [0, 0, 0, 9, 0, 0, 0, 0] then None else
      match ParseTags(Skip(b, 13))
      case None => None
      case Some(tags) => DemuxTags(b[4] == 5, tags)
  }

  function DemuxTags(audio: bool, tags: seq<Tag>): Option<Media> {
    if |tags| < 1 then None
    else if !audio then DemuxParts(tags[0], None, tags[1..])
    else if |tags| < 2 then None
    else DemuxParts(tags[0], Some(tags[1]), tags[2..])
  }

  function DemuxParts(video: Tag, audio: Option<Tag>, tags: seq<Tag>): Option<Media> {
    match (ParseVideoHeader(video), ParseAudioHeader(audio), ParseItems(tags))
    case (Some((sps, pps)), Some(aac), Some(items)) => Some(Media(sps, pps, aac, items))
    case _ => None
  }

  function ParseVideoHeader(t: Tag): Option<(seq<byte>, seq<byte>)> {
    if t.kind != 9 || |t.body| < 5 || Take(t.body, 5) != [0x17, 0, 0, 0, 0] then None
    else ParseAvcRecord(Skip(t.body, 5))
  }

  function ParseAudioHeader(t: Option<Tag>): Option<seq<byte>> {
    match t
    case None => Some([])
    case Some(tag) =>
      if tag.kind != 8 || |tag.body| < 2 || Take(tag.body, 2) != [0xaf, 0] then None else Some(Skip(tag.body, 2))
  }

  // ---------------------------------------------------------------- round trip

  lemma TagHeadFields(kind: byte, timestamp: nat, size: nat)
    requires timestamp < TWO32
    ensures var h := TagHead(kind, timestamp, size);
      && |h| == 11 && h[0] == kind && h[8..11] == [0, 0, 0]
      && Read24(h[1..4]) == size % TWO24
      && h[7] as int * TWO24 + Read24(h[4..7]) == timestamp
  {
    var h := TagHead(kind, timestamp, size);
    BigEndianRoundTrip(size);
    BigEndianRoundTrip(timestamp % TWO24);
    assert h[1..4] == BE24(size);
    assert h[4..7] == BE24(timestamp % TWO24);
  }

  lemma TagIsHeadBodyTrailer(kind: byte, timestamp: nat, body: seq<byte>, rest: seq<byte>)
    ensures ParseTag(TagBytes(kind, timestamp, body) + rest) ==
      ParseTagBody(TagHead(kind, timestamp, |body|), body + (BE32(11 + |body|) + rest))
  {
    var head, tail := TagHead(kind, timestamp, |body|), body + (BE32(11 + |body|) + rest);
    assert |head| == 11;
    assert TagBytes(kind, timestamp, body) + rest == head + tail;
    hide TagHead, TagBytes, ParseTagBody, BE32, Take, Skip;
    Cut(head, tail);
  }

  lemma FieldsToTag(head: seq<byte>, body: seq<byte>, trailer: seq<byte>, rest: seq<byte>)
    requires |head| == 11 && head[8..11] == [0, 0, 0] && Read24(head[1..4]) == |body|
    requires |trailer| == 4 && Read32(trailer) == 11 + |body|
    ensures ParseTagBody(head, body + (trailer + rest)) ==
      Some((Tag(head[0], head[7] as int * TWO24 + Read24(head[4..7]), body), rest))
  {
    hide Read32, Read24, Take, Skip;
    Cut(body, trailer + rest);
    Cut(trailer, rest);
  }

  lemma BodyRoundTrip(kind: byte, timestamp: nat, body: seq<byte>, rest: seq<byte>)
    requires timestamp < TWO32 && |body| < TWO24
    ensures ParseTagBody(TagHead(kind, timestamp, |body|), body + (BE32(11 + |body|) + rest)) ==
      Some((Tag(kind, timestamp, body), rest))
  {
    assert 11 + |body| < TWO32 && |body| % TWO24 == |body|;
    hide *;
    var head, trailer := TagHead(kind, timestamp, |body|), BE32(11 + |body|);
    TagHeadFields(kind, timestamp, |body|);
    RoundTrip32(11 + |body|);
    FieldsToTag(head, body, trailer, rest);
  }

  lemma OversizedBody(kind: byte, timestamp: nat, body: seq<byte>, tail: seq<byte>)
    requires timestamp < TWO32 && |body| >= TWO24
    ensures var r := ParseTagBody(TagHead(kind, timestamp, |body|), body + tail);
      r.Some? ==> |r.value.0.body| < |body|
  {
    TagHeadFields(kind, timestamp, |body|);
    hide TagHead, Read32, Read24, Take, Skip;
  }

  // The muxer truncates the body length to 24 bits without a check, so a tag reads back
  // exactly when its body is shorter than 2^24 bytes.
  lemma TagRoundTrip(kind: byte, timestamp: nat, body: seq<byte>, rest: seq<byte>)
    requires timestamp < TWO32
    ensures ParseTag(TagBytes(kind, timestamp, body) + rest) == Some((Tag(kind, timestamp, body), rest))
      <==> |body| < TWO24
  {
    TagIsHeadBodyTrailer(kind, timestamp, body, rest);
    if |body| < TWO24 {
      BodyRoundTrip(kind, timestamp, body, rest);
    } else {
      OversizedBody(kind, timestamp, body, BE32(11 + |body|) + rest);
    }
    hide TagHead, TagBytes, ParseTagBody, ParseTag, BE32;
  }

  lemma {:induction false} NalListFront(n: seq<byte>, nalus: seq<seq<byte>>)
    ensures NalList([n] + nalus) == BE32(|n|) + (n + NalList(nalus))
  {
    if nalus == [] {
      assert ([n] + nalus)[..0] == [];
      assert NalList([n]) == [] + BE32(|n|) + n;
    } else {
      var init, last := nalus[..|nalus| - 1], nalus[|nalus| - 1];
      NalListFront(n, init);
      assert ([n] + nalus)[..|nalus|] == [n] + init;
      Regroup(BE32(|n|), n, NalList(init), BE32(|last|), last);
    }
  }

  lemma Regroup(a: seq<byte>, b: seq<byte>, c: seq<byte>, d: seq<byte>, e: seq<byte>)
    ensures (a + (b + c)) + d + e == a + (b + (c + d + e))
  {
  }

  lemma {:induction false} NalListRoundTrip(nalus: seq<seq<byte>>)
    requires |NalList(nalus)| < TWO32
    ensures ParseNalList(NalList(nalus)) == Some(nalus)
  {
    if nalus != [] {
      var n, rest := nalus[0], nalus[1..];
      assert nalus == [n] + rest;
      NalListFront(n, rest);
      NalListRoundTrip(rest);
      ParseFront(n, NalList(rest));
    }
  }

  lemma ParseFront(n: seq<byte>, tail: seq<byte>)
    requires |n| < TWO32 && ParseNalList(tail).Some?
    ensures ParseNalList(BE32(|n|) + (n + tail)) == Some([n] + ParseNalList(tail).value)
  {
    RoundTrip32(|n|);
    hide BE32, Read32, Take, Skip;
    Cut(BE32(|n|), n + tail);
    Cut(n, tail);
  }

  // What a player reads back for one input.
  function ItemOf(i: Input): Item {
    match i
    case FrameIn(f) => VideoItem(f.keyFrame, Timestamp(f.dts), Signed24(Composition(f) % TWO24), f.nalus)
    case AudioIn(a) => AudioItem(Timestamp(a.pts), a.data)
  }

  function ItemsOf(inputs: seq<Input>): seq<Item> {
    if inputs == [] then [] else
      ItemsOf(inputs[..|inputs| - 1]) + if Skipped(inputs[|inputs| - 1]) then [] else [ItemOf(inputs[|inputs| - 1])]
  }

  // The composition offset survives exactly when it fits a signed 24-bit field.
  lemma CompositionSurvives(f: Frame)
    ensures ItemOf(FrameIn(f)).composition == Composition(f) <==> -0x80_0000 <= Composition(f) < 0x80_0000
  {
  }

  // The timestamp survives exactly when it is a 32-bit number of milliseconds.
  lemma TimestampSurvives(d: int)
    ensures Timestamp(d) == TruncDiv(d, MILLISECOND) <==> 0 <= TruncDiv(d, MILLISECOND) < TWO32
  {
  }

  function TagOf(i: Input): Tag {
    match i
    case FrameIn(f) => Tag(9, Timestamp(f.dts), InputBody(i))
    case AudioIn(a) => Tag(8, Timestamp(a.pts), InputBody(i))
  }

  predicate Fits(i: Input) {
    |InputBody(i)| < TWO24
  }

  function TagsOf(inputs: seq<Input>): seq<Tag> {
    if inputs == [] then [] else (if Skipped(inputs[0]) then [] else [TagOf(inputs[0])]) + TagsOf(inputs[1..])
  }

  lemma ItemRoundTrip(i: Input)
    requires Fits(i)
    ensures ParseItem(TagOf(i)) == Some(ItemOf(i))
  {
    var body := InputBody(i);
    match i
    case FrameIn(f) =>
      assert body[5..] == NalList(f.nalus);
      NalListRoundTrip(f.nalus);
      BigEndianRoundTrip(Composition(f));
      assert body[2..5] == BE24(Composition(f));
    case AudioIn(a) =>
      assert body[2..] == a.data;
  }

  lemma StreamAppend(inputs: seq<Input>, i: Input)
    ensures StreamBytes(inputs + [i]) == StreamBytes(inputs) + InputBytes(i)
    ensures ItemsOf(inputs + [i]) == ItemsOf(inputs) + if Skipped(i) then [] else [ItemOf(i)]
  {
    assert (inputs + [i])[..|inputs|] == inputs;
    hide InputBytes, ItemOf, Skipped;
  }

  lemma {:induction false} StreamBytesFront(i: Input, inputs: seq<Input>)
    ensures StreamBytes([i] + inputs) == InputBytes(i) + StreamBytes(inputs)
    ensures ItemsOf([i] + inputs) == (if Skipped(i) then [] else [ItemOf(i)]) + ItemsOf(inputs)
  {
    hide InputBytes, ItemOf, Skipped;
    if inputs == [] {
      assert ([i] + inputs)[..0] == [];
    } else {
      var init, last := inputs[..|inputs| - 1], inputs[|inputs| - 1];
      StreamBytesFront(i, init);
      assert inputs == init + [last] && [i] + inputs == ([i] + init) + [last];
      hide *;
      StreamAppend(init, last);
      StreamAppend([i] + init, last);
    }
  }

  lemma ParseTagsFront(front: seq<byte>, tag: Tag, rest: seq<byte>)
    requires ParseTag(front + rest) == Some((tag, rest)) && ParseTags(rest).Some?
    ensures ParseTags(front + rest) == Some([tag] + ParseTags(rest).value)
  {
    hide ParseTag;
  }

  lemma {:induction false} StreamTags(inputs: seq<Input>)
    requires forall i :: i in inputs ==> Fits(i)
    ensures ParseTags(StreamBytes(inputs)) == Some(TagsOf(inputs))
    ensures ParseItems(TagsOf(inputs)) == Some(ItemsOf(inputs))
  {
    hide InputBody, ParseItem, ItemOf, Fits, TagBytes, ParseTag;
    if inputs != [] {
      var i, rest := inputs[0], inputs[1..];
      assert inputs == [i] + rest;
      StreamBytesFront(i, rest);
      StreamTags(rest);
      if !Skipped(i) {
        InputTag(i, StreamBytes(rest));
        ParseTagsFront(InputBytes(i), TagOf(i), StreamBytes(rest));
        ItemRoundTrip(i);
        assert TagsOf(inputs) == [TagOf(i)] + TagsOf(rest);
        assert TagsOf(inputs)[1..] == TagsOf(rest);
      } else {
        assert TagsOf(inputs) == TagsOf(rest);
        assert StreamBytes(inputs) == StreamBytes(rest);
        assert ItemsOf(inputs) == ItemsOf(rest);
      }
    }
  }

  lemma InputTag(i: Input, rest: seq<byte>)
    requires !Skipped(i) && Fits(i)
    ensures ParseTag(InputBytes(i) + rest) == Some((TagOf(i), rest))
  {
    var t := TagOf(i);
    TagRoundTrip(t.kind, t.timestamp, t.body, rest);
  }

  lemma SizedRoundTrip(x: seq<byte>, rest: seq<byte>)
    requires |x| <= 0xffff
    ensures ParseSized(BE16(|x|) + (x + rest)) == Some((x, rest))
  {
    RoundTrip16(|x|);
    hide BE16, Read16, Take, Skip;
    Cut(BE16(|x|), x + rest);
    Cut(x, rest);
  }

  lemma FieldsToAvcRecord(b: seq<byte>, r1: seq<byte>, sps: seq<byte>, tail: seq<byte>, r2: seq<byte>, pps: seq<byte>)
    requires |b| >= 6 && b[0] == 1 && b[4] == 0xff && b[5] == 0xe1 && Skip(b, 6) == r1
    requires ParseSized(r1) == Some((sps, tail)) && |sps| >= 4 && b[1..4] == sps[1..4]
    requires |tail| >= 1 && tail[0] == 1 && Skip(tail, 1) == r2 && ParseSized(r2) == Some((pps, []))
    ensures ParseAvcRecord(b) == Some((sps, pps))
  {
    hide Skip, ParseSized;
  }

  lemma AvcRecordRoundTrip(sps: seq<byte>, pps: seq<byte>)
    requires 4 <= |sps| <= 0xffff && 1 <= |pps| <= 0xffff
    ensures ParseAvcRecord(AvcRecord(sps, pps)) == Some((sps, pps))
  {
    var front := [1, sps[1], sps[2], sps[3], 0xff, 0xe1];
    var r2 := BE16(|pps|) + pps;
    var tail := [1] + r2;
    var r1 := BE16(|sps|) + (sps + tail);
    var b := front + r1;
    assert b == AvcRecord(sps, pps);
    hide *;
    assert b[1..4] == sps[1..4];
    Cut(front, r1);
    SizedRoundTrip(sps, tail);
    Cut([1], r2);
    assert pps + [] == pps;
    SizedRoundTrip(pps, []);
    FieldsToAvcRecord(b, r1, sps, tail, r2, pps);
  }

  // The tags of the whole file: the decoder configuration first, then the inputs.
  lemma FileTags(c: Config, inputs: seq<Input>)
    requires ValidConfig(c) && |c.aac| + 2 < TWO24
    requires forall i :: i in inputs ==> Fits(i)
    ensures ParseTags(TagBytes(9, 0, VideoHeader(c)) + (AudioHeader(c) + StreamBytes(inputs))) ==
      Some([Tag(9, 0, VideoHeader(c))] +
        ((if c.aac == [] then [] else [Tag(8, 0, [0xaf, 0] + c.aac)]) + TagsOf(inputs)))
  {
    var s := StreamBytes(inputs);
    StreamTags(inputs);
    assert |VideoHeader(c)| < TWO24;
    TagRoundTrip(9, 0, VideoHeader(c), AudioHeader(c) + s);
    hide TagBytes, ParseTag, VideoHeader, Fits;
    if c.aac == [] {
      assert AudioHeader(c) + s == s;
      assert [] + TagsOf(inputs) == TagsOf(inputs);
    } else {
      TagRoundTrip(8, 0, [0xaf, 0] + c.aac, s);
      ParseTagsFront(AudioHeader(c), Tag(8, 0, [0xaf, 0] + c.aac), s);
    }
    ParseTagsFront(TagBytes(9, 0, VideoHeader(c)), Tag(9, 0, VideoHeader(c)), AudioHeader(c) + s);
  }

  lemma DemuxAfterSignature(audio: bool, b: seq<byte>)
    ensures Demux(Signature(if audio then 5 else 1) + b) ==
      match ParseTags(b) { case None => None case Some(tags) => DemuxTags(audio, tags) }
  {
    hide ParseTags, DemuxTags;
    var sig := Signature(if audio then 5 else 1);
    Cut(sig, b);
    assert (sig + b)[..4] == [0x46, 0x4c, 0x56, 1];
    assert (sig + b)[5..13] == [0, 0, 0, 9, 0, 0, 0, 0];
  }

  lemma VideoHeaderRoundTrip(c: Config)
    requires ValidConfig(c)
    ensures ParseVideoHeader(Tag(9, 0, VideoHeader(c))) == Some((c.sps, c.pps))
  {
    AvcRecordRoundTrip(c.sps, c.pps);
    var front: seq<byte>, record := [0x17, 0, 0, 0, 0], AvcRecord(c.sps, c.pps);
    assert VideoHeader(c) == front + record;
    hide ParseAvcRecord, AvcRecord, Take, Skip, VideoHeader;
    Cut(front, record);
  }

  lemma AudioHeaderRoundTrip(aac: seq<byte>)
    ensures ParseAudioHeader(Some(Tag(8, 0, [0xaf, 0] + aac))) == Some(aac)
  {
    hide Take, Skip;
    Cut([0xaf, 0], aac);
  }

  lemma HeaderTags(c: Config, tags: seq<Tag>)
    requires ValidConfig(c) && ParseItems(tags).Some?
    ensures DemuxTags(c.aac != [],
        [Tag(9, 0, VideoHeader(c))] + ((if c.aac == [] then [] else [Tag(8, 0, [0xaf, 0] + c.aac)]) + tags)) ==
      Some(Media(c.sps, c.pps, c.aac, ParseItems(tags).value))
  {
    VideoHeaderRoundTrip(c);
    AudioHeaderRoundTrip(c.aac);
    var video, audio := Tag(9, 0, VideoHeader(c)), Tag(8, 0, [0xaf, 0] + c.aac);
    hide *;
    if c.aac == [] {
      assert [] + tags == tags;
      VideoOnly(video, tags, (c.sps, c.pps));
    } else {
      VideoAndAudio(video, audio, tags, (c.sps, c.pps), c.aac);
    }
  }

  lemma VideoOnly(video: Tag, tags: seq<Tag>, avc: (seq<byte>, seq<byte>))
    requires ParseVideoHeader(video) == Some(avc) && ParseItems(tags).Some?
    ensures DemuxTags(false, [video] + tags) == Some(Media(avc.0, avc.1, [], ParseItems(tags).value))
  {
    hide ParseVideoHeader, ParseItems;
    assert ([video] + tags)[1..] == tags;
  }

  lemma VideoAndAudio(video: Tag, audio: Tag, tags: seq<Tag>, avc: (seq<byte>, seq<byte>), aac: seq<byte>)
    requires ParseVideoHeader(video) == Some(avc) &&
      ParseAudioHeader(Some(audio)) == Some(aac) && ParseItems(tags).Some?
    ensures DemuxTags(true, [video] + ([audio] + tags)) == Some(Media(avc.0, avc.1, aac, ParseItems(tags).value))
  {
    hide ParseVideoHeader, ParseAudioHeader, ParseItems;
    assert ([video] + ([audio] + tags))[2..] == tags;
  }

  // A player recovers the parameter sets, the audio configuration and every frame and audio
  // unit, in order, from the header followed by any sequence of writes.
  lemma FlvRoundTrip(c: Config, inputs: seq<Input>)
    requires ValidConfig(c) && |c.aac| + 2 < TWO24
    requires forall i :: i in inputs ==> Fits(i)
    ensures Demux(HeaderBytes(c) + StreamBytes(inputs)) == Some(Media(c.sps, c.pps, c.aac, ItemsOf(inputs)))
  {
    var audio := c.aac != [];
    var body := TagBytes(9, 0, VideoHeader(c)) + (AudioHeader(c) + StreamBytes(inputs));
    FileTags(c, inputs);
    StreamTags(inputs);
    DemuxAfterSignature(audio, body);
    HeaderTags(c, TagsOf(inputs));
    Regroup3(Signature(if audio then 5 else 1), TagBytes(9, 0, VideoHeader(c)), AudioHeader(c), StreamBytes(inputs));
    hide TagBytes, Demux, DemuxTags, ParseTags, ParseItems, VideoHeader, Signature, Fits, StreamBytes, TagsOf, ItemsOf;
  }

  lemma Regroup3(a: seq<byte>, b: seq<byte>, c: seq<byte>, d: seq<byte>)
    ensures (a + b + c) + d == a + (b + (c + d))
  {
  }
}

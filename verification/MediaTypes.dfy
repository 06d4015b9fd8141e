// The media values that travel from a publisher to its subscribers.

module MediaTypes {
  import opened Bytes

  // Times are nanoseconds, as in Go's time.Duration.
  datatype Frame = Frame(pts: int, dts: int, nalus: seq<seq<byte>>, keyFrame: bool)

  datatype AudioFrame = AudioFrame(pts: int, data: seq<byte>)

  datatype OpusFrame = OpusFrame(sequenceNumber: nat, timestamp: nat, marker: bool, payload: seq<byte>)

  // The decoder configuration a publisher announces; `aac` is empty without audio.
  datatype Config = Config(sps: seq<byte>, pps: seq<byte>, aac: seq<byte>)

  datatype Kind = VideoKind | AudioKind | OpusKind

  datatype Packet = Video(frame: Frame) | Audio(audio: AudioFrame) | Opus(opus: OpusFrame)

  function KindOf(p: Packet): Kind {
    match p
    case Video(_) => VideoKind
    case Audio(_) => AudioKind
    case Opus(_) => OpusKind
  }
}

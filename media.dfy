/**
 * Values the media library handles: stream descriptors, codec parameters,
 * packets and what the demuxer reports about an opened source.
 */
module MediaTypes {

  /** A rational number as the library stores time bases and frame rates (AVRational). */
  datatype Rational = Rational(num: int, den: int)

  /** Timestamps of the library's global time base are counted in units of 1/AV_TIME_BASE seconds. */
  const AV_TIME_BASE: int := 1000000

  /** An unsigned 32-bit value, the width of a codec's four-character tag. */
  type uint32 = x: int | 0 <= x < 0x1_0000_0000

  /**
   * A NUL-terminated C string without its terminator: it cannot hold a NUL.
   * Each character stands for one byte.
   */
  type CString = s: string | '\0' !in s

  /** The type of data a stream carries, as its codec parameters declare it. */
  datatype StreamKind = UnknownKind | VideoKind | AudioKind | DataKind | SubtitleKind | AttachmentKind

  /**
   * Codec parameters of a stream: its kind, codec identifier and four-character
   * codec tag; everything else (dimensions, sample rate, extradata, ...) is an
   * opaque blob that a parameter copy carries over verbatim.
   */
  datatype CodecParams = CodecParams(kind: StreamKind, codecId: nat, codecTag: uint32, rest: seq<int>)

  /** A stream of a container, input or output. */
  datatype Stream = Stream(codecpar: CodecParams, timeBase: Rational, avgFrameRate: Rational)

  /** The timing fields of a packet, in its stream's time base. */
  datatype Timestamps = Timestamps(pts: int, dts: int, duration: int)

  /** A compressed packet, tagged with the index of the stream it belongs to. */
  datatype Packet = Packet(streamIndex: nat, ts: Timestamps, payload: seq<int>)

  /**
   * What the demuxer reports about a source it opened: its streams in index
   * order, the container duration in AV_TIME_BASE units, and the packets that
   * successive reads return before they signal end of stream (or an error,
   * which ends reading the same way).
   */
  datatype Source = Source(streams: seq<Stream>, duration: int, packets: seq<Packet>)

  /** Every packet names a stream below `n`. */
  predicate RoutableTo(packets: seq<Packet>, n: nat)
  {
    forall k :: 0 <= k < |packets| ==> packets[k].streamIndex < n
  }

  /** Every packet the demuxer returns names one of the source's streams. */
  predicate Routable(src: Source)
  {
    RoutableTo(src.packets, |src.streams|)
  }
}

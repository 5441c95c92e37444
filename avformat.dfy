/**
 * The part of libavformat the library drives, reduced to what its code can
 * observe: whether each call succeeds, the stream lists of the two contexts,
 * the packets read and handed to the muxer, and which resources are open.
 */
module AvFormat {
  import opened MediaTypes

  /** A library call whose outcome decides a branch of the code (or, for the last two, is ignored). */
  datatype Step =
    | OpenInput                 // avformat_open_input
    | FindStreamInfo            // avformat_find_stream_info
    | AllocOutputContext        // avformat_alloc_output_context2
    | NewStream(index: nat)     // avformat_new_stream for output stream `index`
    | CopyParameters(index: nat) // avcodec_parameters_copy into output stream `index`
    | OpenOutputFile            // avio_open
    | WriteHeader               // avformat_write_header
    | WritePacket(seqNo: nat)   // av_interleaved_write_frame of the seqNo-th packet read
    | WriteTrailer              // av_write_trailer

  /**
   * How the library behaves in one run:
   * - the calls that fail;
   * - whether the output format declares AVFMT_NOFILE;
   * - the time base the muxer gives each output stream when it writes the header;
   * - the codec tag the output format's tag table gives a codec id, which the
   *   header write puts into a stream whose tag is 0;
   * - the parameters other than kind, codec id and tag that the muxer's
   *   initialisation leaves in output stream i (it may, for instance, derive
   *   an unset audio block alignment), from the parameters it was given;
   * - what a failed header write leaves in each stream (the muxer's
   *   initialisation can change streams before the header itself fails);
   * - what a failed parameter copy leaves in the destination (the fixed fields
   *   are copied before the allocations that can fail);
   * - av_packet_rescale_ts, whose arithmetic is the library's own.
   */
  datatype Library = Library(
    failing: set<Step>,
    noFile: bool,
    muxerTimeBase: nat -> Rational,
    muxerTag: nat -> uint32,
    muxerRest: (nat, CodecParams) -> seq<int>,
    failedHeader: (nat, Stream) -> Stream,
    partialCopy: CodecParams -> CodecParams,
    rescale: (Timestamps, Rational, Rational) -> Timestamps)

  /**
   * What a freshly created output stream holds before anything is copied into
   * it: empty parameters, the library's default 1/90000 time base and an unset
   * (0/0) frame rate.
   */
  const BlankStream: Stream := Stream(CodecParams(UnknownKind, 0, 0, []), Rational(1, 90000), Rational(0, 0))

  /** An opened input format context. */
  class InputContext {
    const streams: seq<Stream>
    const duration: int
    var unread: seq<Packet>
    ghost var isOpen: bool

    /** avformat_open_input, when it succeeds on `src`. */
    constructor Open(src: Source)
      ensures streams == src.streams && duration == src.duration
      ensures unread == src.packets && isOpen
    {
      streams := src.streams;
      duration := src.duration;
      unread := src.packets;
      isOpen := true;
    }

    /** av_read_frame: the next packet, or `got == false` at end of stream. */
    method ReadFrame() returns (got: bool, p: Packet)
      modifies this`unread
      ensures got == (old(unread) != [])
      ensures got ==> p == old(unread)[0] && unread == old(unread)[1..]
      ensures !got ==> unread == old(unread)
    {
      got := unread != [];
      if got {
        p := unread[0];
        unread := unread[1..];
      } else {
        p := Packet(0, Timestamps(0, 0, 0), []);
      }
    }

    /** avformat_close_input. */
    method Close()
      modifies this`isOpen
      ensures !isOpen
    {
      isOpen := false;
    }
  }

  /** An output format context, allocated for one container format and destination path. */
  class OutputContext {
    const format: CString
    const path: CString
    const noFile: bool
    var streams: seq<Stream>
    var ioOpen: bool
    var headerWritten: bool
    /** Every packet handed to the interleaving writer, in call order. */
    var sent: seq<Packet>
    var trailerWritten: bool
    ghost var freed: bool

    /** avformat_alloc_output_context2, when it succeeds. */
    constructor Alloc(format: CString, path: CString, noFile: bool)
      ensures this.format == format && this.path == path && this.noFile == noFile
      ensures streams == [] && !ioOpen && !headerWritten && sent == [] && !trailerWritten && !freed
    {
      this.format := format;
      this.path := path;
      this.noFile := noFile;
      streams := [];
      ioOpen := false;
      headerWritten := false;
      sent := [];
      trailerWritten := false;
      freed := false;
    }

    /** avformat_new_stream: appends a blank stream when the library manages to create one. */
    method NewStream(created: bool) returns (ok: bool)
      modifies this`streams
      ensures ok == created
      ensures streams == if created then old(streams) + [BlankStream] else old(streams)
    {
      ok := created;
      if created {
        streams := streams + [BlankStream];
      }
    }

    /**
     * avcodec_parameters_copy into output stream `i`: the parameters `par` on
     * success, the partial copy `partial` the library leaves on failure.
     */
    method CopyParameters(i: nat, par: CodecParams, copied: bool, partial: CodecParams) returns (ok: bool)
      requires i < |streams|
      modifies this`streams
      ensures ok == copied
      ensures streams == old(streams)[i := old(streams)[i].(codecpar := if copied then par else partial)]
    {
      ok := copied;
      streams := streams[i := streams[i].(codecpar := if copied then par else partial)];
    }

    /** avio_open of the destination path for writing. */
    method OpenIo(succeeded: bool) returns (ok: bool)
      modifies this`ioOpen
      ensures ok == succeeded && ioOpen == succeeded
    {
      ok := succeeded;
      ioOpen := succeeded;
    }

    /**
     * avformat_write_header: on success the muxer fixes each output stream's
     * time base and gives a stream with no codec tag the format's own tag; on
     * failure each stream is left as the library's failed-header behaviour says.
     */
    method WriteHeader(written: bool, lib: Library) returns (ok: bool)
      modifies this`streams, this`headerWritten
      ensures ok == written && headerWritten == written
      ensures streams == if written then HeaderStreams(old(streams), lib) else FailedHeaderStreams(old(streams), lib)
    {
      ok := written;
      headerWritten := written;
      if written {
        streams := HeaderStreams(streams, lib);
      } else {
        streams := FailedHeaderStreams(streams, lib);
      }
    }

    /** av_interleaved_write_frame: records the packet handed over; returns the library's status. */
    method InterleavedWriteFrame(p: Packet, accepted: bool) returns (status: int)
      modifies this`sent
      ensures sent == old(sent) + [p]
      ensures (status >= 0) == accepted
    {
      sent := sent + [p];
      status := if accepted then 0 else -1;
    }

    /** av_write_trailer. */
    method WriteTrailer(written: bool) returns (status: int)
      modifies this`trailerWritten
      ensures trailerWritten == written
      ensures (status >= 0) == written
    {
      trailerWritten := written;
      status := if written then 0 else -1;
    }

    /** avio_closep. */
    method CloseIo()
      modifies this`ioOpen
      ensures !ioOpen
    {
      ioOpen := false;
    }

    /** avformat_free_context. */
    method Free()
      modifies this`freed
      ensures freed
    {
      freed := true;
    }
  }

  /**
   * The streams as a successful header write leaves them: each keeps its
   * place, kind, codec id and frame rate; a zero codec tag becomes the
   * format's tag for the codec, a set tag is kept; the other parameters are
   * those the muxer's initialisation leaves; the time base is the muxer's
   * choice for that index.
   */
  function HeaderStreams(streams: seq<Stream>, lib: Library): (r: seq<Stream>)
    ensures |r| == |streams|
    ensures forall i :: 0 <= i < |r| ==>
      r[i].codecpar.kind == streams[i].codecpar.kind &&
      r[i].codecpar.codecId == streams[i].codecpar.codecId &&
      r[i].codecpar.codecTag == (if streams[i].codecpar.codecTag == 0 then lib.muxerTag(streams[i].codecpar.codecId)
                                 else streams[i].codecpar.codecTag) &&
      r[i].codecpar.rest == lib.muxerRest(i, streams[i].codecpar) &&
      r[i].avgFrameRate == streams[i].avgFrameRate && r[i].timeBase == lib.muxerTimeBase(i)
  {
    seq(|streams|, i requires 0 <= i < |streams| =>
      var par := streams[i].codecpar;
      streams[i].(codecpar := par.(codecTag := if par.codecTag == 0 then lib.muxerTag(par.codecId) else par.codecTag,
                                   rest := lib.muxerRest(i, par)),
                  timeBase := lib.muxerTimeBase(i)))
  }

  /** The streams a failed header write leaves: as many as before, each as the library left it. */
  function FailedHeaderStreams(streams: seq<Stream>, lib: Library): (r: seq<Stream>)
    ensures |r| == |streams|
  {
    seq(|streams|, i requires 0 <= i < |streams| => lib.failedHeader(i, streams[i]))
  }
}

# media_library_cplus in Dafny

A model of the conversion and inspection core of the media library: the
C++ file `library.cpp`, which drives libavformat. The model covers:

- **Classification** (`Classify`): the media type of an opened source is the
  type of the first video or audio stream, in index order, and Unknown when
  there is none (`getMediaType`).
- **Duration lookup** (`Duration`): open, probe, classify, and report the
  container duration for video and audio sources. The input context is
  closed on every path (`getMediaDuration`).
- **Destination path** (`DestinationPath`): `dir/name.format` formatted into a
  1024-byte buffer, so at most 1023 characters survive.
- **Container conversion** (`Convert`), following `convertMediaFormat`:
  1. Open and probe the input, then allocate the output.
  2. Declare one output stream per input stream, by position. The codec
     parameters are copied, the codec tag is cleared and the average frame
     rate is copied.
  3. Open the file unless the format declares AVFMT_NOFILE, then write the
     header.
  4. Relay every packet read, with its timestamps rescaled, to the output
     stream of the same index.
  5. Write the trailer and release everything.

  Every failed setup call returns 0 at once. Once the header is written the
  result is 1, whatever the packet writes and the trailer write return.

libavformat itself (`AvFormat`) is reduced to what the code observes:

- `Step` names each library call the code makes.
- `Library.failing` is the set of calls that fail in a run.
- `Library.noFile` is the output format's AVFMT_NOFILE flag.
- `Library.muxerTimeBase` is the time base the muxer gives each output stream
  when it writes the header.
- `Library.muxerTag` is the output format's codec tag table. The header write
  uses it to fill in a codec tag that is 0.
- `Library.muxerRest` gives the codec parameters other than kind, codec id and
  tag that the muxer's initialisation leaves in each output stream, from the
  parameters it was given. For example, it may derive an unset audio block
  alignment.
- `Library.partialCopy` is what a failed `avcodec_parameters_copy` leaves in
  the destination stream.
- `Library.failedHeader` is what a failed `avformat_write_header` leaves in
  each output stream. The muxer's initialisation can fill tags and set time
  bases before the header itself fails.
- `Library.rescale` stands for `av_packet_rescale_ts`.
- The two format contexts are classes: `InputContext` and `OutputContext`.
  Their fields record the streams, the unread packets, the packets handed to
  the muxer, and which resources are open or freed.

The conversion also returns a ghost trace of the checked calls it attempted.
Its contract states that the run stops at the first failing call.

## Model

| member | source | states |
|---|---|---|
| Classify.GetMediaType | library.cpp:17-26 | The scan with early returns yields the first-match classification `MediaTypeOf` of the stream list |
| Classify.FirstMediaStreamDecides | library.cpp:18-23 | First match wins: when no stream before `s` is video or audio and `s` is, the type is that of `s`, whatever follows it |
| Classify.UnknownIffNoMediaStream | library.cpp:17-26 | The result is Unknown if and only if no stream is video or audio; zero streams give Unknown |
| Classify.ClassifiedByFirstMediaStream | library.cpp:17-26 | A Video or Audio result comes from a first video-or-audio stream that exists and has that type |
| Classify.AudioHasAudioStream | library.cpp:43-50 | An Audio classification guarantees an audio stream, so the audio search of the duration lookup always finds one |
| Convert.SameKindsSameMediaType | library.cpp:17-26 | Stream lists whose codec types agree position by position classify alike |
| Duration.GetMediaDuration | library.cpp:28-53 | The result is 0 when the open or the probe fails, and 0 for an Unknown source. Otherwise it is the container duration over AV_TIME_BASE. The context is null only when the open fails, and it is closed on every path |
| DestinationPath.DestPath | library.cpp:86-87 | The path is a prefix of `dir/name.format`, as long as that string or 1023 characters, whichever is shorter, and holds no NUL |
| DestinationPath.DestPathDetermined | library.cpp:86-87 | Exactly one string meets DestPath's prefix-and-length contract |
| DestinationPath.DestPathFits | library.cpp:86-87 | A path that fits is kept whole: directory, '/', name, '.', format |
| DestinationPath.LongDirectoryFillsPath | library.cpp:86-87 | A directory of 1023 or more characters fills the buffer: the path is the directory cut to 1023 characters |
| AvFormat.InputContext.Open | library.cpp:76 | A successful open exposes the source's streams, duration and packets, and leaves the context open |
| AvFormat.InputContext.ReadFrame | library.cpp:125 | Reading returns the next unread packet and consumes it, or reports end of stream when none is left |
| AvFormat.InputContext.Close | library.cpp:138 | Closing the input leaves it closed |
| AvFormat.OutputContext.Alloc | library.cpp:90 | A new output context has the format and destination path, no streams, no open file, nothing written |
| AvFormat.OutputContext.NewStream | library.cpp:98-101 | A successful stream creation appends one blank stream; a failed one changes nothing |
| AvFormat.OutputContext.CopyParameters | library.cpp:103-105 | A successful copy replaces stream `i`'s codec parameters and nothing else; a failed one leaves the library's partial copy there |
| AvFormat.OutputContext.OpenIo | library.cpp:113-117 | The file is open exactly when the open succeeds |
| AvFormat.OutputContext.WriteHeader | library.cpp:120-122 | A successful header write marks the header written and updates the streams as HeaderStreams says; a failed one leaves each stream as the library's failed-header behaviour says, and nothing is marked written |
| AvFormat.OutputContext.InterleavedWriteFrame | library.cpp:130 | Every packet handed to the writer is recorded after those before it; the status reports acceptance |
| AvFormat.OutputContext.WriteTrailer | library.cpp:135 | The trailer is written exactly when the call succeeds |
| AvFormat.OutputContext.CloseIo | library.cpp:139-141 | Closing the file leaves it closed |
| AvFormat.OutputContext.Free | library.cpp:142 | Freeing marks the output context freed |
| AvFormat.HeaderStreams | library.cpp:120 | A successful header write keeps every stream in place with its kind, codec id and frame rate. It gives a zero codec tag the format's tag for the codec and keeps a set tag. The other parameters become what the muxer's initialisation makes of them, and the time base is the muxer's choice |
| Convert.Plan | library.cpp:96-110 | The output streams mirror the input by position. Kind, codec id and the other parameters are kept, the codec tag is 0 and the frame rate is copied |
| Convert.PlanKeepsMediaType | library.cpp:96-110 | The output classifies like the input, before and after the header write |
| Convert.ConvertedStreamsTakeFormatTags | library.cpp:106-120 | Clearing the tag hands it to the destination format. After the header write, each output stream has the input's kind and codec id and the format's tag for that codec, whatever the input's tag. Its other parameters are the muxer's result from the input's, and it keeps the input's frame rate and gets the muxer's time base |
| Convert.AddOutputStream | library.cpp:97-109 | One loop pass appends the mirror of the input stream when creation and copy succeed. A failed creation adds nothing; a failed copy leaves one stream holding only the library's partial copy |
| Convert.MapStreams | library.cpp:96-110 | The loop succeeds exactly when every creation and copy succeeds, and then the output streams are the plan. Otherwise it stops at the first failing call. The output then holds the mirrors of the streams before the first failing stream, followed by that stream's partial copy when its parameter copy was the call that failed |
| Convert.FirstFailingStreamExists | library.cpp:96-105 | A failed stream mapping has exactly one first failing stream, so what the failure leaves is determined by which calls fail |
| Convert.StreamStepsSucceedIff | library.cpp:96-105 | The per-stream calls all succeed if and only if each stream's creation and parameter copy succeed |
| Convert.StreamStepsNext | library.cpp:96-105 | Stream `i` adds its creation and copy calls, in that order, after those of the streams before it |
| Convert.OpenFileAndWriteHeader | library.cpp:112-122 | The file is opened only without AVFMT_NOFILE, and the header is written only after a successful open. A failed open returns before the header with the streams untouched; a failed header leaves each stream as the library's failed-header behaviour says |
| Convert.PrepareOutput | library.cpp:95-122 | Stream mapping, file open and header succeed exactly when all their calls do. Success leaves the planned streams as the header write leaves them. Failure stops at the first failing call. It leaves what the first failing stream left if a stream failed, the whole plan if the file open failed, or the plan as a failed header write leaves it |
| Convert.Relayed | library.cpp:125-132 | The relayed packets are the packets read, in read order: same stream index, same payload, timestamps rescaled between the two streams of that index |
| Convert.RelayedAppend | library.cpp:125-132 | Relaying one more packet appends its rescaled copy to what was relayed before |
| Convert.RelayKeepsStreamOrder | library.cpp:125-132 | Per stream, the relay keeps the payloads and their order |
| Convert.RelayPackets | library.cpp:125-132 | The loop reads until end of stream and hands the muxer exactly the relayed packets, whatever the write status |
| Convert.RelayAndClose | library.cpp:124-142 | After the relay, the trailer is written (its status ignored), the input is closed, the file is closed unless AVFMT_NOFILE, and the output is freed |
| Convert.OpenContexts | library.cpp:73-93 | The open, probe and output allocation stop at the first failure. An input that was opened stays open, and the output gets the formatted destination path |
| Convert.SetupStepsLayout | library.cpp:76-122 | The order of the checked calls: open, probe, allocation, per-stream calls, the file open (without AVFMT_NOFILE), the header |
| Convert.SetupSucceedsIff | library.cpp:76-122 | Setup succeeds if and only if every checked call succeeds. This includes the file open only without AVFMT_NOFILE |
| Convert.ResultIgnoresWriteOutcomes | library.cpp:125-144 | Failing packet writes or a failing trailer write never change the result |
| Convert.FirstFailureUnique | library.cpp:76-122 | The failure path is determined by the failing calls: two runs that stop at the first failure are the same run |
| Convert.ConvertMediaFormat | library.cpp:68-145 | The result is 1 exactly when setup succeeds. On 0 the trace stops at the first failing call, nothing is relayed, and the input stays open. The output holds what the first failing stream left if a stream failed, the whole plan if the file open failed, or the plan as a failed header write leaves it. On 1 the output streams are the plan as the header write leaves it, every packet is relayed in order, and all resources are released |
| Convert.ProbeFailureLeavesInputOpen | library.cpp:80-83 | A failed stream-information probe returns 0 with the opened input context still open |
| Convert.ReleasingConvert | library.cpp:68-145 | The conversion with release on every path: same result, and on return no input context is open and every output context is freed with its file closed |

## Left out

- The libavformat, libavcodec and libavio calls are not executed. They enter
  the model in three ways:
  - **Calls with a `Step`.** These succeed or fail, and a call fails exactly
    when its `Step` is in `Library.failing`:
    - `avformat_open_input`, `avformat_find_stream_info`,
      `avformat_alloc_output_context2`;
    - `avformat_new_stream`, `avcodec_parameters_copy`, `avio_open`;
    - `avformat_write_header`, `av_interleaved_write_frame`, `av_write_trailer`.
  - **Calls whose results are values.** Some of the calls above have results
    the model keeps, and `av_read_frame` has no `Step` at all:
    - A successful `avformat_open_input` yields the `Source`: its streams,
      its duration and the packets that `av_read_frame` returns in turn until
      it reports end of stream or an error.
    - `avformat_new_stream` adds a blank stream.
    - `avcodec_parameters_copy` copies the parameters, or leaves
      `Library.partialCopy` on failure.
    - A successful `avformat_write_header` sets time bases
      (`Library.muxerTimeBase`) and fills in zero codec tags
      (`Library.muxerTag`), and sets the other codec parameters to
      `Library.muxerRest`. A failed one leaves each stream as
      `Library.failedHeader` says.
    - `av_packet_rescale_ts` is the function `Library.rescale`.

    The library's own arithmetic and choices behind these values (rescale
    rounding, how the muxer picks a time base or a tag, which fields survive
    a failed copy or a failed header write) are not modelled.
  - **Calls with no outcome.** `avformat_close_input` and
    `avformat_free_context` return nothing. `avio_closep` returns a status,
    which the code discards (library.cpp:140). So none of the three has an
    outcome in the model: they only set the context's open, file-open and
    freed flags.
- Duration.GetMediaDuration: returns the exact fraction `duration / AV_TIME_BASE`
  rather than the double the code computes. Floating-point rounding is not
  modelled.
- Convert.ConvertMediaFormat: requires every packet read to name one of the
  streams found by the probe. The code indexes both stream arrays with the
  packet's stream index unchecked. A stream that a demuxer adds during reading
  would put that index out of bounds, and the model does not cover that
  behaviour.
- Convert.RelayPackets: a read error and end of stream both end the loop, as
  they do in the code. The packets a source yields are the ones read before
  either happens, so the two are not told apart.
- Convert.RelayPackets: `sent` records the order of calls to the interleaving
  writer. The reordering the muxer does inside its interleaving buffer is not
  modelled.
- `av_packet_unref` and packet buffer ownership are not modelled: packets are
  values.
- The `bsf:v` dictionary option passed to the input open is not modelled:
  the model has no demuxer options.
- `isValidMediaFile`, the thumbnail and frame extraction code, and
  `library.h` are not part of this model. The declarations in `library.h` do
  not match the definitions in `library.cpp`.
- A `CString` character stands for one byte. Multi-byte encodings and the
  exact snprintf behaviour on encoding errors are not modelled.
- AVFMT_NOFILE is a property of the output format, so the model takes it
  from `Library.noFile`. The output context records the same flag.

Behaviour of the code that the model keeps as it is:
- Only the success path releases the contexts (library.cpp:138-142). The
  early returns at lines 82, 92, 100, 104, 115 and 121 leave them open and
  allocated. See Findings.
- The trailer's result is ignored: a failed trailer write still returns 1
  (library.cpp:135, 144).
- The duration is the container's duration field, passed through unchecked
  (library.cpp:41, 46). An unknown duration (AV_NOPTS_VALUE, a large negative
  number) yields a negative number of seconds, and the model returns the
  field as it is.

## Findings

| source | as written | input that shows it | evidently intended | confidence | as-written member | corrected member |
|---|---|---|---|---|---|---|
| library.cpp:80-122 | Returns 0 on the probe, allocation, stream, file-open and header failures without `avformat_close_input`, `avio_closep` or `avformat_free_context`, so the contexts leak | A source whose stream-information probe fails: the opened input context is never closed | Every context opened or allocated is released before returning, as on the success path at lines 138-142 | high, not executed | Convert.ProbeFailureLeavesInputOpen | Convert.ReleasingConvert |

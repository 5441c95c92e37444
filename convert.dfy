/**
 * Conversion of a source into another container: open and probe the input,
 * allocate the output for the destination path, declare one output stream per
 * input stream, open the file, write the header, relay every packet read to
 * the output stream of the same index, write the trailer, release everything.
 * Any failed setup call returns 0 at once, leaving what was opened open.
 */
module Convert {
  import opened MediaTypes
  import opened AvFormat
  import opened Classify
  import opened DestinationPath

  // ---------------------------------------------------------------------------
  // The output stream plan

  /** The output stream declared for input stream `s`: its parameters with the codec tag cleared, its frame rate. */
  function Mirror(s: Stream): Stream
  {
    BlankStream.(codecpar := s.codecpar.(codecTag := 0), avgFrameRate := s.avgFrameRate)
  }

  /**
   * The output streams once every input stream has been mirrored: a
   * positional copy in which only the codec tag (cleared) and the time base
   * (left to the muxer) differ from the input.
   */
  function Plan(streams: seq<Stream>): (plan: seq<Stream>)
    ensures |plan| == |streams|
    ensures forall i :: 0 <= i < |plan| ==>
      plan[i].codecpar.kind == streams[i].codecpar.kind &&
      plan[i].codecpar.codecId == streams[i].codecpar.codecId &&
      plan[i].codecpar.rest == streams[i].codecpar.rest &&
      plan[i].codecpar.codecTag == 0 &&
      plan[i].avgFrameRate == streams[i].avgFrameRate
  {
    seq(|streams|, i requires 0 <= i < |streams| => Mirror(streams[i]))
  }

  /** A created stream whose parameter copy failed: it holds what the failed copy left, nothing else is set. */
  function FailedCopy(s: Stream, partialCopy: CodecParams -> CodecParams): Stream
  {
    BlankStream.(codecpar := partialCopy(s.codecpar))
  }

  /** Stream `k` is the first of `n` streams whose creation or parameter copy fails. */
  predicate FirstFailingStream(lib: Library, n: nat, k: nat)
  {
    k < n && (NewStream(k) in lib.failing || CopyParameters(k) in lib.failing) && StreamSetupSucceeds(lib, k)
  }

  /**
   * What the output holds when stream mapping stopped at stream `k`: the
   * mirrors of the streams before it, then, when it was the copy that failed,
   * the stream created for `k` holding the partial copy.
   */
  function StreamsAtFailure(ins: seq<Stream>, k: nat, lib: Library): seq<Stream>
    requires k < |ins|
  {
    Plan(ins[..k]) + (if NewStream(k) in lib.failing then [] else [FailedCopy(ins[k], lib.partialCopy)])
  }

  /**
   * The output streams after a failed preparation: what the failing stream
   * left when a stream could not be created or copied; the whole plan when
   * every stream was mapped but the file did not open; and the plan as a
   * failed header write leaves it otherwise.
   */
  predicate FailedPreparation(outs: seq<Stream>, ins: seq<Stream>, lib: Library)
  {
    if !StreamSetupSucceeds(lib, |ins|) then
      forall k :: 0 <= k < |ins| && FirstFailingStream(lib, |ins|, k) ==> outs == StreamsAtFailure(ins, k, lib)
    else if !lib.noFile && OpenOutputFile in lib.failing then outs == Plan(ins)
    else outs == FailedHeaderStreams(Plan(ins), lib)
  }

  /**
   * When stream mapping fails there is exactly one first failing stream, so
   * what a failure leaves is determined by the failing calls.
   */
  lemma {:induction false} FirstFailingStreamExists(lib: Library, n: nat)
    requires !StreamSetupSucceeds(lib, n)
    ensures exists k :: FirstFailingStream(lib, n, k)
    ensures forall k, k' :: FirstFailingStream(lib, n, k) && FirstFailingStream(lib, n, k') ==> k == k'
  {
    if StreamSetupSucceeds(lib, n - 1) {
      assert FirstFailingStream(lib, n, n - 1);
    } else {
      FirstFailingStreamExists(lib, n - 1);
      var k :| FirstFailingStream(lib, n - 1, k);
      assert FirstFailingStream(lib, n, k);
    }
  }

  /** Two stream lists with the same codec types, position by position, classify alike. */
  lemma {:induction false} SameKindsSameMediaType(a: seq<Stream>, b: seq<Stream>)
    requires |a| == |b|
    requires forall i :: 0 <= i < |a| ==> a[i].codecpar.kind == b[i].codecpar.kind
    ensures MediaTypeOf(a) == MediaTypeOf(b)
  {
    if a != [] {
      SameKindsSameMediaType(a[1..], b[1..]);
    }
  }

  /** The output of a conversion classifies like its input, before and after the header write. */
  lemma PlanKeepsMediaType(streams: seq<Stream>, lib: Library)
    ensures MediaTypeOf(Plan(streams)) == MediaTypeOf(streams)
    ensures MediaTypeOf(HeaderStreams(Plan(streams), lib)) == MediaTypeOf(streams)
  {
    SameKindsSameMediaType(Plan(streams), streams);
    SameKindsSameMediaType(HeaderStreams(Plan(streams), lib), streams);
  }

  /**
   * Clearing the codec tag hands the choice to the destination format: after
   * the header write every output stream carries the format's tag for its
   * input's codec, whatever tag the input had, and keeps the input's kind,
   * codec id and frame rate; the other parameters are what the muxer's
   * initialisation made of the input's, with the tag cleared.
   */
  lemma ConvertedStreamsTakeFormatTags(streams: seq<Stream>, lib: Library)
    ensures |HeaderStreams(Plan(streams), lib)| == |streams|
    ensures forall i :: 0 <= i < |streams| ==>
      var out := HeaderStreams(Plan(streams), lib)[i];
      out.codecpar.kind == streams[i].codecpar.kind &&
      out.codecpar.codecId == streams[i].codecpar.codecId &&
      out.codecpar.codecTag == lib.muxerTag(streams[i].codecpar.codecId) &&
      out.codecpar.rest == lib.muxerRest(i, streams[i].codecpar.(codecTag := 0)) &&
      out.avgFrameRate == streams[i].avgFrameRate && out.timeBase == lib.muxerTimeBase(i)
  {
    var plan := Plan(streams);
    forall i | 0 <= i < |streams|
      ensures plan[i].codecpar == streams[i].codecpar.(codecTag := 0)
    {
      assert plan[i] == Mirror(streams[i]);
    }
  }

  // ---------------------------------------------------------------------------
  // Setup calls, in the order the conversion makes them

  /** The per-stream calls for the first `n` streams: create stream i, then copy its parameters. */
  function StreamSteps(n: nat): seq<Step>
  {
    seq(2 * n, k requires 0 <= k < 2 * n => if k % 2 == 0 then NewStream(k / 2) else CopyParameters(k / 2))
  }

  /** The file open (only without AVFMT_NOFILE) and the header write. */
  function HeaderSteps(noFile: bool): seq<Step>
  {
    (if noFile then [] else [OpenOutputFile]) + [WriteHeader]
  }

  /** The checked calls that prepare the output: per-stream calls, then the file open and the header. */
  function OutputSteps(n: nat, noFile: bool): seq<Step>
  {
    StreamSteps(n) + HeaderSteps(noFile)
  }

  /** Every checked call up to the header, in call order. */
  function SetupSteps(n: nat, noFile: bool): seq<Step>
  {
    [OpenInput, FindStreamInfo, AllocOutputContext] + OutputSteps(n, noFile)
  }

  /** The per-packet write calls of a relay of `n` packets. */
  function WritePackets(n: nat): seq<Step>
  {
    seq(n, k requires 0 <= k < n => WritePacket(k))
  }

  /** None of the calls fails. */
  predicate AllSucceed(calls: seq<Step>, failing: set<Step>)
  {
    forall k :: 0 <= k < |calls| ==> calls[k] !in failing
  }

  /** Every setup call of a conversion of `n` streams succeeds. */
  predicate SetupSucceeds(lib: Library, n: nat)
  {
    AllSucceed(SetupSteps(n, lib.noFile), lib.failing)
  }

  /** Stream creation and parameter copy succeed for each of the first `n` streams. */
  predicate StreamSetupSucceeds(lib: Library, n: nat)
  {
    forall i :: 0 <= i < n ==> NewStream(i) !in lib.failing && CopyParameters(i) !in lib.failing
  }

  /**
   * `calls` is the run of `steps` that stops at the first failing one: a
   * prefix of `steps` whose last call fails and whose earlier calls succeed.
   */
  predicate StopsAtFirstFailure(calls: seq<Step>, steps: seq<Step>, failing: set<Step>)
  {
    0 < |calls| <= |steps| && calls == steps[..|calls|] &&
    calls[|calls| - 1] in failing && AllSucceed(calls[..|calls| - 1], failing)
  }

  /** The per-stream steps succeed exactly when every stream can be created and its parameters copied. */
  lemma StreamStepsSucceedIff(lib: Library, n: nat)
    ensures AllSucceed(StreamSteps(n), lib.failing) <==> StreamSetupSucceeds(lib, n)
  {
    var steps := StreamSteps(n);
    if AllSucceed(steps, lib.failing) {
      forall i | 0 <= i < n
        ensures NewStream(i) !in lib.failing && CopyParameters(i) !in lib.failing
      {
        assert steps[2 * i] == NewStream(i);
        assert steps[2 * i + 1] == CopyParameters(i);
      }
    }
  }

  /** Where each call sits in the setup order: the three opening calls, the per-stream calls, the file open, the header. */
  lemma SetupStepsLayout(n: nat, noFile: bool)
    ensures |SetupSteps(n, noFile)| == 3 + 2 * n + (if noFile then 0 else 1) + 1
    ensures SetupSteps(n, noFile)[..3] == [OpenInput, FindStreamInfo, AllocOutputContext]
    ensures SetupSteps(n, noFile)[3..3 + 2 * n] == StreamSteps(n)
    ensures SetupSteps(n, noFile)[..3 + 2 * n] == [OpenInput, FindStreamInfo, AllocOutputContext] + StreamSteps(n)
    ensures !noFile ==> SetupSteps(n, noFile)[3 + 2 * n] == OpenOutputFile
    ensures SetupSteps(n, noFile)[|SetupSteps(n, noFile)| - 1] == WriteHeader
  {
    var steps := SetupSteps(n, noFile);
    var head := [OpenInput, FindStreamInfo, AllocOutputContext] + StreamSteps(n);
    assert steps == head + ((if noFile then [] else [OpenOutputFile]) + [WriteHeader]);
    assert steps[..3 + 2 * n] == head;
    assert steps[3..3 + 2 * n] == head[3..];
  }

  /**
   * The conversion's setup succeeds exactly when each checked call does: open,
   * stream info, output context, every stream's creation and parameter copy,
   * the file open unless the format needs no file, and the header.
   */
  lemma SetupSucceedsIff(lib: Library, n: nat)
    ensures SetupSucceeds(lib, n) <==>
      OpenInput !in lib.failing && FindStreamInfo !in lib.failing && AllocOutputContext !in lib.failing &&
      StreamSetupSucceeds(lib, n) &&
      (!lib.noFile ==> OpenOutputFile !in lib.failing) &&
      WriteHeader !in lib.failing
  {
    var steps := SetupSteps(n, lib.noFile);
    var streamSteps := StreamSteps(n);
    SetupStepsLayout(n, lib.noFile);
    StreamStepsSucceedIff(lib, n);
    if SetupSucceeds(lib, n) {
      assert steps[0] == OpenInput && steps[1] == FindStreamInfo && steps[2] == AllocOutputContext;
      forall k | 0 <= k < |streamSteps| ensures streamSteps[k] !in lib.failing {
        assert streamSteps[k] == steps[3 + k];
      }
    }
    if OpenInput !in lib.failing && FindStreamInfo !in lib.failing && AllocOutputContext !in lib.failing &&
       AllSucceed(streamSteps, lib.failing) && (!lib.noFile ==> OpenOutputFile !in lib.failing) &&
       WriteHeader !in lib.failing
    {
      forall k | 0 <= k < |steps| ensures steps[k] !in lib.failing {
        if k < 3 {
          assert steps[k] == steps[..3][k];
        } else if k < 3 + 2 * n {
          assert steps[k] == streamSteps[k - 3];
        }
      }
    }
  }

  /**
   * The result does not depend on how packet writes or the trailer write
   * turn out: making any of them fail leaves setup success unchanged.
   */
  lemma ResultIgnoresWriteOutcomes(lib: Library, n: nat, writes: set<Step>)
    requires forall s :: s in writes ==> s.WritePacket? || s.WriteTrailer?
    ensures SetupSucceeds(lib.(failing := lib.failing + writes), n) == SetupSucceeds(lib, n)
  {
    SetupSucceedsIff(lib, n);
    SetupSucceedsIff(lib.(failing := lib.failing + writes), n);
  }

  /** A run that stops at the first failure of some calls also stops there within any longer call order. */
  lemma StopsWithinLongerOrder(calls: seq<Step>, steps: seq<Step>, more: seq<Step>, failing: set<Step>)
    requires StopsAtFirstFailure(calls, steps, failing)
    ensures StopsAtFirstFailure(calls, steps + more, failing)
  {
    assert (steps + more)[..|calls|] == steps[..|calls|];
  }

  /** Calls that all succeed, followed by a run that stops at a first failure, stop at the first failure of the whole order. */
  lemma StopsAfterSuccesses(done: seq<Step>, calls: seq<Step>, steps: seq<Step>, failing: set<Step>)
    requires AllSucceed(done, failing)
    requires StopsAtFirstFailure(calls, steps, failing)
    ensures StopsAtFirstFailure(done + calls, done + steps, failing)
  {
    var run := done + calls;
    assert (done + steps)[..|run|] == done + steps[..|calls|];
    assert run[..|run| - 1] == done + calls[..|calls| - 1];
  }

  /** A sequence of calls all succeed exactly when both of its parts do. */
  lemma AllSucceedConcat(a: seq<Step>, b: seq<Step>, failing: set<Step>)
    ensures AllSucceed(a + b, failing) <==> AllSucceed(a, failing) && AllSucceed(b, failing)
  {
    if AllSucceed(a, failing) && AllSucceed(b, failing) {
      forall k | 0 <= k < |a + b| ensures (a + b)[k] !in failing {
        if k >= |a| {
          assert (a + b)[k] == b[k - |a|];
        }
      }
    }
    if AllSucceed(a + b, failing) {
      forall k | 0 <= k < |a| ensures a[k] !in failing {
        assert a[k] == (a + b)[k];
      }
      forall k | 0 <= k < |b| ensures b[k] !in failing {
        assert b[k] == (a + b)[|a| + k];
      }
    }
  }

  /** A run that stops at a failing call shows that not every call of the order succeeds. */
  lemma FailureBlocksAll(calls: seq<Step>, steps: seq<Step>, failing: set<Step>)
    requires StopsAtFirstFailure(calls, steps, failing)
    ensures !AllSucceed(steps, failing)
  {
    assert steps[|calls| - 1] == calls[|calls| - 1];
  }

  /** A failing run of the setup calls is determined: two runs that stop at the first failure are the same. */
  lemma FirstFailureUnique(a: seq<Step>, b: seq<Step>, steps: seq<Step>, failing: set<Step>)
    requires StopsAtFirstFailure(a, steps, failing) && StopsAtFirstFailure(b, steps, failing)
    ensures a == b
  {
  }

  // ---------------------------------------------------------------------------
  // The packet relay

  /** A packet as it is written: its timestamps rescaled from its input stream's time base to its output stream's. */
  function Rescaled(p: Packet, ins: seq<Stream>, outs: seq<Stream>, rescale: (Timestamps, Rational, Rational) -> Timestamps): Packet
    requires p.streamIndex < |ins| && p.streamIndex < |outs|
  {
    p.(ts := rescale(p.ts, ins[p.streamIndex].timeBase, outs[p.streamIndex].timeBase))
  }

  /**
   * The packets handed to the muxer for `packets` read in this order: the
   * same packets in the same order, each kept on the stream index it was read
   * from, with only its timestamps rescaled.
   */
  function Relayed(packets: seq<Packet>, ins: seq<Stream>, outs: seq<Stream>,
                   rescale: (Timestamps, Rational, Rational) -> Timestamps): (r: seq<Packet>)
    requires RoutableTo(packets, |ins|) && RoutableTo(packets, |outs|)
    ensures |r| == |packets|
    ensures forall k :: 0 <= k < |r| ==>
      r[k].streamIndex == packets[k].streamIndex && r[k].payload == packets[k].payload &&
      r[k].ts == rescale(packets[k].ts, ins[packets[k].streamIndex].timeBase, outs[packets[k].streamIndex].timeBase)
  {
    seq(|packets|, k requires 0 <= k < |packets| => Rescaled(packets[k], ins, outs, rescale))
  }

  /** Relaying one more packet appends its rescaled copy. */
  lemma RelayedAppend(packets: seq<Packet>, p: Packet, ins: seq<Stream>, outs: seq<Stream>,
                      rescale: (Timestamps, Rational, Rational) -> Timestamps)
    requires RoutableTo(packets, |ins|) && RoutableTo(packets, |outs|)
    requires p.streamIndex < |ins| && p.streamIndex < |outs|
    ensures RoutableTo(packets + [p], |ins|) && RoutableTo(packets + [p], |outs|)
    ensures Relayed(packets + [p], ins, outs, rescale) == Relayed(packets, ins, outs, rescale) + [Rescaled(p, ins, outs, rescale)]
  {
    var all := packets + [p];
    assert forall k :: 0 <= k < |packets| ==> all[k] == packets[k];
  }

  /** The payloads of the packets of stream `j`, in order. */
  function StreamPayloads(packets: seq<Packet>, j: nat): seq<seq<int>>
  {
    if packets == [] then []
    else (if packets[0].streamIndex == j then [packets[0].payload] else []) + StreamPayloads(packets[1..], j)
  }

  /** Within each stream the relay keeps the packets and their order: only timestamps change. */
  lemma {:induction false} RelayKeepsStreamOrder(packets: seq<Packet>, ins: seq<Stream>, outs: seq<Stream>,
                                                 rescale: (Timestamps, Rational, Rational) -> Timestamps, j: nat)
    requires RoutableTo(packets, |ins|) && RoutableTo(packets, |outs|)
    ensures StreamPayloads(Relayed(packets, ins, outs, rescale), j) == StreamPayloads(packets, j)
  {
    if packets != [] {
      var r := Relayed(packets, ins, outs, rescale);
      assert r[1..] == Relayed(packets[1..], ins, outs, rescale);
      RelayKeepsStreamOrder(packets[1..], ins, outs, rescale, j);
    }
  }

  // ---------------------------------------------------------------------------
  // The conversion

  /**
   * One pass of the stream-mapping loop for input stream `i`: create an
   * output stream, copy the input's parameters into it, clear its codec tag
   * and carry over the frame rate.
   */
  method AddOutputStream(output: OutputContext, inputStream: Stream, i: nat, lib: Library) returns (ok: bool, ghost calls: seq<Step>)
    requires |output.streams| == i
    modifies output`streams
    ensures ok == (NewStream(i) !in lib.failing && CopyParameters(i) !in lib.failing)
    ensures ok ==> output.streams == old(output.streams) + [Mirror(inputStream)] && calls == [NewStream(i), CopyParameters(i)]
    ensures !ok && NewStream(i) in lib.failing ==> output.streams == old(output.streams) && calls == [NewStream(i)]
    ensures !ok && NewStream(i) !in lib.failing ==>
      output.streams == old(output.streams) + [FailedCopy(inputStream, lib.partialCopy)] &&
      calls == [NewStream(i), CopyParameters(i)]
  {
    calls := [NewStream(i)];
    ok := output.NewStream(NewStream(i) !in lib.failing);
    if !ok {
      return;
    }
    calls := calls + [CopyParameters(i)];
    ok := output.CopyParameters(i, inputStream.codecpar, CopyParameters(i) !in lib.failing,
                                lib.partialCopy(inputStream.codecpar));
    if !ok {
      return;
    }
    var outputStream := output.streams[i];
    outputStream := outputStream.(codecpar := outputStream.codecpar.(codecTag := 0));
    outputStream := outputStream.(avgFrameRate := inputStream.avgFrameRate);
    output.streams := output.streams[i := outputStream];
  }

  /**
   * The stream-mapping loop: one output stream per input stream, in order.
   * The first failure stops the loop.
   */
  method MapStreams(input: InputContext, output: OutputContext, lib: Library) returns (ok: bool, ghost calls: seq<Step>)
    requires output.streams == []
    modifies output`streams
    ensures ok == StreamSetupSucceeds(lib, |input.streams|)
    ensures ok ==> output.streams == Plan(input.streams) && calls == StreamSteps(|input.streams|)
    ensures !ok ==> StopsAtFirstFailure(calls, StreamSteps(|input.streams|), lib.failing)
    ensures !ok ==> forall k :: FirstFailingStream(lib, |input.streams|, k) ==>
                      output.streams == StreamsAtFailure(input.streams, k, lib)
  {
    calls := [];
    var i := 0;
    while i < |input.streams|
      invariant 0 <= i <= |input.streams|
      invariant |output.streams| == i
      invariant forall j :: 0 <= j < i ==> output.streams[j] == Mirror(input.streams[j])
      invariant calls == StreamSteps(i) && AllSucceed(calls, lib.failing)
      invariant StreamSetupSucceeds(lib, i)
    {
      StreamStepsNext(i, |input.streams|);
      ghost var done := calls;
      ghost var mapped := output.streams;
      ghost var more;
      ok, more := AddOutputStream(output, input.streams[i], i, lib);
      calls := calls + more;
      if !ok {
        assert calls[..|calls| - 1] == done + more[..|more| - 1];
        MirroredPrefixIsPlan(mapped, input.streams, i);
        FirstFailingStreamExists(lib, |input.streams|);
        assert FirstFailingStream(lib, |input.streams|, i);
        assert output.streams == StreamsAtFailure(input.streams, i, lib);
        return;
      }
      i := i + 1;
    }
    ok := true;
  }

  /** Streams that mirror the first `i` input streams, one by one, are the plan for those streams. */
  lemma MirroredPrefixIsPlan(outs: seq<Stream>, ins: seq<Stream>, i: nat)
    requires i <= |ins| && |outs| == i
    requires forall j :: 0 <= j < i ==> outs[j] == Mirror(ins[j])
    ensures outs == Plan(ins[..i])
  {
    var plan := Plan(ins[..i]);
    assert forall j :: 0 <= j < i ==> plan[j] == Mirror(ins[..i][j]) == outs[j];
  }

  /** One more stream adds its two calls; the calls so far are a prefix of the calls for all streams. */
  lemma StreamStepsNext(i: nat, n: nat)
    requires i < n
    ensures StreamSteps(i + 1) == StreamSteps(i) + [NewStream(i), CopyParameters(i)]
    ensures StreamSteps(i) + [NewStream(i)] == StreamSteps(n)[..2 * i + 1]
    ensures StreamSteps(i + 1) == StreamSteps(n)[..2 * i + 2]
  {
    assert StreamSteps(i + 1)[2 * i] == NewStream(i);
    assert StreamSteps(i + 1)[2 * i + 1] == CopyParameters(i);
  }

  /**
   * The relay loop: read packets until the input reports end of stream,
   * rescale each one's timestamps and hand it to the interleaving writer on
   * the stream of the same index. Write results are not looked at.
   */
  method RelayPackets(input: InputContext, output: OutputContext, lib: Library) returns (ghost calls: seq<Step>)
    requires RoutableTo(input.unread, |input.streams|) && RoutableTo(input.unread, |output.streams|)
    modifies input`unread, output`sent
    ensures input.unread == []
    ensures output.sent == old(output.sent) + Relayed(old(input.unread), input.streams, output.streams, lib.rescale)
    ensures calls == WritePackets(|old(input.unread)|)
  {
    ghost var packets := input.unread;
    calls := [];
    var n := 0;
    var got, packet := input.ReadFrame();
    while got
      invariant 0 <= n <= |packets|
      invariant got ==> n < |packets| && packet == packets[n] && input.unread == packets[n + 1..]
      invariant !got ==> n == |packets| && input.unread == []
      invariant output.sent == old(output.sent) + Relayed(packets[..n], input.streams, output.streams, lib.rescale)
      invariant calls == WritePackets(n)
      decreases |input.unread| + (if got then 1 else 0)
    {
      var p := packet.(ts := lib.rescale(packet.ts, input.streams[packet.streamIndex].timeBase,
                                         output.streams[packet.streamIndex].timeBase));
      calls := calls + [WritePacket(n)];
      var status := output.InterleavedWriteFrame(p, WritePacket(n) !in lib.failing);
      assert packets[..n + 1] == packets[..n] + [packet];
      RelayedAppend(packets[..n], packet, input.streams, output.streams, lib.rescale);
      n := n + 1;
      assert input.unread == packets[n..];
      got, packet := input.ReadFrame();
      assert got ==> packet == packets[n..][0] == packets[n] && input.unread == packets[n..][1..] == packets[n + 1..];
    }
    assert packets[..n] == packets;
  }

  /**
   * Opening the destination file (skipped when the format needs no file) and
   * writing the header; a failed open returns before the header.
   */
  method OpenFileAndWriteHeader(output: OutputContext, lib: Library) returns (ok: bool, ghost calls: seq<Step>)
    requires !output.ioOpen && !output.headerWritten && output.noFile == lib.noFile
    modifies output`streams, output`ioOpen, output`headerWritten
    ensures ok == AllSucceed(HeaderSteps(lib.noFile), lib.failing)
    ensures ok ==> calls == HeaderSteps(lib.noFile) && output.headerWritten && output.ioOpen == !lib.noFile
    ensures ok ==> output.streams == HeaderStreams(old(output.streams), lib)
    ensures !ok ==> StopsAtFirstFailure(calls, HeaderSteps(lib.noFile), lib.failing)
    ensures !ok ==> !output.headerWritten
    ensures !ok ==> output.streams == if !lib.noFile && OpenOutputFile in lib.failing then old(output.streams)
                                      else FailedHeaderStreams(old(output.streams), lib)
    ensures !ok ==> output.ioOpen == (!lib.noFile && OpenOutputFile !in lib.failing)
  {
    ghost var steps := HeaderSteps(lib.noFile);
    calls := [];
    if !output.noFile {
      calls := [OpenOutputFile];
      var fileOpened := output.OpenIo(OpenOutputFile !in lib.failing);
      if !fileOpened {
        assert steps[0] == OpenOutputFile;
        ok := false;
        return;
      }
    }
    ok := output.WriteHeader(WriteHeader !in lib.failing, lib);
    calls := calls + [WriteHeader];
    assert calls == steps && steps[|steps| - 1] == WriteHeader;
    assert !lib.noFile ==> |steps| == 2 && steps[0] == OpenOutputFile;
  }

  /**
   * The part of the conversion that prepares the output once it is allocated:
   * the stream-mapping loop, then the file open and the header. It stops at
   * the first failing call.
   */
  method PrepareOutput(input: InputContext, output: OutputContext, lib: Library) returns (ok: bool, ghost calls: seq<Step>)
    requires output.streams == [] && !output.ioOpen && !output.headerWritten && output.noFile == lib.noFile
    modifies output`streams, output`ioOpen, output`headerWritten
    ensures ok == AllSucceed(OutputSteps(|input.streams|, lib.noFile), lib.failing)
    ensures ok ==> calls == OutputSteps(|input.streams|, lib.noFile)
    ensures ok ==> output.streams == HeaderStreams(Plan(input.streams), lib)
    ensures ok ==> output.headerWritten && output.ioOpen == !lib.noFile
    ensures !ok ==> StopsAtFirstFailure(calls, OutputSteps(|input.streams|, lib.noFile), lib.failing)
    ensures !ok ==> FailedPreparation(output.streams, input.streams, lib) && !output.headerWritten
    ensures !ok ==> output.ioOpen == (StreamSetupSucceeds(lib, |input.streams|) && !lib.noFile && OpenOutputFile !in lib.failing)
  {
    ghost var streamSteps := StreamSteps(|input.streams|);
    ghost var headerSteps := HeaderSteps(lib.noFile);
    StreamStepsSucceedIff(lib, |input.streams|);
    AllSucceedConcat(streamSteps, headerSteps, lib.failing);
    ghost var mapCalls;
    ok, mapCalls := MapStreams(input, output, lib);
    if !ok {
      StopsWithinLongerOrder(mapCalls, streamSteps, headerSteps, lib.failing);
      FailureBlocksAll(mapCalls, streamSteps + headerSteps, lib.failing);
      calls := mapCalls;
      return;
    }
    ghost var headerCalls;
    ok, headerCalls := OpenFileAndWriteHeader(output, lib);
    if !ok {
      StopsAfterSuccesses(mapCalls, headerCalls, headerSteps, lib.failing);
      FailureBlocksAll(mapCalls + headerCalls, streamSteps + headerSteps, lib.failing);
    }
    calls := mapCalls + headerCalls;
  }

  /**
   * Everything after the header: the relay loop, the trailer (its result
   * ignored), then closing the input, closing the file unless the format
   * needs none, and freeing the output.
   */
  method RelayAndClose(input: InputContext, output: OutputContext, lib: Library) returns (ghost calls: seq<Step>)
    requires RoutableTo(input.unread, |input.streams|) && RoutableTo(input.unread, |output.streams|)
    modifies input`unread, input`isOpen, output`sent, output`trailerWritten, output`ioOpen, output`freed
    ensures input.unread == [] && !input.isOpen
    ensures output.sent == old(output.sent) + Relayed(old(input.unread), input.streams, output.streams, lib.rescale)
    ensures output.trailerWritten == (WriteTrailer !in lib.failing)
    ensures output.ioOpen == (old(output.ioOpen) && output.noFile)
    ensures output.freed
    ensures calls == WritePackets(|old(input.unread)|) + [WriteTrailer]
  {
    calls := RelayPackets(input, output, lib);
    calls := calls + [WriteTrailer];
    var status := output.WriteTrailer(WriteTrailer !in lib.failing);
    input.Close();
    if !output.noFile {
      output.CloseIo();
    }
    output.Free();
  }

  /**
   * The opening steps of the conversion: open the input, read its stream
   * information, format the destination path and allocate the output context
   * for it. A failure returns at once; an input already opened stays open.
   */
  method OpenContexts(src: Source, lib: Library, destDir: CString, outputName: CString, outputFormat: CString)
    returns (ok: bool, input: InputContext?, output: OutputContext?, ghost calls: seq<Step>)
    ensures ok == (OpenInput !in lib.failing && FindStreamInfo !in lib.failing && AllocOutputContext !in lib.failing)
    ensures ok ==> calls == [OpenInput, FindStreamInfo, AllocOutputContext] && AllSucceed(calls, lib.failing)
    ensures !ok ==> StopsAtFirstFailure(calls, [OpenInput, FindStreamInfo, AllocOutputContext], lib.failing)
    ensures (input != null) == (OpenInput !in lib.failing)
    ensures input != null ==> fresh(input) && input.streams == src.streams && input.unread == src.packets && input.isOpen
    ensures (output != null) == ok && (ok ==> input != null)
    ensures output != null ==> fresh(output) && output.format == outputFormat && output.noFile == lib.noFile &&
                               output.path == DestPath(destDir, outputName, outputFormat)
    ensures output != null ==> output.streams == [] && !output.ioOpen && !output.headerWritten &&
                               output.sent == [] && !output.trailerWritten && !output.freed
  {
    ghost var steps := [OpenInput, FindStreamInfo, AllocOutputContext];
    input, output := null, null;
    calls := [OpenInput];
    if OpenInput in lib.failing {
      return false, input, output, calls;
    }
    input := new InputContext.Open(src);
    calls := calls + [FindStreamInfo];
    if FindStreamInfo in lib.failing {
      return false, input, output, calls;
    }
    var destFilePath := DestPath(destDir, outputName, outputFormat);
    calls := calls + [AllocOutputContext];
    if AllocOutputContext in lib.failing {
      return false, input, output, calls;
    }
    output := new OutputContext.Alloc(outputFormat, destFilePath, lib.noFile);
    ok := true;
  }

  /**
   * convertMediaFormat on a source the demuxer would report as `src`. The two
   * contexts are returned so that their final state can be stated: on success
   * the header, the relayed packets and the trailer went to the output and
   * both contexts are released; on a setup failure the result is 0, the trace
   * of calls stops at the failing one, nothing was relayed and whatever had
   * been opened is left open.
   */
  method ConvertMediaFormat(src: Source, lib: Library, destDir: CString, outputName: CString, outputFormat: CString)
    returns (r: int, input: InputContext?, output: OutputContext?, ghost trace: seq<Step>)
    requires Routable(src)
    ensures r == (if SetupSucceeds(lib, |src.streams|) then 1 else 0)
    ensures r == 0 ==> StopsAtFirstFailure(trace, SetupSteps(|src.streams|, lib.noFile), lib.failing)
    ensures r == 1 ==> trace == SetupSteps(|src.streams|, lib.noFile) + WritePackets(|src.packets|) + [WriteTrailer]
    ensures (input != null) == (OpenInput !in lib.failing)
    ensures input != null ==> fresh(input) && input.streams == src.streams
    ensures (output != null) == (OpenInput !in lib.failing && FindStreamInfo !in lib.failing && AllocOutputContext !in lib.failing)
    ensures output != null ==> fresh(output) && output.format == outputFormat && output.noFile == lib.noFile &&
                               output.path == DestPath(destDir, outputName, outputFormat)
    ensures r == 1 ==> input != null && output != null
    ensures r == 1 ==> output.streams == HeaderStreams(Plan(src.streams), lib) && output.headerWritten
    ensures r == 1 ==> output.sent == Relayed(src.packets, src.streams, output.streams, lib.rescale)
    ensures r == 1 ==> output.trailerWritten == (WriteTrailer !in lib.failing)
    ensures r == 1 ==> input.unread == [] && !input.isOpen && !output.ioOpen && output.freed
    ensures r == 0 && input != null ==> input.isOpen && input.unread == src.packets
    ensures r == 0 && output != null ==> output.sent == [] && !output.headerWritten && !output.trailerWritten && !output.freed
    ensures r == 0 && output != null ==> FailedPreparation(output.streams, src.streams, lib)
    ensures r == 0 && output != null ==>
      output.ioOpen == (StreamSetupSucceeds(lib, |src.streams|) && !lib.noFile && OpenOutputFile !in lib.failing)
  {
    ghost var head := [OpenInput, FindStreamInfo, AllocOutputContext];
    ghost var steps := SetupSteps(|src.streams|, lib.noFile);
    assert steps[..3] == head;
    var contextsReady;
    contextsReady, input, output, trace := OpenContexts(src, lib, destDir, outputName, outputFormat);
    if !contextsReady {
      StopsWithinLongerOrder(trace, head, OutputSteps(|src.streams|, lib.noFile), lib.failing);
      FailureBlocksAll(trace, steps, lib.failing);
      r := 0;
      return;
    }
    var prepared, calls := PrepareOutput(input, output, lib);
    if !prepared {
      StopsAfterSuccesses(trace, calls, OutputSteps(|src.streams|, lib.noFile), lib.failing);
      trace := trace + calls;
      FailureBlocksAll(trace, steps, lib.failing);
      r := 0;
      return;
    }
    AllSucceedConcat(trace, calls, lib.failing);
    trace := trace + calls;
    var finishCalls := RelayAndClose(input, output, lib);
    trace := trace + finishCalls;
    r := 1;
  }

  /**
   * A source whose stream information cannot be read: the conversion as
   * written returns 0 with the input context it opened still open.
   */
  method ProbeFailureLeavesInputOpen() returns (r: int, input: InputContext?)
    ensures r == 0 && input != null && input.isOpen
  {
    var lib := Library({FindStreamInfo}, false, _ => Rational(1, 1000), _ => 0, (i, par: CodecParams) => par.rest, (i, s) => s, par => par, (ts, from, to) => ts);
    var output;
    ghost var trace;
    r, input, output, trace := ConvertMediaFormat(Source([], 0, []), lib, "out", "clip", "mp4");
  }

  /**
   * The conversion with the release its failure paths lack: whatever the
   * conversion left open is closed and whatever it allocated is freed, so no
   * context outlives the call, whatever the result.
   */
  method ReleasingConvert(src: Source, lib: Library, destDir: CString, outputName: CString, outputFormat: CString)
    returns (r: int, input: InputContext?, output: OutputContext?)
    requires Routable(src)
    ensures r == (if SetupSucceeds(lib, |src.streams|) then 1 else 0)
    ensures (input != null) == (OpenInput !in lib.failing) && (input != null ==> !input.isOpen)
    ensures output != null ==> output.freed && !output.ioOpen
    ensures r == 1 ==> input != null && output != null && input.unread == []
    ensures r == 1 ==> output.streams == HeaderStreams(Plan(src.streams), lib) && output.headerWritten
    ensures r == 1 ==> output.sent == Relayed(src.packets, src.streams, output.streams, lib.rescale)
    ensures r == 0 && output != null ==> output.sent == [] && !output.headerWritten
  {
    ghost var trace;
    r, input, output, trace := ConvertMediaFormat(src, lib, destDir, outputName, outputFormat);
    if r == 0 {
      if input != null {
        input.Close();
      }
      if output != null {
        if output.ioOpen {
          output.CloseIo();
        }
        output.Free();
      }
    }
  }
}

/**
 * Duration lookup: open a source, resolve its streams, and report the
 * container duration in seconds when the source classifies as video or audio.
 * Seconds are returned as the exact fraction ticks / AV_TIME_BASE.
 */
module Duration {
  import opened MediaTypes
  import opened AvFormat
  import opened Classify

  /** Zero seconds. */
  const NoDuration: Rational := Rational(0, AV_TIME_BASE)

  /**
   * getMediaDuration on a source the demuxer would report as `src`. The
   * context it opens is returned (ghost) to state that it is closed on every
   * path; it is null when the open itself fails.
   */
  method GetMediaDuration(src: Source, lib: Library) returns (seconds: Rational, ghost ctx: InputContext?)
    ensures seconds.den == AV_TIME_BASE
    ensures OpenInput in lib.failing || FindStreamInfo in lib.failing ==> seconds.num == 0
    ensures OpenInput !in lib.failing && FindStreamInfo !in lib.failing ==>
      seconds.num == if MediaTypeOf(src.streams) == Unknown then 0 else src.duration
    ensures (ctx == null) == (OpenInput in lib.failing)
    ensures ctx != null ==> !ctx.isOpen
  {
    if OpenInput in lib.failing {
      return NoDuration, null;
    }
    var formatContext := new InputContext.Open(src);
    ctx := formatContext;
    if FindStreamInfo in lib.failing {
      formatContext.Close();
      return NoDuration, ctx;
    }
    seconds := NoDuration;
    var t := GetMediaType(formatContext.streams);
    if t == Video {
      seconds := Rational(formatContext.duration, AV_TIME_BASE);
    }
    if t == Audio {
      var i := 0;
      while i < |formatContext.streams|
        invariant 0 <= i <= |formatContext.streams|
        invariant seconds == NoDuration
        invariant forall j :: 0 <= j < i ==> formatContext.streams[j].codecpar.kind != AudioKind
      {
        if formatContext.streams[i].codecpar.kind == AudioKind {
          seconds := Rational(formatContext.duration, AV_TIME_BASE);
          break;
        }
        i := i + 1;
      }
      if i == |formatContext.streams| {
        // the search cannot run off the end: an Audio classification has an audio stream
        AudioHasAudioStream(src.streams);
        assert false;
      }
    }
    formatContext.Close();
  }
}

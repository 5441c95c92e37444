/**
 * Classification of an opened source as video, audio or unknown: the type of
 * the first stream, in index order, whose codec type is video or audio.
 */
module Classify {
  import opened MediaTypes

  datatype MediaType = Video | Audio | Unknown

  /** A stream that decides the classification: a video or an audio stream. */
  predicate IsMedia(s: Stream)
  {
    s.codecpar.kind == VideoKind || s.codecpar.kind == AudioKind
  }

  /** The media type a deciding stream stands for. */
  function KindType(s: Stream): MediaType
  {
    if s.codecpar.kind == VideoKind then Video
    else if s.codecpar.kind == AudioKind then Audio
    else Unknown
  }

  /** The classification of a stream list, examined from index 0 upwards. */
  function MediaTypeOf(streams: seq<Stream>): MediaType
  {
    if streams == [] then Unknown
    else if IsMedia(streams[0]) then KindType(streams[0])
    else MediaTypeOf(streams[1..])
  }

  /** Stream `k` is the first video or audio stream of `streams`. */
  predicate FirstMediaAt(streams: seq<Stream>, k: int)
  {
    0 <= k < |streams| && IsMedia(streams[k]) &&
    forall j :: 0 <= j < k ==> !IsMedia(streams[j])
  }

  /**
   * First match wins: when no stream before `s` is video or audio and `s`
   * is, the classification is the type of `s`, whatever streams follow it.
   */
  lemma {:induction false} FirstMediaStreamDecides(before: seq<Stream>, s: Stream, after: seq<Stream>)
    requires forall j :: 0 <= j < |before| ==> !IsMedia(before[j])
    requires IsMedia(s)
    ensures MediaTypeOf(before + [s] + after) == KindType(s)
  {
    if before == [] {
      assert before + [s] + after == [s] + after;
    } else {
      assert (before + [s] + after)[1..] == before[1..] + [s] + after;
      FirstMediaStreamDecides(before[1..], s, after);
    }
  }

  /** The classification is Unknown exactly when no stream is video or audio, zero streams included. */
  lemma {:induction false} UnknownIffNoMediaStream(streams: seq<Stream>)
    ensures MediaTypeOf(streams) == Unknown <==> forall i :: 0 <= i < |streams| ==> !IsMedia(streams[i])
  {
    if streams != [] {
      UnknownIffNoMediaStream(streams[1..]);
      assert forall i :: 1 <= i < |streams| ==> streams[i] == streams[1..][i - 1];
    }
  }

  /**
   * A Video or Audio classification comes from a stream: the first video or
   * audio stream exists and has that type.
   */
  lemma {:induction false} ClassifiedByFirstMediaStream(streams: seq<Stream>)
    requires MediaTypeOf(streams) != Unknown
    ensures exists k :: FirstMediaAt(streams, k) && KindType(streams[k]) == MediaTypeOf(streams)
  {
    if IsMedia(streams[0]) {
      assert FirstMediaAt(streams, 0);
    } else {
      ClassifiedByFirstMediaStream(streams[1..]);
      var k :| FirstMediaAt(streams[1..], k) && KindType(streams[1..][k]) == MediaTypeOf(streams[1..]);
      assert FirstMediaAt(streams, k + 1);
    }
  }

  /** An Audio classification means some stream is an audio stream. */
  lemma AudioHasAudioStream(streams: seq<Stream>)
    requires MediaTypeOf(streams) == Audio
    ensures exists k :: 0 <= k < |streams| && streams[k].codecpar.kind == AudioKind
  {
    ClassifiedByFirstMediaStream(streams);
  }

  /** getMediaType: scans the streams in index order and returns at the first video or audio one. */
  method GetMediaType(streams: seq<Stream>) returns (t: MediaType)
    ensures t == MediaTypeOf(streams)
  {
    var i := 0;
    while i < |streams|
      invariant 0 <= i <= |streams|
      invariant MediaTypeOf(streams[i..]) == MediaTypeOf(streams)
    {
      assert streams[i..][1..] == streams[i + 1..];
      if streams[i].codecpar.kind == VideoKind {
        return Video;
      } else if streams[i].codecpar.kind == AudioKind {
        return Audio;
      }
      i := i + 1;
    }
    t := Unknown;
  }
}

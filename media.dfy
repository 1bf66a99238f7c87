/**
 * The browser objects the recorder components work with, reduced to what
 * the components observe of them: the data chunks a MediaRecorder delivers,
 * the Blob built from them (here `Artifact`), the device stream with its
 * tracks, and the lifecycle of the MediaRecorder itself.
 */
module Media {

  /** A chunk delivered by the recorder's `dataavailable` event. */
  datatype Chunk = Chunk(data: seq<bv8>) {
    /** `e.data.size`. */
    function Size(): nat {
      |data|
    }
  }

  /** The bytes of a run of chunks, concatenated in order (what `new Blob(chunks)` holds). */
  function Concat(cs: seq<Chunk>): (r: seq<bv8>)
    ensures |r| == TotalSize(cs)
  {
    if cs == [] then [] else cs[0].data + Concat(cs[1..])
  }

  function TotalSize(cs: seq<Chunk>): nat {
    if cs == [] then 0 else cs[0].Size() + TotalSize(cs[1..])
  }

  lemma {:induction false} ConcatAppend(cs: seq<Chunk>, ds: seq<Chunk>)
    ensures Concat(cs + ds) == Concat(cs) + Concat(ds)
  {
    if cs == [] {
      assert cs + ds == ds;
    } else {
      assert (cs + ds)[0] == cs[0];
      assert (cs + ds)[1..] == cs[1..] + ds;
      ConcatAppend(cs[1..], ds);
    }
  }

  lemma AppendAssoc<T>(a: seq<T>, b: seq<T>, c: seq<T>)
    ensures (a + b) + c == a + (b + c)
  {
  }

  /**
   * The `ondataavailable` handler: a chunk of size zero is dropped, any other
   * is appended. What was buffered stays in place, and the eventual blob
   * grows by exactly the chunk's bytes either way.
   */
  function Buffered(chunks: seq<Chunk>, c: Chunk): (r: seq<Chunk>)
    ensures |chunks| <= |r| && r[..|chunks|] == chunks
    ensures Concat(r) == Concat(chunks) + c.data
  {
    if c.Size() > 0 then
      ConcatAppend(chunks, [c]);
      assert [c][1..] == [];
      chunks + [c]
    else
      assert c.data == [];
      chunks
  }

  /** The chunks of `cs` that have a non-zero size, in their original order. */
  function NonEmpty(cs: seq<Chunk>): (r: seq<Chunk>)
    ensures |r| <= |cs|
    ensures forall c :: c in r <==> c in cs && c.Size() > 0
  {
    if cs == [] then []
    else if cs[0].Size() > 0 then [cs[0]] + NonEmpty(cs[1..])
    else NonEmpty(cs[1..])
  }

  /**
   * The buffer after the handler has run once per chunk of `cs`, in arrival
   * order: the non-empty chunks of `cs` are appended, in arrival order.
   */
  function Delivered(chunks: seq<Chunk>, cs: seq<Chunk>): (r: seq<Chunk>)
    ensures r == chunks + NonEmpty(cs)
    decreases |cs|
  {
    if cs == [] then chunks
    else
      var r := Delivered(Buffered(chunks, cs[0]), cs[1..]);
      if cs[0].Size() > 0 then
        AppendAssoc(chunks, [cs[0]], NonEmpty(cs[1..]));
        r
      else
        r
  }

  /** Dropping zero-size chunks loses no byte: the blob is the same with or without them. */
  lemma {:induction false} ConcatNonEmpty(cs: seq<Chunk>)
    ensures Concat(NonEmpty(cs)) == Concat(cs)
  {
    if cs != [] {
      var rest := NonEmpty(cs[1..]);
      ConcatNonEmpty(cs[1..]);
      if cs[0].Size() > 0 {
        var kept := [cs[0]] + rest;
        assert NonEmpty(cs) == kept;
        assert kept[0] == cs[0] && kept[1..] == rest;
        assert Concat(kept) == cs[0].data + Concat(rest);
      } else {
        assert NonEmpty(cs) == rest;
        assert cs[0].data == [];
        assert Concat(cs) == cs[0].data + Concat(cs[1..]);
      }
    }
  }

  /** The finalised recording: the Blob's bytes and its MIME type. */
  datatype Artifact = Artifact(bytes: seq<bv8>, mime: string)

  const AudioWebm: string := "audio/webm"
  const VideoWebm: string := "video/webm"

  /** `new Blob(chunks, { type: mime })`: every buffered byte, in arrival order, under the given type. */
  function Finalize(chunks: seq<Chunk>, mime: string): (a: Artifact)
    ensures a.mime == mime
    ensures |a.bytes| == TotalSize(chunks)
  {
    Artifact(Concat(chunks), mime)
  }

  /** A whole recording session, delivered and then finalised, holds exactly the bytes delivered. */
  lemma SessionArtifact(cs: seq<Chunk>, mime: string)
    ensures Finalize(Delivered([], cs), mime) == Artifact(Concat(cs), mime)
  {
    assert Delivered([], cs) == NonEmpty(cs);
    ConcatNonEmpty(cs);
  }

  /** The `{ audio, video }` constraints passed to `getUserMedia`. */
  datatype Constraints = Constraints(audio: bool, video: bool)

  datatype TrackKind = AudioTrack | VideoTrack

  /** A MediaStreamTrack: its kind and whether it still holds the device. */
  datatype Track = Track(kind: TrackKind, live: bool)

  /** Every track of `ts` stopped, in the same order and with the same kinds. */
  function Stopped(ts: seq<Track>): (r: seq<Track>)
    ensures |r| == |ts|
    ensures forall i :: 0 <= i < |r| ==> r[i].kind == ts[i].kind && !r[i].live
  {
    seq(|ts|, i requires 0 <= i < |ts| => Track(ts[i].kind, false))
  }

  /** The device stream returned by `getUserMedia`; stopping a track changes it in place. */
  class MediaStream {
    var tracks: seq<Track>

    constructor (tracks: seq<Track>)
      ensures this.tracks == tracks
    {
      this.tracks := tracks;
    }

    /** No track of the stream holds a device any more. */
    predicate Released()
      reads this
    {
      forall i :: 0 <= i < |tracks| ==> !tracks[i].live
    }

    /** `stream.getTracks().forEach(track => track.stop())`. */
    method StopAll()
      modifies this
      ensures tracks == Stopped(old(tracks))
      ensures Released()
    {
      var i := 0;
      while i < |tracks|
        invariant 0 <= i <= |tracks| == |old(tracks)|
        invariant tracks[..i] == Stopped(old(tracks))[..i]
        invariant tracks[i..] == old(tracks)[i..]
      {
        tracks := tracks[i := Track(tracks[i].kind, false)];
        i := i + 1;
      }
    }
  }

  /**
   * The MediaRecorder in `mediaRecorder.current`: none yet, capturing, asked
   * to stop with its `stop` event still to be delivered, or stopped.
   */
  datatype RecorderState = NoRecorder | Capturing | StopQueued | Inactive

  /**
   * `mediaRecorder.current.stop()`: a capturing recorder stops and queues its
   * `stop` event; on a recorder that is no longer capturing the call does nothing.
   */
  function AfterStopCall(r: RecorderState): (r': RecorderState)
    ensures r' != Capturing
    ensures r' == StopQueued <==> r == Capturing || r == StopQueued
    ensures r != Capturing ==> r' == r
  {
    if r == Capturing then StopQueued else r
  }
}

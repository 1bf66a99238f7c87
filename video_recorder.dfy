/**
 * The video-only component (src/components/VideoRecorder.js). Unlike the
 * switchable page it stops the stream's tracks in `pauseRecording` and keeps
 * the stream in its ref afterwards; the recorder's `stop` handler only
 * builds the artifact.
 */
module VideoRecorderComponent {

  import opened Optional
  import opened Media

  const FileName: string := "recording.webm"

  class VideoRecorder {
    var isRecording: bool
    var time: nat
    /** `timeRef.current` names an interval that has not been cleared. */
    var timerRunning: bool
    /** `recordingURL`: `None` is the empty string, otherwise the artifact the object URL refers to. */
    var recordingURL: Option<Artifact>
    var chunks: seq<Chunk>
    /** `mediaStream.current`. */
    var stream: MediaStream?
    /** `mediaRecorder.current` and where it is in its lifecycle. */
    var recorder: RecorderState

    /**
     * The interval runs exactly while recording, the recorder captures exactly
     * while recording, a stream is held from the first successful start on,
     * and whenever the component is not recording the stream it holds is released.
     */
    ghost predicate Valid()
      reads this, stream
    {
      && timerRunning == isRecording
      && (isRecording <==> recorder == Capturing)
      && (stream == null <==> recorder == NoRecorder)
      && (!isRecording && stream != null ==> stream.Released())
    }

    constructor ()
      ensures Valid()
      ensures !isRecording && time == 0 && recordingURL == None
      ensures chunks == [] && stream == null && recorder == NoRecorder
    {
      isRecording, time, timerRunning := false, 0, false;
      recordingURL, chunks := None, [];
      stream, recorder := null, NoRecorder;
    }

    /**
     * `startRecording`. `granted` is what `getUserMedia` answered to `request`
     * (always audio and video): a stream, or null when access was refused and
     * the error was caught. The interval is started only if not already recording.
     */
    method Start(granted: MediaStream?) returns (request: Constraints)
      requires Valid()
      modifies this
      ensures Valid()
      ensures request == Constraints(true, true)
      ensures time == 0 && recordingURL == None && chunks == old(chunks)
      ensures granted == null ==>
        && isRecording == old(isRecording) && timerRunning == old(timerRunning)
        && stream == old(stream) && recorder == old(recorder)
      ensures granted != null ==>
        && isRecording && timerRunning && stream == granted && recorder == Capturing
    {
      time := 0;
      recordingURL := None;
      request := Constraints(true, true);
      if granted != null {
        stream := granted;
        recorder := Capturing;
        if !isRecording {
          isRecording := true;
          timerRunning := true;
        }
      }
    }

    /** `ondataavailable`: only a chunk of non-zero size is kept, at the end of the buffer. */
    method DataAvailable(c: Chunk)
      requires Valid()
      requires recorder == Capturing || recorder == StopQueued
      modifies this`chunks
      ensures Valid()
      ensures chunks == Buffered(old(chunks), c)
    {
      if c.Size() > 0 {
        chunks := chunks + [c];
      }
    }

    /** One firing of the one-second interval. */
    method Tick()
      requires Valid() && timerRunning
      modifies this`time
      ensures Valid()
      ensures time == old(time) + 1
    {
      time := time + 1;
    }

    /**
     * `pauseRecording`: clears the interval if recording; if there is a
     * recorder, stops it (queueing its `stop` event) and stops every track of
     * the stream, so the camera and microphone are released.
     */
    method Pause()
      requires Valid()
      modifies this`isRecording, this`timerRunning, this`recorder, stream
      ensures Valid()
      ensures !isRecording && !timerRunning
      ensures recorder == AfterStopCall(old(recorder))
      ensures stream == old(stream)
      ensures stream != null ==> stream.tracks == Stopped(old(stream.tracks)) && stream.Released()
    {
      if isRecording {
        isRecording := false;
        timerRunning := false;
      }
      if recorder != NoRecorder {
        recorder := AfterStopCall(recorder);
        stream.StopAll();
      }
    }

    /** `stopRecording`: `pauseRecording` followed by resetting the elapsed time. */
    method Stop()
      requires Valid()
      modifies this`isRecording, this`timerRunning, this`recorder, this`time, stream
      ensures Valid()
      ensures !isRecording && !timerRunning && time == 0
      ensures recorder == AfterStopCall(old(recorder))
      ensures stream == old(stream)
      ensures stream != null ==> stream.tracks == Stopped(old(stream.tracks)) && stream.Released()
    {
      Pause();
      time := 0;
    }

    /** `onstop`: the buffered chunks become a `video/webm` artifact and the buffer is emptied. */
    method RecorderStopped()
      requires Valid() && recorder == StopQueued
      modifies this`recordingURL, this`chunks, this`recorder
      ensures Valid()
      ensures recordingURL == Some(Finalize(old(chunks), VideoWebm))
      ensures chunks == [] && recorder == Inactive
    {
      recordingURL := Some(Finalize(chunks, VideoWebm));
      chunks := [];
      recorder := Inactive;
    }

    /** `downloadRecording`: the link's target, always saved as `recording.webm`. */
    method Download() returns (href: Option<Artifact>, filename: string)
      ensures href == recordingURL
      ensures filename == FileName
    {
      href := recordingURL;
      filename := FileName;
    }
  }

  /**
   * Start, a chunk, Pause and the stop event on a fresh component: Pause
   * stops the recorder, so its stop event already yields a clip, and the
   * camera is released.
   */
  method PausedAfterOneChunk() returns (rec: VideoRecorder, cam: MediaStream)
    ensures fresh(rec) && fresh(cam) && rec.Valid()
    ensures rec.recordingURL == Some(Artifact([1], VideoWebm))
    ensures !rec.isRecording && rec.recorder == Inactive && rec.chunks == []
    ensures rec.stream == cam && cam.Released()
  {
    rec := new VideoRecorder();
    cam := new MediaStream([Track(AudioTrack, true), Track(VideoTrack, true)]);
    var request := rec.Start(cam);
    rec.DataAvailable(Chunk([1]));
    assert rec.chunks == [Chunk([1])];
    rec.Pause();
    rec.RecorderStopped();
    assert Finalize([Chunk([1])], VideoWebm) == Artifact([1], VideoWebm) by {
      assert [Chunk([1])][1..] == [];
    }
  }

  /**
   * Start, Pause, Start again, Stop. The first stop event already yields a
   * clip; the restart acquires a new stream and the second clip holds only
   * what was delivered after it. Both streams end released.
   */
  method PauseThenRestart() returns (first: Option<Artifact>, second: Option<Artifact>, released: bool)
    ensures first == Some(Artifact([1], VideoWebm))
    ensures second == Some(Artifact([2], VideoWebm))
    ensures released
  {
    var rec, cam1 := PausedAfterOneChunk();
    first := rec.recordingURL;
    var cam2 := new MediaStream([Track(AudioTrack, true), Track(VideoTrack, true)]);
    var request := rec.Start(cam2);
    rec.DataAvailable(Chunk([2]));
    assert rec.chunks == [Chunk([2])];
    rec.Stop();
    rec.RecorderStopped();
    second := rec.recordingURL;
    released := cam1.Released() && cam2.Released();
    assert Finalize([Chunk([2])], VideoWebm) == Artifact([2], VideoWebm) by {
      assert [Chunk([2])][1..] == [];
    }
  }
}

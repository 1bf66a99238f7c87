/**
 * The audio-only component (src/components/AudioRecorder.js). Like the video
 * component it stops the stream's tracks in `pauseRecording` and keeps the
 * stream in its ref; unlike both other components its `startRecording`
 * leaves the previous recording in place.
 */
module AudioRecorderComponent {

  import opened Optional
  import opened Media
  import Clock

  const FileName: string := "recording.webm"

  class AudioRecorder {
    var isRecording: bool
    var time: nat
    /** `timeRef.current` names an interval that has not been cleared. */
    var timerRunning: bool
    /** `recordingURL`: `None` is the empty string, otherwise the artifact the object URL refers to. */
    var recordingURL: Option<Artifact>
    var chunks: seq<Chunk>
    /** `mediaStream.current`. */
    var stream: MediaStream?
    /** `mediaRecorder.current` and where it is in its lifecycle. */
    var recorder: RecorderState

    /**
     * The interval runs exactly while recording, the recorder captures exactly
     * while recording, a stream is held from the first successful start on,
     * and whenever the component is not recording the stream it holds is released.
     */
    ghost predicate Valid()
      reads this, stream
    {
      && timerRunning == isRecording
      && (isRecording <==> recorder == Capturing)
      && (stream == null <==> recorder == NoRecorder)
      && (!isRecording && stream != null ==> stream.Released())
    }

    constructor ()
      ensures Valid()
      ensures !isRecording && time == 0 && recordingURL == None
      ensures chunks == [] && stream == null && recorder == NoRecorder
    {
      isRecording, time, timerRunning := false, 0, false;
      recordingURL, chunks := None, [];
      stream, recorder := null, NoRecorder;
    }

    /**
     * `startRecording`. `granted` is what `getUserMedia` answered to `request`
     * (audio only): a stream, or null when access was refused and the error
     * was caught. The elapsed time is reset but the previous recording is kept.
     * The interval is started only if not already recording.
     */
    method Start(granted: MediaStream?) returns (request: Constraints)
      requires Valid()
      modifies this
      ensures Valid()
      ensures request == Constraints(true, false)
      ensures time == 0 && recordingURL == old(recordingURL) && chunks == old(chunks)
      ensures granted == null ==>
        && isRecording == old(isRecording) && timerRunning == old(timerRunning)
        && stream == old(stream) && recorder == old(recorder)
      ensures granted != null ==>
        && isRecording && timerRunning && stream == granted && recorder == Capturing
    {
      time := 0;
      request := Constraints(true, false);
      if granted != null {
        stream := granted;
        recorder := Capturing;
        if !isRecording {
          isRecording := true;
          timerRunning := true;
        }
      }
    }

    /** `ondataavailable`: only a chunk of non-zero size is kept, at the end of the buffer. */
    method DataAvailable(c: Chunk)
      requires Valid()
      requires recorder == Capturing || recorder == StopQueued
      modifies this`chunks
      ensures Valid()
      ensures chunks == Buffered(old(chunks), c)
    {
      if c.Size() > 0 {
        chunks := chunks + [c];
      }
    }

    /** One firing of the one-second interval. */
    method Tick()
      requires Valid() && timerRunning
      modifies this`time
      ensures Valid()
      ensures time == old(time) + 1
    {
      time := time + 1;
    }

    /**
     * `pauseRecording`: clears the interval if recording; if there is a
     * recorder, stops it (queueing its `stop` event) and stops every track of
     * the stream, so the microphone is released.
     */
    method Pause()
      requires Valid()
      modifies this`isRecording, this`timerRunning, this`recorder, stream
      ensures Valid()
      ensures !isRecording && !timerRunning
      ensures recorder == AfterStopCall(old(recorder))
      ensures stream == old(stream)
      ensures stream != null ==> stream.tracks == Stopped(old(stream.tracks)) && stream.Released()
    {
      if isRecording {
        isRecording := false;
        timerRunning := false;
      }
      if recorder != NoRecorder {
        recorder := AfterStopCall(recorder);
        stream.StopAll();
      }
    }

    /** `stopRecording`: `pauseRecording` followed by resetting the elapsed time. */
    method Stop()
      requires Valid()
      modifies this`isRecording, this`timerRunning, this`recorder, this`time, stream
      ensures Valid()
      ensures !isRecording && !timerRunning && time == 0
      ensures recorder == AfterStopCall(old(recorder))
      ensures stream == old(stream)
      ensures stream != null ==> stream.tracks == Stopped(old(stream.tracks)) && stream.Released()
    {
      Pause();
      time := 0;
    }

    /** `onstop`: the buffered chunks become an `audio/webm` artifact and the buffer is emptied. */
    method RecorderStopped()
      requires Valid() && recorder == StopQueued
      modifies this`recordingURL, this`chunks, this`recorder
      ensures Valid()
      ensures recordingURL == Some(Finalize(old(chunks), AudioWebm))
      ensures chunks == [] && recorder == Inactive
    {
      recordingURL := Some(Finalize(chunks, AudioWebm));
      chunks := [];
      recorder := Inactive;
    }

    /** `downloadRecording`: the link's target, always saved as `recording.webm`. */
    method Download() returns (href: Option<Artifact>, filename: string)
      ensures href == recordingURL
      ensures filename == FileName
    {
      href := recordingURL;
      filename := FileName;
    }
  }

  /**
   * Start, three ticks and Stop: the label reads `00: 00: 03 ` just before
   * Stop, and the elapsed time is 0 after it.
   */
  method ThreeSecondLabel() returns (shown: string, after: nat)
    ensures shown == "00: 00: 03 " && after == 0
  {
    var rec := new AudioRecorder();
    var mic := new MediaStream([Track(AudioTrack, true)]);
    var request := rec.Start(mic);
    rec.Tick();
    rec.Tick();
    rec.Tick();
    var elapsed := rec.time;
    assert elapsed == 3;
    shown := Clock.FormatTimerSpaced(elapsed);
    Clock.ThreeSecondsLabel();
    rec.Stop();
    after := rec.time;
  }

  /**
   * Start, a zero-size chunk, a chunk, Stop, the final chunk and the
   * recorder's stop event: the clip is `audio/webm` holding every byte
   * delivered in order, and the microphone is released.
   */
  method ClipOfDeliveredChunks() returns (clip: Option<Artifact>, released: bool)
    ensures clip == Some(Artifact([1, 2, 3], AudioWebm))
    ensures released
  {
    var rec := new AudioRecorder();
    var mic := new MediaStream([Track(AudioTrack, true)]);
    var request := rec.Start(mic);
    rec.DataAvailable(Chunk([]));
    assert rec.chunks == [];
    rec.DataAvailable(Chunk([1, 2]));
    assert rec.chunks == [Chunk([1, 2])];
    rec.Stop();
    rec.DataAvailable(Chunk([3]));
    assert rec.chunks == [Chunk([1, 2]), Chunk([3])];
    rec.RecorderStopped();
    clip := rec.recordingURL;
    released := mic.Released();
    assert [Chunk([3])][1..] == [];
    assert [Chunk([1, 2]), Chunk([3])][1..] == [Chunk([3])];
    assert Concat([Chunk([1, 2]), Chunk([3])]) == [1, 2] + [3];
    assert Finalize([Chunk([1, 2]), Chunk([3])], AudioWebm) == Artifact([1, 2, 3], AudioWebm);
  }
}

/**
 * The switchable audio/video page (src/pages/MediaRocorder.js). One object
 * holds the component's state and refs; each method is one event: a button
 * (Start, Pause, Stop, the mode switch, Download), a tick of the one-second
 * interval, or a callback of the MediaRecorder (`dataavailable`, `stop`).
 * On this page the device is released by the recorder's `stop` handler.
 */
module MediaRocorderPage {

  import opened Optional
  import opened Media

  const VideoFileName: string := "recording_video.webm"
  const AudioFileName: string := "recording_audio.webm"

  class MediaRocorder {
    var isRecording: bool
    var time: nat
    /** `timeRef.current` names an interval that has not been cleared. */
    var timerRunning: bool
    /** `recordingURL`: `None` is the empty string, otherwise the artifact the object URL refers to. */
    var recordingURL: Option<Artifact>
    var isVideoMode: bool
    var chunks: seq<Chunk>
    /** `mediaStream.current`. */
    var stream: MediaStream?
    /** `mediaRecorder.current` and where it is in its lifecycle. */
    var recorder: RecorderState
    /** The value of `isVideoMode` that the current recorder's `stop` handler closed over. */
    var recorderVideo: bool

    /**
     * The interval runs exactly while recording, the recorder captures exactly
     * while recording, and a stream is held exactly while the recorder
     * captures or its `stop` event (which releases the stream) is still due.
     */
    ghost predicate Valid()
      reads this
    {
      && timerRunning == isRecording
      && (isRecording <==> recorder == Capturing)
      && (stream != null <==> recorder == Capturing || recorder == StopQueued)
    }

    constructor ()
      ensures Valid()
      ensures !isRecording && time == 0 && recordingURL == None && !isVideoMode
      ensures chunks == [] && stream == null && recorder == NoRecorder
    {
      isRecording, time, timerRunning := false, 0, false;
      recordingURL, isVideoMode, chunks := None, false, [];
      stream, recorder, recorderVideo := null, NoRecorder, false;
    }

    /**
     * `startRecording`. `granted` is what `getUserMedia` answered to `request`:
     * a stream, or null when access was refused and the error was caught.
     */
    method Start(granted: MediaStream?) returns (request: Constraints)
      requires Valid()
      modifies this
      ensures Valid()
      ensures request == Constraints(true, old(isVideoMode))
      ensures time == 0 && recordingURL == None
      ensures isVideoMode == old(isVideoMode) && chunks == old(chunks)
      ensures granted == null ==>
        && isRecording == old(isRecording) && timerRunning == old(timerRunning)
        && stream == old(stream) && recorder == old(recorder) && recorderVideo == old(recorderVideo)
      ensures granted != null ==>
        && isRecording && timerRunning
        && stream == granted && recorder == Capturing && recorderVideo == old(isVideoMode)
    {
      time := 0;
      recordingURL := None;
      request := Constraints(true, isVideoMode);
      if granted != null {
        stream := granted;
        recorder := Capturing;
        recorderVideo := isVideoMode;
        isRecording := true;
        timerRunning := true;
      }
    }

    /** `ondataavailable`: only a chunk of non-zero size is kept, at the end of the buffer. */
    method DataAvailable(c: Chunk)
      requires Valid()
      requires recorder == Capturing || recorder == StopQueued
      modifies this`chunks
      ensures Valid()
      ensures chunks == Buffered(old(chunks), c)
    {
      if c.Size() > 0 {
        chunks := chunks + [c];
      }
    }

    /** One firing of the one-second interval. */
    method Tick()
      requires Valid() && timerRunning
      modifies this`time
      ensures Valid()
      ensures time == old(time) + 1
    {
      time := time + 1;
    }

    /**
     * `pauseRecording`: clears the interval if recording, and stops the
     * recorder if there is one, which queues its `stop` event.
     */
    method Pause()
      requires Valid()
      modifies this`isRecording, this`timerRunning, this`recorder
      ensures Valid()
      ensures !isRecording && !timerRunning
      ensures recorder == AfterStopCall(old(recorder))
    {
      if isRecording {
        isRecording := false;
        timerRunning := false;
      }
      if recorder != NoRecorder {
        recorder := AfterStopCall(recorder);
      }
    }

    /** `stopRecording`: `pauseRecording` followed by resetting the elapsed time. */
    method Stop()
      requires Valid()
      modifies this`isRecording, this`timerRunning, this`recorder, this`time
      ensures Valid()
      ensures !isRecording && !timerRunning && time == 0
      ensures recorder == AfterStopCall(old(recorder))
    {
      Pause();
      time := 0;
    }

    /**
     * `onstop`: the buffered chunks become the artifact, typed by the mode
     * the handler closed over; the buffer is emptied and the stream's tracks
     * are stopped before the stream is dropped.
     */
    method RecorderStopped()
      requires Valid() && recorder == StopQueued
      modifies this`recordingURL, this`chunks, this`stream, this`recorder, stream
      ensures Valid()
      ensures recordingURL == Some(Finalize(old(chunks), if recorderVideo then VideoWebm else AudioWebm))
      ensures chunks == [] && stream == null && recorder == Inactive
      ensures old(stream).tracks == Stopped(old(stream.tracks)) && old(stream).Released()
    {
      recordingURL := Some(Finalize(chunks, if recorderVideo then VideoWebm else AudioWebm));
      chunks := [];
      if stream != null {
        stream.StopAll();
        stream := null;
      }
      recorder := Inactive;
    }

    /**
     * `handleToggle`: refused, with a warning, while recording; otherwise
     * switches between audio and video and drops the previous recording.
     */
    method Toggle() returns (warned: bool)
      requires Valid()
      modifies this`isVideoMode, this`recordingURL
      ensures Valid()
      ensures warned == old(isRecording)
      ensures warned ==> isVideoMode == old(isVideoMode) && recordingURL == old(recordingURL)
      ensures !warned ==> isVideoMode == !old(isVideoMode) && recordingURL == None
    {
      if isRecording {
        warned := true;
        return;
      }
      warned := false;
      isVideoMode := !isVideoMode;
      recordingURL := None;
    }

    /** `downloadRecording`: the link's target and the file name, chosen by the current mode. */
    method Download() returns (href: Option<Artifact>, filename: string)
      ensures href == recordingURL
      ensures filename == VideoFileName <==> isVideoMode
      ensures filename == VideoFileName || filename == AudioFileName
    {
      href := recordingURL;
      filename := if isVideoMode then VideoFileName else AudioFileName;
    }
  }

  /** Two mode switches while not recording give back the mode the page had. */
  method ToggleTwiceWhileIdle(page: MediaRocorder)
    requires page.Valid() && !page.isRecording
    modifies page
    ensures page.Valid() && page.isVideoMode == old(page.isVideoMode) && page.recordingURL == None
    ensures page.isRecording == old(page.isRecording) && page.time == old(page.time) && page.chunks == old(page.chunks)
  {
    var first := page.Toggle();
    var second := page.Toggle();
  }

  /**
   * Switch to video, start, then try to switch again: the second switch is
   * refused with a warning, the page stays in video mode and keeps
   * recording, and the start asked for audio and video.
   */
  method SwitchWhileRecording() returns (request: Constraints, warned: bool, video: bool, recording: bool)
    ensures request == Constraints(true, true)
    ensures warned && video && recording
  {
    var page := new MediaRocorder();
    var first := page.Toggle();
    var cam := new MediaStream([Track(AudioTrack, true), Track(VideoTrack, true)]);
    request := page.Start(cam);
    warned := page.Toggle();
    video, recording := page.isVideoMode, page.isRecording;
  }

  /**
   * An audio recording is paused and the mode switched before the recorder's
   * stop event arrives: the clip keeps the type the stop handler closed over
   * (`audio/webm`), while the download name follows the new mode.
   */
  method SwitchBeforeStopEvent() returns (clip: Option<Artifact>, filename: string, released: bool)
    ensures clip.Some? && clip.value.mime == AudioWebm
    ensures filename == VideoFileName
    ensures released
  {
    var page := new MediaRocorder();
    var mic := new MediaStream([Track(AudioTrack, true)]);
    var request := page.Start(mic);
    page.Pause();
    var warned := page.Toggle();
    page.RecorderStopped();
    clip, filename := page.Download();
    released := mic.Released();
  }
}

# Recording session model of the MediaRecorder app

The app is a React page and two components that record from the user's
microphone and camera and offer the clip for download. Each component holds
a recording session in a handful of state variables and refs: `isRecording`,
the elapsed `time`, the interval in `timeRef`, the `recordingURL` of the last
clip, the buffer `chunks`, the device stream in `mediaStream` and the
MediaRecorder in `mediaRecorder`. The switchable page also holds
`isVideoMode`. The session reacts to button presses (Start, Pause, Stop, the
mode switch, Download), to ticks of a one-second interval, and to the
recorder's `dataavailable` and `stop` callbacks. Each component also shows
the elapsed time as a zero-padded `hh:mm:ss` label.

This project models the following, in Dafny:

- `Clock` models `formatTimer`, in both its compact form (`hh:mm:ss`, used by the
  switchable page) and its spaced form (`hh: mm: ss `, used by the audio and
  video components). It proves that the fields are in range, that they
  reconstruct the input, and that the label reads back to its fields. It
  also proves the fixed `dd:dd:dd` and `dd: dd: dd ` shapes below 100 hours,
  and the label the audio component shows three seconds in.
- `Media` holds what the components observe of the browser:
  - chunks and the buffering rule of `ondataavailable`;
  - the Blob built from the buffer (`Artifact`: bytes and MIME type);
  - the device stream as a `MediaStream` object whose tracks are stopped in
    place by the `forEach(track => track.stop())` loop;
  - the lifecycle of the MediaRecorder (`RecorderState`).
- `MediaRocorderPage`, `VideoRecorderComponent` and `AudioRecorderComponent`
  model the three components. Each is a class with one method per event, and
  each has an invariant `Valid()` that every event keeps:
  - the interval runs exactly while recording;
  - the recorder captures exactly while recording;
  - the device is held only when it should be. On the switchable page the
    stream is held only while capturing or while the recorder's `stop` event
    is still due. In the two components, the held stream is released whenever
    they are not recording.

  The three component modules also contain scenario methods that run one
  event sequence and state its outcome. Most start from fresh objects.
  `MediaRocorderPage.ToggleTwiceWhileIdle` works on any idle page passed to
  it. `VideoRecorderComponent.PausedAfterOneChunk` builds the state from which
  `VideoRecorderComponent.PauseThenRestart` continues.

The browser's own guarantees about when it delivers an event are the
preconditions of the event methods:
- an interval fires only while it is live;
- data arrives only from a recorder that is capturing or has just been
  stopped;
- the `stop` event comes only after `stop()` was called on a capturing
  recorder.

Calling `stop()` on a recorder that is no longer capturing does nothing, as
the W3C MediaStream Recording specification now requires.

The model follows the code, including where it departs from what a recorder with pause and stop buttons would be expected to do:
- Pause calls the recorder's `stop()` in all three components. Every Pause
  therefore finalises a clip of its own, and a later Start begins a fresh
  buffer: there is no resume (`VideoRecorderComponent.PauseThenRestart`).
- Stop is Pause followed by resetting `time` to 0.
- A stop event with an empty buffer still yields an (empty) clip.
- The audio component keeps the previous `recordingURL` when a new
  recording starts.
- There are two file-name conventions. The two components always save
  `recording.webm`. The switchable page names the file after its current
  mode.

Because the page's `stop` handler closes over the mode at Start, a mode
switch between Pause and the `stop` event leaves an `audio/webm` clip that
is downloaded as `recording_video.webm`
(`MediaRocorderPage.SwitchBeforeStopEvent`).

## Model

| member | source | states |
|---|---|---|
| `Clock.DecimalString` | src/pages/MediaRocorder.js:122-124 | `String(n)` of a non-negative integer is all digits, has no leading zero, and has one digit below 10 and two below 100 |
| `Clock.ValueOfDecimalString` | src/pages/MediaRocorder.js:122-124 | the digits written by `String(n)` denote `n` |
| `Clock.PadStart` | src/pages/MediaRocorder.js:122-124 | `padStart(width, fill)` has length at least `width`, ends with the original string and is filled with `fill` before it |
| `Clock.ValueOfLeadingZeros` | src/pages/MediaRocorder.js:122-124 | padding with '0' does not change the number a field denotes |
| `Clock.Field` | src/pages/MediaRocorder.js:122-124 | `String(n).padStart(2, '0')` is at least two digits, exactly two below 100, and denotes `n` |
| `Clock.FieldBelowTen` | src/pages/MediaRocorder.js:122-124 | a one-digit number is shown as `0` followed by its digit |
| `Clock.Split` | src/pages/MediaRocorder.js:122-124 | minutes and seconds are in 0..59 and `hrs*3600 + min*60 + sec` equals the input |
| `Clock.SplitUnique` | src/pages/MediaRocorder.js:122-124 | the div/mod split is the only in-range decomposition of the input |
| `Clock.RenderParse` | src/pages/MediaRocorder.js:125 | joining the fields with any separator and tail can be parsed back to the same fields |
| `Clock.CompactLayout` | src/pages/MediaRocorder.js:125 | three two-digit fields joined by `:` have length 8 and the form `dd:dd:dd` |
| `Clock.CompactShape` | src/pages/MediaRocorder.js:121-126 | below 360000 seconds the fields joined by `:` have length 8 and the form `dd:dd:dd` |
| `Clock.FormatTimer` | src/pages/MediaRocorder.js:121-126 | the `hh:mm:ss` label has at least 8 characters. Below 360000 seconds it has length 8 and the form `dd:dd:dd` |
| `Clock.FormatTimerRoundTrip` | src/pages/MediaRocorder.js:121-126 | the `hh:mm:ss` label parses back to in-range fields that reconstruct the input seconds |
| `Clock.SpacedLayout` | src/components/AudioRecorder.js:95 | three two-digit fields joined by `": "` and followed by a space have length 11 and the form `dd: dd: dd ` |
| `Clock.SpacedShape` | src/components/AudioRecorder.js:91-96 | below 360000 seconds the fields joined by `": "` and followed by a space have length 11 and the form `dd: dd: dd ` |
| `Clock.FormatTimerSpaced` | src/components/VideoRecorder.js:103-108 | the `hh: mm: ss ` label (the same code as src/components/AudioRecorder.js:91-96) has at least 11 characters. Below 360000 seconds it has length 11 and the form `dd: dd: dd ` |
| `Clock.FormatTimerSpacedRoundTrip` | src/components/VideoRecorder.js:103-108 | the `hh: mm: ss ` label (also src/components/AudioRecorder.js:91-96) parses back to in-range fields that reconstruct the input |
| `Clock.RenderThreeSeconds` | src/components/AudioRecorder.js:95 | the fields 0, 0 and 3 are rendered as `00: 00: 03 ` |
| `Clock.ThreeSecondsLabel` | src/components/AudioRecorder.js:91-96 | three seconds are shown as `00: 00: 03 ` |
| `Media.Concat` | src/pages/MediaRocorder.js:76 | the blob's length is the sum of the chunk sizes |
| `Media.Buffered` | src/pages/MediaRocorder.js:64-68 | one delivery keeps what was buffered as a prefix and adds exactly the chunk's bytes to the end of the eventual blob |
| `Media.NonEmpty` | src/pages/MediaRocorder.js:64-68 | a chunk is kept iff it was delivered and has non-zero size, and no more chunks are kept than were delivered. This contract is about membership only; `Media.ConcatNonEmpty` fixes the byte order |
| `Media.Delivered` | src/pages/MediaRocorder.js:64-68 | a run of deliveries appends its non-empty chunks, in arrival order, after what was buffered |
| `Media.ConcatAppend` | src/components/VideoRecorder.js:56 | the blob of two runs of chunks is the first run's bytes followed by the second's |
| `Media.ConcatNonEmpty` | src/components/VideoRecorder.js:44-48 | dropping zero-size chunks loses no byte of the blob |
| `Media.Finalize` | src/pages/MediaRocorder.js:76-78 | the blob carries the requested MIME type and its length is the sum of the buffered chunk sizes |
| `Media.SessionArtifact` | src/components/VideoRecorder.js:44-60 | delivering a run of chunks to an empty buffer and finalising gives exactly the delivered bytes, in order |
| `Media.Stopped` | src/pages/MediaRocorder.js:84 | stopping the tracks keeps their number and kinds and leaves none live |
| `Media.MediaStream.StopAll` | src/components/AudioRecorder.js:71 | the `forEach(track => track.stop())` loop stops every track in place and releases the stream |
| `Media.AfterStopCall` | src/pages/MediaRocorder.js:101-103 | `stop()` leaves no recorder capturing, a stop event is due exactly when it stopped a capturing recorder or one was already due, and on a recorder that is not capturing it changes nothing |
| `MediaRocorderPage.MediaRocorder.constructor` | src/pages/MediaRocorder.js:24-33 | the page starts idle: not recording, time 0, no clip, audio mode, empty buffer, no stream, no recorder |
| `MediaRocorderPage.MediaRocorder.Start` | src/pages/MediaRocorder.js:52-93 | requests audio plus video iff in video mode. Time is 0 and the clip is cleared even when access fails. On failure nothing else changes: no timer and no stream. On success the stream is held, the recorder captures, and the interval runs |
| `MediaRocorderPage.MediaRocorder.DataAvailable` | src/pages/MediaRocorder.js:64-68 | the buffer grows by the chunk exactly when its size is non-zero |
| `MediaRocorderPage.MediaRocorder.Tick` | src/pages/MediaRocorder.js:71-73 | each tick of the live interval adds exactly 1 to the time and changes nothing else |
| `MediaRocorderPage.MediaRocorder.Pause` | src/pages/MediaRocorder.js:96-104 | the page stops recording and cancels the interval. A capturing recorder is stopped with its stop event queued. Time, clip and buffer are unchanged |
| `MediaRocorderPage.MediaRocorder.Stop` | src/pages/MediaRocorder.js:107-110 | Pause followed by time 0 |
| `MediaRocorderPage.MediaRocorder.RecorderStopped` | src/pages/MediaRocorder.js:75-87 | the clip is every buffered byte, tagged `video/webm` iff video mode was on at Start. The buffer is emptied, and the stream's tracks are all stopped before it is dropped |
| `MediaRocorderPage.MediaRocorder.Toggle` | src/pages/MediaRocorder.js:129-136 | while recording: a warning and no change. Otherwise the mode flips and the clip is cleared |
| `MediaRocorderPage.MediaRocorder.Download` | src/pages/MediaRocorder.js:113-118 | links the current clip. The name is `recording_video.webm` iff in video mode, else `recording_audio.webm` |
| `MediaRocorderPage.ToggleTwiceWhileIdle` | src/pages/MediaRocorder.js:129-136 | two switches while not recording restore the mode and leave no clip |
| `MediaRocorderPage.SwitchWhileRecording` | src/pages/MediaRocorder.js:129-133 | switch to video, Start, switch again: refused with a warning, still video, still recording |
| `MediaRocorderPage.SwitchBeforeStopEvent` | src/pages/MediaRocorder.js:75-78 | a switch between Pause and the stop event leaves an `audio/webm` clip named `recording_video.webm`, with the microphone released |
| `VideoRecorderComponent.VideoRecorder.constructor` | src/components/VideoRecorder.js:20-27 | the component starts idle with no stream and no recorder |
| `VideoRecorderComponent.VideoRecorder.Start` | src/components/VideoRecorder.js:32-71 | always requests audio and video. Time is 0 and the clip is cleared even on failure, which changes nothing else. On success the new stream is held, the recorder captures, the interval runs and recording is set |
| `VideoRecorderComponent.VideoRecorder.DataAvailable` | src/components/VideoRecorder.js:44-48 | the buffer grows by the chunk exactly when its size is non-zero |
| `VideoRecorderComponent.VideoRecorder.Tick` | src/components/VideoRecorder.js:51-53 | each tick adds exactly 1 to the time |
| `VideoRecorderComponent.VideoRecorder.Pause` | src/components/VideoRecorder.js:74-86 | stops recording and the interval. If a recorder exists, it is stopped and every track of the held stream is stopped, releasing the devices. The stream stays in its ref |
| `VideoRecorderComponent.VideoRecorder.Stop` | src/components/VideoRecorder.js:89-92 | Pause followed by time 0 |
| `VideoRecorderComponent.VideoRecorder.RecorderStopped` | src/components/VideoRecorder.js:55-64 | the clip is every buffered byte tagged `video/webm`, and the buffer is emptied |
| `VideoRecorderComponent.VideoRecorder.Download` | src/components/VideoRecorder.js:95-100 | links the current clip under the fixed name `recording.webm` |
| `VideoRecorderComponent.PausedAfterOneChunk` | src/components/VideoRecorder.js:74-86 | Start, a chunk, Pause, stop event on a fresh component: the clip holds that chunk's bytes as `video/webm`, nothing is buffered, and the camera is released |
| `VideoRecorderComponent.PauseThenRestart` | src/components/VideoRecorder.js:74-92 | continues with Start, a chunk, Stop, stop event: two clips, each with only its own session's bytes, and both streams released |
| `AudioRecorderComponent.AudioRecorder.constructor` | src/components/AudioRecorder.js:20-27 | the component starts idle with no stream and no recorder |
| `AudioRecorderComponent.AudioRecorder.Start` | src/components/AudioRecorder.js:30-61 | requests audio only. Time is 0 but the previous clip is kept, and a failure changes nothing else. On success the new stream is held, the recorder captures, the interval runs and recording is set |
| `AudioRecorderComponent.AudioRecorder.DataAvailable` | src/components/AudioRecorder.js:37-41 | the buffer grows by the chunk exactly when its size is non-zero |
| `AudioRecorderComponent.AudioRecorder.Tick` | src/components/AudioRecorder.js:44-46 | each tick adds exactly 1 to the time |
| `AudioRecorderComponent.AudioRecorder.Pause` | src/components/AudioRecorder.js:64-74 | stops recording and the interval. If a recorder exists, it is stopped and every track of the held stream is stopped |
| `AudioRecorderComponent.AudioRecorder.Stop` | src/components/AudioRecorder.js:77-80 | Pause followed by time 0 |
| `AudioRecorderComponent.AudioRecorder.RecorderStopped` | src/components/AudioRecorder.js:48-54 | the clip is every buffered byte tagged `audio/webm`, and the buffer is emptied |
| `AudioRecorderComponent.AudioRecorder.Download` | src/components/AudioRecorder.js:83-88 | links the current clip under the fixed name `recording.webm` |
| `AudioRecorderComponent.ThreeSecondLabel` | src/components/AudioRecorder.js:30-96 | Start and three ticks: the label reads `00: 00: 03 `. After Stop the time is 0 |
| `AudioRecorderComponent.ClipOfDeliveredChunks` | src/components/AudioRecorder.js:30-80 | Start, a zero-size chunk, a chunk, Stop, a final chunk, stop event: the clip is `audio/webm` with every delivered byte in order, and the microphone is released |

## Left out

- Rendering is not modelled: JSX, MUI components, styling, icons and responsive sizes. It has no effect on the session.
- The live preview is not modelled: the `useEffect` in src/pages/MediaRocorder.js:38-49 and the `srcObject`/`play()` calls in src/components/VideoRecorder.js. These are DOM side effects.
- `getUserMedia`, `MediaRecorder`, `Blob` and `URL.createObjectURL` are browser APIs:
  - the answer to a stream request is a parameter of `Start`;
  - the recorder is reduced to its lifecycle;
  - an object URL is identified with the artifact it refers to.
- Errors other than a refused `getUserMedia` are not modelled, for example a throwing `MediaRecorder` constructor.
- `setInterval`/`clearInterval` have no wall-clock meaning here: a live interval is a flag, and each firing is a `Tick` event.
- `alert`, `console.log`/`console.error` and the anchor `click()` are I/O. Only the warning flag, the link target and the file name are modelled.
- React applies state updates asynchronously and handlers read render-time values. Here each update takes effect at once and events run one at a time. Two overlapping Start presses during the `await` are therefore not modelled.
- A Start can succeed while the previous recorder's stop event is still due. The model then replaces the recorder and drops that pending event. On the page, the old handler would later stop the new stream's tracks.
- Start while already recording is not modelled faithfully. The UI does not offer it, because the Start button is rendered only when not recording. On the page it would orphan a second interval, which a single flag cannot count. In all three components it replaces the held stream without stopping its tracks; the model leaves the old stream object untouched but does not track it further.
- Tracks that end on their own, for example an unplugged device, are not modelled.
- `Clock.DecimalString`: models `String(n)` only for integers. Its exponent notation from 10^21 on is not modelled.

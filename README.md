# WatIsLife speech capture: a verified model

WatIsLife records speech in the browser and sends it to a Flask server that
transcribes it. This project models the two parts of the code that hold logic
of their own, and proves properties of them in Dafny 4.11.

- **The server's `/api/process` handler** (`recognize` in
  `server/blueprints/speechRecog.py`). It is modelled as a pure function from
  an abstract request and an abstract recogniser outcome to a response. The
  request has an HTTP method, an optional `audio` part and that part's filename.
  The response has an HTTP status and a JSON body. The handler checks the
  method first, then that the `audio` part is present, then that its filename
  is non-empty. After those checks it maps each recogniser outcome to a fixed
  status and message. A successful response counts the occurrences of two
  phrases in the transcript. That count uses Python's `str.count`, which is
  modelled exactly (module `Phrases`).
- **The `AudioRecorder` React component** (`client/src/components.jsx`). It is
  modelled as a class. Its state and refs are fields, and each click handler
  and browser callback is a method. Each `MediaRecorder` the component creates
  is an object of class `RecorderSession`. That object also holds the `chunks`
  array captured by the recorder's `dataavailable` handler. `startRecording`
  is split at its `await` into two methods. `StartRecording` is the click,
  which asks for the microphone. `StartResolved` runs when the request is
  answered, and takes one of four outcomes. The object URL, the blob and the
  data chunks are plain values (module `Media`).

Files: `wrappers.dfy` (Option), `phrases.dfy` (`str.count`), `speech_recog.dfy`
(the handler), `media.dfy` (chunks, blobs, the empty-chunk filter),
`audio_recorder.dfy` (the component).

The properties proved are these:
- The server's check order, and the exact status and message of every branch.
- A request that fails a check gets the same answer whatever the recogniser
  would have returned.
- For a non-empty phrase, `Count` is the largest number of non-overlapping
  occurrences, and the scan finds that many.
- A count is zero exactly when the phrase is not a substring.
- `count * |phrase| <= |text|`.
- The recorder's buffer keeps exactly the non-empty chunks, in arrival order.
  The blob built from it holds every byte received.
- Each successful start gets a fresh, empty buffer.
- `stopRecording` does nothing while no recorder exists.
- The player is mounted exactly when `audioChunks` is non-empty.
- `SingleSession` says at most one recorder records at a time and
  `isRecording` is set while the current one records. The corrected component
  keeps it as an invariant (see Findings). These methods preserve it
  unconditionally: `StartRecordingFixed`, `StartResolved`, `StopRecording`,
  `SetAudioChunks`, `SetPlayerSource`, `RecorderEnded`, `OnStop` and
  `OnStopFixed`. `RecorderSession.OnDataAvailable` preserves it through its
  frame, since it changes only the buffer and never a recorder's state. Two
  methods preserve it only under a condition. `StartRecording` (the component
  as written) needs no pending request and Start enabled; the first condition
  is what the as-written guard does not check. `InstallRecorder` needs
  `isRecording` to be false.
- The recorder is inactive once its `stop` event fires. The event also fires
  when the browser ends the recording itself, for example when permission is
  revoked or the device is removed. In that case `isRecording` stays set and
  Stop stays enabled. So the invariant ties `isRecording` to the recorder in
  one direction only.

## Model

| member | source | states |
|---|---|---|
| `SpeechRecog.Recognize` | server/blueprints/speechRecog.py:11-66 | Status is 200, 400, 405 or 500. 405 ("Invalid method") exactly for a non-POST request. A POST without `audio` gets 400 "No audio file found", and one with an empty filename gets 400 "Empty filename". 200 exactly when the request passes the checks and the recogniser returns a transcript; the body then holds the transcript verbatim and the phrase count. A `RequestError` gives 400 "API Error: " + message. `UnknownValueError` gives 400 "Cannot recognize speech". Exactly the other failures give 500 "Processing error: " + message. |
| `SpeechRecog.RejectedIgnoresOutcome` | server/blueprints/speechRecog.py:14-23 | A request that fails the method or file-part checks gets the same response whatever the recogniser outcome, with status 400 or 405: nothing further is attempted. |
| `SpeechRecog.PhraseCount` | server/blueprints/speechRecog.py:57 | The `count` field, `Count(t, "kill myself") + Count(t, "jump off E7")`. Its contract bounds it by 2·|t|/11, each phrase being 11 characters. `PhraseCountZeroIff` pins down when it is zero. |
| `SpeechRecog.PhraseCountZeroIff` | server/blueprints/speechRecog.py:57 | The count is zero exactly when neither phrase occurs anywhere in the transcript. |
| `SpeechRecog.PhraseCountExamples` | server/blueprints/speechRecog.py:57 | "kill myself" counts 1; "Kill myself" counts 0, since the match is case-sensitive. |
| `Phrases.CountFrom` | server/blueprints/speechRecog.py:57 | The scan from index i counts at most (|t| - i) / |p| matches. |
| `Phrases.MatchesFrom` | server/blueprints/speechRecog.py:57 | The scan's matches are exactly as many as it counts; each is an occurrence at or after i, and no two overlap. |
| `Phrases.ScanIsMaximal` | server/blueprints/speechRecog.py:57 | Any family of non-overlapping occurrences at or after i is no larger than the scan's count. |
| `Phrases.CountIsMaximal` | server/blueprints/speechRecog.py:57 | `str.count` of a non-empty phrase is at least the size of any family of non-overlapping occurrences. |
| `Phrases.Matches` | server/blueprints/speechRecog.py:57 | `str.count` of a non-empty phrase is attained: that many non-overlapping occurrences exist. |
| `Phrases.Count` | server/blueprints/speechRecog.py:57 | `t.count(p)`: |t| + 1 for an empty phrase, and count · |p| ≤ |t| for every phrase. `CountIsMaximal`, `Matches` and `CountZeroIff` pin it down: for a non-empty phrase it is the largest number of non-overlapping occurrences, and it is zero exactly when the phrase is not a substring. |
| `Phrases.CountZeroIff` | server/blueprints/speechRecog.py:57 | The count is zero exactly when the phrase occurs at no position. |
| `Media.NonEmpty` | client/src/components.jsx:22-26 | The filter keeps no empty chunk, drops no non-empty one, and adds nothing. |
| `Media.NonEmptySnoc` | client/src/components.jsx:22-26 | A rewriting helper, not a separate property: it is `NonEmpty`'s defining equation at `cs + [c]`, used by `OnDataAvailable` and `NonEmptyAppend`. |
| `Media.NonEmptyAppend` | client/src/components.jsx:22-26 | Filtering distributes over concatenation, so kept chunks stay in arrival order. |
| `Media.NonEmptyIdentity` | client/src/components.jsx:22-26 | A sequence without empty chunks passes unchanged. |
| `Media.NonEmptyKeepsBytes` | client/src/components.jsx:22-30 | Dropping empty chunks does not change the bytes of the blob built from them. |
| `Recorder.RecorderSession.constructor` | client/src/components.jsx:15-19 | A new recorder is inactive, with an empty buffer. |
| `Recorder.RecorderSession.Start` | client/src/components.jsx:42 | The recorder records. |
| `Recorder.RecorderSession.Stop` | client/src/components.jsx:52 | The recorder is inactive; its buffer is untouched. |
| `Recorder.RecorderSession.OnDataAvailable` | client/src/components.jsx:22-26 | The chunk is appended iff its size is positive. The buffer stays equal to the non-empty chunks of everything received, in order. |
| `Recorder.AudioRecorder.StartEnabled` | client/src/components.jsx:64 | Start is enabled iff not recording. `StartResolved` (success: disabled) and `StopRecording` (enabled again) state how it changes. |
| `Recorder.AudioRecorder.StopEnabled` | client/src/components.jsx:72 | Stop is enabled iff recording, so exactly one of the two buttons is enabled. `SingleSession` makes it enabled whenever the current recorder records. |
| `Recorder.AudioRecorder.PlayerShown` | client/src/components.jsx:79 | The player is rendered iff `audioChunks` is non-empty. The clause `audioRef.Some? <==> PlayerShown()` of `Valid` makes the player element present exactly then, and every method keeps it. |
| `Recorder.AudioRecorder.constructor` | client/src/components.jsx:4-7 | The first render: not recording, no chunks, no recorder, no player, Start enabled and Stop disabled. |
| `Recorder.AudioRecorder.StartRecording` | client/src/components.jsx:9-12 | A click issues one microphone request and changes nothing else. The single-session invariant survives only if no request was pending. |
| `Recorder.AudioRecorder.InstallRecorder` | client/src/components.jsx:15-19 | A fresh, inactive recorder with an empty buffer becomes the current one. Earlier recorders and their buffers are untouched. |
| `Recorder.AudioRecorder.StartResolved` | client/src/components.jsx:9-47 | A denied microphone or a failed construction changes neither `isRecording` nor the recorder ref, and alerts. A throwing `start()` installs a fresh inactive recorder, leaves `isRecording` unchanged, and alerts. A success installs a fresh recording recorder with an empty buffer and sets `isRecording`: Start is then disabled and Stop enabled. `audioChunks` and the player are unchanged. Preserves `SingleSession`. |
| `Recorder.AudioRecorder.StopRecording` | client/src/components.jsx:50-55 | With no recorder, nothing changes. Otherwise the recorder is stopped and `isRecording` is false: Start is enabled and Stop disabled. Preserves `SingleSession`. |
| `Recorder.AudioRecorder.SetAudioChunks` | client/src/components.jsx:79-89 | After the commit and render, the player is mounted iff the chunks are non-empty. A player that stays mounted keeps its source, and a newly mounted one has none. |
| `Recorder.AudioRecorder.SetPlayerSource` | client/src/components.jsx:33-35 | A mounted player gets the URL as its source. With no player mounted, nothing changes. |
| `Recorder.AudioRecorder.RecorderEnded` | client/src/components.jsx:28 | When `stop` fires, the recorder is inactive, whether `stop()` was called or the browser ended the stream. Nothing else changes. |
| `Recorder.AudioRecorder.OnStop` | client/src/components.jsx:28-39 | The recorder is inactive and `isRecording` is unchanged. `audioChunks` becomes the recorder's buffer. The blob is those chunks in order, with type audio/webm, and holds every byte received. The player gets the URL only if it was mounted before the commit. |
| `Recorder.AudioRecorder.OnStopFixed` | client/src/components.jsx:28-39 | The corrected `onstop`: whenever the player is shown, its source is the URL of the blob just recorded. |
| `Recorder.AudioRecorder.StartRecordingFixed` | client/src/components.jsx:62-64 | The corrected Start: it is ignored while a request is pending or a recording runs, and it preserves `SingleSession`. |
| `Recorder.FirstRecordingHasNoSource` | client/src/components.jsx:33-35 | The first recording, in the browser's order: start, stop, the one `dataavailable`, `stop`. The player is then shown with no source. |
| `Recorder.FirstRecordingFixed` | client/src/components.jsx:33-35 | With the corrected `onstop`, the same session shows a player whose source is the blob of that chunk. |
| `Recorder.OverlappingStarts` | client/src/components.jsx:9-19 | Start can be clicked twice while the first request is pending. After both succeed and Stop is clicked, the first recorder still records, the component no longer holds it, and `isRecording` is false. |
| `Recorder.RecordingEndedByBrowser` | client/src/components.jsx:28-39 | When the browser ends a recording by itself, the recorder is inactive after `stop`, but `isRecording` stays set and Stop stays enabled. |
| `Recorder.OverlappingStartsFixed` | client/src/components.jsx:62-64 | With the corrected guard, the same clicks leave no recorder recording after Stop and no request pending. |

## Left out

- Flask routing: the route accepts only POST, so Flask answers other methods itself. The model's 405 branch is the handler's own fallback at line 66.
- The temporary file, `audio_file.save`, `sr.AudioFile`, `record`, `recognize_google` and `os.unlink` are not modelled; the recogniser outcome is an input instead. A failure of any of them, including `os.unlink` after a successful transcription, is `OtherError` with `str(e)`.
- `SpeechRecog.Recognize`: a filename of `None` is represented as `""`, since both are falsy for the check at line 22.
- The debug `print`s, the traceback and JSON serialisation are I/O and are not modelled. So is the temporary file, which is deleted only on success (line 52) and left behind on every other path.
- `API/Speech-recog.py` is not part of this model. It is a microphone loop over library calls, and its call at line 31 does not match the signature at line 5.
- `server/app.py`, `server/index.js` and `client/src/App.jsx` are bootstrap. `AudioRecorder` ignores the `autorecord`, `maxrecord` and `onProcessingComplete` props that `App.jsx` passes.
- The source has no WAV encoder, no upload client, no auto-stop timer and no teardown that releases tracks or object URLs, so none is modelled. The recorder never stops the microphone stream's tracks.
- Browser APIs are abstract. `getUserMedia` and the `MediaRecorder` constructor and `start()` appear only through `StartOutcome`. `Blob` and `URL.createObjectURL` are values. `alert` is an out-parameter, and `console.error` is dropped.
- The browser's event order is not constrained. Data and stop events are inputs that may arrive in any order, for any recorder the component created.
- React scheduling: each handler's state updates are committed and rendered before the next event. A click is taken to see the guards of the last render.
- `Recorder.AudioRecorder.OnStop`: `audioChunks` receives a copy of the buffer. In the source it is the same array, so a `dataavailable` after `onstop` would change the committed state in place; browsers deliver none after `stop`.
- `Recorder.AudioRecorder.requestsInFlight` is not component state. It counts the `startRecording` calls still awaiting the microphone, so that the overlap can be stated.

## Findings

| source | as written | input that shows it | evidently intended | confidence | as-written member | corrected member |
|---|---|---|---|---|---|---|
| client/src/components.jsx:33-35 | `onstop` gives the URL to `audioRef.current` only if the player is mounted, and the player mounts only once `audioChunks` is non-empty, after this assignment | the first recording: start, stop, one non-empty chunk, the stop event | the player shown after a recording plays that recording | not executed; follows from the render condition at line 79 | `Recorder.FirstRecordingHasNoSource` | `Recorder.AudioRecorder.OnStopFixed` |
| client/src/components.jsx:9-19 | `isRecording` is set only after `await getUserMedia`, so Start stays enabled while the microphone request is pending | click Start twice before the microphone answers, grant both, click Stop | one recording at a time, ended by Stop | not executed; depends on a second click landing while the request is pending | `Recorder.OverlappingStarts` | `Recorder.AudioRecorder.StartRecordingFixed` |

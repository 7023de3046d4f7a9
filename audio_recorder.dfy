/**
 * The `AudioRecorder` React component. Its state (`isRecording`,
 * `audioChunks`) and its refs (`mediaRecorderRef`, `audioRef`) are fields of a
 * class; each handler, and each browser callback, is a method. Every state
 * update is followed by a render, so the audio player is mounted exactly when
 * `audioChunks` is non-empty.
 */
module Recorder {

  import opened Wrappers
  import opened Media

  /** `MediaRecorder.state`, as far as the component is concerned. */
  datatype RecorderState = Inactive | Recording

  /** How the asynchronous part of `startRecording` ended. */
  datatype StartOutcome =
    | MicrophoneDenied   // `getUserMedia` rejected
    | RecorderRejected   // `new MediaRecorder(stream)` threw
    | StartThrew         // `mediaRecorder.start()` threw, after the ref was assigned
    | Started

  /** The mounted `<audio>` element; `src` is unset until assigned. */
  datatype AudioElement = AudioElement(src: Option<ObjectUrl>)

  /**
   * One MediaRecorder created by `startRecording`, together with the
   * `chunks` array its `dataavailable` handler closes over.
   */
  class RecorderSession {
    var state: RecorderState
    var chunks: seq<Chunk>
    /** Every chunk delivered to this recorder, empty ones included. */
    ghost var received: seq<Chunk>

    ghost predicate Valid()
      reads this`chunks, this`received
    {
      chunks == NonEmpty(received)
    }

    /** `new MediaRecorder(stream)` and `const chunks = []` */
    constructor ()
      ensures Valid() && state == Inactive && chunks == [] && received == []
    {
      state := Inactive;
      chunks := [];
      received := [];
    }

    /** `mediaRecorder.start()` */
    method Start()
      modifies this`state
      ensures state == Recording
    {
      state := Recording;
    }

    /** `mediaRecorder.stop()`; the browser later delivers the last data and the `stop` event. */
    method Stop()
      modifies this`state
      ensures state == Inactive
    {
      state := Inactive;
    }

    /** The `ondataavailable` handler: keep the chunk only if it holds data. */
    method OnDataAvailable(c: Chunk)
      requires Valid()
      modifies this`chunks, this`received
      ensures Valid()
      ensures received == old(received) + [c]
      ensures chunks == if Size(c) > 0 then old(chunks) + [c] else old(chunks)
    {
      NonEmptySnoc(received, c);
      if Size(c) > 0 {
        chunks := chunks + [c];
      }
      received := received + [c];
    }
  }

  class AudioRecorder {
    var isRecording: bool
    var audioChunks: seq<Chunk>
    /** `mediaRecorderRef.current` */
    var mediaRecorderRef: RecorderSession?
    /** `audioRef.current`: the player element while it is mounted */
    var audioRef: Option<AudioElement>
    /**
     * Calls of `startRecording` still awaiting the microphone. The component
     * keeps no such state; it stands for the pending promises.
     */
    var requestsInFlight: nat
    /** Every recorder this component has created. */
    ghost var recorders: set<RecorderSession>

    ghost predicate Valid()
      reads this, recorders
    {
      (mediaRecorderRef != null ==> mediaRecorderRef in recorders) &&
      (forall r :: r in recorders ==> r.Valid()) &&
      (forall i :: 0 <= i < |audioChunks| ==> Size(audioChunks[i]) > 0) &&
      (audioRef.Some? <==> PlayerShown())
    }

    /**
     * At most one recording at a time: no second microphone request while
     * one is pending or a recording runs, `isRecording` is set while the
     * current recorder records, and no other recorder records. (`isRecording`
     * may stay set after the browser ends a recording by itself.)
     */
    ghost predicate SingleSession()
      reads this, recorders, mediaRecorderRef
    {
      requestsInFlight <= 1 &&
      (requestsInFlight == 1 ==> !isRecording) &&
      (mediaRecorderRef != null && mediaRecorderRef.state == Recording ==> isRecording) &&
      (forall r :: r in recorders && r.state == Recording ==> r == mediaRecorderRef)
    }

    /** The Start button: `disabled={isRecording}` */
    predicate StartEnabled()
      reads this
    {
      !isRecording
    }

    /** The Stop button: `disabled={!isRecording}` */
    predicate StopEnabled()
      reads this
    {
      isRecording
    }

    /** `audioChunks.length > 0 && <audio ...>` */
    predicate PlayerShown()
      reads this
    {
      |audioChunks| > 0
    }

    /** The Start button of the corrected component: also disabled while the microphone is being requested. */
    predicate StartEnabledFixed()
      reads this
    {
      !isRecording && requestsInFlight == 0
    }

    /** First render: `useState(false)`, `useState([])`, `useRef(null)` twice. */
    constructor ()
      ensures Valid() && SingleSession()
      ensures !isRecording && audioChunks == [] && mediaRecorderRef == null && audioRef == None
      ensures requestsInFlight == 0 && recorders == {}
      ensures StartEnabled() && !StopEnabled() && !PlayerShown()
    {
      isRecording := false;
      audioChunks := [];
      mediaRecorderRef := null;
      audioRef := None;
      requestsInFlight := 0;
      recorders := {};
    }

    /** The synchronous part of `startRecording`: ask for the microphone. */
    method StartRecording()
      requires Valid()
      modifies this`requestsInFlight
      ensures Valid()
      ensures requestsInFlight == old(requestsInFlight) + 1
      ensures old(SingleSession()) && old(requestsInFlight) == 0 && old(StartEnabled()) ==> SingleSession()
    {
      requestsInFlight := requestsInFlight + 1;
    }

    /** Corrected `startRecording`: ignored while a request is pending or a recording runs. */
    method StartRecordingFixed()
      requires Valid()
      modifies this`requestsInFlight
      ensures Valid()
      ensures requestsInFlight == if old(StartEnabledFixed()) then old(requestsInFlight) + 1 else old(requestsInFlight)
      ensures old(SingleSession()) ==> SingleSession()
    {
      if StartEnabledFixed() {
        StartRecording();
      }
    }

    /** `new MediaRecorder(stream)`, `mediaRecorderRef.current = mediaRecorder` and `const chunks = []` */
    method InstallRecorder()
      requires Valid()
      modifies this`mediaRecorderRef, this`recorders
      ensures Valid()
      ensures mediaRecorderRef != null && fresh(mediaRecorderRef)
      ensures recorders == old(recorders) + {mediaRecorderRef}
      ensures mediaRecorderRef.state == Inactive
      ensures mediaRecorderRef.chunks == [] && mediaRecorderRef.received == []
      ensures old(SingleSession()) && !isRecording ==> SingleSession()
    {
      var rec := new RecorderSession();
      mediaRecorderRef := rec;
      recorders := recorders + {rec};
    }

    /** The rest of `startRecording`, once the microphone request is answered. */
    method StartResolved(outcome: StartOutcome) returns (alerted: bool)
      requires Valid() && requestsInFlight > 0
      modifies this`requestsInFlight, this`mediaRecorderRef, this`recorders, this`isRecording
      ensures Valid()
      ensures requestsInFlight == old(requestsInFlight) - 1
      ensures alerted <==> !outcome.Started?
      ensures outcome.MicrophoneDenied? || outcome.RecorderRejected? ==>
                isRecording == old(isRecording) && mediaRecorderRef == old(mediaRecorderRef) &&
                recorders == old(recorders)
      ensures outcome.StartThrew? || outcome.Started? ==>
                mediaRecorderRef != null && fresh(mediaRecorderRef) &&
                recorders == old(recorders) + {mediaRecorderRef} &&
                mediaRecorderRef.chunks == [] && mediaRecorderRef.received == []
      ensures outcome.StartThrew? ==> mediaRecorderRef.state == Inactive && isRecording == old(isRecording)
      ensures outcome.Started? ==> mediaRecorderRef.state == Recording && isRecording
      ensures outcome.Started? ==> !StartEnabled() && StopEnabled()
      ensures old(SingleSession()) ==> SingleSession()
    {
      ghost var wasSingle := SingleSession();
      requestsInFlight := requestsInFlight - 1;
      if outcome.MicrophoneDenied? || outcome.RecorderRejected? {
        alerted := true;
      } else {
        InstallRecorder();
        if outcome.StartThrew? {
          alerted := true;
        } else {
          mediaRecorderRef.Start();
          assert wasSingle ==> forall r :: r in recorders && r.state == Recording ==> r == mediaRecorderRef;
          isRecording := true;
          alerted := false;
        }
      }
    }

    /** `stopRecording`: a no-op while no recorder has been created. */
    method StopRecording()
      requires Valid()
      modifies this`isRecording, mediaRecorderRef
      ensures Valid()
      ensures old(mediaRecorderRef) == null ==> isRecording == old(isRecording)
      ensures mediaRecorderRef != null ==>
                mediaRecorderRef.state == Inactive && !isRecording &&
                mediaRecorderRef.chunks == old(mediaRecorderRef.chunks) &&
                mediaRecorderRef.received == old(mediaRecorderRef.received)
      ensures mediaRecorderRef != null ==> StartEnabled() && !StopEnabled()
      ensures old(SingleSession()) ==> SingleSession()
    {
      if mediaRecorderRef != null {
        mediaRecorderRef.Stop();
        isRecording := false;
      }
    }

    /** `setAudioChunks(cs)` followed by a render: the player mounts, stays or unmounts. */
    method SetAudioChunks(cs: seq<Chunk>)
      requires Valid()
      requires forall i :: 0 <= i < |cs| ==> Size(cs[i]) > 0
      modifies this`audioChunks, this`audioRef
      ensures Valid()
      ensures audioChunks == cs
      ensures audioRef == if cs == [] then None
                          else if old(audioRef).Some? then old(audioRef)
                          else Some(AudioElement(None))
      ensures old(SingleSession()) ==> SingleSession()
    {
      audioChunks := cs;
      if cs == [] {
        audioRef := None;
      } else if audioRef.None? {
        audioRef := Some(AudioElement(None));
      }
    }

    /** `if (audioRef.current) audioRef.current.src = url` */
    method SetPlayerSource(url: ObjectUrl)
      requires Valid()
      modifies this`audioRef
      ensures Valid()
      ensures audioRef == if old(audioRef).Some? then Some(AudioElement(Some(url))) else None
      ensures old(SingleSession()) ==> SingleSession()
    {
      if audioRef.Some? {
        audioRef := Some(AudioElement(Some(url)));
      }
    }

    /** By the time `stop` fires for `rec`, the recorder is inactive. */
    method RecorderEnded(rec: RecorderSession)
      requires Valid() && rec in recorders
      modifies rec`state
      ensures Valid()
      ensures rec.state == Inactive
      ensures old(SingleSession()) ==> SingleSession()
    {
      rec.state := Inactive;
    }

    /**
     * The `onstop` handler of recorder `rec`: build the blob and its URL,
     * give the URL to the player if it is mounted, then commit the chunks.
     * The browser fires `stop` once the recorder is inactive, whether
     * `stop()` was called or the stream ended by itself (permission revoked,
     * device removed, a fatal error); nothing resets `isRecording` then.
     */
    method OnStop(rec: RecorderSession) returns (url: ObjectUrl)
      requires Valid() && rec in recorders
      modifies this`audioChunks, this`audioRef, rec`state
      ensures Valid()
      ensures rec.state == Inactive
      ensures audioChunks == rec.chunks
      ensures url == ObjectUrl(Blob(rec.chunks, WebmType))
      ensures BlobBytes(url.blob) == Concat(rec.received)
      ensures audioRef == if rec.chunks == [] then None
                          else if old(audioRef).Some? then Some(AudioElement(Some(url)))
                          else Some(AudioElement(None))
      ensures old(SingleSession()) ==> SingleSession()
    {
      var blob := Blob(rec.chunks, WebmType);
      url := ObjectUrl(blob);
      NonEmptyKeepsBytes(rec.received);
      SetPlayerSource(url);
      SetAudioChunks(rec.chunks);
      RecorderEnded(rec);
    }

    /**
     * Corrected `onstop`: commit the chunks first and give the URL to the
     * player once it is mounted, so the player always plays the last recording.
     */
    method OnStopFixed(rec: RecorderSession) returns (url: ObjectUrl)
      requires Valid() && rec in recorders
      modifies this`audioChunks, this`audioRef, rec`state
      ensures Valid()
      ensures rec.state == Inactive
      ensures audioChunks == rec.chunks
      ensures url == ObjectUrl(Blob(rec.chunks, WebmType))
      ensures BlobBytes(url.blob) == Concat(rec.received)
      ensures audioRef == if rec.chunks == [] then None else Some(AudioElement(Some(url)))
      ensures old(SingleSession()) ==> SingleSession()
    {
      url := ObjectUrl(Blob(rec.chunks, WebmType));
      NonEmptyKeepsBytes(rec.received);
      SetAudioChunks(rec.chunks);
      SetPlayerSource(url);
      RecorderEnded(rec);
    }
  }

  /**
   * The first recording, as written: start, stop, then the browser's one
   * `dataavailable` (no timeslice was given to `start()`) and `stop`. The
   * player was not mounted when `onstop` ran, so it appears with no source.
   */
  method FirstRecordingHasNoSource() returns (shown: bool, src: Option<ObjectUrl>)
    ensures shown && src == None
  {
    var c := new AudioRecorder();
    c.StartRecording();
    var _ := c.StartResolved(Started);
    var rec := c.mediaRecorderRef;
    c.StopRecording();
    rec.OnDataAvailable(Chunk([1, 2]));
    var _ := c.OnStop(rec);
    shown := c.PlayerShown();
    src := if c.audioRef.Some? then c.audioRef.value.src else None;
  }

  /** The same session with the corrected `onstop`: the player plays the recording just made. */
  method FirstRecordingFixed() returns (shown: bool, src: Option<ObjectUrl>)
    ensures shown && src == Some(ObjectUrl(Blob([Chunk([1, 2])], WebmType)))
  {
    var c := new AudioRecorder();
    c.StartRecording();
    var _ := c.StartResolved(Started);
    var rec := c.mediaRecorderRef;
    c.StopRecording();
    rec.OnDataAvailable(Chunk([1, 2]));
    var _ := c.OnStopFixed(rec);
    shown := c.PlayerShown();
    src := if c.audioRef.Some? then c.audioRef.value.src else None;
  }

  /**
   * Two clicks on Start before the microphone answers, as written: the Start
   * button is still enabled for the second click, both requests succeed, and
   * after Stop the first recorder still records although the component shows
   * that nothing is recording and no longer holds that recorder.
   */
  method OverlappingStarts() returns (isRecording: bool, orphanRecording: bool, orphanHeld: bool)
    ensures !isRecording && orphanRecording && !orphanHeld
  {
    var c := new AudioRecorder();
    assert c.StartEnabled();
    c.StartRecording();
    assert c.StartEnabled();
    c.StartRecording();
    var _ := c.StartResolved(Started);
    var first := c.mediaRecorderRef;
    var _ := c.StartResolved(Started);
    c.StopRecording();
    isRecording := c.isRecording;
    orphanRecording := first.state == Recording;
    orphanHeld := c.mediaRecorderRef == first;
  }

  /** The same clicks under the corrected guard: the second click is ignored and Stop ends the only recording. */
  method OverlappingStartsFixed() returns (isRecording: bool, anyRecording: bool, pending: nat)
    ensures !isRecording && !anyRecording && pending == 0
  {
    var c := new AudioRecorder();
    c.StartRecordingFixed();
    c.StartRecordingFixed();
    var _ := c.StartResolved(Started);
    var only := c.mediaRecorderRef;
    c.StopRecording();
    isRecording := c.isRecording;
    anyRecording := only.state == Recording;
    pending := c.requestsInFlight;
  }

  /**
   * The browser ends a recording by itself: the recorder is inactive once
   * `stop` fires, but `isRecording` stays set and Stop stays enabled.
   */
  method RecordingEndedByBrowser() returns (isRecording: bool, recorderRecords: bool, stopEnabled: bool)
    ensures isRecording && !recorderRecords && stopEnabled
  {
    var c := new AudioRecorder();
    c.StartRecording();
    var _ := c.StartResolved(Started);
    var rec := c.mediaRecorderRef;
    rec.OnDataAvailable(Chunk([7]));
    var _ := c.OnStop(rec);
    isRecording := c.isRecording;
    recorderRecords := rec.state == Recording;
    stopEnabled := c.StopEnabled();
  }
}

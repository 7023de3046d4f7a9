/**
 * The `/api/process` handler of the speech blueprint (`recognize`): a chain
 * of early-return checks on the request, then the speech recogniser, then a
 * JSON response with an HTTP status. Saving the upload to a temporary file,
 * reading it and calling the recogniser are abstracted into one outcome value.
 */
module SpeechRecog {

  import opened Wrappers
  import opened Phrases

  /** The `audio` part of a multipart upload; `""` stands for a missing or empty filename. */
  datatype AudioPart = AudioPart(filename: string)

  /** What the handler looks at in a request: its method and its `audio` file part. */
  datatype Request = Request(httpMethod: string, audio: Option<AudioPart>)

  /** How saving, reading and transcribing the upload ended. */
  datatype RecognizerOutcome =
    | Transcribed(transcript: string)   // `recognize_google` returned a transcript
    | RequestError(message: string)     // `sr.RequestError`, with `str(e)`
    | UnknownValue                      // `sr.UnknownValueError`
    | OtherError(message: string)       // any other exception inside the `try`, with `str(e)`

  /** The JSON body: `{"error": ...}` alone, or `{"error": null, "transcription": ..., "count": ...}`. */
  datatype Body =
    | ErrorBody(error: string)
    | TranscriptBody(transcription: string, count: nat)

  datatype Response = Response(status: nat, body: Body)

  const NoAudioFound := "No audio file found"
  const EmptyFilename := "Empty filename"
  const ApiErrorPrefix := "API Error: "
  const CannotRecognize := "Cannot recognize speech"
  const ProcessingErrorPrefix := "Processing error: "
  const InvalidMethod := "Invalid method"

  const KillMyself := "kill myself"
  const JumpOffE7 := "jump off E7"

  /**
   * The `count` field of a successful response. Each phrase is 11 characters
   * long, so each is counted at most |transcription| / 11 times.
   */
  function PhraseCount(transcription: string): (n: nat)
    ensures n * 11 <= 2 * |transcription|
  {
    Count(transcription, KillMyself) + Count(transcription, JumpOffE7)
  }

  /** The count is zero exactly when neither phrase occurs, in that exact case. */
  lemma PhraseCountZeroIff(transcription: string)
    ensures PhraseCount(transcription) == 0 <==>
              forall i :: !OccursAt(transcription, KillMyself, i) && !OccursAt(transcription, JumpOffE7, i)
  {
    CountZeroIff(transcription, KillMyself);
    CountZeroIff(transcription, JumpOffE7);
  }

  /** The match is case-sensitive: a capitalised phrase is not counted. */
  lemma PhraseCountExamples()
    ensures PhraseCount("kill myself") == 1
    ensures PhraseCount("Kill myself") == 0
  {
    assert "kill myself"[0..11] == KillMyself;
    assert "kill myself"[0] != JumpOffE7[0];
    assert "Kill myself"[0] != KillMyself[0];
    assert "Kill myself"[0] != JumpOffE7[0];
  }

  /** The request gets past the method check and both file-part checks. */
  predicate Accepted(req: Request)
  {
    req.httpMethod == "POST" && req.audio.Some? && req.audio.value.filename != ""
  }

  function Recognize(req: Request, outcome: RecognizerOutcome): (r: Response)
    ensures r.status in {200, 400, 405, 500}
    ensures r.status == 200 <==> r.body.TranscriptBody?
    // the method check comes first
    ensures r.status == 405 <==> req.httpMethod != "POST"
    ensures r.status == 405 ==> r.body == ErrorBody(InvalidMethod)
    // then the presence of the `audio` part, then its filename
    ensures req.httpMethod == "POST" && req.audio.None? ==> r == Response(400, ErrorBody(NoAudioFound))
    ensures req.httpMethod == "POST" && req.audio == Some(AudioPart("")) ==> r == Response(400, ErrorBody(EmptyFilename))
    // only an accepted request reaches the recogniser
    ensures r.status == 200 <==> Accepted(req) && outcome.Transcribed?
    ensures r.status == 500 <==> Accepted(req) && outcome.OtherError?
    ensures Accepted(req) && outcome.RequestError? ==> r == Response(400, ErrorBody(ApiErrorPrefix + outcome.message))
    ensures Accepted(req) && outcome.UnknownValue? ==> r == Response(400, ErrorBody(CannotRecognize))
    ensures Accepted(req) && outcome.OtherError? ==> r.body == ErrorBody(ProcessingErrorPrefix + outcome.message)
    ensures r.body.TranscriptBody? ==>
              r.body.transcription == outcome.transcript && r.body.count == PhraseCount(outcome.transcript)
  {
    if req.httpMethod == "POST" then
      match req.audio
      case None => Response(400, ErrorBody(NoAudioFound))
      case Some(part) =>
        if part.filename == "" then Response(400, ErrorBody(EmptyFilename))
        else
          match outcome
          case Transcribed(t) => Response(200, TranscriptBody(t, PhraseCount(t)))
          case RequestError(msg) => Response(400, ErrorBody(ApiErrorPrefix + msg))
          case UnknownValue => Response(400, ErrorBody(CannotRecognize))
          case OtherError(msg) => Response(500, ErrorBody(ProcessingErrorPrefix + msg))
    else
      Response(405, ErrorBody(InvalidMethod))
  }

  /** A request turned away by a check never depends on the recogniser: nothing further is attempted. */
  lemma RejectedIgnoresOutcome(req: Request, o1: RecognizerOutcome, o2: RecognizerOutcome)
    requires !Accepted(req)
    ensures Recognize(req, o1) == Recognize(req, o2)
    ensures Recognize(req, o1).status in {400, 405}
  {
  }
}

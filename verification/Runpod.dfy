/**
  What the remote's answers mean: which refused submissions may be sent again,
  which failures are final, and how a completed answer, in either of the shapes
  the engines use, becomes one output record.
*/
module Runpod {
  import opened Prelude

  datatype CallError =
    | Http(code: int)      // an answer other than 200
    | NoJobId              // an accepted call that carried no job id
    | NoEndpoint
    | NoApiKey
    | Transport            // the call was cut off; whether it arrived is unknown
    | Undecodable
    | WorkerReported       // the worker's own failure message, in a completed answer

  predicate PermanentCode(code: int) {
    code == 400 || code == 401 || code == 403 || code == 404
  }

  /** Answers that say nothing was enqueued, so the submission may be tried again. */
  predicate IsRetryableSubmit(e: CallError) {
    match e
    case NoJobId => true
    case Http(code) => code == 429 || code == 503 || code == 409
    case _ => false
  }

  /**
    The answers with which the remote says that it enqueued nothing: its endpoint
    is paused, rate-limited or refuses work, or it gives no job id. Any other
    failure may be heard of a job that the remote took.
  */
  predicate NothingEnqueued(e: CallError) {
    e == NoJobId || e == Http(409) || e == Http(429) || e == Http(503)
  }

  predicate IsPermanent(e: CallError) {
    match e
    case NoEndpoint => true
    case NoApiKey => true
    case Http(code) => PermanentCode(code)
    case WorkerReported => true
    case Undecodable => true
    case _ => false
  }

  // ---------- The output of a completed job ----------

  /** A decoded completion payload: absent fields are none; `inner` is the payload of an envelope. */
  datatype Payload = Payload(
    error: string,
    delivery: Option<string>,
    audioUrl: Option<string>,
    audioBase64: Option<string>,
    audio: Option<string>,
    samplingRate: Option<int>,
    sampleRate: Option<int>,
    inner: Option<Payload>)

  datatype Output = Output(
    delivery: string,
    audioUrl: string,
    audioBase64: string,
    audio: string,
    samplingRate: int,
    sampleRate: int)

  const NO_OUTPUT := Output("", "", "", "", 0, 0)
  const S3 := "s3"
  const BASE64 := "base64"

  function Or<T>(v: Option<T>, had: T): T {
    match v
    case Some(x) => x
    case None => had
  }

  /** Decoding into a record that already holds something: absent fields keep what they had. */
  function Decoded(o: Output, p: Payload): Output {
    Output(Or(p.delivery, o.delivery), Or(p.audioUrl, o.audioUrl), Or(p.audioBase64, o.audioBase64),
      Or(p.audio, o.audio), Or(p.samplingRate, o.samplingRate), Or(p.sampleRate, o.sampleRate))
  }

  function InlineB64(o: Output): string {
    if o.audioBase64 != "" then o.audioBase64 else o.audio
  }

  predicate Recognisable(o: Output) {
    o.delivery != "" || o.audioUrl != "" || InlineB64(o) != ""
  }

  /** Infers the delivery an engine leaves unsaid, and settles the two spellings of the sample rate. */
  function Normalised(o: Output): Result<Output, CallError> {
    var delivery := if o.delivery != "" then o.delivery
                    else if o.audioUrl != "" then S3
                    else if InlineB64(o) != "" then BASE64
                    else "";
    if delivery == "" then Err(Undecodable)
    else Ok(o.(delivery := delivery, samplingRate := if o.samplingRate == 0 then o.sampleRate else o.samplingRate))
  }

  /** A worker's own error message is read before the shape is. */
  function OutputOf(answer: Option<Payload>): Result<Output, CallError> {
    match answer
    case None => Err(Undecodable)
    case Some(p) =>
      if p.error != "" then Err(WorkerReported)
      else
        var o := Decoded(NO_OUTPUT, p);
        if Recognisable(o) || p.inner.None? then Normalised(o)
        else if p.inner.value.error != "" then Err(WorkerReported)
        else Normalised(Decoded(o, p.inner.value))
  }

  /** The handler's envelope: nothing but the payload. */
  function Envelope(p: Payload): Payload {
    Payload("", None, None, None, None, None, None, Some(p))
  }

  /** Both shapes mean the same: wrapping a payload in the envelope changes nothing. */
  lemma EnvelopeIsTransparent(p: Payload)
    requires p.error != "" || Recognisable(Decoded(NO_OUTPUT, p)) || p.inner.None?
    ensures OutputOf(Some(Envelope(p))) == OutputOf(Some(p))
  {
    assert Decoded(NO_OUTPUT, Envelope(p)) == NO_OUTPUT;
  }

  /** A field that is there and not blank. */
  predicate Says(field: Option<string>) {
    field.Some? && field.value != ""
  }

  /** A payload that says how its audio came, or brings it. */
  predicate BringsAudio(p: Payload) {
    Says(p.delivery) || Says(p.audioUrl) || Says(p.audioBase64) || Says(p.audio)
  }

  /** Whether the answer is read from its envelope's payload: only when its own brings nothing. */
  predicate FromEnvelope(p: Payload) {
    !BringsAudio(p) && p.inner.Some?
  }

  predicate SameText(text: string, field: Option<string>) {
    text == match field case Some(v) => v case None => ""
  }

  /** A rate the payload states, or else the one stated around it, or none. */
  predicate SameRate(rate: int, field: Option<int>, around: Option<int>) {
    rate == if field.Some? then field.value else if around.Some? then around.value else 0
  }

  /** The output holds what the payload says, field by field, and a delivery to go with it. */
  predicate Carries(o: Output, p: Payload, around: Payload) {
    && SameText(o.audioUrl, p.audioUrl) && SameText(o.audioBase64, p.audioBase64) && SameText(o.audio, p.audio)
    && (Says(p.delivery) ==> o.delivery == p.delivery.value)
    && (!Says(p.delivery) && Says(p.audioUrl) ==> o.delivery == "s3")
    && (!Says(p.delivery) && !Says(p.audioUrl) ==> o.delivery == "base64")
    && SameRate(o.sampleRate, p.sampleRate, around.sampleRate)
    && (SameRate(0, p.samplingRate, around.samplingRate) ==> o.samplingRate == o.sampleRate)
    && (!SameRate(0, p.samplingRate, around.samplingRate) ==> SameRate(o.samplingRate, p.samplingRate, around.samplingRate))
  }

  /**
    A completed answer is good exactly when it brings audio, in its own payload or,
    when that brings none, in its envelope's, and the worker reports no error there;
    the output then carries every field of that payload.
  */
  lemma OutputIsDelivered(p: Payload)
    ensures var payload := if FromEnvelope(p) then p.inner.value else p;
      var reported := p.error != "" || payload.error != "";
      match OutputOf(Some(p))
      case Ok(o) => !reported && BringsAudio(payload) && Carries(o, payload, p)
      case Err(WorkerReported) => reported
      case Err(e) => !reported && !BringsAudio(payload) && e == Undecodable
  {
  }
}

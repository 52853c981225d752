/** The serverless `handler` of src/handler.py: validate the job input,
    pick exactly one audio source, materialise it as a local file, and run
    the prediction on it.

    Schema validation, downloading, base64 decoding to a temporary file and
    the mapping from validated input to `predict`'s keyword arguments are
    parameters. The process-wide model pool is passed in. */
module Handler {
  import opened Base
  import opened Values
  import opened Formatter
  import opened Predictor

  /** A job: its `id` and its raw `input`. */
  datatype Job = Job(id: Value, input: Value)

  /** What schema validation returns: either its `errors`, or the
      `validated_input` with defaults filled in. */
  datatype Validation = Invalid(errors: Value) | Validated(input: map<string, Value>)

  /** Where the audio comes from. */
  datatype AudioSource = FromUrl(url: Value) | FromBase64(data: Value)

  const MissingAudio: string := "Must provide either audio or audio_base64"
  const BothAudio: string := "Must provide either audio or audio_base64, not both"

  /** The `{"error": ...}` response. */
  function ErrorResponse(v: Value): (r: Value)
    ensures r.Object? && r.fields.Keys == {"error"} && r.fields["error"] == v
  {
    Object(map["error" := v])
  }

  /** Exactly one of `audio` and `audio_base64` must be truthy; a missing
      key reads as None. */
  function SelectAudio(input: map<string, Value>): (r: Result<AudioSource, string>)
    ensures r.Success? <==> Truthy(Get(input, "audio")) != Truthy(Get(input, "audio_base64"))
    ensures !Truthy(Get(input, "audio")) && !Truthy(Get(input, "audio_base64")) ==> r == Failure(MissingAudio)
    ensures Truthy(Get(input, "audio")) && Truthy(Get(input, "audio_base64")) ==> r == Failure(BothAudio)
    ensures r.Success? && Truthy(Get(input, "audio")) ==> "audio" in input && r.value == FromUrl(input["audio"])
    ensures r.Success? && !Truthy(Get(input, "audio")) ==>
              "audio_base64" in input && r.value == FromBase64(input["audio_base64"])
  {
    var hasAudio := Truthy(Get(input, "audio"));
    var hasBase64 := Truthy(Get(input, "audio_base64"));
    if !hasAudio && !hasBase64 then Failure(MissingAudio)
    else if hasAudio && hasBase64 then Failure(BothAudio)
    else if hasAudio then Success(FromUrl(input["audio"]))
    else Success(FromBase64(input["audio_base64"]))
  }

  /** The outside world the handler reaches: schema validation, the URL
      download (first path of the job's download), the base64-to-file
      writer, and the keyword mapping into `predict`. Producing the local
      file can raise, e.g. `base64.b64decode` rejects a badly padded payload. */
  datatype Services = Services(
    validate: Value -> Validation,
    download: (Value, Value) -> Result<string, string>,
    toTempFile: Value -> Result<string, string>,
    options: map<string, Value> -> Options)

  /** The exceptions `handler` propagates: one raised while producing the
      audio file, before `predict`, or one raised by `predict`. */
  datatype Fault = AudioUnavailable(reason: string) | PredictFailed(error: Error)

  /** One handler call: the response (or the exception it propagates), the
      local audio path `predict` was called with (None when it was not
      called), and the engine calls made. */
  datatype Handled = Handled(response: Result<Value, Fault>, audio: Option<string>, calls: seq<EngineRequest>)

  /** The local file for a chosen source, or the exception producing it raised. */
  function AudioPath(job: Job, source: AudioSource, io: Services): Result<string, string> {
    match source
    case FromUrl(url) => io.download(job.id, url)
    case FromBase64(data) => io.toTempFile(data)
  }

  /** `handler(job)`. */
  function Handle<M>(job: Job, io: Services, models: map<string, M>, engine: Engine<M>,
                     ts: TimestampFormat, cuda: bool): (h: Handled)
    // invalid input is answered with its errors, before anything else
    ensures io.validate(job.input).Invalid? ==>
              h == Handled(Success(ErrorResponse(io.validate(job.input).errors)), None, [])
    // so is a missing or doubled audio source
    ensures io.validate(job.input).Validated? && SelectAudio(io.validate(job.input).input).Failure? ==>
              h == Handled(Success(ErrorResponse(Str(SelectAudio(io.validate(job.input).input).error))), None, [])
    // an exception while producing the audio file propagates, and `predict` is not called
    ensures io.validate(job.input).Validated? && SelectAudio(io.validate(job.input).input).Success?
            && AudioPath(job, SelectAudio(io.validate(job.input).input).value, io).Failure? ==>
              h == Handled(Failure(AudioUnavailable(
                     AudioPath(job, SelectAudio(io.validate(job.input).input).value, io).error)), None, [])
    // otherwise `predict` runs on the chosen file with the validated input,
    // and its result (or exception) is passed through unchanged
    ensures h.audio.Some? <==>
              && io.validate(job.input).Validated?
              && SelectAudio(io.validate(job.input).input).Success?
              && AudioPath(job, SelectAudio(io.validate(job.input).input).value, io).Success?
    ensures h.audio.Some? ==>
              var input := io.validate(job.input).input;
              var run := Predict(models, h.audio.value, io.options(input), engine, ts, cuda);
              && h.audio == Some(AudioPath(job, SelectAudio(input).value, io).value)
              && h.calls == run.calls
              && (run.result.Success? ==> h.response == Success(Object(ResultDict(run.result.value))))
              && (run.result.Failure? ==> h.response == Failure(PredictFailed(run.result.error)))
  {
    match io.validate(job.input)
    case Invalid(errors) => Handled(Success(ErrorResponse(errors)), None, [])
    case Validated(input) =>
      match SelectAudio(input)
      case Failure(message) => Handled(Success(ErrorResponse(Str(message))), None, [])
      case Success(source) =>
        match AudioPath(job, source, io)
        case Failure(reason) => Handled(Failure(AudioUnavailable(reason)), None, [])
        case Success(path) =>
          var run := Predict(models, path, io.options(input), engine, ts, cuda);
          match run.result
          case Success(p) => Handled(Success(Object(ResultDict(p))), Some(path), run.calls)
          case Failure(e) => Handled(Failure(PredictFailed(e)), Some(path), run.calls)
  }

  /** A request never reaches the engine unless its input validates and
      names exactly one audio source, and that source yields a file. */
  lemma {:induction false} EngineNeedsOneSource<M>(job: Job, io: Services, models: map<string, M>, engine: Engine<M>,
                                ts: TimestampFormat, cuda: bool)
    ensures Handle(job, io, models, engine, ts, cuda).calls != [] ==>
              && io.validate(job.input).Validated?
              && var input := io.validate(job.input).input;
              && Truthy(Get(input, "audio")) != Truthy(Get(input, "audio_base64"))
              && AudioPath(job, SelectAudio(input).value, io).Success?
  {
  }

  /** A job naming a model outside the start-up list never reaches the
      engine: it ends with the exception raised while producing its audio
      file, or, once the file exists, with the not-found exception. */
  lemma {:induction false} UnknownModelRejected<M>(job: Job, io: Services, load: string -> Result<M, string>, engine: Engine<M>,
                                ts: TimestampFormat, cuda: bool)
    requires io.validate(job.input).Validated?
    requires SelectAudio(io.validate(job.input).input).Success?
    requires io.options(io.validate(job.input).input).modelName !in ModelNames
    ensures var h := Handle(job, io, Setup(load).models, engine, ts, cuda);
      var input := io.validate(job.input).input;
      var file := AudioPath(job, SelectAudio(input).value, io);
      && (file.Failure? ==> h.response == Failure(AudioUnavailable(file.error)))
      && (file.Success? ==> h.response == Failure(PredictFailed(ModelNotFound(io.options(input).modelName))))
      && h.calls == []
  {
    var input := io.validate(job.input).input;
    var file := AudioPath(job, SelectAudio(input).value, io);
    if file.Success? {
      NeverLoadedIsNotFound(load, file.value, io.options(input), engine, ts, cuda);
    }
  }
}

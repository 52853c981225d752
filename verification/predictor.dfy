/** `Predictor` of src/predict.py: the model pool filled at start-up and the
    request path that resolves a model, builds the temperature fallback
    ladder, calls the speech engine and assembles the response.

    The engine (`WhisperModel.transcribe`), `format_timestamp` and the
    CUDA probe are parameters. Because the model is pure, the engine calls a
    request makes are returned as a trace next to its outcome. */
module Predictor {
  import opened Base
  import opened Values
  import opened Segments
  import opened Arange
  import opened Formatter
  import opened Serializer

  /** `MODEL_NAMES`: the models loaded at start-up. */
  const ModelNames: seq<string> := ["medium", "turbo"]

  /** The exceptions a request or the start-up phase can end with. */
  datatype Error =
    | ModelNotFound(name: string)                  // ValueError raised by `predict`
    | ZeroFallbackStep                             // `np.arange` with a zero step
    | EngineFailure(reason: string)                // anything `model.transcribe` raises
    | WordsMissing                                 // iterating a `segment.words` that is None
    | LoadFailure(name: string, reason: string)    // `WhisperModel(...)` raised during `setup`

  /** The text of the `ValueError` for an unknown model. */
  function NotFoundMessage(name: string): (msg: string)
    ensures |msg| == |name| + 19
    ensures msg[..7] == "Model '" && msg[|msg| - 12..] == "' not found."
    ensures msg[7..7 + |name|] == name
  {
    "Model '" + name + "' not found."
  }

  /** The message names its model: distinct names give distinct messages. */
  lemma {:induction false} NotFoundMessageNamesModel(a: string, b: string)
    requires NotFoundMessage(a) == NotFoundMessage(b)
    ensures a == b
  {
    var m := NotFoundMessage(a);
    assert a == m[7..7 + |a|] == NotFoundMessage(b)[7..7 + |b|] == b;
  }

  /** The exception text of an error, when this model knows it: the
      not-found text of `predict`, and the reason an engine or model load
      raised with. The texts numpy and Python produce for a zero step and for
      iterating a missing word list are not modelled. */
  function Message(e: Error): Option<string> {
    match e
    case ModelNotFound(name) => Some(NotFoundMessage(name))
    case EngineFailure(reason) => Some(reason)
    case LoadFailure(_, reason) => Some(reason)
    case ZeroFallbackStep => None
    case WordsMissing => None
  }

  // ---------------------------------------------------------------------
  // Start-up: the model pool

  /** The pool after start-up, and the load failure that aborted it, if any. */
  datatype Pool<M> = Pool(models: map<string, M>, failure: Option<Error>)

  /** The names in `names[..k]`. */
  function Loaded(names: seq<string>, k: nat): set<string>
    requires k <= |names|
  {
    set i | 0 <= i < k :: names[i]
  }

  /** `setup` inserts the loaded models in list order (`executor.map` yields
      results in order); the first load that raises stops the insertion and
      propagates, leaving the models before it in place. */
  function LoadInto<M>(names: seq<string>, load: string -> Result<M, string>, acc: map<string, M>): (p: Pool<M>)
    ensures acc.Keys <= p.models.Keys <= acc.Keys + Loaded(names, |names|)
    ensures forall n :: n in p.models ==> (n in acc && p.models[n] == acc[n]) || load(n) == Success(p.models[n])
    decreases |names|
  {
    if |names| == 0 then Pool(acc, None)
    else
      match load(names[0])
      case Failure(reason) => Pool(acc, Some(LoadFailure(names[0], reason)))
      case Success(m) =>
        var p := LoadInto(names[1..], load, acc[names[0] := m]);
        LoadedTail(names, |names| - 1);
        p
  }

  lemma {:induction false} LoadedTail(names: seq<string>, k: nat)
    requires 0 < |names| && k < |names|
    ensures Loaded(names, k + 1) == {names[0]} + Loaded(names[1..], k)
  {
    forall n | n in Loaded(names, k + 1)
      ensures n in {names[0]} + Loaded(names[1..], k)
    {
      var i :| 0 <= i < k + 1 && names[i] == n;
      if i > 0 {
        assert names[1..][i - 1] == n;
      }
    }
    forall n | n in Loaded(names[1..], k)
      ensures n in Loaded(names, k + 1)
    {
      var i :| 0 <= i < k && names[1..][i] == n;
      assert names[i + 1] == n;
    }
  }

  /** Loading stopped at `names[k]`: every earlier load succeeded, this one
      raised and is reported, and exactly the earlier names were inserted. */
  predicate StoppedAt<M>(p: Pool<M>, names: seq<string>, load: string -> Result<M, string>, acc: map<string, M>, k: int) {
    && 0 <= k < |names|
    && (forall i :: 0 <= i < k ==> load(names[i]).Success?)
    && load(names[k]).Failure?
    && p.failure == Some(LoadFailure(names[k], load(names[k]).error))
    && p.models.Keys == acc.Keys + Loaded(names, k)
  }

  /** A stop in the tail is a stop one position later in the whole list,
      once the head has loaded. */
  lemma {:induction false} StoppedAtCons<M>(p: Pool<M>, names: seq<string>, load: string -> Result<M, string>,
                         acc: map<string, M>, m: M, k: int)
    requires |names| > 0 && load(names[0]) == Success(m)
    requires StoppedAt(p, names[1..], load, acc[names[0] := m], k)
    ensures StoppedAt(p, names, load, acc, k + 1)
  {
    LoadedTail(names, k);
    forall i | 0 <= i < k + 1 ensures load(names[i]).Success? {
      if i > 0 { assert names[i] == names[1..][i - 1]; }
    }
    assert names[k + 1] == names[1..][k];
  }

  /** Loading either inserts every name, or stops at the first name whose
      load raises. */
  lemma {:induction false} LoadIntoOutcome<M>(names: seq<string>, load: string -> Result<M, string>, acc: map<string, M>)
    ensures var p := LoadInto(names, load, acc);
      && (p.failure.None? ==>
            && (forall i :: 0 <= i < |names| ==> load(names[i]).Success?)
            && p.models.Keys == acc.Keys + Loaded(names, |names|))
      && (p.failure.Some? ==> exists k :: StoppedAt(p, names, load, acc, k))
    decreases |names|
  {
    var p := LoadInto(names, load, acc);
    if |names| == 0 {
    } else {
      match load(names[0])
      case Failure(reason) =>
        assert Loaded(names, 0) == {};
        assert StoppedAt(p, names, load, acc, 0);
      case Success(m) =>
        var acc' := acc[names[0] := m];
        LoadIntoOutcome(names[1..], load, acc');
        assert p == LoadInto(names[1..], load, acc');
        if p.failure.None? {
          LoadedTail(names, |names| - 1);
          forall i | 0 <= i < |names| ensures load(names[i]).Success? {
            if i > 0 { assert names[i] == names[1..][i - 1]; }
          }
        } else {
          var k :| StoppedAt(p, names[1..], load, acc', k);
          StoppedAtCons(p, names, load, acc, m, k);
        }
    }
  }

  function Setup<M>(load: string -> Result<M, string>): Pool<M> {
    LoadInto(ModelNames, load, map[])
  }

  // ---------------------------------------------------------------------
  // The request

  /** The keyword arguments of `predict`. */
  datatype Options = Options(
    modelName: string,
    transcription: string,
    translate: bool,
    translation: string,
    language: Option<string>,
    temperature: real,
    bestOf: int,
    beamSize: int,
    patience: real,
    lengthPenalty: Option<real>,
    suppressTokens: string,
    initialPrompt: Option<string>,
    conditionOnPreviousText: bool,
    temperatureIncrementOnFallback: Option<real>,
    compressionRatioThreshold: real,
    logprobThreshold: real,
    noSpeechThreshold: real,
    enableVad: bool,
    wordTimestamps: bool)

  /** The defaults of `predict`'s keyword arguments. */
  const Defaults: Options := Options(
    "medium", "plain_text", false, "plain_text", None, 0.0, 5, 5, 1.0, None, "-1", None,
    true, Some(0.2), 2.4, -1.0, 0.6, false, false)

  /** The arguments of one `model.transcribe` call. The translate pass
      passes only the audio, the task and the ladder; everything else is
      left at the engine's own defaults. */
  datatype EngineRequest =
    | TranscribeCall(
        audio: string,
        language: Option<string>,
        beamSize: int,
        bestOf: int,
        patience: real,
        lengthPenalty: Option<real>,
        temperature: seq<real>,
        compressionRatioThreshold: real,
        logProbThreshold: real,
        noSpeechThreshold: real,
        conditionOnPreviousText: bool,
        initialPrompt: Option<string>,
        prefix: Option<string>,
        suppressBlank: bool,
        suppressTokens: seq<int>,
        withoutTimestamps: bool,
        maxInitialTimestamp: real,
        wordTimestamps: bool,
        vadFilter: bool)
    | TranslateCall(audio: string, temperature: seq<real>)
  {
    /** The `task=` argument. */
    function Task(): string {
      if TranscribeCall? then "transcribe" else "translate"
    }
  }

  /** What `model.transcribe` returns: the segments and `info.language`. */
  datatype EngineOutput = EngineOutput(segments: seq<Segment>, language: string)

  /** The speech engine: a loaded model answers a request, or raises. */
  type Engine<!M> = (M, EngineRequest) -> Result<EngineOutput, string>

  /** The ladder's stop value, `1.0 + 1e-6`. */
  const LadderStop: real := 1.000001

  /** The `temperature` argument handed to the engine: `np.arange(t0,
      1.0 + 1e-6, d)` when an increment `d` is given (numpy refuses a zero
      step), and `[t0]` when it is None. */
  function TemperatureLadder(t0: real, increment: Option<real>): (r: Result<seq<real>, Error>)
    ensures increment.None? ==> r == Success([t0])
    ensures increment == Some(0.0) ==> r == Failure(ZeroFallbackStep)
    ensures increment.Some? && increment.value != 0.0 ==>
              r.Success? && IsArange(r.value, t0, LadderStop, increment.value)
  {
    match increment
    case None => Success([t0])
    case Some(d) =>
      if d == 0.0 then Failure(ZeroFallbackStep)
      else ArangeIsArange(t0, LadderStop, d); Success(Arange.Arange(t0, LadderStop, d))
  }

  /** With a positive increment `d` the ladder starts at `t0` (when `t0` is
      at most 1.0), rises by exactly `d`, and stays below `1.0 + 1e-6`. */
  lemma {:induction false} LadderAscending(t0: real, d: real)
    requires d > 0.0
    ensures var r := TemperatureLadder(t0, Some(d));
      && r.Success?
      && (t0 <= 1.0 ==> |r.value| > 0 && r.value[0] == t0)
      && (forall i :: 0 <= i < |r.value| - 1 ==> r.value[i] < r.value[i + 1] && r.value[i + 1] - r.value[i] == d)
      && (forall i :: 0 <= i < |r.value| ==> r.value[i] < LadderStop)
  {
    ArangeAscending(t0, LadderStop, d);
  }

  /** A positive increment `d` misses no temperature: every `t0 + k * d` up
      to 1.0 is the ladder's entry `k`. */
  lemma {:induction false} LadderComplete(t0: real, d: real, k: nat)
    requires d > 0.0 && Nth(t0, d, k) <= 1.0
    ensures var r := TemperatureLadder(t0, Some(d));
      r.Success? && k < |r.value| && r.value[k] == Nth(t0, d, k)
  {
    ArangeAscending(t0, LadderStop, d);
  }

  /** The default ladder is 0.0, 0.2, 0.4, 0.6, 0.8, 1.0. */
  lemma {:induction false} DefaultLadder()
    ensures TemperatureLadder(Defaults.temperature, Defaults.temperatureIncrementOnFallback)
            == Success([0.0, 0.2, 0.4, 0.6, 0.8, 1.0])
  {
    assert ArangeLength(0.0, LadderStop, 0.2) == 6 by {
      assert (LadderStop - 0.0) / 0.2 == 5.000005;
    }
    var xs := Arange.Arange(0.0, LadderStop, 0.2);
    assert xs == [0.0, 0.2, 0.4, 0.6, 0.8, 1.0] by {
      assert xs[0] == 0.0 && xs[1] == 0.2 && xs[2] == 0.4;
      assert xs[3] == 0.6 && xs[4] == 0.8 && xs[5] == 1.0;
    }
  }

  /** The first engine call: the request's decoding options with the ladder,
      a fixed suppression list `[-1]`, and the source's other fixed values. */
  function TranscribeRequest(audio: string, opt: Options, ladder: seq<real>): EngineRequest {
    TranscribeCall(
      audio, opt.language, opt.beamSize, opt.bestOf, opt.patience, opt.lengthPenalty, ladder,
      opt.compressionRatioThreshold, opt.logprobThreshold, opt.noSpeechThreshold,
      opt.conditionOnPreviousText, opt.initialPrompt, None, true, [-1], false, 1.0,
      opt.wordTimestamps, opt.enableVad)
  }

  /** The `suppress_tokens` argument of `predict` never reaches the engine. */
  lemma {:induction false} SuppressTokensIgnored(audio: string, opt: Options, ladder: seq<real>, other: string)
    ensures TranscribeRequest(audio, opt, ladder) == TranscribeRequest(audio, opt.(suppressTokens := other), ladder)
    ensures TranscribeRequest(audio, opt, ladder).suppressTokens == [-1]
  {
  }

  /** The `results` dictionary before serialization. */
  datatype Prediction = Prediction(
    segments: seq<Value>,
    detectedLanguage: string,
    transcription: string,
    translation: Option<string>,
    device: string,
    model: string,
    wordTimestamps: Option<seq<Value>>)

  /** The dictionary `predict` returns: `translation` is None when not
      requested, and `word_timestamps` is present only when requested. */
  function ResultDict(p: Prediction): (d: map<string, Value>)
    ensures d.Keys == {"segments", "detected_language", "transcription", "translation", "device", "model"}
                      + (if p.wordTimestamps.Some? then {"word_timestamps"} else {})
    ensures d["segments"] == List(p.segments) && d["model"] == Str(p.model)
    ensures d["detected_language"] == Str(p.detectedLanguage)
    ensures d["transcription"] == Str(p.transcription) && d["device"] == Str(p.device)
    ensures d["translation"] == (if p.translation.Some? then Str(p.translation.value) else Null)
    ensures p.wordTimestamps.Some? ==> d["word_timestamps"] == List(p.wordTimestamps.value)
  {
    var base := map[
      "segments" := List(p.segments),
      "detected_language" := Str(p.detectedLanguage),
      "transcription" := Str(p.transcription),
      "translation" := if p.translation.Some? then Str(p.translation.value) else Null,
      "device" := Str(p.device),
      "model" := Str(p.model)
    ];
    if p.wordTimestamps.Some? then base["word_timestamps" := List(p.wordTimestamps.value)] else base
  }

  /** `"cuda" if rp_cuda.is_available() else "cpu"`. */
  function Device(cuda: bool): string {
    if cuda then "cuda" else "cpu"
  }

  /** One `predict` call: its outcome and the engine calls it made, in order. */
  datatype Run = Run(result: Result<Prediction, Error>, calls: seq<EngineRequest>)

  /** The tail of `predict` once the engine has answered: serialize the
      transcription pass and, when asked, flatten its words. */
  function Assemble(opt: Options, out: EngineOutput, transcription: string, translation: Option<string>,
                    cuda: bool, calls: seq<EngineRequest>): (run: Run)
    ensures run.calls == calls
    ensures run.result.Failure? <==> opt.wordTimestamps && WordTimestamps(out.segments).None?
    ensures run.result.Failure? ==> run.result.error == WordsMissing
    ensures run.result.Success? ==>
              && run.result.value.segments == SerializeSegments(out.segments)
              && run.result.value.detectedLanguage == out.language
              && run.result.value.transcription == transcription
              && run.result.value.translation == translation
              && run.result.value.device == Device(cuda)
              && run.result.value.model == opt.modelName
              && (run.result.value.wordTimestamps.Some? <==> opt.wordTimestamps)
              && (opt.wordTimestamps ==> run.result.value.wordTimestamps == WordTimestamps(out.segments))
  {
    var p := Prediction(SerializeSegments(out.segments), out.language, transcription, translation,
                        Device(cuda), opt.modelName, None);
    if !opt.wordTimestamps then Run(Success(p), calls)
    else
      match WordTimestamps(out.segments)
      case None => Run(Failure(WordsMissing), calls)
      case Some(ws) => Run(Success(p.(wordTimestamps := Some(ws))), calls)
  }

  /** `Predictor.predict`. */
  function Predict<M>(models: map<string, M>, audio: string, opt: Options, engine: Engine<M>,
                      ts: TimestampFormat, cuda: bool): (run: Run)
    // an unknown model fails before any engine call
    ensures opt.modelName !in models ==> run == Run(Failure(ModelNotFound(opt.modelName)), [])
    // so does a zero fallback step
    ensures opt.modelName in models && opt.temperatureIncrementOnFallback == Some(0.0) ==>
              run == Run(Failure(ZeroFallbackStep), [])
    // otherwise the first call is the transcribe pass with the ladder, and
    // a second call happens only for translation, with the same ladder
    ensures run.calls != [] ==>
              && opt.modelName in models
              && TemperatureLadder(opt.temperature, opt.temperatureIncrementOnFallback).Success?
              && run.calls[0] == TranscribeRequest(audio, opt,
                   TemperatureLadder(opt.temperature, opt.temperatureIncrementOnFallback).value)
    ensures |run.calls| <= 2
    ensures |run.calls| == 2 ==> opt.translate && run.calls[1] == TranslateCall(audio, run.calls[0].temperature)
    ensures |run.calls| >= 1 ==> run.calls[0].Task() == "transcribe"
    ensures |run.calls| == 2 ==> run.calls[1].Task() == "translate"
    // a result means every call succeeded and the translate pass ran exactly when asked
    ensures run.result.Success? ==>
              && |run.calls| == (if opt.translate then 2 else 1)
              && engine(models[opt.modelName], run.calls[0]).Success?
              && var out := engine(models[opt.modelName], run.calls[0]).value;
              && run.result.value.segments == SerializeSegments(out.segments)
              && run.result.value.detectedLanguage == out.language
              && run.result.value.transcription == FormatSegments(opt.transcription, out.segments, ts)
              && run.result.value.model == opt.modelName
              && run.result.value.device == Device(cuda)
              && (run.result.value.translation.Some? <==> opt.translate)
              && (opt.translate ==>
                    && engine(models[opt.modelName], run.calls[1]).Success?
                    && run.result.value.translation.value
                       == FormatSegments(opt.translation, engine(models[opt.modelName], run.calls[1]).value.segments, ts))
              && (run.result.value.wordTimestamps.Some? <==> opt.wordTimestamps)
              && (opt.wordTimestamps ==> run.result.value.wordTimestamps == WordTimestamps(out.segments))
    // the not-found exception is raised exactly for an unknown model, with its message
    ensures run.result.Failure? && run.result.error.ModelNotFound? ==>
              && opt.modelName !in models
              && Message(run.result.error) == Some(NotFoundMessage(opt.modelName))
    // a known model with a valid ladder always reaches the transcribe pass
    ensures opt.modelName in models && TemperatureLadder(opt.temperature, opt.temperatureIncrementOnFallback).Success? ==>
              && |run.calls| >= 1
              && run.calls[0] == TranscribeRequest(audio, opt,
                   TemperatureLadder(opt.temperature, opt.temperatureIncrementOnFallback).value)
    // an exception of the transcribe pass propagates and ends the request
    ensures opt.modelName in models && |run.calls| >= 1 && engine(models[opt.modelName], run.calls[0]).Failure? ==>
              run == Run(Failure(EngineFailure(engine(models[opt.modelName], run.calls[0]).error)), [run.calls[0]])
    // once the transcribe pass answers, the translate pass runs exactly when asked
    ensures opt.modelName in models && |run.calls| >= 1 && engine(models[opt.modelName], run.calls[0]).Success? ==>
              |run.calls| == (if opt.translate then 2 else 1)
    // an exception of the translate pass propagates
    ensures opt.modelName in models && |run.calls| == 2 && engine(models[opt.modelName], run.calls[1]).Failure? ==>
              run.result == Failure(EngineFailure(engine(models[opt.modelName], run.calls[1]).error))
    // when every engine call answers, the request fails only for a missing word list
    ensures opt.modelName in models && |run.calls| >= 1
            && engine(models[opt.modelName], run.calls[0]).Success?
            && (|run.calls| == 2 ==> engine(models[opt.modelName], run.calls[1]).Success?) ==>
              && (run.result.Failure? <==>
                    opt.wordTimestamps && WordTimestamps(engine(models[opt.modelName], run.calls[0]).value.segments).None?)
              && (run.result.Failure? ==> run.result.error == WordsMissing)
  {
    if opt.modelName !in models then Run(Failure(ModelNotFound(opt.modelName)), [])
    else
      match TemperatureLadder(opt.temperature, opt.temperatureIncrementOnFallback)
      case Failure(e) => Run(Failure(e), [])
      case Success(ladder) =>
        var model := models[opt.modelName];
        var call := TranscribeRequest(audio, opt, ladder);
        match engine(model, call)
        case Failure(reason) => Run(Failure(EngineFailure(reason)), [call])
        case Success(out) =>
          var transcription := FormatSegments(opt.transcription, out.segments, ts);
          if !opt.translate then Assemble(opt, out, transcription, None, cuda, [call])
          else
            var translateCall := TranslateCall(audio, ladder);
            match engine(model, translateCall)
            case Failure(reason) => Run(Failure(EngineFailure(reason)), [call, translateCall])
            case Success(translated) =>
              var translation := FormatSegments(opt.translation, translated.segments, ts);
              Assemble(opt, out, transcription, Some(translation), cuda, [call, translateCall])
  }

  /** A name that start-up never loaded is not found, however many other
      models loaded, and no engine call is made. */
  lemma {:induction false} NeverLoadedIsNotFound<M>(load: string -> Result<M, string>, audio: string, opt: Options,
                                 engine: Engine<M>, ts: TimestampFormat, cuda: bool)
    requires opt.modelName !in ModelNames
    ensures Predict(Setup(load).models, audio, opt, engine, ts, cuda)
            == Run(Failure(ModelNotFound(opt.modelName)), [])
  {
    assert opt.modelName !in Setup(load).models;
  }
}

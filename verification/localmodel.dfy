/** The offline Whisper model (src/utils/localModel.ts): a module-level state and a cache of
    loaded pipelines. Loading a pipeline and running it are parameters; the `modelStateChange`
    and download-progress events are left out, and the sequence of states a call passes
    through is returned instead. */
module LocalModel {
  import opened Results
  import opened Domain

  datatype ModelState = Idle | Downloading | Initializing | Ready | Error

  /** The strings of `ModelState`. */
  function StateTag(m: ModelState): string
  {
    match m
    case Idle => "idle"
    case Downloading => "downloading"
    case Initializing => "initializing"
    case Ready => "ready"
    case Error => "error"
  }

  /** A loaded pipeline; what it is does not matter to the logic. */
  datatype Pipeline = Pipeline(handle: nat)

  /** `currentModelState` and `modelCache`. */
  datatype LocalModelState = LocalModelState(state: ModelState, cache: map<string, Pipeline>)

  const InitialLocalModel: LocalModelState := LocalModelState(Idle, map[])

  const InitFailure: string := "Failed to initialize local model"
  const RunFailure: string := "Failed to transcribe audio using local model"

  /** What `initializeLocalModel` did: the new state, the states it passed through in order,
      how many times it called the pipeline factory, and its outcome. */
  datatype InitRun = InitRun(after: LocalModelState, trace: seq<ModelState>, loads: nat, outcome: Result<()>)

  /** `initializeLocalModel(modelId)`; `load(modelId)` is the `pipeline(...)` factory, `None`
      when it throws. */
  function InitializeLocalModel(s: LocalModelState, modelId: string, load: string -> Option<Pipeline>): (r: InitRun)
    ensures |r.trace| == 2 && r.trace[0] == Downloading && r.after.state == r.trace[1]
    ensures Initializing !in r.trace
    ensures r.loads == (if modelId in s.cache then 0 else 1)
    ensures r.outcome.Ok? <==> r.after.state == Ready
    ensures r.outcome.Ok? <==> modelId in s.cache || load(modelId).Some?
    ensures r.outcome.Ok? ==> modelId in r.after.cache
    ensures r.outcome.Ok? && modelId !in s.cache ==> r.after.cache == s.cache[modelId := load(modelId).value]
    ensures r.outcome.Ok? && modelId in s.cache ==> r.after.cache == s.cache
    ensures r.outcome.Err? ==> r.after == LocalModelState(Error, s.cache) && r.outcome.error == InitFailure
  {
    if modelId in s.cache then
      InitRun(LocalModelState(Ready, s.cache), [Downloading, Ready], 0, Ok(()))
    else match load(modelId)
      case Some(p) => InitRun(LocalModelState(Ready, s.cache[modelId := p]), [Downloading, Ready], 1, Ok(()))
      case None => InitRun(LocalModelState(Error, s.cache), [Downloading, Error], 1, Err(InitFailure))
  }

  /** A second initialisation of the same model does not call the factory again and succeeds,
      even when the factory would now fail. */
  lemma InitializeTwiceLoadsOnce(s: LocalModelState, modelId: string, load: string -> Option<Pipeline>,
                                 load': string -> Option<Pipeline>)
    requires InitializeLocalModel(s, modelId, load).outcome.Ok?
    ensures var again := InitializeLocalModel(InitializeLocalModel(s, modelId, load).after, modelId, load');
            again.loads == 0 && again.outcome.Ok?
            && again.after == InitializeLocalModel(s, modelId, load).after
  {
  }

  /** One `{ timestamp, text }` chunk of the pipeline output; only `timestamp[0]` is read. */
  datatype AsrChunk = AsrChunk(start: real, text: string)

  /** The pipeline output; `chunks` may be missing. */
  datatype AsrOutput = AsrOutput(text: string, chunks: Option<seq<AsrChunk>>)

  /** `runLocalTranscription(file, modelId)`; `run(p, file)` is the pipeline call, `None` when
      it throws. Every failure is reported with the same message. */
  function RunLocalTranscription(s: LocalModelState, modelId: string, file: FileInfo,
                                 run: (Pipeline, FileInfo) -> Option<AsrOutput>): (r: Result<Transcript>)
    ensures modelId !in s.cache ==> r == Err(RunFailure)
    ensures r.Err? ==> r.error == RunFailure
    ensures r.Ok? <==> modelId in s.cache && run(s.cache[modelId], file).Some?
                       && run(s.cache[modelId], file).value.chunks.Some?
    ensures r.Ok? ==> var out := run(s.cache[modelId], file).value;
                      r.value.text == out.text && |r.value.timestamps| == |out.chunks.value|
                      && forall k :: 0 <= k < |out.chunks.value| ==>
                           r.value.timestamps[k] == Segment(out.chunks.value[k].start, out.chunks.value[k].text)
  {
    if modelId !in s.cache then Err(RunFailure)
    else match run(s.cache[modelId], file)
      case None => Err(RunFailure)
      case Some(out) =>
        if out.chunks.None? then Err(RunFailure)
        else
          var cs := out.chunks.value;
          Ok(Transcript(out.text, seq(|cs|, k requires 0 <= k < |cs| => Segment(cs[k].start, cs[k].text))))
  }

  /** Once a model has been initialised, running it fails only when the pipeline itself throws
      or returns no chunks. */
  lemma RunAfterInitialize(s: LocalModelState, modelId: string, load: string -> Option<Pipeline>, file: FileInfo,
                           run: (Pipeline, FileInfo) -> Option<AsrOutput>)
    requires InitializeLocalModel(s, modelId, load).outcome.Ok?
    ensures var after := InitializeLocalModel(s, modelId, load).after;
            RunLocalTranscription(after, modelId, file, run).Err? <==>
              run(after.cache[modelId], file).None? || run(after.cache[modelId], file).value.chunks.None?
  {
  }

  /** From the start state nothing is cached, so transcribing fails until a model is loaded. */
  lemma RunBeforeInitializeFails(modelId: string, file: FileInfo, run: (Pipeline, FileInfo) -> Option<AsrOutput>)
    ensures RunLocalTranscription(InitialLocalModel, modelId, file, run) == Err(RunFailure)
  {
  }
}

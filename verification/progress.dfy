/** The progress store (src/utils/progress.ts): one current chunk record and an overall status. */
module Progress {
  import opened Results

  /** `ProgressChunk`. Its `status` is declared as a chunk status, but `setStatus` stores any
      string there, so it is a string here. */
  datatype ProgressChunk = ProgressChunk(status: string, progress: int, message: Option<string>, error: Option<string>)

  datatype ProgressState = ProgressState(currentChunk: ProgressChunk, status: string)

  /** `Partial<ProgressChunk>`; an optional field can be given explicitly as `undefined`,
      which is `Some(None)`. */
  datatype ChunkUpdate = ChunkUpdate(status: Option<string>, progress: Option<int>,
                                     message: Option<Option<string>>, error: Option<Option<string>>)

  const IdleChunk: ProgressChunk := ProgressChunk("idle", 0, None, None)

  /** The store's starting value. */
  const InitialProgress: ProgressState := ProgressState(IdleChunk, "idle")

  /** `initialize(filename, size, chunkCount, provider)`. */
  function Initialize(s: ProgressState, filename: string, size: int, chunkCount: int, provider: string): (r: ProgressState)
    ensures r.status == "processing" && r.currentChunk.status == "processing"
    ensures r.currentChunk.progress == 0 && r.currentChunk.error.None?
    ensures r.currentChunk.message == Some(filename + " - initializing transcription process")
  {
    ProgressState(ProgressChunk("processing", 0, Some(filename + " - initializing transcription process"), None), "processing")
  }

  /** Only the file name reaches the state: neither the earlier state, the size, the chunk
      count nor the provider makes a difference. */
  lemma InitializeUsesOnlyName(s: ProgressState, t: ProgressState, filename: string,
                               size: int, size': int, count: int, count': int, provider: string, provider': string)
    ensures Initialize(s, filename, size, count, provider) == Initialize(t, filename, size', count', provider')
  {
  }

  /** `reset()`: back to the idle state, whatever came before. */
  function Reset(s: ProgressState): (r: ProgressState)
    ensures r.status == "idle" && r.currentChunk.status == "idle" && r.currentChunk.progress == 0
    ensures r.currentChunk.message.None? && r.currentChunk.error.None?
  {
    InitialProgress
  }

  /** Resetting twice is resetting once, and a reset state is the store's starting value. */
  lemma ResetIdempotent(s: ProgressState)
    ensures Reset(Reset(s)) == Reset(s)
    ensures Reset(s) == InitialProgress
  {
  }

  /** `{ ...chunk, ...update }`. */
  function Merge(c: ProgressChunk, u: ChunkUpdate): (r: ProgressChunk)
    ensures r.status == (if u.status.Some? then u.status.value else c.status)
    ensures r.progress == (if u.progress.Some? then u.progress.value else c.progress)
    ensures r.message == (if u.message.Some? then u.message.value else c.message)
    ensures r.error == (if u.error.Some? then u.error.value else c.error)
  {
    ProgressChunk(u.status.GetOr(c.status), u.progress.GetOr(c.progress), u.message.GetOr(c.message), u.error.GetOr(c.error))
  }

  /** `updateCurrentChunk(update)`: the supplied fields of the chunk overwritten, the overall
      status untouched. */
  function UpdateCurrentChunk(s: ProgressState, u: ChunkUpdate): (r: ProgressState)
    ensures r.status == s.status
    ensures r.currentChunk == Merge(s.currentChunk, u)
  {
    s.(currentChunk := Merge(s.currentChunk, u))
  }

  /** An update that supplies nothing changes nothing; the same update twice is the update once. */
  lemma UpdateCurrentChunkLaws(s: ProgressState, u: ChunkUpdate)
    ensures UpdateCurrentChunk(s, ChunkUpdate(None, None, None, None)) == s
    ensures UpdateCurrentChunk(UpdateCurrentChunk(s, u), u) == UpdateCurrentChunk(s, u)
  {
  }

  /** `updateChunk(index, update)`: the index is not used. */
  function UpdateChunk(s: ProgressState, index: int, u: ChunkUpdate): (r: ProgressState)
    ensures r.status == s.status
    ensures r.currentChunk == Merge(s.currentChunk, u)
  {
    s.(currentChunk := Merge(s.currentChunk, u))
  }

  /** `updateChunk` behaves exactly like `updateCurrentChunk`, for every index. */
  lemma UpdateChunkIgnoresIndex(s: ProgressState, index: int, u: ChunkUpdate)
    ensures UpdateChunk(s, index, u) == UpdateCurrentChunk(s, u)
  {
  }

  /** `setStatus(status, error)`: an omitted error is `None` and clears the stored one. */
  function SetStatus(s: ProgressState, status: string, error: Option<string>): (r: ProgressState)
    ensures r.status == status && r.currentChunk.status == status && r.currentChunk.error == error
    ensures r.currentChunk.progress == s.currentChunk.progress && r.currentChunk.message == s.currentChunk.message
  {
    ProgressState(s.currentChunk.(status := status, error := error), status)
  }

  /** `setStatus` is the chunk update that supplies status and error, plus the overall status. */
  lemma SetStatusIsUpdate(s: ProgressState, status: string, error: Option<string>)
    ensures SetStatus(s, status, error)
            == UpdateCurrentChunk(s, ChunkUpdate(Some(status), None, None, Some(error))).(status := status)
  {
  }
}

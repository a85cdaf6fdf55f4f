/** Client-side transcription of one audio file (src/utils/transcription.ts):
    the file is cut into 5 MiB byte ranges, each range is sent to the selected
    provider with a bounded retry on "Model too busy", and the per-chunk results
    are merged into one transcript. The HTTP exchange for chunk `i`, attempt `k`
    is an input (`respond(i, k)`); everything else, including the notices posted
    before each retry, is computed here. */
module Transcription {
  import opened Results
  import opened Text
  import opened Domain
  import opened Powers
  import Notifications

  /** Largest chunk sent in one request: 5 MiB. */
  const MaxChunkSize: nat := 5 * 1024 * 1024
  /** Attempts per chunk. */
  const MaxRetries: nat := 3
  /** Wait before the second attempt, in milliseconds; it doubles for each later attempt. */
  const InitialRetryDelay: nat := 5000

  // ---------------------------------------------------------------------------
  // Chunking

  /** The half-open byte range `[start, end)` of one `file.slice(start, end)`. */
  datatype ByteRange = ByteRange(start: nat, end: nat)

  function Min(a: nat, b: nat): (r: nat)
  {
    if a <= b then a else b
  }

  /** The number of chunks of a file of `size` bytes: `ceil(size / MaxChunkSize)`. */
  function ChunkCount(size: nat): (r: nat)
  {
    (size + MaxChunkSize - 1) / MaxChunkSize
  }

  predicate InRange(r: ByteRange, b: nat)
  {
    r.start <= b < r.end
  }

  /** Byte `b` lies in some chunk. */
  predicate Covered(chunks: seq<ByteRange>, b: nat)
  {
    exists i :: 0 <= i < |chunks| && InRange(chunks[i], b)
  }

  /** The shape `createChunks` produces: chunk `i` is `[i * 5 MiB, min((i + 1) * 5 MiB, size))`. */
  predicate ChunkLayout(chunks: seq<ByteRange>, size: nat)
  {
    && |chunks| == ChunkCount(size)
    && forall i :: 0 <= i < |chunks| ==>
         chunks[i].start == i * MaxChunkSize && chunks[i].end == Min(chunks[i].start + MaxChunkSize, size)
  }

  /** The generator `createChunks`, run to completion. */
  method CreateChunks(totalSize: nat) returns (chunks: seq<ByteRange>)
    ensures ChunkLayout(chunks, totalSize)
    ensures forall i :: 0 <= i < |chunks| ==> chunks[i].start < chunks[i].end
    ensures forall i :: 0 <= i < |chunks| - 1 ==> chunks[i].end == chunks[i + 1].start
    ensures |chunks| > 0 ==> chunks[0].start == 0 && chunks[|chunks| - 1].end == totalSize
    ensures totalSize == 0 <==> chunks == []
  {
    chunks := [];
    var start := 0;
    while start < totalSize
      invariant start == Min(|chunks| * MaxChunkSize, totalSize)
      invariant |chunks| > 0 ==> (|chunks| - 1) * MaxChunkSize < totalSize
      invariant forall i :: 0 <= i < |chunks| ==>
                  chunks[i].start == i * MaxChunkSize && chunks[i].end == Min(chunks[i].start + MaxChunkSize, totalSize)
    {
      var end := Min(start + MaxChunkSize, totalSize);
      chunks := chunks + [ByteRange(start, end)];
      start := end;
    }
    CountFromBounds(totalSize, |chunks|);
    LayoutShape(chunks, totalSize);
  }

  /** Consecutive chunks of the layout meet, none is empty, and together they span the file. */
  lemma LayoutShape(chunks: seq<ByteRange>, size: nat)
    requires ChunkLayout(chunks, size)
    requires |chunks| > 0 ==> (|chunks| - 1) * MaxChunkSize < size <= |chunks| * MaxChunkSize
    requires |chunks| == 0 ==> size == 0
    ensures forall i :: 0 <= i < |chunks| ==> chunks[i].start < chunks[i].end
    ensures forall i :: 0 <= i < |chunks| - 1 ==> chunks[i].end == chunks[i + 1].start
    ensures |chunks| > 0 ==> chunks[0].start == 0 && chunks[|chunks| - 1].end == size
    ensures size == 0 <==> chunks == []
  {
  }

  /** `k` chunks are exactly enough for `size` bytes. */
  lemma CountFromBounds(size: nat, k: nat)
    requires k == 0 ==> size == 0
    requires k > 0 ==> (k - 1) * MaxChunkSize < size <= k * MaxChunkSize
    ensures k == ChunkCount(size)
  {
  }

  /** Every byte of the file lies in exactly one chunk. */
  lemma {:induction false} ChunksPartitionFile(chunks: seq<ByteRange>, size: nat)
    requires ChunkLayout(chunks, size)
    ensures forall b: nat :: b < size ==> Covered(chunks, b)
    ensures forall i, j, b: nat :: 0 <= i < |chunks| && 0 <= j < |chunks| && InRange(chunks[i], b) && InRange(chunks[j], b) ==> i == j
    ensures forall i :: 0 <= i < |chunks| ==> chunks[i].end <= size
  {
    forall b: nat | b < size ensures Covered(chunks, b) {
      var i := b / MaxChunkSize;
      assert i * MaxChunkSize <= b < (i + 1) * MaxChunkSize;
      assert i < |chunks|;
      assert InRange(chunks[i], b);
    }
    forall i, j, b: nat | 0 <= i < |chunks| && 0 <= j < |chunks| && InRange(chunks[i], b) && InRange(chunks[j], b)
      ensures i == j
    {
      assert i * MaxChunkSize <= b < (i + 1) * MaxChunkSize;
      assert j * MaxChunkSize <= b < (j + 1) * MaxChunkSize;
    }
  }

  // ---------------------------------------------------------------------------
  // Provider response normalisation (`performTranscription`)

  /** The `error` field of a JSON error body: absent, a string, or an object with an optional `message`. */
  datatype ErrorField = NoErrorField | ErrorText(text: string) | ErrorObject(message: Option<string>)

  /** The parsed body of a non-ok response, or a body that was not JSON. */
  datatype ErrorBody = UnparseableBody | ErrorJson(error: ErrorField)

  /** A `{ start, text }` segment, or a Hugging Face `{ timestamp: [start, end], text }` chunk. */
  datatype RawSegment = RawSegment(start: real, text: string)

  /** The fields of a successful JSON response that the client reads. */
  datatype SuccessBody = SuccessBody(text: Option<string>, chunks: Option<seq<RawSegment>>, segments: Option<seq<RawSegment>>)

  /** What one `fetch` to a provider gives back. */
  datatype ProviderResponse =
    | NetworkFailure(message: string)          // fetch rejected
    | HttpError(status: int, errorBody: ErrorBody)  // !response.ok
    | HttpOk(body: SuccessBody)                // response.ok with a JSON body
    | UnreadableBody(message: string)          // response.ok but response.json() rejected

  /** The message thrown for a non-ok response: `error.error?.message || error.error || fallback`. */
  function ErrorMessage(status: int, body: ErrorBody): (m: string)
    ensures body == UnparseableBody ==> m == "Failed to parse error response"
    ensures body == ErrorJson(NoErrorField) ==> m == "Failed to transcribe audio (" + IntToString(status) + ")"
    ensures body.ErrorJson? && body.error.ErrorText? && body.error.text != "" ==> m == body.error.text
    ensures body.ErrorJson? && body.error.ErrorObject? && body.error.message.Some? && body.error.message.value != ""
            ==> m == body.error.message.value
    ensures m != ""
  {
    var field := if body.UnparseableBody? then ErrorText("Failed to parse error response") else body.error;
    match field
    case ErrorObject(message) =>
      // An object is truthy; `new Error(object)` turns it into "[object Object]".
      if message.Some? && message.value != "" then message.value else "[object Object]"
    case ErrorText(s) =>
      if s != "" then s else "Failed to transcribe audio (" + IntToString(status) + ")"
    case NoErrorField =>
      "Failed to transcribe audio (" + IntToString(status) + ")"
  }

  function SegmentTexts(ts: seq<Segment>): (r: seq<string>)
    ensures |r| == |ts| && forall j :: 0 <= j < |ts| ==> r[j] == ts[j].text
  {
    seq(|ts|, j requires 0 <= j < |ts| => ts[j].text)
  }

  /** Raw segments as timestamps, text trimmed or not. */
  function ToSegments(raw: seq<RawSegment>, trim: bool): (r: seq<Segment>)
    ensures |r| == |raw|
    ensures forall j :: 0 <= j < |raw| ==>
              r[j].time == raw[j].start && r[j].text == (if trim then Trim(raw[j].text) else raw[j].text)
  {
    seq(|raw|, j requires 0 <= j < |raw| => Segment(raw[j].start, if trim then Trim(raw[j].text) else raw[j].text))
  }

  /** The provider-specific reading of the timestamps, before the two repairs. */
  function ProviderTimestamps(p: Provider, body: SuccessBody, text: string): (r: seq<Segment>)
  {
    match p
    case HuggingFace =>
      if body.chunks.Some? then ToSegments(body.chunks.value, true)
      else if body.segments.Some? then ToSegments(body.segments.value, true)
      else [Segment(0.0, Trim(text))]
    case _ =>
      if body.segments.Some? then ToSegments(body.segments.value, false) else []
  }

  /** A successful response as `{ text, timestamps }`, including the two repairs at the end of
      `performTranscription`: a lone zero-time segment for text without timestamps, and text
      rebuilt from the timestamps when the provider sent none. */
  function Normalize(p: Provider, body: SuccessBody): (r: Transcript)
    ensures r.text != "" ==> |r.timestamps| > 0
    ensures body.text.Some? && body.text.value != "" ==> r.text == body.text.value
    ensures (body.text.None? || body.text.value == "") ==> r.text == Join(SegmentTexts(r.timestamps), " ")
    ensures p == HuggingFace && body.chunks.None? && body.segments.None?
            ==> r.timestamps == [Segment(0.0, Trim(body.text.GetOr("")))]
    ensures p == HuggingFace && body.chunks.Some? && |body.chunks.value| > 0
            ==> r.timestamps == ToSegments(body.chunks.value, true)
    ensures p == HuggingFace && body.chunks.None? && body.segments.Some? && |body.segments.value| > 0
            ==> r.timestamps == ToSegments(body.segments.value, true)
    ensures p != HuggingFace && body.segments.Some? && |body.segments.value| > 0
            ==> r.timestamps == ToSegments(body.segments.value, false)
    ensures p != HuggingFace && (body.segments.None? || |body.segments.value| == 0)
            ==> r.timestamps == (if body.text.GetOr("") == "" then [] else [Segment(0.0, body.text.value)])
  {
    var text := body.text.GetOr("");
    var ts := ProviderTimestamps(p, body, text);
    var ts' := if |ts| == 0 && text != "" then [Segment(0.0, text)] else ts;
    var text' := if text == "" && |ts'| > 0 then Join(SegmentTexts(ts'), " ") else text;
    Transcript(text', ts')
  }

  /** `performTranscription` once the HTTP exchange is given: an unknown provider tag throws
      before any request, a failed exchange throws its message, a successful one is normalised. */
  function PerformTranscription(provider: string, response: ProviderResponse): (r: Result<Transcript>)
    ensures ParseProvider(provider).None? ==> r == Err("Invalid provider")
    ensures ParseProvider(provider).Some? ==> (r.Ok? <==> response.HttpOk?)
    ensures ParseProvider(provider).Some? && response.HttpError?
            ==> r == Err(ErrorMessage(response.status, response.errorBody))
    ensures r.Ok? ==> r.value == Normalize(ParseProvider(provider).value, response.body)
  {
    match ParseProvider(provider)
    case None => Err("Invalid provider")
    case Some(p) =>
      match response
      case NetworkFailure(m) => Err(m)
      case HttpError(status, body) => Err(ErrorMessage(status, body))
      case UnreadableBody(m) => Err(m)
      case HttpOk(body) => Ok(Normalize(p, body))
  }

  // ---------------------------------------------------------------------------
  // Retry of one chunk

  /** `error.toString().includes('Model too busy')`; `toString` prefixes "Error: ". */
  predicate IsBusy(message: string)
  {
    Contains("Error: " + message, "Model too busy")
  }

  /** The outcome of a chunk's retry loop and the number of requests it made. */
  datatype ChunkRun = ChunkRun(outcome: Result<Transcript>, attempts: nat)

  /** Reference definition of the retry loop from attempt `attempt` on. */
  function RetryFrom(perform: nat -> Result<Transcript>, attempt: nat): (run: ChunkRun)
    requires attempt < MaxRetries
    ensures attempt < run.attempts <= MaxRetries
    decreases MaxRetries - attempt
  {
    var o := perform(attempt);
    if o.Ok? || !IsBusy(o.error) || attempt == MaxRetries - 1 then ChunkRun(o, attempt + 1)
    else RetryFrom(perform, attempt + 1)
  }

  /** The notice posted before the `k + 1`-th wait of a chunk (`k` from 0): the wait of
      `InitialRetryDelay * 2^k` ms in seconds, which is a whole number, and the attempt about
      to be made, `k + 2` of `MaxRetries`. */
  function BusyNotice(k: nat): (r: Notifications.Notice)
  {
    Notifications.Notice(Notifications.Info,
      "Model busy, retrying in " + IntToString(InitialRetryDelay * Pow2(k) / 1000) + " seconds (Attempt "
      + IntToString(k + 2) + "/" + IntToString(MaxRetries) + ")")
  }

  /** The notices of a chunk that waited `n` times, in order. */
  function BusyNotices(n: nat): (r: seq<Notifications.Notice>)
  {
    seq(n, k requires 0 <= k < n => BusyNotice(k))
  }

  /** The `k`-th wait of a chunk is announced by the `k`-th notice, which names the attempt
      `k + 2` about to be made and the wait `5·2^k` seconds. */
  lemma BusyNoticesContent(n: nat, k: nat)
    requires k < n
    ensures |BusyNotices(n)| == n && BusyNotices(n)[k] == BusyNotice(k)
    ensures InitialRetryDelay * Pow2(k) / 1000 == 5 * Pow2(k)
  {
    assert InitialRetryDelay * Pow2(k) == (5 * Pow2(k)) * 1000;
  }

  /** The inner `for (attempt …)` loop of `transcribeAudio` for one chunk, where `perform(k)`
      is the outcome of the `k`-th request. Also returns the waits made before each retry and
      the notices posted with them. */
  method RunChunk(perform: nat -> Result<Transcript>)
    returns (outcome: Result<Transcript>, attempts: nat, delays: seq<nat>, notices: seq<Notifications.Notice>)
    ensures 1 <= attempts <= MaxRetries
    ensures outcome == perform(attempts - 1)
    ensures forall k :: 0 <= k < attempts - 1 ==> perform(k).Err? && IsBusy(perform(k).error)
    ensures outcome.Err? ==> !IsBusy(outcome.error) || attempts == MaxRetries
    ensures |delays| == attempts - 1
    ensures forall k :: 0 <= k < |delays| ==> delays[k] == InitialRetryDelay * Pow2(k)
    ensures notices == BusyNotices(attempts - 1)
    ensures RetryFrom(perform, 0) == ChunkRun(outcome, attempts)
  {
    var attempt: nat := 0;
    delays := [];
    while true
      invariant attempt < MaxRetries
      invariant |delays| == attempt
      invariant forall k :: 0 <= k < attempt ==> delays[k] == InitialRetryDelay * Pow2(k)
      invariant forall k :: 0 <= k < attempt ==> perform(k).Err? && IsBusy(perform(k).error)
      invariant RetryFrom(perform, 0) == RetryFrom(perform, attempt)
      decreases MaxRetries - attempt
    {
      outcome := perform(attempt);
      if outcome.Ok? || !IsBusy(outcome.error) || attempt == MaxRetries - 1 {
        attempts := attempt + 1;
        notices := BusyNotices(attempt);
        return;
      }
      delays := delays + [InitialRetryDelay * Pow2(attempt)];
      attempt := attempt + 1;
    }
  }

  // ---------------------------------------------------------------------------
  // Merge

  /** The offset added to chunk `i`'s times: `i * (MaxChunkSize / size) * size`, taken as the
      exact product `i * MaxChunkSize` (a byte count used as seconds). */
  function ChunkOffset(i: nat): (r: real)
  {
    (i * MaxChunkSize) as real
  }

  function Shift(ts: seq<Segment>, offset: real): (r: seq<Segment>)
    ensures |r| == |ts|
    ensures forall j :: 0 <= j < |ts| ==> r[j].time == ts[j].time + offset && r[j].text == ts[j].text
  {
    seq(|ts|, j requires 0 <= j < |ts| => Segment(ts[j].time + offset, ts[j].text))
  }

  /** The timestamps of chunks `first`, `first + 1`, … shifted by their offsets and concatenated. */
  function MergeSegments(results: seq<Transcript>, first: nat): (r: seq<Segment>)
  {
    if |results| == 0 then []
    else Shift(results[0].timestamps, ChunkOffset(first)) + MergeSegments(results[1..], first + 1)
  }

  function ResultTexts(results: seq<Transcript>): (r: seq<string>)
    ensures |r| == |results| && forall i :: 0 <= i < |results| ==> r[i] == results[i].text
  {
    seq(|results|, i requires 0 <= i < |results| => results[i].text)
  }

  /** The combined result of `transcribeAudio`: every segment text survives, in chunk order,
      and a file of one chunk comes back exactly as that chunk was transcribed. */
  function Merge(results: seq<Transcript>): (r: Transcript)
    ensures SegmentTexts(r.timestamps) == AllSegmentTexts(results)
    ensures |results| == 0 ==> r == Transcript("", [])
    ensures |results| == 1 ==> r == results[0]
  {
    MergeKeepsTexts(results, 0);
    if |results| == 1 then
      assert Shift(results[0].timestamps, ChunkOffset(0)) == results[0].timestamps;
      assert MergeSegments(results, 0) == Shift(results[0].timestamps, ChunkOffset(0)) + MergeSegments([], 1);
      Transcript(Join(ResultTexts(results), " "), MergeSegments(results, 0))
    else
      Transcript(Join(ResultTexts(results), " "), MergeSegments(results, 0))
  }

  /** The merged text is the chunk texts joined by one space, in chunk order: one more chunk
      adds a space and its text at the end. */
  lemma MergeTextAppend(results: seq<Transcript>, last: Transcript)
    requires |results| > 0
    ensures Merge(results + [last]).text == Merge(results).text + " " + last.text
  {
    assert ResultTexts(results + [last]) == ResultTexts(results) + [last.text];
    JoinAppend(ResultTexts(results), last.text, " ");
  }

  /** All chunk segment texts, in chunk order. */
  function AllSegmentTexts(results: seq<Transcript>): (r: seq<string>)
  {
    if |results| == 0 then [] else SegmentTexts(results[0].timestamps) + AllSegmentTexts(results[1..])
  }

  /** Merging keeps every segment text, in chunk order, and only moves times. */
  lemma {:induction false} MergeKeepsTexts(results: seq<Transcript>, first: nat)
    ensures SegmentTexts(MergeSegments(results, first)) == AllSegmentTexts(results)
  {
    if |results| > 0 {
      MergeKeepsTexts(results[1..], first + 1);
      var head := Shift(results[0].timestamps, ChunkOffset(first));
      var tail := MergeSegments(results[1..], first + 1);
      assert SegmentTexts(head + tail) == SegmentTexts(head) + SegmentTexts(tail);
      assert SegmentTexts(head) == SegmentTexts(results[0].timestamps);
    }
  }

  /** Merging after one more chunk appends that chunk's shifted segments. */
  lemma {:induction false} MergeSegmentsAppend(results: seq<Transcript>, last: Transcript, first: nat)
    ensures MergeSegments(results + [last], first)
            == MergeSegments(results, first) + Shift(last.timestamps, ChunkOffset(first + |results|))
  {
    if |results| == 0 {
      assert MergeSegments([last], first) == Shift(last.timestamps, ChunkOffset(first)) + MergeSegments([], first + 1);
    } else {
      var longer := results + [last];
      assert longer[0] == results[0];
      assert longer[1..] == results[1..] + [last];
      MergeSegmentsAppend(results[1..], last, first + 1);
      assert MergeSegments(longer, first)
             == Shift(results[0].timestamps, ChunkOffset(first)) + MergeSegments(results[1..] + [last], first + 1);
      assert MergeSegments(results, first)
             == Shift(results[0].timestamps, ChunkOffset(first)) + MergeSegments(results[1..], first + 1);
    }
  }

  predicate Sorted(ts: seq<Segment>)
  {
    forall j, k :: 0 <= j < k < |ts| ==> ts[j].time <= ts[k].time
  }

  /** Every time of the segment list lies in `[lo, hi]`. */
  predicate TimesWithin(ts: seq<Segment>, lo: real, hi: real)
  {
    forall j :: 0 <= j < |ts| ==> lo <= ts[j].time <= hi
  }

  /** A chunk whose own times are ordered and fall inside one chunk length. */
  predicate WellTimed(t: Transcript)
  {
    Sorted(t.timestamps) && TimesWithin(t.timestamps, 0.0, MaxChunkSize as real)
  }

  /** When every chunk's times are ordered and stay within one chunk length, the merged
      timestamps are ordered and never earlier than the first chunk's offset. */
  lemma {:induction false} MergeMonotone(results: seq<Transcript>, first: nat)
    requires forall i :: 0 <= i < |results| ==> WellTimed(results[i])
    ensures Sorted(MergeSegments(results, first))
    ensures forall j :: 0 <= j < |MergeSegments(results, first)| ==> MergeSegments(results, first)[j].time >= ChunkOffset(first)
  {
    if |results| > 0 {
      MergeMonotone(results[1..], first + 1);
      var head := Shift(results[0].timestamps, ChunkOffset(first));
      var tail := MergeSegments(results[1..], first + 1);
      assert WellTimed(results[0]);
      assert TimesWithin(head, ChunkOffset(first), ChunkOffset(first + 1));
      var m := head + tail;
      assert MergeSegments(results, first) == m;
      forall j, k | 0 <= j < k < |m| ensures m[j].time <= m[k].time {
        if k < |head| {
          assert m[j] == head[j] && m[k] == head[k];
        } else if j < |head| {
          assert m[j] == head[j] && m[k] == tail[k - |head|];
        } else {
          assert m[j] == tail[j - |head|] && m[k] == tail[k - |head|];
        }
      }
      forall j | 0 <= j < |m| ensures m[j].time >= ChunkOffset(first) {
        if j >= |head| {
          assert m[j] == tail[j - |head|];
        }
      }
    }
  }

  // ---------------------------------------------------------------------------
  // The whole file

  /** `!apiKey || !isValidated` is false. */
  predicate KeyUsable(apiKey: Option<string>, isValidated: bool)
  {
    apiKey.Some? && apiKey.value != "" && isValidated
  }

  function DisplayName(provider: string): (r: string)
  {
    if provider == "huggingface" then "Hugging Face" else if provider == "groq" then "Groq" else "OpenAI"
  }

  function MissingKeyMessage(provider: string): (r: string)
  {
    "Please add a valid " + DisplayName(provider) + " API key in settings"
  }

  /** The requests of chunk `i`: attempt `k` is answered by `respond(i, k)`. */
  function ChunkPerform(provider: string, respond: (nat, nat) -> ProviderResponse, i: nat): (r: nat -> Result<Transcript>)
  {
    (k: nat) => PerformTranscription(provider, respond(i, k))
  }

  /** What the retry loop does with chunk `i`. */
  function ChunkRetry(provider: string, respond: (nat, nat) -> ProviderResponse, i: nat): (r: ChunkRun)
  {
    RetryFrom(ChunkPerform(provider, respond, i), 0)
  }

  /** The retry loop run on chunk `i`: it agrees with the reference definition. */
  method RunChunkAt(provider: string, respond: (nat, nat) -> ProviderResponse, i: nat)
    returns (outcome: Result<Transcript>, attempts: nat)
    ensures 1 <= attempts <= MaxRetries
    ensures ChunkRetry(provider, respond, i) == ChunkRun(outcome, attempts)
  {
    var o, n, _, _ := RunChunk(ChunkPerform(provider, respond, i));
    outcome, attempts := o, n;
  }

  /** How many chunks `createChunks` yields for a file of `size` bytes. */
  method CountChunks(size: nat) returns (n: nat)
    ensures n == ChunkCount(size)
  {
    var chunks := CreateChunks(size);
    n := |chunks|;
  }

  /** The notices of the chunks that made `attempts[0]`, `attempts[1]`, … requests, chunk by chunk. */
  function ChunkNotices(attempts: seq<nat>): (r: seq<Notifications.Notice>)
    requires forall i :: 0 <= i < |attempts| ==> attempts[i] >= 1
  {
    if |attempts| == 0 then []
    else ChunkNotices(attempts[..|attempts| - 1]) + BusyNotices(attempts[|attempts| - 1] - 1)
  }

  /** The `for await (const chunk of …)` loop over `count` chunks: each chunk runs its retry
      loop in turn, and the first chunk that fails ends the loop with its error. Returns that
      error (or none), the requests made per chunk reached, and the results collected. */
  method RunChunks(provider: string, respond: (nat, nat) -> ProviderResponse, count: nat)
    returns (failure: Option<string>, attempts: seq<nat>, results: seq<Transcript>)
    ensures |attempts| <= count
    ensures forall i :: 0 <= i < |attempts| ==> 1 <= attempts[i] <= MaxRetries && attempts[i] == ChunkRetry(provider, respond, i).attempts
    ensures forall i :: 0 <= i < |results| ==> ChunkRetry(provider, respond, i).outcome == Ok(results[i])
    ensures failure.None? ==> |attempts| == |results| == count
    ensures failure.Some? ==> |attempts| == |results| + 1 && ChunkRetry(provider, respond, |results|).outcome == Err(failure.value)
  {
    attempts, results := [], [];
    var i := 0;
    while i < count
      invariant i <= count && |results| == i && |attempts| == i
      invariant forall j :: 0 <= j < i ==> ChunkRetry(provider, respond, j) == ChunkRun(Ok(results[j]), attempts[j])
      invariant forall j :: 0 <= j < i ==> 1 <= attempts[j] <= MaxRetries
    {
      var outcome, n := RunChunkAt(provider, respond, i);
      attempts := attempts + [n];
      if outcome.Err? {
        return Some(outcome.error), attempts, results;
      }
      results := results + [outcome.value];
      i := i + 1;
    }
    failure := None;
  }

  /** `transcribeAudio`. Returns the result, the number of requests made for each chunk that
      was reached, the chunk results that were collected and the notices posted. */
  method TranscribeAudio(apiKey: Option<string>, isValidated: bool, provider: string, fileSize: nat,
                         respond: (nat, nat) -> ProviderResponse)
    returns (r: Result<Transcript>, attempts: seq<nat>, results: seq<Transcript>, notices: seq<Notifications.Notice>)
    ensures !KeyUsable(apiKey, isValidated) ==> r == Err(MissingKeyMessage(provider)) && attempts == [] && notices == []
    ensures |attempts| <= ChunkCount(fileSize)
    ensures forall i :: 0 <= i < |attempts| ==> 1 <= attempts[i] <= MaxRetries && attempts[i] == ChunkRetry(provider, respond, i).attempts
    ensures forall i :: 0 <= i < |results| ==> ChunkRetry(provider, respond, i).outcome == Ok(results[i])
    ensures r.Ok? ==> KeyUsable(apiKey, isValidated) && |attempts| == |results| == ChunkCount(fileSize) && r.value == Merge(results)
    ensures r.Err? && KeyUsable(apiKey, isValidated)
            ==> |attempts| == |results| + 1 && r == ChunkRetry(provider, respond, |results|).outcome
    ensures notices == ChunkNotices(attempts)
  {
    if !KeyUsable(apiKey, isValidated) {
      return Err(MissingKeyMessage(provider)), [], [], [];
    }
    var count := CountChunks(fileSize);
    var failure;
    failure, attempts, results := RunChunks(provider, respond, count);
    notices := ChunkNotices(attempts);
    if failure.Some? {
      r := Err(failure.value);
    } else {
      r := Ok(Merge(results));
    }
  }
}

/** The records that several parts of the application share: the transcription
    providers, timestamped segments, transcripts and submitted files. */
module Domain {
  import opened Results

  /** The three speech-to-text backends (`ApiProvider` / `ServiceProvider`). */
  datatype Provider = HuggingFace | Groq | OpenAI

  /** The string tag the source uses for a provider. */
  function ProviderTag(p: Provider): string
  {
    match p
    case HuggingFace => "huggingface"
    case Groq => "groq"
    case OpenAI => "openai"
  }

  /** The name shown to people in notifications. */
  function ProviderLabel(p: Provider): string
  {
    match p
    case HuggingFace => "Hugging Face"
    case Groq => "Groq"
    case OpenAI => "OpenAI"
  }

  /** Reading a string tag back into a provider; any other string is not a provider. */
  function ParseProvider(s: string): (r: Option<Provider>)
    ensures r.Some? ==> ProviderTag(r.value) == s
  {
    if s == "huggingface" then Some(HuggingFace)
    else if s == "groq" then Some(Groq)
    else if s == "openai" then Some(OpenAI)
    else None
  }

  /** Every provider's tag parses back to that provider. */
  lemma ProviderTagRoundTrip(p: Provider)
    ensures ParseProvider(ProviderTag(p)) == Some(p)
  {
  }

  /** One `{ time, text }` timestamp entry; `time` is in seconds. */
  datatype Segment = Segment(time: real, text: string)

  /** `{ text, timestamps }`, the provider-independent result of a transcription. */
  datatype Transcript = Transcript(text: string, timestamps: seq<Segment>)

  /** What the model needs of a browser `File`: its name, declared MIME type and byte size. */
  datatype FileInfo = FileInfo(name: string, mimeType: string, size: nat)
}

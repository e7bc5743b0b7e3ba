/**
 * The module-level state of the server and the two endpoints that change it:
 * `stream_chunk` (decode, slide the audio window, transcribe, reconcile) and
 * `switch_provider`. The state is one explicit record shared by all requests.
 */
module StreamServer {
  import opened Wrappers
  import opened Pcm
  import opened SttBase
  import opened Transcript
  import opened SlidingBuffer
  import Factory
  import Whisper

  const ProviderUnavailableMessage := "STT provider not available"

  /** What `stream_chunk` answers. */
  datatype ChunkReply =
    | TranscriptReply(transcript: string)
    | Waiting
    | ChunkError(status: nat, error: string)
  {
    /** The HTTP status code. */
    function Status(): nat {
      match this
      case ChunkError(status, _) => status
      case _ => 200
    }
  }

  /** `{"transcript": new}` for non-empty new text, otherwise `{"status": "waiting"}`. */
  function ReplyFor(newPart: string): (r: ChunkReply)
    ensures r.Status() == 200
    ensures newPart != "" <==> r == TranscriptReply(newPart)
    ensures newPart == "" <==> r == Waiting
  {
    if newPart != "" then TranscriptReply(newPart) else Waiting
  }

  /** An engine that repeats the previous transcript makes the endpoint answer "waiting". */
  lemma RepeatedTranscriptWaits(x: string)
    ensures ReplyFor(NewPart(x, x)) == Waiting
  {
    NewPartOfSame(x);
  }

  /**
   * On a restart the new part is not stripped: any non-empty unrelated
   * transcript, whitespace-only included, is sent as it is, and an empty one
   * (shorter than any non-empty previous transcript) answers "waiting".
   */
  lemma RestartReply(prev: string, current: string)
    requires !IsPrefix(prev, current)
    ensures current != "" ==> ReplyFor(NewPart(prev, current)) == TranscriptReply(current)
    ensures current == "" ==> prev != "" && ReplyFor(NewPart(prev, current)) == Waiting
  {
  }

  /** What `switch_provider` answers. */
  datatype SwitchReply =
    | Switched(message: string, providerType: string, config: Config)
    | SwitchError(status: nat, error: string)

  class Server {
    /** `stt_provider`; `None` when no provider could be set up at start-up. */
    var provider: Option<Factory.Instance>
    /** `stt_provider_type`. */
    var providerType: string
    /** `audio_buffer`. */
    var audioBuffer: seq<Sample>
    /** `prev_transcript`. */
    var prevTranscript: string
    /** Every sample ever appended, in arrival order. */
    ghost var history: seq<Sample>

    /** The buffer is always the most recent `Capacity` samples of the history. */
    ghost predicate Valid()
      reads this
    {
      audioBuffer == LastN(history, Capacity)
    }

    /** The state after start-up: whatever provider start-up produced, an empty buffer and transcript. */
    constructor (provider: Option<Factory.Instance>, providerType: string)
      ensures Valid() && history == []
      ensures this.provider == provider && this.providerType == providerType
      ensures audioBuffer == [] && prevTranscript == ""
    {
      this.provider := provider;
      this.providerType := providerType;
      audioBuffer := [];
      prevTranscript := "";
      history := [];
    }

    /**
     * `stream_chunk(data)` with the provider's `transcribe` as `engine`.
     * Without a provider, or for an odd number of bytes, it answers 500 and
     * touches nothing. Otherwise the decoded samples join the window, which
     * keeps the last `Capacity` samples; the engine sees the whole window;
     * the answer is the reconciled new part; and `prevTranscript` becomes the
     * engine's transcript whatever the answer.
     */
    method StreamChunk(data: seq<Byte>, engine: seq<Sample> -> string) returns (reply: ChunkReply)
      requires Valid()
      modifies this
      ensures Valid()
      ensures provider == old(provider) && providerType == old(providerType)
      ensures |audioBuffer| <= Capacity
      ensures old(provider).None? ==>
        (reply == ChunkError(500, ProviderUnavailableMessage)
         && audioBuffer == old(audioBuffer) && prevTranscript == old(prevTranscript) && history == old(history))
      ensures old(provider).Some? && Decode(data).Failure? ==>
        (reply == ChunkError(500, OddLengthMessage)
         && audioBuffer == old(audioBuffer) && prevTranscript == old(prevTranscript) && history == old(history))
      ensures old(provider).Some? && Decode(data).Success? ==>
        var samples := Decode(data).value;
        && history == old(history) + samples
        && audioBuffer == LastN(old(audioBuffer) + samples, Capacity)
        && prevTranscript == engine(audioBuffer)
        && reply == ReplyFor(NewPart(old(prevTranscript), engine(audioBuffer)))
    {
      if provider.None? {
        return ChunkError(500, ProviderUnavailableMessage);
      }
      var decoded := Decode(data);
      if decoded.Failure? {
        return ChunkError(500, decoded.error);
      }
      var samples := decoded.value;
      WindowOfExtension(history, samples, Capacity);
      audioBuffer := audioBuffer + samples;
      history := history + samples;
      if |audioBuffer| > Capacity {
        audioBuffer := audioBuffer[|audioBuffer| - Capacity..];
      }
      assert audioBuffer == LastN(old(audioBuffer) + samples, Capacity);
      var current := engine(audioBuffer);
      var newPart := NewPart(prevTranscript, current);
      prevTranscript := current;
      if newPart != "" {
        return TranscriptReply(newPart);
      }
      return Waiting;
    }

    /**
     * `switch_provider(name, config)`: an unlisted name answers 400 and a
     * constructor failure 500, both leaving provider and type as they were;
     * on success both are replaced together. The audio state is never touched.
     */
    method SwitchProvider(factory: Factory.SttFactory, name: string, config: Option<Config>,
                          backends: Whisper.Backends) returns (reply: SwitchReply)
      requires factory.Valid()
      modifies this
      ensures audioBuffer == old(audioBuffer) && prevTranscript == old(prevTranscript) && history == old(history)
      ensures name !in factory.GetAvailableProviders() ==>
        (reply == SwitchError(400, "Provider '" + name + "' not available")
         && provider == old(provider) && providerType == old(providerType))
      ensures name in factory.GetAvailableProviders() ==>
        match factory.CreateProvider(name, Some(InitialConfig(config)), backends)
        case Failure(e) =>
          reply == SwitchError(500, e.Message()) && provider == old(provider) && providerType == old(providerType)
        case Success(instance) =>
          && provider == Some(instance) && providerType == name
          && reply == Switched("Switched to " + name + " provider", name, instance.config)
          && instance.config == InitialConfig(config)
    {
      var available := factory.GetAvailableProviders();
      if name !in available {
        return SwitchError(400, "Provider '" + name + "' not available");
      }
      var created := factory.CreateProvider(name, Some(InitialConfig(config)), backends);
      if created.Failure? {
        return SwitchError(500, created.error.Message());
      }
      provider := Some(created.value);
      providerType := name;
      reply := Switched("Switched to " + name + " provider", name, created.value.config);
    }
  }

  /** The two-chunk walk-through: transcripts "hel" and then "hello" are answered with "hel" and then "lo". */
  lemma TwoChunkWalkthrough()
    ensures ReplyFor(NewPart("", "hel")) == TranscriptReply("hel")
    ensures ReplyFor(NewPart("hel", "hello")) == TranscriptReply("lo")
  {
    assert !IsSpace('h') && !IsSpace('l') && !IsSpace('o');
    assert SkipSpace("hel", 0) == 0 && SkipSpaceBack("hel", 0, 3) == 3;
    assert Strip("hel") == "hel";
    assert IsPrefix("hel", "hello") && "hello"[3..] == "lo";
    assert SkipSpace("lo", 0) == 0 && SkipSpaceBack("lo", 0, 2) == 2;
    assert Strip("lo") == "lo";
  }
}

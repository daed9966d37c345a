/**
 * The chat endpoint of the backend: the voice lookup, the shape of a synthesised clip's
 * locator, and the generator that writes one serialised record per sentence.
 */
module Backend {
  import opened Wrappers
  import opened JsonRecord
  import opened Framing

  /** The four voice ids the widget offers, each mapped to a fixed synthesiser voice. */
  const VoiceMap: map<string, string> := map[
    "en-US-Standard-A" := "af_bella",
    "en-US-Standard-B" := "am_michael",
    "en-GB-Standard-A" := "bf_isabella",
    "en-GB-Standard-B" := "bm_george"
  ]

  /** The voice a chat request gets when it names none. */
  const DefaultVoice: string := "af_nicole+af_bella"

  /** The model a chat request gets when it names none. */
  const DefaultModel: string := "phi4:latest"

  /** Every clip locator is a data URL of base64-encoded MP3. */
  const AudioUrlPrefix: string := "data:audio/mp3;base64,"

  /** The body of a chat request; absent fields take the defaults above. */
  datatype ChatRequest = ChatRequest(message: string, voice: string, model: string)

  /** Why synthesis raised: the voice id is not a key of the map, or the synthesiser failed. */
  datatype SpeechError = UnknownVoice(voice: string) | SynthesisFailed

  /**
   * The synthesiser voice for a request's voice id: the lookup raises (here: None) for
   * anything but the four keys.
   */
  function LookupVoice(voice: string): (r: Option<string>)
    ensures r.Some? <==> voice in VoiceMap
    ensures r.Some? ==> r.value == VoiceMap[voice]
  {
    if voice in VoiceMap then Some(VoiceMap[voice]) else None
  }

  /**
   * `text_to_speech`: the synthesiser itself is the parameter `synthesise`, which gets the
   * text and the mapped voice and yields the base64 text of the MP3 or fails.
   */
  function TextToSpeech(text: string, voice: string, synthesise: (string, string) -> Option<string>)
    : (r: Result<string, SpeechError>)
    ensures voice !in VoiceMap ==> r == Failure(UnknownVoice(voice))
    ensures r.Success? ==> StartsWith(r.value, AudioUrlPrefix)
    ensures r.Success? <==> voice in VoiceMap && synthesise(text, VoiceMap[voice]).Some?
    ensures voice in VoiceMap && synthesise(text, VoiceMap[voice]).None? ==> r == Failure(SynthesisFailed)
  {
    match LookupVoice(voice)
    case None => Failure(UnknownVoice(voice))
    case Some(backendVoice) =>
      match synthesise(text, backendVoice)
      case None => Failure(SynthesisFailed)
      case Some(base64) => Success(AudioUrlPrefix + base64)
  }

  /**
   * What `generate_responses` yields: the records written before the generator stopped, and
   * whether it stopped by raising (which aborts the HTTP stream).
   */
  datatype Emission = Emission(records: seq<StreamRecord>, aborted: bool)

  /** `generate_responses`: one record per sentence, in order, until synthesis raises. */
  function GenerateResponses(sentences: seq<string>, voice: string, synthesise: (string, string) -> Option<string>)
    : (e: Emission)
    ensures |e.records| <= |sentences|
    ensures forall i :: 0 <= i < |e.records| ==>
      e.records[i].sentence == sentences[i] && StartsWith(e.records[i].audioUrl, AudioUrlPrefix)
    ensures forall i :: 0 <= i < |e.records| ==>
      TextToSpeech(sentences[i], voice, synthesise) == Success(e.records[i].audioUrl)
    ensures !e.aborted <==> |e.records| == |sentences|
    ensures e.aborted ==> TextToSpeech(sentences[|e.records|], voice, synthesise).Failure?
    ensures voice !in VoiceMap && sentences != [] ==> e == Emission([], true)
    decreases |sentences|
  {
    if sentences == [] then Emission([], false)
    else
      match TextToSpeech(sentences[0], voice, synthesise)
      case Failure(_) => Emission([], true)
      case Success(url) =>
        var rest := GenerateResponses(sentences[1..], voice, synthesise);
        Emission([StreamRecord(sentences[0], url)] + rest.records, rest.aborted)
  }

  /** The serialised records, one JSON object per line, without their line feeds. */
  function EncodedLines(records: seq<StreamRecord>): (lines: seq<string>)
    ensures |lines| == |records|
    ensures forall i {:trigger lines[i]} :: 0 <= i < |records| ==> lines[i] == EncodeRecord(records[i])
    ensures NoNewlines(lines)
  {
    if records == [] then []
    else [EncodeRecord(records[0])] + EncodedLines(records[1..])
  }

  /**
   * With a mapped voice and a synthesiser that succeeds on every sentence, the stream is not
   * aborted and record i is sentence i with its clip.
   */
  lemma WorkingSynthesiserWritesEverySentence(sentences: seq<string>, voice: string,
                                               synthesise: (string, string) -> Option<string>)
    requires voice in VoiceMap
    requires forall i :: 0 <= i < |sentences| ==> synthesise(sentences[i], VoiceMap[voice]).Some?
    ensures var e := GenerateResponses(sentences, voice, synthesise);
            && !e.aborted && |e.records| == |sentences|
            && forall i :: 0 <= i < |sentences| ==>
                 e.records[i] == StreamRecord(sentences[i], AudioUrlPrefix + synthesise(sentences[i], VoiceMap[voice]).value)
  {
  }

  /** The body of the streamed response: every yielded chunk, each record followed by one line feed. */
  function StreamBody(e: Emission): string
  {
    Terminated(EncodedLines(e.records))
  }

  /** A request that omits the voice gets the default, which is not a key: the stream aborts empty. */
  lemma OmittedVoiceAbortsStream(message: string, sentences: seq<string>, synthesise: (string, string) -> Option<string>)
    requires sentences != []
    ensures GenerateResponses(sentences, ChatRequest(message, DefaultVoice, DefaultModel).voice, synthesise)
         == Emission([], true)
  {
  }

  /** The reply of the speech-to-text endpoint: an object whose only key is `text`. */
  datatype TranscriptReply = TranscriptReply(text: string)
}

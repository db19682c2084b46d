/** The client side of the remote speech service: credit estimates, the
    key-validation rule, the error messages built from failed replies,
    the sound-effect fan-out and the encoding of returned audio. Replies
    from the network are inputs. */
module Api {
  import opened Wrappers
  import Json
  import Base64
  import Seqs

  /** A voice of the service's catalogue. */
  datatype Voice = Voice(voiceId: string, name: string, category: string, description: string, previewUrl: string)

  /** The first voice in the list with the given id: `voices.find(v => v.voice_id === voiceId)`. */
  function FindVoice(voices: seq<Voice>, voiceId: string): (r: Option<Voice>)
    ensures r.Some? ==> r.value in voices && r.value.voiceId == voiceId
    ensures r.Some? ==> exists i :: (0 <= i < |voices| && voices[i] == r.value
                                    && forall j :: 0 <= j < i ==> voices[j].voiceId != voiceId)
    ensures r.None? <==> forall i :: 0 <= i < |voices| ==> voices[i].voiceId != voiceId
  {
    if voices == [] then None
    else if voices[0].voiceId == voiceId then Some(voices[0])
    else FindVoice(voices[1..], voiceId)
  }

  // ---------------------------------------------------------------------
  // Credit estimates (durations and amounts as exact reals)

  /** `Math.ceil` as `-floor(-x)`. */
  function Ceil(x: real): (r: int)
    ensures x <= r as real < x + 1.0
  {
    -((-x).Floor)
  }

  lemma CeilOfInt(n: int)
    ensures Ceil(n as real) == n
  {
  }

  lemma CeilMonotone(x: real, y: real)
    requires x <= y
    ensures Ceil(x) <= Ceil(y)
  {
  }

  /** `calculateTextToSpeechCost`: one credit per code unit, rounded up
      to hundredths, which gives the length back. */
  function TextToSpeechCost(text: string): (r: real)
    ensures r == |text| as real
  {
    var charactersPerCredit := 1.0;
    CeilOfInt(|text| * 100);
    (Ceil((|text| as real / charactersPerCredit) * 100.0) as real) / 100.0
  }

  /** `calculateSpeechToSpeechCost`: 1000 credits a minute, rounded up. */
  function SpeechToSpeechCost(seconds: real): (r: int)
    ensures seconds * 1000.0 / 60.0 <= r as real < seconds * 1000.0 / 60.0 + 1.0
  {
    var charactersPerMinute := 1000.0;
    Ceil(seconds / 60.0 * charactersPerMinute)
  }

  /** `calculateVoiceIsolationCost`, a separate copy of the same rule. */
  function VoiceIsolationCost(seconds: real): (r: int)
    ensures seconds * 1000.0 / 60.0 <= r as real < seconds * 1000.0 / 60.0 + 1.0
  {
    var charactersPerMinute := 1000.0;
    Ceil(seconds / 60.0 * charactersPerMinute)
  }

  /** The two duration rules agree everywhere; the methods of the
      `elevenlabsApi` object use the same rule. */
  lemma VoiceIsolationIsSpeechToSpeech(seconds: real)
    ensures VoiceIsolationCost(seconds) == SpeechToSpeechCost(seconds)
  {
  }

  lemma SpeechToSpeechCostValues()
    ensures SpeechToSpeechCost(0.0) == 0
    ensures SpeechToSpeechCost(60.0) == 1000
    ensures SpeechToSpeechCost(3.0) == 50
  {
    CeilOfInt(0);
    CeilOfInt(1000);
    CeilOfInt(50);
  }

  /** A longer recording never costs less. */
  lemma SpeechToSpeechCostMonotone(a: real, b: real)
    requires a <= b
    ensures SpeechToSpeechCost(a) <= SpeechToSpeechCost(b)
  {
    CeilMonotone(a / 60.0 * 1000.0, b / 60.0 * 1000.0);
  }

  /** `elevenlabsApi.calculateSoundFXCost`: 100 credits per variation in
      automatic-duration mode (duration 0), otherwise 20 credits a second
      per variation, rounded up. The prompt text plays no part. */
  function SoundFXCost(text: string, duration: real, variationCount: int): (r: int)
    ensures duration == 0.0 ==> r == 100 * variationCount
    ensures duration != 0.0 ==> 20.0 * duration * variationCount as real <= r as real < 20.0 * duration * variationCount as real + 1.0
  {
    var costPerVariation := if duration == 0.0 then 100.0 else 20.0 * duration;
    var totalCost := costPerVariation * variationCount as real;
    CeilOfInt(100 * variationCount);
    Ceil(totalCost)
  }

  lemma SoundFXCostIgnoresText(a: string, b: string, duration: real, variationCount: int)
    ensures SoundFXCost(a, duration, variationCount) == SoundFXCost(b, duration, variationCount)
  {
  }

  // ---------------------------------------------------------------------
  // Key validation

  /** What a `fetch` gives: a rejection (network failure) or a status. */
  datatype FetchOutcome = NetworkFailure | Answered(status: int)

  /** `validateApiKey`: 401 and 403 (sections 15.5.2 and 15.5.4 of
      RFC 9110) and a network failure mean the key is not usable; any
      other status, server errors included, counts as valid. */
  function ValidateApiKey(outcome: FetchOutcome): (valid: bool)
    ensures valid <==> outcome.Answered? && outcome.status != 401 && outcome.status != 403
  {
    match outcome
    case NetworkFailure => false
    case Answered(status) => if status == 401 || status == 403 then false else true
  }

  // ---------------------------------------------------------------------
  // Error messages

  /** An error a call ends with: an `Error` with a message, or the
      `TypeError` of reading a property of `null`. */
  datatype ApiError = Error(message: string) | TypeError

  /** `errorData?.detail?.message`; `None` for `undefined`. */
  function DetailMessage(errorData: Json.Json): Option<Json.Json> {
    match Json.Member(errorData, "detail")
    case None => None
    case Some(detail) => Json.Member(detail, "message")
  }

  /** The message `getVoices` throws for a failed reply. `errorData` is
      the parsed body, `None` when reading it failed and `{}` was used. */
  function VoicesErrorMessage(errorData: Option<Json.Json>): (m: string)
    ensures errorData.None? ==> m == "Failed to fetch voices"
    ensures errorData.Some? && DetailMessage(errorData.value).Some? && Json.Truthy(DetailMessage(errorData.value).value)
      ==> m == Json.ToJsString(DetailMessage(errorData.value).value)
    ensures errorData.Some? && !(DetailMessage(errorData.value).Some? && Json.Truthy(DetailMessage(errorData.value).value))
      ==> m == "Failed to fetch voices"
  {
    if errorData.Some? && DetailMessage(errorData.value).Some? && Json.Truthy(DetailMessage(errorData.value).value)
    then Json.ToJsString(DetailMessage(errorData.value).value)
    else "Failed to fetch voices"
  }

  /** The message `convertAudio` throws for a failed reply: a non-empty
      `detail.message`, else a string `detail` (even an empty one), else
      the default; a body that does not parse keeps the default. */
  function ConvertErrorMessage(errorData: Option<Json.Json>): (m: string)
    ensures errorData.None? ==> m == "Failed to convert audio"
    ensures errorData.Some? && DetailMessage(errorData.value).Some? && Json.Truthy(DetailMessage(errorData.value).value)
      ==> m == Json.ToJsString(DetailMessage(errorData.value).value)
    ensures errorData.Some? && !(DetailMessage(errorData.value).Some? && Json.Truthy(DetailMessage(errorData.value).value))
      && Json.Member(errorData.value, "detail").Some? && Json.Member(errorData.value, "detail").value.JStr?
      ==> m == Json.Member(errorData.value, "detail").value.s
    ensures errorData.Some? && !(DetailMessage(errorData.value).Some? && Json.Truthy(DetailMessage(errorData.value).value))
      && !(Json.Member(errorData.value, "detail").Some? && Json.Member(errorData.value, "detail").value.JStr?)
      ==> m == "Failed to convert audio"
  {
    if errorData.None? then "Failed to convert audio"
    else
      var message := DetailMessage(errorData.value);
      if message.Some? && Json.Truthy(message.value) then Json.ToJsString(message.value)
      else
        var detail := Json.Member(errorData.value, "detail");
        if detail.Some? && detail.value.JStr? then detail.value.s else "Failed to convert audio"
  }

  /** The two chains differ on a plain string `detail`: `convertAudio`
      reports it, `getVoices` falls back to its default. Both report a
      non-empty `detail.message`. */
  lemma ErrorChainsCompared(errorData: Json.Json, detail: string)
    ensures var body := Json.JObj([Json.Field("detail", Json.JStr(detail))]);
      ConvertErrorMessage(Some(body)) == detail &&
      VoicesErrorMessage(Some(body)) == "Failed to fetch voices"
    ensures forall message: string :: message != "" ==>
      var body := Json.JObj([Json.Field("detail", Json.JObj([Json.Field("message", Json.JStr(message))]))]);
      ConvertErrorMessage(Some(body)) == message && VoicesErrorMessage(Some(body)) == message
  {
  }

  /** A reply body as axios delivers it with `responseType: 'arraybuffer'`
      (`Buffer`), or any other JavaScript value the code inspects. */
  datatype ReplyData = Buffer(bytes: seq<Base64.byte>) | Value(json: Json.Json)

  datatype Reply = Reply(status: int, statusText: string, data: ReplyData)

  /** What an axios request gives: a reply, or a rejection with the
      error's message and, for an HTTP error, the reply. */
  datatype AxiosOutcome = Resolved(reply: Reply) | Rejected(message: string, response: Option<Reply>)

  /** `typeof data === 'object' && data.detail ? data.detail : error.message`
      behind a prefix; a `null` body makes the property read throw. */
  function ReplyErrorMessage(prefix: string, errorMessage: string, data: ReplyData): (e: ApiError)
    ensures e == TypeError <==> data == Value(Json.JNull)
    ensures data.Buffer? ==> e == Error(prefix + ": " + errorMessage)
    ensures data.Value? && (data.json.JArr? || data.json.JObj?)
      && Json.Member(data.json, "detail").Some? && Json.Truthy(Json.Member(data.json, "detail").value)
      ==> e == Error(prefix + ": " + Json.ToJsString(Json.Member(data.json, "detail").value))
    ensures data.Value? && !data.json.JNull?
      && !((data.json.JArr? || data.json.JObj?) && Json.Member(data.json, "detail").Some? && Json.Truthy(Json.Member(data.json, "detail").value))
      ==> e == Error(prefix + ": " + errorMessage)
  {
    match data
    case Buffer(_) => Error(prefix + ": " + errorMessage)
    case Value(j) =>
      if j.JNull? then TypeError
      else if (j.JArr? || j.JObj?) && Json.Member(j, "detail").Some? && Json.Truthy(Json.Member(j, "detail").value)
      then Error(prefix + ": " + Json.ToJsString(Json.Member(j, "detail").value))
      else Error(prefix + ": " + errorMessage)
  }

  datatype IsolatedAudio = IsolatedAudio(audio: ReplyData, mimeType: string)

  /** `isolateVoice`: a reply other than 200 is turned into an error, an
      HTTP error reports the reply's `detail`, and an error without a
      reply is passed on unchanged. */
  function IsolateVoice(outcome: AxiosOutcome): (r: Result<IsolatedAudio, ApiError>)
    ensures r.Success? <==> outcome.Resolved? && outcome.reply.status == 200
    ensures r.Success? ==> r.value == IsolatedAudio(outcome.reply.data, "audio/mpeg")
    ensures outcome.Resolved? && outcome.reply.status != 200 ==> r == Failure(Error("Failed to isolate voice: " + outcome.reply.statusText))
    ensures outcome.Rejected? && outcome.response.None? ==> r == Failure(Error(outcome.message))
    ensures outcome.Rejected? && outcome.response.Some? ==>
      r == Failure(ReplyErrorMessage("Failed to isolate voice", outcome.message, outcome.response.value.data))
  {
    match outcome
    case Resolved(reply) =>
      if reply.status != 200 then Failure(Error("Failed to isolate voice: " + reply.statusText))
      else Success(IsolatedAudio(reply.data, "audio/mpeg"))
    case Rejected(message, response) =>
      if response.Some? then Failure(ReplyErrorMessage("Failed to isolate voice", message, response.value.data))
      else Failure(Error(message))
  }

  // ---------------------------------------------------------------------
  // Sound effects

  datatype SoundFXParams = SoundFXParams(text: string, modelId: Option<string>, outputFormat: Option<string>, numVariations: Option<int>)

  /** The body of one sound-generation request. */
  datatype SoundRequest = SoundRequest(text: string, modelId: string, outputFormat: string)

  datatype Variation = Variation(audio: seq<Base64.byte>, mimeType: string)

  /** `x || default` for an optional string. */
  function OrDefault(x: Option<string>, default: string): string {
    if x.Some? && x.value != "" then x.value else default
  }

  /** `num_variations || 4`: a missing or zero count means four. */
  function NumVariations(p: SoundFXParams): (n: int)
    ensures p.numVariations.None? || p.numVariations.value == 0 ==> n == 4
    ensures p.numVariations.Some? && p.numVariations.value != 0 ==> n == p.numVariations.value
  {
    if p.numVariations.Some? && p.numVariations.value != 0 then p.numVariations.value else 4
  }

  /** How many requests the `for` loop issues: none for a negative count. */
  function RequestCount(p: SoundFXParams): nat {
    if NumVariations(p) < 0 then 0 else NumVariations(p)
  }

  /** The request every iteration sends: model and output format each
      fall back to their own default. */
  function SoundRequestOf(p: SoundFXParams): SoundRequest {
    SoundRequest(p.text,
      OrDefault(p.modelId, "eleven_creative_studio_sound_effects"),
      OrDefault(p.outputFormat, "mp3_44100_128"))
  }

  predicate IsAudioReply(r: Reply) {
    r.data.Buffer?
  }

  function AudioVariation(r: Reply): Variation
    requires IsAudioReply(r)
  {
    Variation(r.data.bytes, "audio/mpeg")
  }

  /** What the second loop collects from the replies in order. */
  function VariationsOf(rs: seq<Reply>): seq<Variation> {
    if rs == [] then []
    else
      var last := rs[|rs| - 1];
      VariationsOf(rs[..|rs| - 1]) + (if IsAudioReply(last) then [AudioVariation(last)] else [])
  }

  /** Every reply is audio. */
  function AllAudio(rs: seq<Reply>): seq<Variation>
    requires forall i :: 0 <= i < |rs| ==> IsAudioReply(rs[i])
  {
    seq(|rs|, i requires 0 <= i < |rs| => AudioVariation(rs[i]))
  }

  lemma KeptAreAudio(rs: seq<Reply>)
    ensures forall i :: 0 <= i < |Seqs.Filter(IsAudioReply, rs)| ==> IsAudioReply(Seqs.Filter(IsAudioReply, rs)[i])
  {
    var kept := Seqs.Filter(IsAudioReply, rs);
    assert forall i :: 0 <= i < |kept| ==> kept[i] in kept;
  }

  lemma AllAudioAppend(a: seq<Reply>, b: seq<Reply>)
    requires forall i :: 0 <= i < |a| ==> IsAudioReply(a[i])
    requires forall i :: 0 <= i < |b| ==> IsAudioReply(b[i])
    ensures forall i :: 0 <= i < |a + b| ==> IsAudioReply((a + b)[i])
    ensures AllAudio(a + b) == AllAudio(a) + AllAudio(b)
  {
  }

  /** The variations are exactly the audio replies, in the order the
      requests were issued. */
  lemma {:induction false} VariationsAreAudioReplies(rs: seq<Reply>)
    ensures var kept := Seqs.Filter(IsAudioReply, rs);
      (forall i :: 0 <= i < |kept| ==> IsAudioReply(kept[i])) && VariationsOf(rs) == AllAudio(kept)
  {
    KeptAreAudio(rs);
    if rs != [] {
      var init, last := rs[..|rs| - 1], rs[|rs| - 1];
      assert rs == init + [last];
      Seqs.FilterAppend(IsAudioReply, init, [last]);
      VariationsAreAudioReplies(init);
      var tail := Seqs.Filter(IsAudioReply, [last]);
      assert tail == if IsAudioReply(last) then [last] else [] by {
        assert [last][1..] == [];
      }
      AllAudioAppend(Seqs.Filter(IsAudioReply, init), tail);
    }
  }

  /** The error the `catch` of `generateSoundFX` raises for a rejection. */
  function SoundFXRejection(outcome: AxiosOutcome): ApiError
    requires outcome.Rejected?
  {
    if outcome.response.Some? then ReplyErrorMessage("Failed to generate sound effect", outcome.message, outcome.response.value.data)
    else Error("Failed to generate sound effect")
  }

  predicate AnyRejected(replies: seq<AxiosOutcome>) {
    exists i :: 0 <= i < |replies| && replies[i].Rejected?
  }

  /** `generateSoundFX`, given the outcome of each issued request in
      issue order. `Promise.all` fails as soon as any request fails; which
      failure it reports depends on timing, so the contract names one of
      them. */
  method GenerateSoundFX(params: SoundFXParams, replies: seq<AxiosOutcome>)
    returns (requests: seq<SoundRequest>, r: Result<seq<Variation>, ApiError>)
    requires |replies| == RequestCount(params)
    ensures |requests| == RequestCount(params)
    ensures forall i :: 0 <= i < |requests| ==> requests[i] == SoundRequestOf(params)
    ensures AnyRejected(replies) ==>
      exists i :: 0 <= i < |replies| && replies[i].Rejected? && r == Failure(SoundFXRejection(replies[i]))
    ensures !AnyRejected(replies) ==>
      var responses := seq(|replies|, i requires 0 <= i < |replies| && replies[i].Resolved? => replies[i].reply);
      r == if VariationsOf(responses) == [] then Failure(Error("Failed to generate sound effect")) else Success(VariationsOf(responses))
  {
    var numVariations := NumVariations(params);
    requests := [];
    var i := 0;
    while i < numVariations
      invariant 0 <= i <= RequestCount(params)
      invariant |requests| == i
      invariant forall k :: 0 <= k < i ==> requests[k] == SoundRequestOf(params)
    {
      requests := requests + [SoundRequestOf(params)];
      i := i + 1;
    }
    if AnyRejected(replies) {
      var k :| 0 <= k < |replies| && replies[k].Rejected?;
      return requests, Failure(SoundFXRejection(replies[k]));
    }
    var responses := seq(|replies|, i requires 0 <= i < |replies| && replies[i].Resolved? => replies[i].reply);
    var variations: seq<Variation> := [];
    for j := 0 to |responses|
      invariant variations == VariationsOf(responses[..j])
    {
      assert responses[..j + 1][..j] == responses[..j];
      var response := responses[j];
      if !IsAudioReply(response) {
        continue;
      }
      variations := variations + [AudioVariation(response)];
    }
    assert responses[..|responses|] == responses;
    if variations == [] {
      return requests, Failure(Error("Failed to generate sound effect"));
    }
    return requests, Success(variations);
  }

  // ---------------------------------------------------------------------
  // Text to speech

  /** The request `textToSpeech` sends: the text, the voice and fixed
      model and voice settings. */
  datatype TtsRequest = TtsRequest(voiceId: string, text: string, modelId: string, stability: real, similarityBoost: real)

  function TextToSpeechRequest(text: string, voiceId: string): (q: TtsRequest)
    ensures q.text == text && q.voiceId == voiceId
    ensures q.modelId == "eleven_multilingual_v2" && q.stability == 0.5 && q.similarityBoost == 0.75
  {
    TtsRequest(voiceId, text, "eleven_multilingual_v2", 0.5, 0.75)
  }

  /** The binary string the loop builds from the reply's bytes: one code
      unit per byte, with that byte as its value. */
  method BinaryString(uint8Array: array<Base64.byte>) returns (binary: string)
    ensures binary == Base64.Latin1(uint8Array[..])
    ensures |binary| == uint8Array.Length
    ensures forall i :: 0 <= i < uint8Array.Length ==> binary[i] as int == uint8Array[i]
  {
    binary := "";
    for i := 0 to uint8Array.Length
      invariant binary == Base64.Latin1(uint8Array[..i])
    {
      assert Base64.Latin1(uint8Array[..i + 1]) == Base64.Latin1(uint8Array[..i]) + [uint8Array[i] as char];
      binary := binary + [uint8Array[i] as char];
    }
    assert uint8Array[..uint8Array.Length] == uint8Array[..];
  }

  /** The audio `textToSpeech` returns: `btoa` of the binary string, which
      is the base64 form (section 4 of RFC 4648) of the reply's bytes. */
  method TextToSpeechAudio(uint8Array: array<Base64.byte>) returns (audio: string)
    ensures audio == Base64.Encode(uint8Array[..])
    ensures Base64.Decode(audio) == Some(uint8Array[..])
  {
    var binary := BinaryString(uint8Array);
    Base64.BtoaLatin1(uint8Array[..]);
    var encoded := Base64.Btoa(binary);
    audio := encoded.value;
    Base64.DecodeEncode(uint8Array[..]);
  }
}

/** The speech-to-speech page: the source audio (uploaded or recorded),
    the selected voice, the converted audio and the input mode kept in
    local storage, and the convert action; and its recorder. */
module SpeechToSpeechPage {
  import opened Wrappers
  import Storage
  import Api
  import History
  import Base64

  const AudioFileKey := "speech2speech_audio_file"
  const SelectedVoiceKey := "speech2speech_selected_voice"
  const ConvertedAudioKey := "speech2speech_converted_audio"
  const InputModeKey := "speech2speech_input_mode"

  datatype InputMode = Upload | Record

  function ModeName(m: InputMode): string {
    match m
    case Upload => "upload"
    case Record => "record"
  }

  /** `loadInputModeFromStorage()`: recording only for exactly `record`. */
  function LoadInputMode(store: Storage.Store): (r: InputMode)
    ensures r == Record <==> Storage.GetItem(store, InputModeKey) == Some("record")
  {
    if Storage.LoadFromStorage(store, InputModeKey, "upload") == "record" then Record else Upload
  }

  /** A saved mode is the mode restored. */
  lemma InputModeRoundTrip(store: Storage.Store, m: InputMode)
    ensures LoadInputMode(store[InputModeKey := ModeName(m)]) == m
  {
  }

  /** The store after `saveConvertedAudioToStorage(audio)`: `null` and the
      empty string remove the key, any other text is kept verbatim. */
  function SaveConverted(store: Storage.Store, audio: Option<string>): Storage.Store {
    if audio.Some? && audio.value != "" then store[ConvertedAudioKey := audio.value] else store - {ConvertedAudioKey}
  }

  /** What is saved is what `loadConvertedAudioFromStorage()` gives back,
      the empty string as `null`; no other key changes. */
  lemma ConvertedRoundTrip(store: Storage.Store, audio: Option<string>)
    ensures Storage.LoadOrNull(SaveConverted(store, audio), ConvertedAudioKey) == if audio == Some("") then None else audio
    ensures forall k :: k != ConvertedAudioKey ==> Storage.GetItem(SaveConverted(store, audio), k) == Storage.GetItem(store, k)
  {
  }

  /** `audioFile.name || 'Recorded audio'`. */
  function InputLabel(name: string): (r: string)
    ensures r != ""
    ensures name != "" ==> r == name
    ensures name == "" ==> r == "Recorded audio"
  {
    if name != "" then name else "Recorded audio"
  }

  /** `!apiKey || !selectedVoice || !audioFile` fails. */
  predicate MayConvert(apiKey: string, voiceId: string, audioFile: Option<Storage.File>) {
    apiKey != "" && voiceId != "" && audioFile.Some?
  }

  /** The arguments the page passes to `elevenlabsApi.speechToSpeech`. */
  datatype ConvertCall = ConvertCall(apiKey: string, file: Storage.File, voiceId: string, stability: real, similarityBoost: real)

  /** The history entry of a conversion. The page also passes a
      `timestamp`, which `addToHistory` overrides. */
  function Entry(file: Storage.File, voice: Api.Voice, audioUrl: string): History.Generation {
    History.Generation(History.SpeechToSpeech, InputLabel(file.name), Some(voice.name), audioUrl, None, None, None)
  }

  // ---------------------------------------------------------------------
  // The recorder's stop handler

  /** The file made from a converted recording. */
  function RecordingFile(wav: seq<Base64.byte>): Storage.File {
    Storage.File("recording.wav", "audio/wav", wav)
  }

  /** What the stop handler does: the value it hands to `onAudioReady`
      (`None` when it is not called, `Some(None)` for `null`) and whether
      it stops the microphone tracks and drops the stream. */
  datatype StopResult = StopResult(ready: Option<Option<Storage.File>>, released: bool)

  function TotalSize(chunks: seq<seq<Base64.byte>>): nat {
    if chunks == [] then 0 else TotalSize(chunks[..|chunks| - 1]) + |chunks[|chunks| - 1]|
  }

  /** The handler as written: when the WAV conversion rejects (`wav` is
      `None`), the `await` throws before the tracks are stopped. */
  function StopAsWritten(blobSize: nat, wav: Option<seq<Base64.byte>>): StopResult {
    if blobSize > 0 then
      if wav.None? then StopResult(None, false)
      else StopResult(Some(Some(RecordingFile(wav.value))), true)
    else StopResult(Some(None), true)
  }

  /** A recording whose conversion fails leaves the microphone captured. */
  lemma StopAsWrittenKeepsStream()
    ensures !StopAsWritten(1, None).released
  {
  }

  /** The handler with the release on every path. */
  function Stop(blobSize: nat, wav: Option<seq<Base64.byte>>): (r: StopResult)
    ensures r.released
    ensures r.ready == StopAsWritten(blobSize, wav).ready
  {
    StopResult(StopAsWritten(blobSize, wav).ready, true)
  }

  /** A non-empty recording that converts becomes `recording.wav` of type
      `audio/wav`; an empty one is reported as `null`; the stream is
      released either way. */
  lemma StopOutcomes(blobSize: nat, wav: Option<seq<Base64.byte>>)
    ensures blobSize > 0 && wav.Some? ==>
      Stop(blobSize, wav) == StopResult(Some(Some(Storage.File("recording.wav", "audio/wav", wav.value))), true)
    ensures blobSize == 0 ==> Stop(blobSize, wav) == StopResult(Some(None), true)
    ensures blobSize > 0 && wav.None? ==> Stop(blobSize, wav) == StopResult(None, true)
  {
  }

  /** `Stop` releases on every path and otherwise agrees with the handler
      as written. */
  lemma StopAlwaysReleases(blobSize: nat, wav: Option<seq<Base64.byte>>)
    ensures Stop(blobSize, wav).released
    ensures Stop(blobSize, wav).ready == StopAsWritten(blobSize, wav).ready
    ensures StopAsWritten(blobSize, wav).released ==> Stop(blobSize, wav) == StopAsWritten(blobSize, wav)
  {
  }

  /** Only non-empty chunks are collected, so the recording is empty
      exactly when no chunk arrived. */
  lemma {:induction false} TotalSizeZero(chunks: seq<seq<Base64.byte>>)
    requires forall i :: 0 <= i < |chunks| ==> |chunks[i]| > 0
    ensures TotalSize(chunks) == 0 <==> chunks == []
  {
    if chunks != [] {
      assert |chunks[|chunks| - 1]| > 0;
    }
  }

  class AudioRecorder {
    var recording: bool
    var audioUrl: Option<string>
    var chunks: seq<seq<Base64.byte>>
    /** `streamRef.current` holds a live microphone stream. */
    var streamHeld: bool
    /** A `MediaRecorder` was created. */
    var hasRecorder: bool

    constructor (initialAudioUrl: Option<string>)
      ensures !recording && chunks == [] && !streamHeld && !hasRecorder
      ensures audioUrl == if initialAudioUrl == Some("") then None else initialAudioUrl
    {
      recording, chunks, streamHeld, hasRecorder := false, [], false, false;
      audioUrl := if initialAudioUrl == Some("") then None else initialAudioUrl;
    }

    /** `startRecording()` with the microphone permission as input. */
    method StartRecording(granted: bool)
      modifies this
      ensures audioUrl.None? && chunks == []
      ensures recording == granted && hasRecorder == (granted || old(hasRecorder))
      ensures streamHeld == (granted || old(streamHeld))
    {
      audioUrl := None;
      chunks := [];
      if granted {
        streamHeld := true;
        hasRecorder := true;
        recording := true;
      } else {
        recording := false;
      }
    }

    /** `ondataavailable`: empty chunks are dropped. */
    method OnDataAvailable(data: seq<Base64.byte>)
      modifies this
      ensures chunks == if |data| > 0 then old(chunks) + [data] else old(chunks)
      ensures recording == old(recording) && streamHeld == old(streamHeld) && audioUrl == old(audioUrl)
    {
      if |data| > 0 {
        chunks := chunks + [data];
      }
    }

    /** `stopRecording()`: returns whether the recorder was told to stop,
        after which its stop handler runs. */
    method StopRecording() returns (stopped: bool)
      modifies this
      ensures stopped == (old(hasRecorder) && old(recording))
      ensures recording == (old(recording) && !stopped)
      ensures chunks == old(chunks) && streamHeld == old(streamHeld) && audioUrl == old(audioUrl)
    {
      stopped := hasRecorder && recording;
      if stopped {
        recording := false;
      }
    }

    /** The stop handler, with the WAV conversion's result and the object
        URL passed in, releasing the stream on every path. */
    method OnStop(wav: Option<seq<Base64.byte>>, objectUrl: string) returns (ready: Option<Option<Storage.File>>)
      modifies this
      ensures ready == Stop(TotalSize(old(chunks)), wav).ready
      ensures !streamHeld
      ensures audioUrl == if TotalSize(old(chunks)) > 0 then (if wav.Some? then Some(objectUrl) else old(audioUrl)) else None
      ensures chunks == old(chunks) && recording == old(recording)
    {
      var blobSize := TotalSize(chunks);
      if blobSize > 0 {
        if wav.Some? {
          audioUrl := Some(objectUrl);
          ready := Some(Some(RecordingFile(wav.value)));
        } else {
          ready := None;
        }
      } else {
        audioUrl := None;
        ready := Some(None);
      }
      streamHeld := false;
    }

    /** The recorder's clear button: hands `null` to the page. */
    method ClearAudio() returns (ready: Option<Option<Storage.File>>)
      modifies this
      ensures audioUrl.None? && !recording && ready == Some(None)
      ensures chunks == old(chunks) && streamHeld == old(streamHeld)
    {
      audioUrl := None;
      recording := false;
      ready := Some(None);
    }
  }

  // ---------------------------------------------------------------------
  // The page

  class SpeechToSpeechPage {
    const apiKey: string
    var voices: seq<Api.Voice>
    var voicesLoaded: bool
    var isLoading: bool
    var isGenerating: bool
    var stability: real
    var similarityBoost: real
    var audioFile: Option<Storage.File>
    var selectedVoice: string
    var convertedAudio: Option<string>
    var inputMode: InputMode
    var lastAudioUrl: Option<string>
    var audioDuration: Option<real>
    var estimatedCost: Option<int>
    const storage: Storage.LocalStorage
    const history: History.HistoryStore

    /** The first render: file, voice, converted audio and mode come from
        storage. */
    constructor (apiKey: string, storage: Storage.LocalStorage, history: History.HistoryStore)
      ensures this.apiKey == apiKey && this.storage == storage && this.history == history
      ensures audioFile == Storage.DecodeStoredFile(Storage.GetItem(storage.items, AudioFileKey))
      ensures selectedVoice == Storage.LoadFromStorage(storage.items, SelectedVoiceKey, "")
      ensures convertedAudio == Storage.LoadOrNull(storage.items, ConvertedAudioKey)
      ensures inputMode == LoadInputMode(storage.items)
      ensures voices == [] && !voicesLoaded && !isLoading && !isGenerating
      ensures lastAudioUrl.None? && audioDuration.None? && estimatedCost.None?
      ensures stability == 0.5 && similarityBoost == 0.75
    {
      this.apiKey := apiKey;
      this.storage := storage;
      this.history := history;
      voices, voicesLoaded, isLoading, isGenerating := [], false, false, false;
      stability, similarityBoost := 0.5, 0.75;
      lastAudioUrl, audioDuration, estimatedCost := None, None, None;
      selectedVoice := Storage.LoadFromStorage(storage.items, SelectedVoiceKey, "");
      convertedAudio := Storage.LoadOrNull(storage.items, ConvertedAudioKey);
      inputMode := LoadInputMode(storage.items);
      new;
      audioFile := storage.LoadFileFromStorage(AudioFileKey);
    }

    /** The effect on `audioFile`, run on mount and after every change of
        the file: an audio file gets an object URL for the player. */
    method AudioFileEffect(objectUrl: string)
      modifies this
      ensures lastAudioUrl == if audioFile.Some? && Storage.IsAudio(audioFile.value) then Some(objectUrl) else old(lastAudioUrl)
      ensures audioFile == old(audioFile) && convertedAudio == old(convertedAudio) && inputMode == old(inputMode)
      ensures selectedVoice == old(selectedVoice) && isGenerating == old(isGenerating)
    {
      if audioFile.Some? && Storage.IsAudio(audioFile.value) {
        lastAudioUrl := Some(objectUrl);
      }
    }

    /** The end of the duration probe. */
    method DurationKnown(seconds: real)
      modifies this
      ensures audioDuration == Some(seconds) && estimatedCost == Some(Api.SpeechToSpeechCost(seconds))
      ensures audioFile == old(audioFile) && lastAudioUrl == old(lastAudioUrl) && convertedAudio == old(convertedAudio)
    {
      audioDuration := Some(seconds);
      estimatedCost := Some(Api.SpeechToSpeechCost(seconds));
    }

    /** The end of the voice request: the list, or `None` when it failed;
        only a success marks the voices loaded. */
    method VoicesLoaded(reply: Option<seq<Api.Voice>>)
      modifies this
      ensures !isLoading
      ensures reply.Some? ==> voices == reply.value && voicesLoaded
      ensures reply.None? ==> voices == old(voices) && voicesLoaded == old(voicesLoaded)
      ensures selectedVoice == old(selectedVoice) && audioFile == old(audioFile)
    {
      if reply.Some? {
        voices := reply.value;
        voicesLoaded := true;
      }
      isLoading := false;
    }

    /** The persistent `setAudioFile`. */
    method SetAudioFile(file: Option<Storage.File>, objectUrl: string)
      modifies this, storage
      ensures audioFile == file
      ensures storage.items == Storage.StoreFile(old(storage.items), AudioFileKey, file)
      ensures lastAudioUrl == if file.Some? && Storage.IsAudio(file.value) then Some(objectUrl) else None
      ensures convertedAudio == old(convertedAudio) && inputMode == old(inputMode) && selectedVoice == old(selectedVoice)
      ensures audioDuration == old(audioDuration) && estimatedCost == old(estimatedCost) && isGenerating == old(isGenerating)
    {
      audioFile := file;
      storage.SaveFileToStorage(AudioFileKey, file);
      if file.Some? && Storage.IsAudio(file.value) {
        lastAudioUrl := Some(objectUrl);
      } else {
        lastAudioUrl := None;
      }
    }

    /** The persistent `setSelectedVoice`. */
    method SetSelectedVoice(voiceId: string)
      modifies this, storage
      ensures selectedVoice == voiceId
      ensures storage.items == old(storage.items)[SelectedVoiceKey := voiceId]
      ensures audioFile == old(audioFile) && convertedAudio == old(convertedAudio) && inputMode == old(inputMode)
    {
      selectedVoice := voiceId;
      storage.SaveToStorage(SelectedVoiceKey, voiceId);
    }

    /** The persistent `setConvertedAudio`. */
    method SetConvertedAudio(audio: Option<string>)
      modifies this, storage
      ensures convertedAudio == audio
      ensures storage.items == SaveConverted(old(storage.items), audio)
      ensures voices == old(voices) && stability == old(stability) && similarityBoost == old(similarityBoost)
      ensures audioFile == old(audioFile) && lastAudioUrl == old(lastAudioUrl) && inputMode == old(inputMode)
      ensures selectedVoice == old(selectedVoice) && isGenerating == old(isGenerating)
      ensures audioDuration == old(audioDuration) && estimatedCost == old(estimatedCost)
    {
      convertedAudio := audio;
      if audio.Some? && audio.value != "" {
        storage.SaveToStorage(ConvertedAudioKey, audio.value);
      } else {
        storage.RemoveFromStorage(ConvertedAudioKey);
      }
    }

    /** The persistent `setInputMode`. */
    method SetInputMode(mode: InputMode)
      modifies this, storage
      ensures inputMode == mode
      ensures storage.items == old(storage.items)[InputModeKey := ModeName(mode)]
      ensures audioFile == old(audioFile) && lastAudioUrl == old(lastAudioUrl) && convertedAudio == old(convertedAudio)
      ensures selectedVoice == old(selectedVoice) && isGenerating == old(isGenerating)
      ensures audioDuration == old(audioDuration) && estimatedCost == old(estimatedCost)
    {
      inputMode := mode;
      storage.SaveToStorage(InputModeKey, ModeName(mode));
    }

    /** `handleFileChange`: the first chosen file becomes the source, the
        converted audio is cleared and the mode is upload; no file changes
        nothing. */
    method HandleFileChange(files: seq<Storage.File>, objectUrl: string)
      modifies this, storage
      ensures files == [] ==>
        audioFile == old(audioFile) && convertedAudio == old(convertedAudio) && inputMode == old(inputMode)
        && storage.items == old(storage.items)
      ensures files != [] ==>
        audioFile == Some(files[0]) && convertedAudio.None? && inputMode == Upload
        && storage.items == SaveConverted(Storage.StoreFile(old(storage.items), AudioFileKey, Some(files[0])), None)[InputModeKey := "upload"]
      ensures selectedVoice == old(selectedVoice) && isGenerating == old(isGenerating)
    {
      if files != [] {
        SetAudioFile(Some(files[0]), objectUrl);
        SetConvertedAudio(None);
        SetInputMode(Upload);
      }
    }

    /** `clearAudioFile`: file, converted audio, player URL, duration and
        cost reset; file and converted audio removed from storage. */
    method ClearAudioFile()
      modifies this, storage
      ensures audioFile.None? && convertedAudio.None? && lastAudioUrl.None?
      ensures audioDuration.None? && estimatedCost.None?
      ensures storage.items == old(storage.items) - {AudioFileKey} - {ConvertedAudioKey}
      ensures inputMode == old(inputMode) && selectedVoice == old(selectedVoice) && isGenerating == old(isGenerating)
    {
      SetAudioFile(None, "");
      SetConvertedAudio(None);
      lastAudioUrl := None;
      audioDuration := None;
      estimatedCost := None;
    }

    /** The two mode buttons: the mode is set and saved, then the source
        is cleared. */
    method ChooseMode(mode: InputMode)
      modifies this, storage
      ensures inputMode == mode
      ensures audioFile.None? && convertedAudio.None? && lastAudioUrl.None?
      ensures audioDuration.None? && estimatedCost.None?
      ensures storage.items == old(storage.items)[InputModeKey := ModeName(mode)] - {AudioFileKey} - {ConvertedAudioKey}
    {
      SetInputMode(mode);
      ClearAudioFile();
    }

    /** The recorder's `onAudioReady(file)`: the recording (or `null`)
        becomes the source and the converted audio is cleared. */
    method OnAudioReady(file: Option<Storage.File>, objectUrl: string)
      modifies this, storage
      ensures audioFile == file && convertedAudio.None?
      ensures storage.items == SaveConverted(Storage.StoreFile(old(storage.items), AudioFileKey, file), None)
      ensures inputMode == old(inputMode) && selectedVoice == old(selectedVoice)
    {
      SetAudioFile(file, objectUrl);
      SetConvertedAudio(None);
    }

    /** `handleConvert()` with the reply passed in: the base 64 audio, or
        `None` when the call threw. The raw base 64 text is kept as the
        converted audio; the history gets it as a data URL when the
        selected voice is in the list. */
    method HandleConvert(reply: Option<string>, id: string, now: int) returns (call: Option<ConvertCall>)
      requires history.session != storage
      requires forall i :: 0 <= i < |history.history| ==> history.history[i].id != id
      modifies this, storage, history, history.session
      ensures call.Some? <==> MayConvert(apiKey, selectedVoice, audioFile)
      ensures call.Some? ==> call.value == ConvertCall(apiKey, audioFile.value, selectedVoice, stability, similarityBoost)
      ensures call.Some? ==> !isGenerating
      ensures call.None? ==> isGenerating == old(isGenerating)
      ensures call.None? || reply.None? ==>
        convertedAudio == old(convertedAudio) && storage.items == old(storage.items)
        && history.history == old(history.history) && history.session.items == old(history.session.items)
      ensures call.Some? && reply.Some? ==>
        convertedAudio == Some(reply.value)
        && storage.items == SaveConverted(old(storage.items), Some(reply.value))
        && history.history == match Api.FindVoice(voices, selectedVoice)
          case None => old(history.history)
          case Some(voice) => History.Prepend(old(history.history),
            History.HistoryItem(id, now, Entry(audioFile.value, voice, "data:audio/mp3;base64," + reply.value)))
      ensures audioFile == old(audioFile) && selectedVoice == old(selectedVoice) && voices == old(voices)
    {
      if !MayConvert(apiKey, selectedVoice, audioFile) {
        return None;
      }
      isGenerating := true;
      call := Some(ConvertCall(apiKey, audioFile.value, selectedVoice, stability, similarityBoost));
      if reply.Some? {
        var audioUrl := "data:audio/mp3;base64," + reply.value;
        SetConvertedAudio(Some(reply.value));
        var voice := Api.FindVoice(voices, selectedVoice);
        if voice.Some? {
          history.AddToHistory(Entry(audioFile.value, voice.value, audioUrl), id, now);
        }
      }
      isGenerating := false;
    }
  }
}

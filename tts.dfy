/** The text-to-speech page: the text area with tag insertion at the
    caret, the voice list without hidden voices, the settings restored
    from local storage, and the generate action. */
module TextToSpeechPage {
  import opened Wrappers
  import JsString
  import Seqs
  import Storage
  import Api
  import History

  const TextKey := "texttospeech_text"
  const SelectedVoiceKey := "texttospeech_selected_voice"
  const ConvertedAudioKey := "texttospeech_converted_audio"
  const UseV3Key := "texttospeech_use_v3"
  const SoundEffectKey := "texttospeech_sound_effect"

  /** `inputText.substring(0, start) + s + inputText.substring(end)`. */
  function InsertAt(text: string, start: int, end: int, s: string): string {
    JsString.Substring(text, 0, start) + s + JsString.Substring(text, end, |text|)
  }

  /** With a selection inside the text, the insertion replaces the
      selected part by `s` and leaves both sides as they were. */
  lemma InsertAtSplices(text: string, start: int, end: int, s: string)
    requires 0 <= start <= end <= |text|
    ensures InsertAt(text, start, end, s) == text[..start] + s + text[end..]
    ensures |InsertAt(text, start, end, s)| == |text| - (end - start) + |s|
    ensures InsertAt(text, start, end, s)[..start + |s|] == text[..start] + s
  {
    var r := InsertAt(text, start, end, s);
    assert r == (text[..start] + s) + text[end..];
  }

  /** The text inserted for a vocal-delivery choice: `None` for the empty
      choice. */
  function DeliveryInsertion(value: string): (r: Option<string>)
    ensures r.Some? <==> value != ""
    ensures r.Some? ==> r.value == value + " "
  {
    if value != "" then Some(value + " ") else None
  }

  /** The tag inserted for a sound-effect choice: `None` for the empty
      choice and for `none`. */
  function EffectInsertion(value: string): (r: Option<string>)
    ensures r.Some? <==> value != "" && value != "none"
    ensures r.Some? ==> r.value == "[" + value + "] "
  {
    if value != "" && value != "none" then Some("[" + value + "] ") else None
  }

  predicate IsShown(v: Api.Voice) {
    !JsString.Contains(JsString.ToLowerAscii(v.name), "hidden")
  }

  /** `voices.filter(v => !v.name.toLowerCase().includes('hidden'))`. */
  function FilteredVoices(voices: seq<Api.Voice>): seq<Api.Voice> {
    Seqs.Filter(IsShown, voices)
  }

  /** The list shown keeps exactly the voices without `hidden` in their
      lower-cased name, in their order. */
  lemma FilteredVoicesExactly(voices: seq<Api.Voice>, more: seq<Api.Voice>)
    ensures forall v :: v in FilteredVoices(voices) <==> v in voices && !JsString.Contains(JsString.ToLowerAscii(v.name), "hidden")
    ensures FilteredVoices(voices + more) == FilteredVoices(voices) + FilteredVoices(more)
  {
    Seqs.FilterAppend(IsShown, voices, more);
  }

  /** A name spelling `hidden` in any letter case is filtered out. */
  lemma HiddenInAnyCase(v: Api.Voice, i: nat)
    requires i + 6 <= |v.name|
    requires JsString.ToLowerAscii(v.name[i..i + 6]) == "hidden"
    ensures v !in FilteredVoices([v])
  {
    var lower := JsString.ToLowerAscii(v.name);
    assert lower[i..i + 6] == JsString.ToLowerAscii(v.name[i..i + 6]);
    assert JsString.OccursAt(lower, "hidden", i);
    JsString.ContainsIff(lower, "hidden");
  }

  /** The switch restored from `texttospeech_use_v3`. */
  function RestoredUseV3(store: Storage.Store): bool {
    Storage.LoadFromStorage(store, UseV3Key, "false") == "true"
  }

  lemma RestoredUseV3Iff(store: Storage.Store)
    ensures RestoredUseV3(store) <==> Storage.GetItem(store, UseV3Key) == Some("true")
  {
  }

  /** `useV3.toString()`. */
  function BoolText(b: bool): (r: string)
    ensures (r == "true") == b
  {
    if b then "true" else "false"
  }

  /** A stored switch setting restores to the same setting. */
  lemma UseV3RoundTrip(store: Storage.Store, b: bool)
    ensures RestoredUseV3(store[UseV3Key := BoolText(b)]) == b
  {
  }

  /** The selection after the voice list arrives: a saved voice missing
      from the list is dropped. */
  function CheckedVoice(selected: string, savedVoice: string, voices: seq<Api.Voice>): (r: string)
    ensures r == "" || r == selected
    ensures r == "" <==>
      selected == "" || (savedVoice != "" && forall i :: 0 <= i < |voices| ==> voices[i].voiceId != savedVoice)
  {
    if savedVoice != "" && Api.FindVoice(voices, savedVoice).None? then "" else selected
  }

  /** `!apiKey || !selectedVoice || !inputText.trim()` fails. */
  predicate MayGenerate(apiKey: string, voiceId: string, text: string) {
    apiKey != "" && voiceId != "" && JsString.Trim(text) != ""
  }

  /** A request is issued exactly for a key, a voice and a text that is
      not all white space. */
  lemma MayGenerateIff(apiKey: string, voiceId: string, text: string)
    ensures MayGenerate(apiKey, voiceId, text) <==> apiKey != "" && voiceId != "" && !JsString.IsBlank(text)
  {
    JsString.TrimEmptyIffBlank(text);
  }

  /** The sound effect argument: only with the newer model and an effect
      other than `none`. */
  function RequestedEffect(useV3: bool, soundEffect: string): (r: Option<string>)
    ensures r.Some? <==> useV3 && soundEffect != "none"
    ensures r.Some? ==> r.value == soundEffect
  {
    if useV3 && soundEffect != "none" then Some(soundEffect) else None
  }

  /** The arguments the page passes to `elevenlabsApi.textToSpeech`. */
  datatype TtsCall = TtsCall(
    apiKey: string, text: string, voiceId: string, stability: real, similarityBoost: real,
    useV3: bool, soundEffect: Option<string>)

  function ModelLabel(useV3: bool): string {
    if useV3 then "Eleven Turbo v2" else "Eleven Multilingual v2"
  }

  /** The history entry of a generation. */
  function Entry(text: string, voice: Api.Voice, audioUrl: string, useV3: bool, soundEffect: string): History.Generation {
    History.Generation(History.TextToSpeech, text, Some(voice.name), audioUrl,
      Some(ModelLabel(useV3)), None, RequestedEffect(useV3, soundEffect))
  }

  class TextToSpeechPage {
    const apiKey: string
    var voices: seq<Api.Voice>
    var isLoading: bool
    var selectedVoice: string
    /** The voice restored on mount, checked when the list arrives. */
    var savedVoice: string
    var inputText: string
    var generatedAudio: Option<string>
    var isGenerating: bool
    var stability: real
    var similarityBoost: real
    var useV3: bool
    var vocalDelivery: string
    var soundEffect: string
    /** Whether the text area is rendered, and its selection. */
    var hasTextArea: bool
    var selectionStart: int
    var selectionEnd: int
    const storage: Storage.LocalStorage
    const history: History.HistoryStore

    /** The first render, before any effect. */
    constructor (apiKey: string, storage: Storage.LocalStorage, history: History.HistoryStore)
      ensures this.apiKey == apiKey && this.storage == storage && this.history == history
      ensures voices == [] && isLoading && selectedVoice == "" && savedVoice == "" && inputText == ""
      ensures generatedAudio.None? && !isGenerating && stability == 0.5 && similarityBoost == 0.8
      ensures !useV3 && vocalDelivery == "" && soundEffect == "none"
      ensures !hasTextArea && selectionStart == 0 && selectionEnd == 0
    {
      this.apiKey := apiKey;
      this.storage := storage;
      this.history := history;
      voices, isLoading, selectedVoice, savedVoice, inputText := [], true, "", "", "";
      generatedAudio, isGenerating, stability, similarityBoost := None, false, 0.5, 0.8;
      useV3, vocalDelivery, soundEffect := false, "", "none";
      hasTextArea, selectionStart, selectionEnd := false, 0, 0;
    }

    /** The mount effects. With a key, the text, voice, switch, effect and
        audio are restored; the two setting effects then write the
        first render's values and, after the update, the restored ones.
        Without a key nothing is restored (the page navigates away), but
        the setting effects still write the defaults. */
    method Mount()
      modifies this, storage
      ensures apiKey == "" ==>
        inputText == old(inputText) && selectedVoice == old(selectedVoice) && useV3 == old(useV3)
        && soundEffect == old(soundEffect) && generatedAudio == old(generatedAudio)
      ensures apiKey != "" ==> Restored(old(storage.items))
      ensures storage.items == old(storage.items)[UseV3Key := BoolText(useV3)][SoundEffectKey := soundEffect]
      ensures voices == old(voices) && isLoading == old(isLoading) && isGenerating == old(isGenerating)
    {
      var firstUseV3, firstEffect := useV3, soundEffect;
      if apiKey != "" {
        Restore();
      }
      SaveSettings(firstUseV3, firstEffect);
    }

    /** The two setting effects on mount: the first render's values, then
        the current ones. */
    method SaveSettings(firstUseV3: bool, firstEffect: string)
      modifies storage
      ensures storage.items == old(storage.items)[UseV3Key := BoolText(useV3)][SoundEffectKey := soundEffect]
    {
      storage.SaveToStorage(UseV3Key, BoolText(firstUseV3));
      if firstEffect != "" {
        storage.SaveToStorage(SoundEffectKey, firstEffect);
      }
      storage.SaveToStorage(UseV3Key, BoolText(useV3));
      storage.SaveToStorage(SoundEffectKey, soundEffect);
    }

    /** The page state holds what was restored from `s`. */
    ghost predicate Restored(s: Storage.Store)
      reads this
    {
      inputText == Storage.LoadFromStorage(s, TextKey, "")
      && selectedVoice == Storage.LoadFromStorage(s, SelectedVoiceKey, "")
      && savedVoice == selectedVoice
      && useV3 == RestoredUseV3(s)
      && soundEffect == Storage.LoadFromStorage(s, SoundEffectKey, "none")
      && (Storage.LoadOrNull(s, ConvertedAudioKey).Some? ==> generatedAudio == Storage.LoadOrNull(s, ConvertedAudioKey))
    }

    /** The reads of the load effect. */
    method Restore()
      modifies this
      ensures Restored(storage.items)
      ensures Storage.LoadOrNull(storage.items, ConvertedAudioKey).None? ==> generatedAudio == old(generatedAudio)
      ensures voices == old(voices) && isLoading == old(isLoading) && isGenerating == old(isGenerating)
    {
      var s := storage.items;
      inputText := Storage.LoadFromStorage(s, TextKey, "");
      savedVoice := Storage.LoadFromStorage(s, SelectedVoiceKey, "");
      selectedVoice := savedVoice;
      useV3 := RestoredUseV3(s);
      soundEffect := Storage.LoadFromStorage(s, SoundEffectKey, "none");
      var savedAudio := Storage.LoadOrNull(s, ConvertedAudioKey);
      if savedAudio.Some? {
        generatedAudio := savedAudio;
      }
    }

    /** The end of `fetchVoices`: the list, or `None` when the request
        failed; loading ends either way. */
    method VoicesLoaded(reply: Option<seq<Api.Voice>>)
      modifies this
      ensures !isLoading
      ensures reply.Some? ==> voices == reply.value && selectedVoice == CheckedVoice(old(selectedVoice), savedVoice, reply.value)
      ensures reply.None? ==> voices == old(voices) && selectedVoice == old(selectedVoice)
      ensures inputText == old(inputText) && useV3 == old(useV3) && soundEffect == old(soundEffect) && savedVoice == old(savedVoice)
    {
      if reply.Some? {
        voices := reply.value;
        if savedVoice != "" && Api.FindVoice(reply.value, savedVoice).None? {
          selectedVoice := "";
        }
      }
      isLoading := false;
    }

    /** Typing in the text area: the text is kept and saved. */
    method EditText(value: string)
      modifies this, storage
      ensures inputText == value
      ensures storage.items == old(storage.items)[TextKey := value]
    {
      inputText := value;
      storage.SaveToStorage(TextKey, value);
    }

    /** Picking a voice in the list: selected and saved. */
    method SelectVoice(voiceId: string)
      modifies this, storage
      ensures selectedVoice == voiceId
      ensures storage.items == old(storage.items)[SelectedVoiceKey := voiceId]
    {
      selectedVoice := voiceId;
      storage.SaveToStorage(SelectedVoiceKey, voiceId);
    }

    /** The model switch: the setting is saved at once; switching the
        newer model off also resets the delivery and effect choices, and
        the effect on `soundEffect` then saves `none` when that changed
        it. */
    method SetUseV3(checked: bool)
      modifies this, storage
      ensures useV3 == checked
      ensures checked ==> vocalDelivery == old(vocalDelivery) && soundEffect == old(soundEffect)
      ensures !checked ==> vocalDelivery == "" && soundEffect == "none"
      ensures storage.items ==
        if !checked && old(soundEffect) != "none" then old(storage.items)[UseV3Key := BoolText(checked)][SoundEffectKey := "none"]
        else old(storage.items)[UseV3Key := BoolText(checked)]
      ensures inputText == old(inputText) && selectedVoice == old(selectedVoice) && isGenerating == old(isGenerating)
    {
      var previous := soundEffect;
      useV3 := checked;
      storage.SaveToStorage(UseV3Key, BoolText(checked));
      if !checked {
        vocalDelivery := "";
        soundEffect := "none";
      }
      if soundEffect != previous && soundEffect != "" {
        storage.SaveToStorage(SoundEffectKey, soundEffect);
      }
    }

    /** `insertAtCursor(s)`: the selection is replaced by `s` and the caret
        put after it; nothing happens without the text area. The text is
        not saved here. */
    method InsertAtCursor(s: string)
      modifies this
      ensures !old(hasTextArea) ==> inputText == old(inputText) && selectionStart == old(selectionStart) && selectionEnd == old(selectionEnd)
      ensures old(hasTextArea) ==>
        inputText == InsertAt(old(inputText), old(selectionStart), old(selectionEnd), s)
        && selectionStart == selectionEnd == old(selectionStart) + |s|
      ensures hasTextArea == old(hasTextArea) && vocalDelivery == old(vocalDelivery) && soundEffect == old(soundEffect)
      ensures useV3 == old(useV3) && selectedVoice == old(selectedVoice) && isGenerating == old(isGenerating)
    {
      if !hasTextArea {
        return;
      }
      var start, end := selectionStart, selectionEnd;
      inputText := InsertAt(inputText, start, end, s);
      selectionStart := start + |s|;
      selectionEnd := start + |s|;
    }

    /** `handleVocalDeliveryChange(value)`. */
    method HandleVocalDeliveryChange(value: string)
      modifies this
      ensures value == "" ==> inputText == old(inputText) && vocalDelivery == ""
      ensures value != "" ==> vocalDelivery == ""
      ensures value != "" && old(hasTextArea) ==>
        inputText == InsertAt(old(inputText), old(selectionStart), old(selectionEnd), value + " ")
      ensures value != "" && !old(hasTextArea) ==> inputText == old(inputText)
      ensures soundEffect == old(soundEffect) && useV3 == old(useV3)
    {
      vocalDelivery := value;
      var insertion := DeliveryInsertion(value);
      if insertion.Some? {
        InsertAtCursor(insertion.value);
        vocalDelivery := "";
      }
    }

    /** `handleSoundEffectChange(value)`; the effect on `soundEffect`
        saves the final choice when it changed and is not empty. */
    method HandleSoundEffectChange(value: string)
      modifies this, storage
      ensures EffectInsertion(value).Some? ==> soundEffect == "none"
      ensures EffectInsertion(value).Some? && old(hasTextArea) ==>
        inputText == InsertAt(old(inputText), old(selectionStart), old(selectionEnd), "[" + value + "] ")
      ensures EffectInsertion(value).None? ==> soundEffect == value && inputText == old(inputText)
      ensures !old(hasTextArea) ==> inputText == old(inputText)
      ensures storage.items == if soundEffect != old(soundEffect) && soundEffect != "" then old(storage.items)[SoundEffectKey := soundEffect] else old(storage.items)
      ensures vocalDelivery == old(vocalDelivery) && useV3 == old(useV3)
    {
      var previous := soundEffect;
      soundEffect := value;
      var insertion := EffectInsertion(value);
      if insertion.Some? {
        InsertAtCursor(insertion.value);
        soundEffect := "none";
      }
      if soundEffect != previous && soundEffect != "" {
        storage.SaveToStorage(SoundEffectKey, soundEffect);
      }
    }

    /** `handleGenerate()` with the reply passed in: the base 64 audio, or
        `None` when the call threw. Returns the call issued, if any. On
        success the audio becomes a data URL, is saved, and is added to
        the history when the selected voice is in the list. */
    method Generate(reply: Option<string>, id: string, now: int) returns (call: Option<TtsCall>)
      requires history.session != storage
      requires forall i :: 0 <= i < |history.history| ==> history.history[i].id != id
      modifies this, storage, history, history.session
      ensures call.Some? <==> MayGenerate(apiKey, selectedVoice, inputText)
      ensures call.Some? ==> call.value == TtsCall(apiKey, inputText, selectedVoice, stability, similarityBoost,
        useV3, RequestedEffect(useV3, soundEffect))
      ensures call.Some? ==> !isGenerating
      ensures call.None? ==> isGenerating == old(isGenerating)
      ensures call.None? || reply.None? ==>
        generatedAudio == old(generatedAudio) && storage.items == old(storage.items)
        && history.history == old(history.history) && history.session.items == old(history.session.items)
      ensures call.Some? && reply.Some? ==>
        var audioUrl := "data:audio/mp3;base64," + reply.value;
        generatedAudio == Some(audioUrl)
        && storage.items == old(storage.items)[ConvertedAudioKey := audioUrl]
        && history.history == match Api.FindVoice(voices, selectedVoice)
          case None => old(history.history)
          case Some(voice) => History.Prepend(old(history.history),
            History.HistoryItem(id, now, Entry(inputText, voice, audioUrl, useV3, soundEffect)))
      ensures inputText == old(inputText) && selectedVoice == old(selectedVoice) && voices == old(voices)
      ensures useV3 == old(useV3) && soundEffect == old(soundEffect)
    {
      if !MayGenerate(apiKey, selectedVoice, inputText) {
        return None;
      }
      isGenerating := true;
      call := Some(TtsCall(apiKey, inputText, selectedVoice, stability, similarityBoost,
        useV3, RequestedEffect(useV3, soundEffect)));
      if reply.Some? {
        var audioUrl := "data:audio/mp3;base64," + reply.value;
        generatedAudio := Some(audioUrl);
        storage.SaveToStorage(ConvertedAudioKey, audioUrl);
        var voice := Api.FindVoice(voices, selectedVoice);
        if voice.Some? {
          history.AddToHistory(Entry(inputText, voice.value, audioUrl, useV3, soundEffect), id, now);
        }
      }
      isGenerating := false;
    }
  }
}

/** The translation provider: the interface language, kept in local
    storage under `preferred_language`, and `t`, which looks a key up in
    the current language's table and fills in `{name}` placeholders. */
module Language {
  import opened Wrappers
  import JsString
  import Storage

  datatype Lang = En | De

  const PreferenceKey := "preferred_language"

  function LangName(l: Lang): string {
    match l
    case En => "en"
    case De => "de"
  }

  /** The language restored on start: the stored preference when it is
      `en` or `de`, English otherwise. */
  function InitialLanguage(saved: Option<string>): (r: Lang)
    ensures saved == Some("de") <==> r == De
  {
    if saved == Some("en") then En
    else if saved == Some("de") then De
    else En
  }

  /** A stored preference restores the language it names. */
  lemma RestoreStoredLanguage(l: Lang)
    ensures InitialLanguage(Some(LangName(l))) == l
  {
  }

  /** Anything but the two language names restores English. */
  lemma UnknownPreferenceIsEnglish(saved: string)
    requires saved != "en" && saved != "de"
    ensures InitialLanguage(Some(saved)) == En && InitialLanguage(None) == En
  {
  }

  const EnglishTable: map<string, string> := map[
      "common.loading" := "Loading...",
      "common.select_feature" := "Select a feature:",
      "common.download" := "Download",
      "common.play" := "Play",
      "common.pause" := "Pause",
      "common.clear" := "Clear",
      "common.generating" := "Generating...",
      "common.processing" := "Processing...",
      "common.converting" := "Converting...",
      "common.upload" := "Upload",
      "common.record" := "Record",
      "common.cost" := "Cost:",
      "common.credits" := "credits",
      "common.original_audio" := "Original Audio",
      "common.generated_audio" := "Generated Audio",
      "common.converted_audio" := "Converted Audio",
      "common.processed_audio" := "Processed Audio",
      "common.upload_audio_file" := "Upload Audio File",
      "common.upload_audio_format" := "Upload an MP3, WAV or other audio format",
      "common.max_size" := "max 10MB",
      "common.select_voice" := "Select Voice",
      "common.loading_voices" := "Loading voices...",
      "common.start_recording" := "Start Recording",
      "common.stop_recording" := "Stop Recording",
      "nav.text_to_speech" := "Text-to-Speech",
      "nav.speech_to_speech" := "Speech-to-Speech",
      "nav.sound_fx" := "Sound FX",
      "nav.voice_isolator" := "Voice Isolator",
      "common.eg" := "e.g.",
      "voice_isolator.title" := "Voice Isolator",
      "voice_isolator.how_it_works" := "How it works",
      "voice_isolator.description" := "Upload an audio file to isolate the voice and remove background noise. This tool uses ElevenLabs' AI to separate voices from other sounds.",
      "voice_isolator.warning" := "WARNING: Results are recognized as \"AI-generated\"!!!",
      "voice_isolator.here" := "here",
      "voice_isolator.audio_input" := "Audio Input",
      "voice_isolator.upload_audio" := "Upload Audio",
      "voice_isolator.isolate_voice" := "Isolate Voice",
      "voice_isolator.download" := "Download Isolated Audio",
      "voice_isolator.processing" := "Processing...",
      "voice_isolator.clear" := "Clear",
      "voice_isolator.cost" := "Cost: {0} credits",
      "text_to_speech.title" := "Text to Speech",
      "text_to_speech.enter_text" := "Enter Text",
      "text_to_speech.text_placeholder" := "Type or paste your text here...",
      "text_to_speech.stability" := "Stability",
      "text_to_speech.similarity_boost" := "Similarity Boost",
      "text_to_speech.stability_description" := "Higher values will make the voice more stable and consistent, but may lose some expressiveness.",
      "text_to_speech.similarity_description" := "Higher values will make the voice more similar to the original voice, but may reduce quality.",
      "text_to_speech.generate_audio" := "Generate Audio",
      "text_to_speech.download_generated" := "Download Generated Audio",
      "speech_to_speech.title" := "Speech to Speech Converter",
      "speech_to_speech.audio_input" := "Audio Input",
      "speech_to_speech.stability" := "Stability",
      "speech_to_speech.similarity_boost" := "Similarity Boost",
      "speech_to_speech.convert" := "Convert",
      "speech_to_speech.download_converted" := "Download Converted Audio",
      "speech_to_speech.cost" := "Cost: {0} credits",
      "sound_fx.title" := "Sound Effects Generator",
      "sound_fx.prompt_label" := "Describe the sound effect you want to generate",
      "sound_fx.prompt_placeholder" := "Describe the sound effect you want to generate (e.g., 'Cinematic Braam, Horror' or 'Rain falling on a tin roof')",
      "sound_fx.duration" := "Duration",
      "sound_fx.auto" := "Auto",
      "sound_fx.prompt_adherence" := "Prompt Adherence",
      "sound_fx.variations" := "Number of Variations",
      "sound_fx.generate" := "Generate Sound Effect",
      "sound_fx.current_generation" := "Current Generation",
      "sound_fx.history" := "History",
      "sound_fx.show_history" := "Show History",
      "sound_fx.hide_history" := "Hide History",
      "sound_fx.no_history" := "No historical sound effects",
      "sound_fx.variation" := "Variation"
    ]

  const GermanTable: map<string, string> := map[
      "common.loading" := "Wird geladen...",
      "common.select_feature" := "Wählen Sie eine Funktion:",
      "common.download" := "Herunterladen",
      "common.play" := "Abspielen",
      "common.pause" := "Pause",
      "common.clear" := "Löschen",
      "common.generating" := "Wird generiert...",
      "common.processing" := "Wird verarbeitet...",
      "common.converting" := "Wird konvertiert...",
      "common.upload" := "Hochladen",
      "common.record" := "Aufnehmen",
      "common.cost" := "Kosten:",
      "common.credits" := "Credits",
      "common.original_audio" := "Original-Audio",
      "common.generated_audio" := "Generiertes Audio",
      "common.converted_audio" := "Konvertiertes Audio",
      "common.processed_audio" := "Verarbeitetes Audio",
      "common.upload_audio_file" := "Audio-Datei hochladen",
      "common.upload_audio_format" := "Lade eine MP3-, WAV- oder andere Audiodatei hoch",
      "common.max_size" := "max. 10MB",
      "common.select_voice" := "Stimme auswählen",
      "common.loading_voices" := "Stimmen werden geladen...",
      "common.start_recording" := "Aufnahme starten",
      "common.stop_recording" := "Aufnahme stoppen",
      "nav.text_to_speech" := "Text-zu-Sprache",
      "nav.speech_to_speech" := "Sprache-zu-Sprache",
      "nav.sound_fx" := "Soundeffekte",
      "nav.voice_isolator" := "Stimmen-Isolator",
      "common.eg" := "z.B.",
      "voice_isolator.title" := "Stimmen-Isolator",
      "voice_isolator.how_it_works" := "Wie es funktioniert",
      "voice_isolator.description" := "Audio-Datei hochladen, um die Stimme zu isolieren und Hintergrundgeräusche zu entfernen. Dieses Tool verwendet ElevenLabs' AI, um Stimmen von anderen Geräuschen zu trennen.",
      "voice_isolator.warning" := "WARNUNG: Ergebnisse werden als \"KI-generiert\" erkannt!",
      "voice_isolator.here" := "hier",
      "voice_isolator.audio_input" := "Audio-Eingabe",
      "voice_isolator.upload_audio" := "Audio hochladen",
      "voice_isolator.isolate_voice" := "Stimme isolieren",
      "voice_isolator.download" := "Isolierte Audio herunterladen",
      "voice_isolator.processing" := "Wird verarbeitet...",
      "voice_isolator.clear" := "Löschen",
      "voice_isolator.cost" := "Kosten: {0} Credits",
      "text_to_speech.title" := "Text zu Sprache",
      "text_to_speech.enter_text" := "Text eingeben",
      "text_to_speech.text_placeholder" := "Gib deinen Text hier ein oder füge ihn ein...",
      "text_to_speech.stability" := "Stabilität",
      "text_to_speech.similarity_boost" := "Ähnlichkeits-Boost",
      "text_to_speech.stability_description" := "Höhere Werte machen die Stimme stabiler und konsistenter, können aber Ausdruckskraft verlieren.",
      "text_to_speech.similarity_description" := "Höhere Werte machen die Stimme ähnlicher zur Originalstimme, können aber die Qualität reduzieren.",
      "text_to_speech.generate_audio" := "Audio generieren",
      "text_to_speech.download_generated" := "Generiertes Audio herunterladen",
      "speech_to_speech.title" := "Sprache-zu-Sprache-Konverter",
      "speech_to_speech.audio_input" := "Audio-Eingabe",
      "speech_to_speech.stability" := "Stabilität",
      "speech_to_speech.similarity_boost" := "Ähnlichkeits-Boost",
      "speech_to_speech.convert" := "Konvertieren",
      "speech_to_speech.download_converted" := "Konvertiertes Audio herunterladen",
      "speech_to_speech.cost" := "Kosten: {0} Credits",
      "sound_fx.title" := "Soundeffekt-Generator",
      "sound_fx.prompt_label" := "Beschreibe den gewünschten Soundeffekt (bitte auf Englisch)",
      "sound_fx.prompt_placeholder" := "Beschreibe den Soundeffekt auf Englisch, den du generieren möchtest (z.B. \"Cinematic Braam, Horror\" oder \"Rain falling on a tin roof\")",
      "sound_fx.english_note" := "Hinweis: Für beste Ergebnisse sollten Prompts auf Englisch eingegeben werden.",
      "sound_fx.duration" := "Dauer",
      "sound_fx.auto" := "Auto",
      "sound_fx.prompt_adherence" := "Prompt-Einhaltung",
      "sound_fx.variations" := "Anzahl der Variationen",
      "sound_fx.generate" := "Soundeffekt generieren",
      "sound_fx.current_generation" := "Aktuelle Generierung",
      "sound_fx.history" := "Verlauf",
      "sound_fx.show_history" := "Verlauf anzeigen",
      "sound_fx.hide_history" := "Verlauf ausblenden",
      "sound_fx.no_history" := "Keine historischen Soundeffekte",
      "sound_fx.variation" := "Variation"
    ]

  function Table(l: Lang): map<string, string> {
    match l
    case En => EnglishTable
    case De => GermanTable
  }

  /** `translations(language)[key] || key`. */
  function Lookup(table: map<string, string>, key: string): (r: string)
    ensures key !in table ==> r == key
    ensures key in table && table[key] != "" ==> r == table[key]
    ensures key in table && table[key] == "" ==> r == key
    ensures r == "" ==> key == ""
  {
    if key in table && table[key] != "" then table[key] else key
  }

  /** A parameter value: a string, or a number (integers only here). */
  datatype ParamValue = Text(s: string) | Number(n: int)

  /** `String(paramValue)`. */
  function ValueText(v: ParamValue): string {
    match v
    case Text(s) => s
    case Number(n) => JsString.IntToString(n)
  }

  function Placeholder(name: string): (r: string)
    ensures |r| == |name| + 2 && r[0] == '{' && r[|r| - 1] == '}'
  {
    "{" + name + "}"
  }

  /** The placeholders filled in, one parameter after the other in entry
      order, each replacing the first occurrence of its `{name}` only. */
  function ApplyParams(text: string, params: seq<(string, ParamValue)>): string
    decreases |params|
  {
    if params == [] then text
    else
      var last := params[|params| - 1];
      JsString.ReplaceFirst(ApplyParams(text, params[..|params| - 1]), Placeholder(last.0), ValueText(last.1))
  }

  /** What `t(key, params)` returns. */
  function Translate(table: map<string, string>, key: string, params: Option<seq<(string, ParamValue)>>): string {
    if params.None? then Lookup(table, key) else ApplyParams(Lookup(table, key), params.value)
  }

  /** Without parameters, or with none in the record, `t` is the lookup. */
  lemma TranslateWithoutParams(table: map<string, string>, key: string)
    ensures Translate(table, key, None) == Lookup(table, key)
    ensures Translate(table, key, Some([])) == Lookup(table, key)
  {
  }

  /** Parameters are applied in order: a record split in two applies the
      first part, then the second. */
  lemma {:induction false} ApplyParamsAppend(text: string, a: seq<(string, ParamValue)>, b: seq<(string, ParamValue)>)
    ensures ApplyParams(text, a + b) == ApplyParams(ApplyParams(text, a), b)
    decreases |b|
  {
    if b == [] {
      assert a + b == a;
    } else {
      assert (a + b)[..|a + b| - 1] == a + b[..|b| - 1];
      ApplyParamsAppend(text, a, b[..|b| - 1]);
    }
  }

  /** One parameter splices its value in place of the first `{name}` and
      leaves any later `{name}` as it was. */
  lemma OneParamSplices(text: string, name: string, v: ParamValue, i: nat)
    requires '$' !in ValueText(v)
    requires JsString.OccursAt(text, Placeholder(name), i)
    requires forall j :: 0 <= j < i ==> !JsString.OccursAt(text, Placeholder(name), j)
    ensures ApplyParams(text, [(name, v)]) == text[..i] + ValueText(v) + text[i + |name| + 2..]
  {
    assert [(name, v)][..0] == [];
    JsString.ReplaceFirstSplices(text, Placeholder(name), ValueText(v), i);
  }

  /** A parameter whose placeholder does not occur changes nothing. */
  lemma AbsentParamIgnored(text: string, name: string, v: ParamValue)
    requires forall j :: !JsString.OccursAt(text, Placeholder(name), j)
    ensures ApplyParams(text, [(name, v)]) == text
  {
    assert [(name, v)][..0] == [];
  }

  /** A placeholder after a prefix without `{` is the first one, and a
      value without `$` is spliced in for it. */
  lemma PlaceholderSplice(a: string, name: string, b: string, v: ParamValue)
    requires '{' !in a && '$' !in ValueText(v)
    ensures ApplyParams(a + Placeholder(name) + b, [(name, v)]) == a + ValueText(v) + b
  {
    var p := Placeholder(name);
    var text := a + p + b;
    assert text[|a|..|a| + |p|] == p;
    forall j | 0 <= j < |a| ensures !JsString.OccursAt(text, p, j) {
      assert text[j] == a[j];
    }
    OneParamSplices(text, name, v, |a|);
    assert text[..|a|] == a;
    assert text[|a| + |name| + 2..] == b;
  }

  /** The English cost template, around its placeholder. */
  lemma CostTemplateParts()
    ensures "Cost: {0} credits" == "Cost: " + Placeholder("0") + " credits"
    ensures "Cost: " + ValueText(Number(5)) + " credits" == "Cost: 5 credits"
  {
    assert ValueText(Number(5)) == "5";
  }

  /** The English cost template with the amount 5 filled in. */
  lemma CostTemplateFilled()
    ensures ApplyParams("Cost: {0} credits", [("0", Number(5))]) == "Cost: 5 credits"
  {
    CostTemplateParts();
    PlaceholderSplice("Cost: ", "0", " credits", Number(5));
  }

  lemma IsolatorCostEntry()
    ensures Lookup(EnglishTable, "voice_isolator.cost") == "Cost: {0} credits"
  {
  }

  /** `t('voice_isolator.cost', {'0': 5})` in English. */
  lemma IsolatorCostText()
    ensures Translate(EnglishTable, "voice_isolator.cost", Some([("0", Number(5))])) == "Cost: 5 credits"
  {
    IsolatorCostEntry();
    CostTemplateFilled();
  }

  class LanguageProvider {
    var language: Lang
    const storage: Storage.LocalStorage
    /** The translation table of each language: `Table` in the
        application. */
    const translations: Lang -> map<string, string>

    constructor (storage: Storage.LocalStorage, translations: Lang -> map<string, string>)
      ensures this.storage == storage && this.translations == translations
      ensures language == InitialLanguage(Storage.GetItem(storage.items, PreferenceKey))
    {
      this.storage := storage;
      this.translations := translations;
      language := InitialLanguage(Storage.GetItem(storage.items, PreferenceKey));
    }

    /** `t(key, params)`: the lookup, then one replacement per parameter. */
    method T(key: string, params: Option<seq<(string, ParamValue)>>) returns (translatedText: string)
      ensures translatedText == Translate(translations(language), key, params)
    {
      translatedText := Lookup(translations(language), key);
      if params.Some? {
        var entries := params.value;
        var i := 0;
        while i < |entries|
          invariant 0 <= i <= |entries|
          invariant translatedText == ApplyParams(Lookup(translations(language), key), entries[..i])
        {
          var (paramKey, paramValue) := entries[i];
          translatedText := JsString.ReplaceFirst(translatedText, Placeholder(paramKey), ValueText(paramValue));
          assert entries[..i + 1][..i] == entries[..i];
          i := i + 1;
        }
        assert entries[..i] == entries;
      }
    }

    /** `handleSetLanguage(l)`: the language changes and exactly its name
        is stored. */
    method SetLanguage(newLanguage: Lang)
      modifies this, storage
      ensures language == newLanguage
      ensures storage.items == old(storage.items)[PreferenceKey := LangName(newLanguage)]
      ensures InitialLanguage(Storage.GetItem(storage.items, PreferenceKey)) == newLanguage
    {
      language := newLanguage;
      storage.SaveToStorage(PreferenceKey, LangName(newLanguage));
    }
  }
}

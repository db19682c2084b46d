# Voice Alchemy Stream: a Dafny model of the client core

Voice Alchemy Stream is a browser client for a remote speech service. It
offers text to speech, speech to speech, voice isolation and sound effects.
This project models the logic the client runs itself:

- the local-storage helpers and the data-URL file envelope they keep;
- the generation history, copied to session storage after every change;
- the translation provider with its `{name}` placeholders;
- the API client's credit estimates, key-validation rule, error-message
  chains, the sound-effect fan-out and the encoding of returned audio;
- the three pages (text to speech, voice isolator, speech to speech) as
  classes over their component state and the storage map, with the
  recorder of the speech-to-speech page.

Strings are sequences of UTF-16 code units. A storage area is a
`map<string, string>`, held by a `Storage.LocalStorage` object that every
writer updates in place. Network replies, generated ids, clock readings,
object URLs, audio durations and the microphone permission are inputs of
the methods that need them. Base 64 follows section 4 of RFC 4648, with
decoding as `atob` does it (the forgiving-base64 decode of the WHATWG Infra
standard). JSON text is what `JSON.stringify` writes and `JSON.parse`
reads, restricted to integer numbers.

One module per file: `Wrappers`, `Seqs` and `JsString` hold the JavaScript
building blocks; `Base64` and `Json` the two encodings; then `Storage`,
`History`, `Language`, `Api`, `TextToSpeechPage`, `VoiceIsolatorPage` and
`SpeechToSpeechPage` follow the source files.

Three behaviours of the code worth knowing:

- Sound effects are requested with `Promise.all`, so one failed request
  fails the whole call; there is no partial success.
- `validateApiKey` answers a plain `false` for a network failure; it does
  not report a transport error separately.
- A file with an empty media type is read as `data:;base64,…`, as the File
  API specifies `readAsDataURL`.

## Model

| member | source | states |
|---|---|---|
| Storage.LoadFromStorage | src/utils/storage.ts:21-23 | a stored non-empty string is returned; a missing key or the empty string gives the default |
| Storage.LoadOrNull | src/utils/storage.ts:21-23 | with a `null` default: a value exactly when the key holds a non-empty string, and then that string |
| Storage.LoadObjectFromStorage | src/utils/storage.ts:40-43 | a missing or empty value gives the default; otherwise success exactly when the text parses, with the parsed value; malformed JSON is an error, not the default |
| Storage.LocalStorage.constructor | src/utils/storage.ts:11-51 | an empty storage area |
| Storage.LocalStorage.SaveToStorage | src/utils/storage.ts:11-13 | the key maps to the value afterwards; no other key changes |
| Storage.LocalStorage.RemoveFromStorage | src/utils/storage.ts:49-51 | the key is gone afterwards; no other key changes |
| Storage.LocalStorage.SaveObjectToStorage | src/utils/storage.ts:30-32 | the key maps to the JSON text of the value; no other key changes |
| Storage.LocalStorage.SaveFileToStorage | src/utils/storage.ts:58-73 | `null` removes the key; a file stores the JSON envelope `{name, type, data}` with its data URL; no other key changes |
| Storage.LocalStorage.LoadFileFromStorage | src/utils/storage.ts:80-99 | the result is the decoding of the stored text; the storage is not changed |
| Storage.LocalStorage.ToBytes | src/utils/storage.ts:91-93 | the countdown loop writes every index with the char code of the decoded string, kept to 8 bits |
| Storage.DecodeStoredFile | src/utils/storage.ts:80-99 | `null` exactly when the key is missing or empty, the JSON does not parse, `data` is falsy, or `atob` rejects the payload; a file's type is always a valid `File` type |
| Storage.NormalizeType | src/utils/storage.ts:95 | the `File` constructor's type is valid, and a valid type is kept as it is |
| Storage.SemicolonFrom | src/utils/storage.ts:89 | the first `;` at or after a position that the lazy `.*?` can reach, with no line terminator before it |
| Storage.LoadAfterSave | src/utils/storage.ts:11-23 | a load after a save gives the value, or the default when the value is empty |
| Storage.RemoveIdempotent | src/utils/storage.ts:49-51 | removing twice is removing once, and a later load gives the default |
| Storage.LoadObjectAfterSave | src/utils/storage.ts:30-43 | an object saved as JSON loads back unchanged |
| Storage.SemicolonFromFirst | src/utils/storage.ts:89 | a reachable `;` with none before it is the one found |
| Storage.MatchMimeOfHeader | src/utils/storage.ts:89 | in `data:<type>;…` the regular expression captures exactly the type |
| Storage.NoCommaInEncoding | src/utils/storage.ts:64-88 | base 64 text holds no comma, so the data URL has one comma only |
| Storage.SplitDataUrl | src/utils/storage.ts:88-90 | the split gives the header `data:<type>;base64` and the base 64 payload |
| Storage.ByteValuesOfLatin1 | src/utils/storage.ts:90-93 | filling bytes from the binary string of a byte sequence gives that sequence back |
| Storage.EnvelopeMembers | src/utils/storage.ts:66-85 | the stored envelope parses back, and `name`, `type` and `data` are its three members |
| Storage.DecodeEnvelope | src/utils/storage.ts:64-95 | the saved envelope of a file loads back with its name and bytes and the media type taken from the header |
| Storage.LoadFileAfterSave | src/utils/storage.ts:58-99 | a file saved then loaded is the same file (name, type and bytes, the empty file included) when its type holds neither `,` nor `;` |
| Storage.MimeOfPlainType | src/utils/storage.ts:89-95 | a type without parameters is the type the file gets |
| Storage.MimeOfParameters | src/utils/storage.ts:89-95 | a type with parameters yields only its part before the first `;` |
| Storage.LoadFileDropsParameters | src/utils/storage.ts:58-99 | a file of type `audio/webm;codecs=opus` loads back as `audio/webm`, with the same name and bytes |
| Storage.LoadFileAfterRemove | src/utils/storage.ts:59-82 | after saving `null` the load gives `null` |
| Storage.CommalessDataFails | src/utils/storage.ts:88-98 | data without a comma makes `atob(undefined)` throw, so the load gives `null` |
| Storage.UndefinedIsNotBase64 | src/utils/storage.ts:90 | `"undefined"` is not valid base 64, since its length is 1 modulo 4 |
| Storage.PayloadOfCommaType | src/utils/storage.ts:88-90 | for a media type holding one comma, `data.split(',')[1]` is the text after that comma followed by `;base64` |
| Storage.CommaPayloadRejected | src/utils/storage.ts:88-90 | that payload holds a `;`, so `atob` throws |
| Storage.LoadFileCommaInType | src/utils/storage.ts:58-99 | a file whose media type holds one comma is saved, but loading it gives `null` |
| Base64.Sextets | src/utils/storage.ts:64-72 | the 6-bit groups have the length section 4 of RFC 4648 gives, never 1 modulo 4 |
| Base64.Encode | src/api/elevenlabsApi.unified.ts:186 | the padded encoding is four characters for each started group of three bytes |
| Base64.FromSextetsOfSextets | src/utils/storage.ts:90 | regrouping 6-bit groups into bytes inverts the split |
| Base64.NoWhitespaceInEncoding | src/utils/storage.ts:90 | the forgiving decoder removes nothing from an encoding |
| Base64.StripPaddingOfEncoding | src/utils/storage.ts:90 | removing the padding leaves exactly the alphabet letters |
| Base64.ValuesOfLetters | src/utils/storage.ts:90 | every letter written is in the alphabet and reads back as its value |
| Base64.DecodeEncode | src/utils/storage.ts:64-90 | `atob` of an encoding gives back the bytes, the empty input included |
| Base64.LoneSextetRejected | src/utils/storage.ts:90 | `atob` throws for a text without whitespace whose length is 1 modulo 4 |
| Base64.ForeignCharRejected | src/utils/storage.ts:90 | `atob` throws for a text with a character that is neither whitespace, `=` nor in the alphabet |
| Base64.Btoa | src/api/elevenlabsApi.unified.ts:186 | `btoa` succeeds exactly when every code unit is below 256 |
| Base64.BtoaLatin1 | src/api/elevenlabsApi.unified.ts:183-186 | `btoa` of a binary string is the encoding of its bytes |
| Base64.Atob | src/utils/storage.ts:90 | `atob` succeeds exactly when the decode does, and gives one code unit per byte |
| Json.ParseStringify | src/utils/storage.ts:30-43 | `JSON.parse(JSON.stringify(j))` is `j` |
| Json.ParseStringified | src/utils/storage.ts:30-43 | the text of any value parses back to it, followed by whatever may follow a value |
| Json.ParseEscape | src/utils/storage.ts:30-43 | an escaped string literal decodes to the original string |
| Json.ParseInt | src/contexts/GenerationHistoryContext.tsx:37-47 | a written integer parses back to it |
| Json.LastField | src/utils/storage.ts:85 | the member found is the last one with that key (no later member has it), which is the value `JSON.parse` keeps for a duplicate key; none is found only when no member has the key |
| Json.MemberOfDistinct | src/utils/storage.ts:85 | in an object with distinct keys every member is found under its own key |
| History.PrependShape | src/contexts/GenerationHistoryContext.tsx:53-60 | after an add the list has `min(n+1, 50)` entries, the new entry first, then the newest `min(n, 49)` old ones in their order |
| History.RemoveExactly | src/contexts/GenerationHistoryContext.tsx:63-65 | removal keeps exactly the entries with another id, never lengthens the list, and leaves it unchanged for an unknown id |
| History.RemoveKeepsOrder | src/contexts/GenerationHistoryContext.tsx:64 | removal from a concatenation is the concatenation of the removals, so the order of the kept entries holds |
| History.RemoveUndoesPrepend | src/contexts/GenerationHistoryContext.tsx:53-65 | removing an entry just added with a fresh id gives back the old list, cut to 49 entries |
| History.BoundKept | src/contexts/GenerationHistoryContext.tsx:60-68 | a list of at most 50 entries stays within 50 after an add or a removal |
| History.ItemsJson | src/contexts/GenerationHistoryContext.tsx:47 | one JSON object per entry, in list order |
| History.FillAppend | src/contexts/GenerationHistoryContext.tsx:37 | reading members one after another: a split list reads the first part, then the second |
| History.SlotsOfItemJson | src/contexts/GenerationHistoryContext.tsx:37-47 | reading the object written for an entry finds each of its fields |
| History.ItemOfItemJson | src/contexts/GenerationHistoryContext.tsx:37-47 | an entry written as JSON reads back as the same entry |
| History.ItemsOfItemsJson | src/contexts/GenerationHistoryContext.tsx:37-47 | a list written as JSON reads back as the same list |
| History.LoadSerialized | src/contexts/GenerationHistoryContext.tsx:33-51 | mounting restores the saved list whole, without truncation |
| History.HistoryStore.constructor | src/contexts/GenerationHistoryContext.tsx:30 | the first render starts from an empty list |
| History.HistoryStore.Mount | src/contexts/GenerationHistoryContext.tsx:33-51 | the list becomes the stored one (empty when missing, empty or malformed), and the stored copy is its serialisation |
| History.HistoryStore.AddToHistory | src/contexts/GenerationHistoryContext.tsx:45-61 | the list is the new entry, with the given id and time, in front of the old one, cut to 50; the stored copy is its serialisation |
| History.HistoryStore.RemoveFromHistory | src/contexts/GenerationHistoryContext.tsx:45-65 | the list drops the entries with the id; the stored copy is its serialisation |
| History.HistoryStore.ClearHistory | src/contexts/GenerationHistoryContext.tsx:45-69 | the list is empty and so is the stored copy |
| Language.InitialLanguage | src/contexts/LanguageContext.tsx:191-194 | German exactly when the stored preference is `de` |
| Language.RestoreStoredLanguage | src/contexts/LanguageContext.tsx:191-213 | a stored language name restores that language |
| Language.UnknownPreferenceIsEnglish | src/contexts/LanguageContext.tsx:191-194 | any other stored value, or none, restores English |
| Language.Lookup | src/contexts/LanguageContext.tsx:197 | a present non-empty entry is returned; a missing key, or a present empty entry, gives the key itself; the result is empty only for the empty key |
| Language.TranslateWithoutParams | src/contexts/LanguageContext.tsx:196-207 | without parameters, or with none in the record, `t` is the lookup |
| Language.ApplyParamsAppend | src/contexts/LanguageContext.tsx:200-204 | parameters apply in entry order: a split record applies its first part, then its second |
| Language.OneParamSplices | src/contexts/LanguageContext.tsx:202 | a parameter replaces only the first `{name}`; later ones are kept |
| Language.AbsentParamIgnored | src/contexts/LanguageContext.tsx:202 | a parameter whose placeholder does not occur changes nothing |
| Language.PlaceholderSplice | src/contexts/LanguageContext.tsx:202 | a placeholder after a prefix without `{` is replaced by a value without `$` |
| Language.CostTemplateFilled | src/contexts/LanguageContext.tsx:202 | the English cost template with 5 filled in reads `Cost: 5 credits` |
| Language.IsolatorCostEntry | src/contexts/LanguageContext.tsx:60 | the English entry for `voice_isolator.cost` is `Cost: {0} credits` |
| Language.IsolatorCostText | src/contexts/LanguageContext.tsx:196-207 | `t('voice_isolator.cost', {'0': 5})` in English is `Cost: 5 credits` |
| Language.LanguageProvider.constructor | src/contexts/LanguageContext.tsx:191-194 | the language is the one restored from the stored preference |
| Language.LanguageProvider.T | src/contexts/LanguageContext.tsx:196-207 | the loop gives the lookup in the current table with each parameter applied in turn |
| Language.LanguageProvider.SetLanguage | src/contexts/LanguageContext.tsx:210-213 | the language changes, exactly its name is stored, and a later start restores it |
| JsString.IndexOf | src/contexts/LanguageContext.tsx:202 | the first occurrence of the pattern, or none anywhere |
| JsString.ReplaceFirstSplices | src/contexts/LanguageContext.tsx:202 | `replace` with a string pattern splices a `$`-free value in at the first occurrence only |
| JsString.ExpandPlain | src/contexts/LanguageContext.tsx:202 | a replacement without `$` is inserted as it is |
| JsString.Substring | src/pages/text-to-speech.tsx:146 | within bounds `substring` is the slice |
| JsString.ToLowerAscii | src/pages/text-to-speech.tsx:320 | every code unit is lower-cased where it is an ASCII capital |
| JsString.TrimEmptyIffBlank | src/pages/text-to-speech.tsx:241 | the trimmed text is empty exactly when every code unit is white space |
| JsString.Split | src/utils/storage.ts:88 | `split` on one character gives at least one part, none holding the separator, and the parts joined by the separator give the text back |
| JsString.SplitOnce | src/utils/storage.ts:88 | text with one separator splits into its two sides |
| JsString.SplitPrefix | src/utils/storage.ts:88 | a separator-free text followed by the separator becomes the first part, and the rest splits on its own |
| JsString.SplitNone | src/utils/storage.ts:88 | text without the separator splits into itself |
| Seqs.FilterAppend | src/contexts/GenerationHistoryContext.tsx:64 | `filter` of a concatenation is the concatenation of the filters |
| Seqs.FilterAll | src/contexts/GenerationHistoryContext.tsx:64 | a filter every element passes removes nothing |
| Seqs.FilterSplitsLength | src/contexts/GenerationHistoryContext.tsx:64 | kept and dropped elements together are as many as the input |
| Api.Ceil | src/api/elevenlabsApi.unified.ts:33-61 | `Math.ceil`: the least integer not below its argument |
| Api.TextToSpeechCost | src/api/elevenlabsApi.unified.ts:30-34 | the cost of a text is its length in code units |
| Api.SpeechToSpeechCost | src/api/elevenlabsApi.unified.ts:55-62 | the cost is `seconds * 1000 / 60` rounded up |
| Api.VoiceIsolationCost | src/api/elevenlabsApi.unified.ts:41-48 | the cost is `seconds * 1000 / 60` rounded up |
| Api.VoiceIsolationIsSpeechToSpeech | src/api/elevenlabsApi.unified.ts:41-62 | the two duration rules agree on every duration |
| Api.SpeechToSpeechCostValues | src/api/elevenlabsApi.unified.ts:55-62 | 0 seconds cost 0, 60 seconds cost 1000, 3 seconds cost 50 |
| Api.SpeechToSpeechCostMonotone | src/api/elevenlabsApi.unified.ts:55-62 | a longer recording never costs less |
| Api.SoundFXCost | src/api/elevenlabsApi.unified.ts:449-468 | automatic duration costs 100 a variation; otherwise `20 * duration * variations` rounded up |
| Api.SoundFXCostIgnoresText | src/api/elevenlabsApi.unified.ts:449-468 | the prompt text plays no part in the cost |
| Api.ValidateApiKey | src/api/elevenlabsApi.unified.ts:99-122 | valid exactly for an answer other than 401 and 403; a network failure is invalid |
| Api.VoicesErrorMessage | src/api/elevenlabsApi.unified.ts:138-142 | a truthy `detail.message` is reported; any other body, and an unreadable one, gives `Failed to fetch voices` |
| Api.ConvertErrorMessage | src/api/elevenlabsApi.unified.ts:222-233 | the whole chain: a truthy `detail.message` is reported as its string, otherwise a string `detail` (even an empty one), otherwise `Failed to convert audio`, which an unreadable body also gives |
| Api.ErrorChainsCompared | src/api/elevenlabsApi.unified.ts:138-142 | a string `detail` is reported by the conversion chain but not by the voices chain; both report a non-empty `detail.message` |
| Api.ReplyErrorMessage | src/api/elevenlabsApi.unified.ts:287-290 | the property read throws exactly for a `null` body; an array or object body with a truthy `detail` reports that `detail` after the prefix; a buffer or any other body reports the error's own message |
| Api.IsolateVoice | src/api/elevenlabsApi.unified.ts:252-294 | success exactly for a 200 reply, whose body becomes `audio/mpeg` audio; another status reports its text; an HTTP error with a reply reports that reply's message; an error without a reply is passed on |
| Api.FindVoice | src/pages/text-to-speech.tsx:266 | the voice found has the id and is in the list, and it is the first voice with that id; none is found exactly when no voice has the id |
| Api.NumVariations | src/api/elevenlabsApi.unified.ts:299 | a missing or zero count means 4; any other count is kept |
| Api.KeptAreAudio | src/api/elevenlabsApi.unified.ts:335-338 | every reply the filter keeps is binary audio |
| Api.VariationsAreAudioReplies | src/api/elevenlabsApi.unified.ts:333-344 | the variations are exactly the binary replies, in the order the requests were issued |
| Api.GenerateSoundFX | src/api/elevenlabsApi.unified.ts:296-367 | `num_variations \|\| 4` identical requests with defaulted model and format; any rejection fails the call with that rejection's message; otherwise the audio replies in order, or failure when there are none |
| Api.TextToSpeechRequest | src/api/elevenlabsApi.unified.ts:158-178 | the request carries the text and voice with the fixed model and voice settings |
| Api.BinaryString | src/api/elevenlabsApi.unified.ts:181-185 | one code unit per byte, code unit `i` equal to byte `i` |
| Api.TextToSpeechAudio | src/api/elevenlabsApi.unified.ts:181-187 | the audio is the base 64 encoding of the reply's bytes and decodes back to them |
| TextToSpeechPage.InsertAtSplices | src/pages/text-to-speech.tsx:141-148 | a selection is replaced by the inserted text, both sides kept; the length changes by the insertion minus the selection |
| TextToSpeechPage.DeliveryInsertion | src/pages/text-to-speech.tsx:162-172 | a non-empty delivery inserts itself and a space; the empty choice inserts nothing |
| TextToSpeechPage.EffectInsertion | src/pages/text-to-speech.tsx:175-183 | an effect other than empty and `none` inserts `[effect] `; those two insert nothing |
| TextToSpeechPage.FilteredVoicesExactly | src/pages/text-to-speech.tsx:320 | the list shown keeps exactly the voices whose lower-cased name lacks `hidden`, in order |
| TextToSpeechPage.HiddenInAnyCase | src/pages/text-to-speech.tsx:320 | `hidden` in any letter case hides the voice |
| TextToSpeechPage.RestoredUseV3Iff | src/pages/text-to-speech.tsx:195 | the switch restores on exactly when `true` is stored |
| TextToSpeechPage.BoolText | src/pages/text-to-speech.tsx:230 | the text is `true` exactly for true |
| TextToSpeechPage.UseV3RoundTrip | src/pages/text-to-speech.tsx:195-230 | a saved switch setting restores to the same setting |
| TextToSpeechPage.CheckedVoice | src/pages/text-to-speech.tsx:212-215 | the selection is cleared exactly when a saved voice is missing from the list |
| TextToSpeechPage.MayGenerateIff | src/pages/text-to-speech.tsx:241-244 | a request goes out exactly with a key, a voice and a text that is not all white space |
| TextToSpeechPage.RequestedEffect | src/pages/text-to-speech.tsx:258-274 | the effect is passed exactly with the newer model and an effect other than `none` |
| TextToSpeechPage.TextToSpeechPage.constructor | src/pages/text-to-speech.tsx:93-104 | the first render's state |
| TextToSpeechPage.TextToSpeechPage.Mount | src/pages/text-to-speech.tsx:185-235 | with a key the text, voice, switch, effect and audio are restored; the setting effects store the switch and effect at the end, with or without a key |
| TextToSpeechPage.TextToSpeechPage.SaveSettings | src/pages/text-to-speech.tsx:229-235 | the switch and effect keys end up holding the current settings |
| TextToSpeechPage.TextToSpeechPage.Restore | src/pages/text-to-speech.tsx:191-203 | each setting is loaded from its key with its default; stored audio replaces the current audio |
| TextToSpeechPage.TextToSpeechPage.VoicesLoaded | src/pages/text-to-speech.tsx:206-222 | loading ends; a list replaces the voices and drops a missing saved voice; a failure changes neither |
| TextToSpeechPage.TextToSpeechPage.EditText | src/pages/text-to-speech.tsx:424-427 | the text is set and saved |
| TextToSpeechPage.TextToSpeechPage.SelectVoice | src/pages/text-to-speech.tsx:371-374 | the voice is selected and saved |
| TextToSpeechPage.TextToSpeechPage.SetUseV3 | src/pages/text-to-speech.tsx:343-350 | the switch is set and saved; switching off resets delivery and effect, and saves `none` when the effect changed |
| TextToSpeechPage.TextToSpeechPage.InsertAtCursor | src/pages/text-to-speech.tsx:141-159 | the selection is replaced and the caret put after the insertion; without the text area nothing changes |
| TextToSpeechPage.TextToSpeechPage.HandleVocalDeliveryChange | src/pages/text-to-speech.tsx:162-172 | a non-empty delivery is inserted and the choice reset to empty; the empty choice leaves the text |
| TextToSpeechPage.TextToSpeechPage.HandleSoundEffectChange | src/pages/text-to-speech.tsx:175-235 | an effect tag is inserted and the choice reset to `none`; otherwise the choice is kept; a changed non-empty choice is saved |
| TextToSpeechPage.TextToSpeechPage.Generate | src/pages/text-to-speech.tsx:240-285 | a call goes out exactly when the guard passes, with the page's arguments; on success the data URL is kept, saved and added to the history when the voice is listed; `isGenerating` ends false |
| VoiceIsolatorPage.CheckUpload | src/pages/voice-isolator.tsx:139-155 | accepted exactly for a first file that is audio and at most 10 MiB; no file and non-audio are told apart |
| VoiceIsolatorPage.SizeLimitInclusive | src/pages/voice-isolator.tsx:152-155 | exactly 10 MiB is accepted, one byte more is not |
| VoiceIsolatorPage.LoadProcessed | src/pages/voice-isolator.tsx:38-41 | a stored empty string loads as `null`; a loaded URL is never empty |
| VoiceIsolatorPage.ProcessedRoundTrip | src/pages/voice-isolator.tsx:30-41 | a saved URL loads back, `null` and `''` both as `null`; no other key changes |
| VoiceIsolatorPage.InputLabel | src/pages/voice-isolator.tsx:205 | the file name, or `Audio file` for an empty name |
| VoiceIsolatorPage.VoiceIsolatorPage.constructor | src/pages/voice-isolator.tsx:51-60 | the file and processed audio come from storage; the rest starts empty |
| VoiceIsolatorPage.VoiceIsolatorPage.Mount | src/pages/voice-isolator.tsx:101-104 | a restored audio file gets its object URL |
| VoiceIsolatorPage.VoiceIsolatorPage.DurationKnown | src/pages/voice-isolator.tsx:107-164 | the duration and its isolation cost are kept |
| VoiceIsolatorPage.VoiceIsolatorPage.SetAudioFile | src/pages/voice-isolator.tsx:65-76 | the file is set and saved; the player URL exists exactly for an audio file |
| VoiceIsolatorPage.VoiceIsolatorPage.SetProcessedAudioUrl | src/pages/voice-isolator.tsx:30-81 | the URL is set; a URL is saved, `null` removes the key |
| VoiceIsolatorPage.VoiceIsolatorPage.HandleFileChange | src/pages/voice-isolator.tsx:139-170 | a rejected upload changes nothing; an accepted one becomes the saved file and clears the processed audio |
| VoiceIsolatorPage.VoiceIsolatorPage.ClearAudioFile | src/pages/voice-isolator.tsx:173-182 | file, both URLs, duration and cost are reset; file and processed audio are removed from storage |
| VoiceIsolatorPage.VoiceIsolatorPage.HandleIsolateVoice | src/pages/voice-isolator.tsx:186-217 | no file means no request; on success the URL is saved and added to the history; `isProcessing` ends false |
| SpeechToSpeechPage.LoadInputMode | src/pages/speech-to-speech.tsx:59-62 | recording exactly when `record` is stored |
| SpeechToSpeechPage.InputModeRoundTrip | src/pages/speech-to-speech.tsx:55-62 | a saved mode restores to that mode |
| SpeechToSpeechPage.ConvertedRoundTrip | src/pages/speech-to-speech.tsx:43-53 | saved audio loads back verbatim, `null` and `''` as `null`; no other key changes |
| SpeechToSpeechPage.InputLabel | src/pages/speech-to-speech.tsx:319 | the file name, or `Recorded audio` for an empty name |
| SpeechToSpeechPage.StopAsWrittenKeepsStream | src/pages/speech-to-speech.tsx:98-114 | a recording whose conversion rejects leaves the microphone held |
| SpeechToSpeechPage.Stop | src/pages/speech-to-speech.tsx:98-114 | the stream is always released, and the file handed on is the handler's |
| SpeechToSpeechPage.StopOutcomes | src/pages/speech-to-speech.tsx:99-109 | a non-empty recording becomes `recording.wav` of type `audio/wav`; an empty one is `null` |
| SpeechToSpeechPage.StopAlwaysReleases | src/pages/speech-to-speech.tsx:98-114 | the corrected handler releases on every path and agrees with the handler as written wherever that releases |
| SpeechToSpeechPage.TotalSizeZero | src/pages/speech-to-speech.tsx:92-100 | with only non-empty chunks kept, the recording is empty exactly when no chunk arrived |
| SpeechToSpeechPage.AudioRecorder.constructor | src/pages/speech-to-speech.tsx:66-71 | a given non-empty initial URL is shown; nothing is recording |
| SpeechToSpeechPage.AudioRecorder.StartRecording | src/pages/speech-to-speech.tsx:83-122 | URL and chunks are cleared; recording starts exactly when the microphone is granted |
| SpeechToSpeechPage.AudioRecorder.OnDataAvailable | src/pages/speech-to-speech.tsx:92-96 | non-empty chunks are appended, empty ones dropped |
| SpeechToSpeechPage.AudioRecorder.StopRecording | src/pages/speech-to-speech.tsx:124-129 | the recorder is stopped exactly when it exists and is recording |
| SpeechToSpeechPage.AudioRecorder.OnStop | src/pages/speech-to-speech.tsx:98-114 | the file handed on is the corrected handler's, the URL follows it, and the stream is released |
| SpeechToSpeechPage.AudioRecorder.ClearAudio | src/pages/speech-to-speech.tsx:131-135 | the URL is cleared, recording is off and `null` is handed on |
| SpeechToSpeechPage.SpeechToSpeechPage.constructor | src/pages/speech-to-speech.tsx:173-191 | file, voice, converted audio and mode come from storage; the rest starts empty |
| SpeechToSpeechPage.SpeechToSpeechPage.AudioFileEffect | src/pages/speech-to-speech.tsx:234-236 | an audio file gets its object URL |
| SpeechToSpeechPage.SpeechToSpeechPage.DurationKnown | src/pages/speech-to-speech.tsx:239-242 | the duration and its conversion cost are kept |
| SpeechToSpeechPage.SpeechToSpeechPage.VoicesLoaded | src/pages/speech-to-speech.tsx:258-274 | loading ends; only a success sets the voices and marks them loaded |
| SpeechToSpeechPage.SpeechToSpeechPage.SetAudioFile | src/pages/speech-to-speech.tsx:194-202 | the file is set and saved; the player URL exists exactly for an audio file |
| SpeechToSpeechPage.SpeechToSpeechPage.SetSelectedVoice | src/pages/speech-to-speech.tsx:203-206 | the voice is set and saved |
| SpeechToSpeechPage.SpeechToSpeechPage.SetConvertedAudio | src/pages/speech-to-speech.tsx:207-210 | the audio is set; non-empty audio is saved verbatim, otherwise the key is removed |
| SpeechToSpeechPage.SpeechToSpeechPage.SetInputMode | src/pages/speech-to-speech.tsx:211-214 | the mode is set and its name saved |
| SpeechToSpeechPage.SpeechToSpeechPage.HandleFileChange | src/pages/speech-to-speech.tsx:277-284 | the first file becomes the saved source, the converted audio is cleared and the mode is upload; no file changes nothing |
| SpeechToSpeechPage.SpeechToSpeechPage.ClearAudioFile | src/pages/speech-to-speech.tsx:287-293 | file, converted audio, player URL, duration and cost are reset; file and converted audio are removed from storage |
| SpeechToSpeechPage.SpeechToSpeechPage.ChooseMode | src/pages/speech-to-speech.tsx:452-471 | the mode is set and saved, then the source is cleared |
| SpeechToSpeechPage.SpeechToSpeechPage.OnAudioReady | src/pages/speech-to-speech.tsx:194-210 | the recording (or `null`) becomes the saved source and the converted audio is cleared |
| SpeechToSpeechPage.SpeechToSpeechPage.HandleConvert | src/pages/speech-to-speech.tsx:296-333 | a call goes out exactly with a key, a voice and a file; on success the base 64 audio is kept and saved, and the history gets it as a data URL when the voice is listed; `isGenerating` ends false |

## Left out

- HTTP: every `fetch` and `axios` request. The remote service's behaviour is not modelled; each reply is an input.
- `FileReader` runs asynchronously; the model writes the envelope at once, as its completion would.
- Duration probing through `Audio` and `loadedmetadata`: the duration is an input of `DurationKnown`.
- Durations are exact reals, not floating-point numbers.
- `getUserMedia`, `MediaRecorder`, `AudioContext.decodeAudioData` and the WAV conversion library are not modelled: permission, chunks and the converted bytes are inputs.
- `URL.createObjectURL` and `revokeObjectURL`: object URLs are inputs, and revoking is not modelled.
- Toasts, logging, navigation and rendering are not modelled, nor the voice previews, stability sliders and downloads.
- The top-level `calculateSoundFXCost` (src/api/elevenlabsApi.unified.ts:71-82) is unused and works with float constants; only the method of `elevenlabsApi` is modelled.
- `speechToSpeech`'s split of the reply's data URL (src/api/elevenlabsApi.unified.ts:414-429): the base 64 audio reaches the page as an input.
- The other API files, components and the speech-to-text page duplicate logic the model already covers, or only render it.
- `Api.GenerateSoundFX`: on a rejection the contract only says that some rejected request's error is reported, because which one wins the `Promise.all` race depends on timing.
- JSON: fractions, exponents and `\u` escapes of surrogates do not parse in this model. Lone surrogates cannot be written, so strings are sequences of valid code units only.
- `History.ItemJson`: key order. The model writes the members in a fixed order (type, input, voiceName, audioUrl, model, emotion, soundEffect, id, timestamp). JavaScript follows the order of each page's object literal, with `id` and `timestamp` added after the page's own fields, except in speech-to-speech entries: that page passes its own `timestamp` (speech-to-speech.tsx:322), the spread keeps that key's place, and `timestamp` comes before `id`.
- A media type with two or more commas: the load decodes the text between the first two commas as the payload. No lemma covers this case. Such a payload can be valid base 64, and then the loaded bytes are not the saved ones.
- `History.LoadedHistory`: stored text that is valid JSON but not a list of entries gives the empty list. JavaScript would keep whatever value was parsed.
- History entries have no `audioBlob`, because no caller sets one.
- `Language.ApplyParams`: parameters are taken in the order given. Object.entries puts integer-like keys first, and that reordering is not modelled. Numeric parameters are integers only.
- `JsString.ToLowerAscii`: only ASCII letters are lower-cased. `toLowerCase` also maps letters beyond ASCII.
- Translation keys that name members of `Object.prototype` are not modelled; they would find a function.
- Storage quota errors are not modelled: `setItem` always succeeds.
- The browser's clamping of the caret to the text is not modelled: the caret is set to `start + |s|`.
- The voice isolator returns before its later hooks when the key is missing (voice-isolator.tsx:122-125). The redirect is not modelled, and neither is the hook-order fault it causes.
- `History.HistoryStore.AddToHistory` and the page actions that call it require a fresh id. This stands for `crypto.randomUUID`, which does not repeat.

## Findings

| source | as written | input that shows it | evidently intended | confidence | as-written member | corrected member |
|---|---|---|---|---|---|---|
| src/pages/speech-to-speech.tsx:98-114 | the stop handler awaits the WAV conversion before it stops the microphone tracks; a rejection skips the release | a non-empty recording (blob size > 0) whose conversion rejects | the microphone stream is released on every path | not executed | SpeechToSpeechPage.StopAsWritten | SpeechToSpeechPage.Stop |

`SpeechToSpeechPage.StopAsWrittenKeepsStream` exhibits the case. `SpeechToSpeechPage.StopAlwaysReleases` proves that the corrected handler releases the stream and otherwise agrees with the handler as written. `SpeechToSpeechPage.AudioRecorder.OnStop` uses the corrected handler.

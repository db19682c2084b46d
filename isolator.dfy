/** The voice isolator page: the uploaded file and the processed audio
    kept in local storage, the upload checks, and the isolate action. */
module VoiceIsolatorPage {
  import opened Wrappers
  import Storage
  import Api
  import History

  const AudioFileKey := "voice_isolator_audio_file"
  const ProcessedAudioKey := "voice_isolator_processed_audio"

  /** The largest file accepted: 10 MiB. */
  const MaxFileSize := 10 * 1024 * 1024

  /** Why an upload is turned away, `None` when it is accepted. */
  datatype Rejection = NoFile | NotAudio | TooLarge

  function CheckUpload(files: seq<Storage.File>): (r: Option<Rejection>)
    ensures r.None? <==> |files| > 0 && Storage.IsAudio(files[0]) && |files[0].bytes| <= MaxFileSize
    ensures r == Some(NoFile) <==> files == []
    ensures files != [] && !Storage.IsAudio(files[0]) ==> r == Some(NotAudio)
  {
    if |files| == 0 then Some(NoFile)
    else if !Storage.IsAudio(files[0]) then Some(NotAudio)
    else if |files[0].bytes| > MaxFileSize then Some(TooLarge)
    else None
  }

  /** The size limit is inclusive: an audio file of exactly 10 MiB is
      accepted, one byte more is not. */
  lemma SizeLimitInclusive(f: Storage.File, g: Storage.File)
    requires Storage.IsAudio(f) && |f.bytes| == MaxFileSize
    requires Storage.IsAudio(g) && |g.bytes| == MaxFileSize + 1
    ensures CheckUpload([f]).None?
    ensures CheckUpload([g]) == Some(TooLarge)
  {
  }

  /** `loadProcessedAudioFromStorage()`: `saved || null`. */
  function LoadProcessed(store: Storage.Store): (r: Option<string>)
    ensures r.Some? ==> r.value != ""
    ensures Storage.GetItem(store, ProcessedAudioKey) == Some("") ==> r.None?
  {
    var saved := Storage.LoadFromStorage(store, ProcessedAudioKey, "");
    if saved != "" then Some(saved) else None
  }

  /** The store after `saveProcessedAudioToStorage(url)`: a URL is kept,
      `null` and the empty string remove the key. */
  function SaveProcessed(store: Storage.Store, url: Option<string>): Storage.Store {
    if url.Some? && url.value != "" then store[ProcessedAudioKey := url.value] else store - {ProcessedAudioKey}
  }

  /** What is saved is what a later mount loads: `null` and `''` both as
      `null`. */
  lemma ProcessedRoundTrip(store: Storage.Store, url: Option<string>)
    ensures LoadProcessed(SaveProcessed(store, url)) == if url == Some("") then None else url
    ensures forall k :: k != ProcessedAudioKey ==> Storage.GetItem(SaveProcessed(store, url), k) == Storage.GetItem(store, k)
  {
  }

  /** `audioFile.name || 'Audio file'`. */
  function InputLabel(name: string): (r: string)
    ensures r != ""
    ensures name != "" ==> r == name
    ensures name == "" ==> r == "Audio file"
  {
    if name != "" then name else "Audio file"
  }

  class VoiceIsolatorPage {
    const apiKey: string
    var isProcessing: bool
    var audioFile: Option<Storage.File>
    var processedAudioUrl: Option<string>
    var originalAudioUrl: Option<string>
    var audioDuration: Option<real>
    var estimatedCost: Option<int>
    const storage: Storage.LocalStorage
    const history: History.HistoryStore

    /** The first render: the file and the processed audio come from
        storage. */
    constructor (apiKey: string, storage: Storage.LocalStorage, history: History.HistoryStore)
      ensures this.apiKey == apiKey && this.storage == storage && this.history == history
      ensures audioFile == Storage.DecodeStoredFile(Storage.GetItem(storage.items, AudioFileKey))
      ensures processedAudioUrl == LoadProcessed(storage.items)
      ensures !isProcessing && originalAudioUrl.None? && audioDuration.None? && estimatedCost.None?
    {
      this.apiKey := apiKey;
      this.storage := storage;
      this.history := history;
      isProcessing := false;
      originalAudioUrl, audioDuration, estimatedCost := None, None, None;
      new;
      audioFile := storage.LoadFileFromStorage(AudioFileKey);
      processedAudioUrl := LoadProcessed(storage.items);
    }

    /** The mount effect: a restored audio file gets an object URL for the
        player. */
    method Mount(objectUrl: string)
      modifies this
      ensures originalAudioUrl == if audioFile.Some? && Storage.IsAudio(audioFile.value) then Some(objectUrl) else old(originalAudioUrl)
      ensures audioFile == old(audioFile) && processedAudioUrl == old(processedAudioUrl) && isProcessing == old(isProcessing)
    {
      if audioFile.Some? && Storage.IsAudio(audioFile.value) {
        originalAudioUrl := Some(objectUrl);
      }
    }

    /** The end of the duration probe: the duration and its cost. */
    method DurationKnown(seconds: real)
      modifies this
      ensures audioDuration == Some(seconds) && estimatedCost == Some(Api.VoiceIsolationCost(seconds))
      ensures audioFile == old(audioFile) && processedAudioUrl == old(processedAudioUrl) && originalAudioUrl == old(originalAudioUrl)
      ensures isProcessing == old(isProcessing)
    {
      audioDuration := Some(seconds);
      estimatedCost := Some(Api.VoiceIsolationCost(seconds));
    }

    /** The persistent `setAudioFile`: kept, saved, and given an object
        URL when it is audio. */
    method SetAudioFile(file: Option<Storage.File>, objectUrl: string)
      modifies this, storage
      ensures audioFile == file
      ensures storage.items == Storage.StoreFile(old(storage.items), AudioFileKey, file)
      ensures originalAudioUrl == if file.Some? && Storage.IsAudio(file.value) then Some(objectUrl) else None
      ensures processedAudioUrl == old(processedAudioUrl) && isProcessing == old(isProcessing)
      ensures audioDuration == old(audioDuration) && estimatedCost == old(estimatedCost)
    {
      audioFile := file;
      storage.SaveFileToStorage(AudioFileKey, file);
      if file.Some? && Storage.IsAudio(file.value) {
        originalAudioUrl := Some(objectUrl);
      } else {
        originalAudioUrl := None;
      }
    }

    /** The persistent `setProcessedAudioUrl`. */
    method SetProcessedAudioUrl(url: Option<string>)
      modifies this, storage
      ensures processedAudioUrl == url
      ensures storage.items == SaveProcessed(old(storage.items), url)
      ensures audioFile == old(audioFile) && originalAudioUrl == old(originalAudioUrl) && isProcessing == old(isProcessing)
      ensures audioDuration == old(audioDuration) && estimatedCost == old(estimatedCost)
    {
      processedAudioUrl := url;
      if url.Some? && url.value != "" {
        storage.SaveToStorage(ProcessedAudioKey, url.value);
      } else {
        storage.RemoveFromStorage(ProcessedAudioKey);
      }
    }

    /** `handleFileChange`: a rejected upload changes nothing; an accepted
        one becomes the saved file and clears the processed audio. */
    method HandleFileChange(files: seq<Storage.File>, objectUrl: string)
      modifies this, storage
      ensures CheckUpload(files).Some? ==>
        audioFile == old(audioFile) && processedAudioUrl == old(processedAudioUrl)
        && originalAudioUrl == old(originalAudioUrl) && storage.items == old(storage.items)
      ensures CheckUpload(files).None? ==>
        audioFile == Some(files[0]) && processedAudioUrl.None? && originalAudioUrl == Some(objectUrl)
        && storage.items == SaveProcessed(Storage.StoreFile(old(storage.items), AudioFileKey, Some(files[0])), None)
      ensures isProcessing == old(isProcessing) && audioDuration == old(audioDuration) && estimatedCost == old(estimatedCost)
    {
      if CheckUpload(files).Some? {
        return;
      }
      SetAudioFile(Some(files[0]), objectUrl);
      SetProcessedAudioUrl(None);
    }

    /** `clearAudioFile`: file, both URLs, duration and cost reset, the
        file and processed audio removed from storage. */
    method ClearAudioFile()
      modifies this, storage
      ensures audioFile.None? && processedAudioUrl.None? && originalAudioUrl.None?
      ensures audioDuration.None? && estimatedCost.None?
      ensures storage.items == old(storage.items) - {AudioFileKey} - {ProcessedAudioKey}
      ensures isProcessing == old(isProcessing)
    {
      SetAudioFile(None, "");
      SetProcessedAudioUrl(None);
      originalAudioUrl := None;
      audioDuration := None;
      estimatedCost := None;
    }

    /** `handleIsolateVoice` with the reply passed in, and the object URL
        the result would get. Without a file no request is made; on
        success the URL becomes the processed audio and is added to the
        history; processing ends in every case. */
    method HandleIsolateVoice(outcome: Api.AxiosOutcome, blobUrl: string, id: string, now: int) returns (requested: bool)
      requires history.session != storage
      requires forall i :: 0 <= i < |history.history| ==> history.history[i].id != id
      modifies this, storage, history, history.session
      ensures requested <==> audioFile.Some?
      ensures requested ==> !isProcessing
      ensures !requested ==> isProcessing == old(isProcessing)
      ensures !requested || Api.IsolateVoice(outcome).Failure? ==>
        processedAudioUrl == old(processedAudioUrl) && storage.items == old(storage.items)
        && history.history == old(history.history) && history.session.items == old(history.session.items)
      ensures requested && Api.IsolateVoice(outcome).Success? ==>
        processedAudioUrl == Some(blobUrl)
        && storage.items == SaveProcessed(old(storage.items), Some(blobUrl))
        && history.history == History.Prepend(old(history.history), History.HistoryItem(id, now,
          History.Generation(History.VoiceIsolator, InputLabel(audioFile.value.name), None, blobUrl, None, None, None)))
      ensures audioFile == old(audioFile) && originalAudioUrl == old(originalAudioUrl)
    {
      if audioFile.None? {
        return false;
      }
      requested := true;
      isProcessing := true;
      var response := Api.IsolateVoice(outcome);
      if response.Success? {
        SetProcessedAudioUrl(Some(blobUrl));
        history.AddToHistory(
          History.Generation(History.VoiceIsolator, InputLabel(audioFile.value.name), None, blobUrl, None, None, None),
          id, now);
      }
      isProcessing := false;
    }
  }
}

/** The generation history: a newest-first list of past generations,
    capped at 50 entries by `addToHistory`, copied to session storage as
    JSON after every change and read back when the provider mounts. */
module History {
  import opened Wrappers
  import Json
  import Storage
  import Seqs

  const HistoryStorageKey := "voiceAlchemyGenerationHistory"
  const MaxItems := 50

  datatype GenerationType = TextToSpeech | SpeechToSpeech | SoundFx | VoiceIsolator

  function TypeName(t: GenerationType): string {
    match t
    case TextToSpeech => "text-to-speech"
    case SpeechToSpeech => "speech-to-speech"
    case SoundFx => "sound-fx"
    case VoiceIsolator => "voice-isolator"
  }

  function TypeOfName(s: string): (r: Option<GenerationType>)
    ensures r.Some? ==> TypeName(r.value) == s
  {
    if s == "text-to-speech" then Some(TextToSpeech)
    else if s == "speech-to-speech" then Some(SpeechToSpeech)
    else if s == "sound-fx" then Some(SoundFx)
    else if s == "voice-isolator" then Some(VoiceIsolator)
    else None
  }

  /** What a page passes to `addToHistory`: an entry without id and
      timestamp. */
  datatype Generation = Generation(
    kind: GenerationType, input: string, voiceName: Option<string>, audioUrl: string,
    model: Option<string>, emotion: Option<string>, soundEffect: Option<string>)

  /** A stored entry: the page's fields plus the id and the time of the
      addition. */
  datatype HistoryItem = HistoryItem(id: string, timestamp: int, content: Generation)

  // ---------------------------------------------------------------------
  // The list operations

  function Min(a: int, b: int): int {
    if a <= b then a else b
  }

  /** `[newItem, ...prev].slice(0, 50)`. */
  function Prepend(prev: seq<HistoryItem>, newItem: HistoryItem): seq<HistoryItem> {
    ([newItem] + prev)[..Min(|prev| + 1, MaxItems)]
  }

  /** The list after `addToHistory`: the new entry first, then the newest
      49 or fewer of the old ones, in their order. */
  lemma PrependShape(prev: seq<HistoryItem>, newItem: HistoryItem)
    ensures var r := Prepend(prev, newItem);
      |r| == Min(|prev| + 1, MaxItems) && r[0] == newItem && r[1..] == prev[..Min(|prev|, MaxItems - 1)]
  {
    var r := Prepend(prev, newItem);
    assert r[1..] == ([newItem] + prev)[1..Min(|prev| + 1, MaxItems)];
    assert ([newItem] + prev)[1..] == prev;
  }

  predicate NotHasId(id: string, item: HistoryItem) {
    item.id != id
  }

  /** `prev.filter(item => item.id !== id)`. */
  function Remove(prev: seq<HistoryItem>, id: string): seq<HistoryItem> {
    Seqs.Filter(item => NotHasId(id, item), prev)
  }

  /** Removal drops exactly the entries with that id and keeps the rest:
      an unknown id leaves the list as it was. */
  lemma RemoveExactly(prev: seq<HistoryItem>, id: string)
    ensures forall x :: x in Remove(prev, id) <==> x in prev && x.id != id
    ensures |Remove(prev, id)| <= |prev|
    ensures (forall i :: 0 <= i < |prev| ==> prev[i].id != id) ==> Remove(prev, id) == prev
  {
    if forall i :: 0 <= i < |prev| ==> prev[i].id != id {
      Seqs.FilterAll(item => NotHasId(id, item), prev);
    }
  }

  /** Removing after a prefix removes from each part: the relative order
      of the kept entries does not change. */
  lemma RemoveKeepsOrder(a: seq<HistoryItem>, b: seq<HistoryItem>, id: string)
    ensures Remove(a + b, id) == Remove(a, id) + Remove(b, id)
  {
    Seqs.FilterAppend(item => NotHasId(id, item), a, b);
  }

  /** Removing the entry just added, whose id no older entry has, undoes
      the addition except for the truncation at 50 entries. */
  lemma RemoveUndoesPrepend(prev: seq<HistoryItem>, newItem: HistoryItem)
    requires forall i :: 0 <= i < |prev| ==> prev[i].id != newItem.id
    ensures Remove(Prepend(prev, newItem), newItem.id) == prev[..Min(|prev|, MaxItems - 1)]
  {
    var kept := prev[..Min(|prev|, MaxItems - 1)];
    PrependShape(prev, newItem);
    var r := Prepend(prev, newItem);
    assert r == [newItem] + kept;
    RemoveKeepsOrder([newItem], kept, newItem.id);
    assert Remove([newItem], newItem.id) == [] by {
      assert [newItem][1..] == [];
    }
    assert forall x :: x in kept ==> NotHasId(newItem.id, x);
    Seqs.FilterAll(item => NotHasId(newItem.id, item), kept);
  }

  /** A list of at most 50 entries stays that short through every
      operation. */
  lemma BoundKept(prev: seq<HistoryItem>, newItem: HistoryItem, id: string)
    requires |prev| <= MaxItems
    ensures |Prepend(prev, newItem)| <= MaxItems
    ensures |Remove(prev, id)| <= MaxItems
  {
    RemoveExactly(prev, id);
  }

  // ---------------------------------------------------------------------
  // JSON form

  function OptionalField(key: string, v: Option<string>): seq<Json.Field> {
    if v.Some? then [Json.Field(key, Json.JStr(v.value))] else []
  }

  /** The object `JSON.stringify` writes for an entry; `undefined`
      members are left out. */
  function ItemJson(item: HistoryItem): Json.Json {
    var c := item.content;
    Json.JObj(
      [Json.Field("type", Json.JStr(TypeName(c.kind))), Json.Field("input", Json.JStr(c.input))]
      + OptionalField("voiceName", c.voiceName)
      + [Json.Field("audioUrl", Json.JStr(c.audioUrl))]
      + OptionalField("model", c.model)
      + OptionalField("emotion", c.emotion)
      + OptionalField("soundEffect", c.soundEffect)
      + [Json.Field("id", Json.JStr(item.id)), Json.Field("timestamp", Json.JNum(item.timestamp))])
  }

  function ItemsJson(items: seq<HistoryItem>): (r: seq<Json.Json>)
    ensures |r| == |items| && forall i :: 0 <= i < |items| ==> r[i] == ItemJson(items[i])
  {
    seq(|items|, i requires 0 <= i < |items| => ItemJson(items[i]))
  }

  /** The text kept in session storage for a list. */
  function Serialize(history: seq<HistoryItem>): string {
    Json.Stringify(Json.JArr(ItemsJson(history)))
  }

  /** The members of a parsed entry, a later duplicate overriding an
      earlier one as in the object `JSON.parse` builds. */
  datatype Slots = Slots(
    id: Option<Json.Json>, kind: Option<Json.Json>, timestamp: Option<Json.Json>,
    input: Option<Json.Json>, voiceName: Option<Json.Json>, audioUrl: Option<Json.Json>,
    model: Option<Json.Json>, emotion: Option<Json.Json>, soundEffect: Option<Json.Json>)

  const NoSlots := Slots(None, None, None, None, None, None, None, None, None)

  function SetSlot(s: Slots, f: Json.Field): Slots {
    var v := Some(f.value);
    if f.key == "id" then s.(id := v)
    else if f.key == "type" then s.(kind := v)
    else if f.key == "timestamp" then s.(timestamp := v)
    else if f.key == "input" then s.(input := v)
    else if f.key == "voiceName" then s.(voiceName := v)
    else if f.key == "audioUrl" then s.(audioUrl := v)
    else if f.key == "model" then s.(model := v)
    else if f.key == "emotion" then s.(emotion := v)
    else if f.key == "soundEffect" then s.(soundEffect := v)
    else s
  }

  function Fill(s: Slots, fields: seq<Json.Field>): Slots
    decreases |fields|
  {
    if fields == [] then s else Fill(SetSlot(s, fields[0]), fields[1..])
  }

  lemma {:induction false} FillAppend(s: Slots, a: seq<Json.Field>, b: seq<Json.Field>)
    ensures Fill(s, a + b) == Fill(Fill(s, a), b)
    decreases |a|
  {
    if a == [] {
      assert a + b == b;
    } else {
      assert (a + b)[1..] == a[1..] + b;
      FillAppend(SetSlot(s, a[0]), a[1..], b);
    }
  }

  function AsString(v: Option<Json.Json>): Option<string> {
    if v.Some? && v.value.JStr? then Some(v.value.s) else None
  }

  /** An optional member: absent, or a string. */
  function AsOptionalString(v: Option<Json.Json>): Option<Option<string>> {
    if v.None? then Some(None)
    else if v.value.JStr? then Some(Some(v.value.s))
    else None
  }

  function ItemOfSlots(s: Slots): Option<HistoryItem> {
    var id, kindName, input, audioUrl := AsString(s.id), AsString(s.kind), AsString(s.input), AsString(s.audioUrl);
    var voiceName, model, emotion, soundEffect :=
      AsOptionalString(s.voiceName), AsOptionalString(s.model), AsOptionalString(s.emotion), AsOptionalString(s.soundEffect);
    if id.None? || kindName.None? || input.None? || audioUrl.None? then None
    else if TypeOfName(kindName.value).None? || s.timestamp.None? || !s.timestamp.value.JNum? then None
    else if voiceName.None? || model.None? || emotion.None? || soundEffect.None? then None
    else Some(HistoryItem(id.value, s.timestamp.value.n,
      Generation(TypeOfName(kindName.value).value, input.value, voiceName.value, audioUrl.value,
        model.value, emotion.value, soundEffect.value)))
  }

  /** A parsed value read back as an entry, `None` when it has not the
      shape `addToHistory` writes. */
  function ItemOfJson(j: Json.Json): Option<HistoryItem> {
    if j.JObj? then ItemOfSlots(Fill(NoSlots, j.fields)) else None
  }

  function ItemsOfJson(js: seq<Json.Json>): (r: Option<seq<HistoryItem>>)
    ensures r.Some? ==> |r.value| == |js|
  {
    if js == [] then Some([])
    else
      match (ItemOfJson(js[0]), ItemsOfJson(js[1..]))
      case (Some(x), Some(xs)) => Some([x] + xs)
      case _ => None
  }

  /** The list the provider holds after mounting: the stored list when
      the stored text is a list of entries, the empty list otherwise
      (missing, empty or malformed text). */
  function LoadedHistory(saved: Option<string>): seq<HistoryItem> {
    if saved.None? || saved.value == "" then []
    else
      var parsed := Json.Parse(saved.value);
      if parsed.Some? && parsed.value.JArr? && ItemsOfJson(parsed.value.items).Some? then
        ItemsOfJson(parsed.value.items).value
      else []
  }

  lemma FillOne(s: Slots, f: Json.Field)
    ensures Fill(s, [f]) == SetSlot(s, f)
  {
    assert [f][1..] == [];
  }

  lemma FillTwo(s: Slots, f: Json.Field, g: Json.Field)
    ensures Fill(s, [f, g]) == SetSlot(SetSlot(s, f), g)
  {
    assert [f, g][1..] == [g];
    FillOne(SetSlot(s, f), g);
  }

  lemma FillOptional(s: Slots, key: string, v: Option<string>)
    ensures Fill(s, OptionalField(key, v)) == if v.Some? then SetSlot(s, Json.Field(key, Json.JStr(v.value))) else s
  {
    if v.Some? { FillOne(s, Json.Field(key, Json.JStr(v.value))); }
  }

  function OptionalSlot(v: Option<string>): Option<Json.Json> {
    if v.Some? then Some(Json.JStr(v.value)) else None
  }

  /** The slots filled from the object `ItemJson` writes. */
  lemma SlotsOfItemJson(item: HistoryItem)
    ensures var c := item.content;
      Fill(NoSlots, ItemJson(item).fields)
      == Slots(Some(Json.JStr(item.id)), Some(Json.JStr(TypeName(c.kind))), Some(Json.JNum(item.timestamp)),
        Some(Json.JStr(c.input)), OptionalSlot(c.voiceName), Some(Json.JStr(c.audioUrl)),
        OptionalSlot(c.model), OptionalSlot(c.emotion), OptionalSlot(c.soundEffect))
  {
    var c := item.content;
    var p1 := [Json.Field("type", Json.JStr(TypeName(c.kind))), Json.Field("input", Json.JStr(c.input))];
    var p2 := OptionalField("voiceName", c.voiceName);
    var p3 := [Json.Field("audioUrl", Json.JStr(c.audioUrl))];
    var p4 := OptionalField("model", c.model);
    var p5 := OptionalField("emotion", c.emotion);
    var p6 := OptionalField("soundEffect", c.soundEffect);
    var p7 := [Json.Field("id", Json.JStr(item.id)), Json.Field("timestamp", Json.JNum(item.timestamp))];
    assert ItemJson(item).fields == p1 + p2 + p3 + p4 + p5 + p6 + p7;
    FillAppend(NoSlots, p1 + p2 + p3 + p4 + p5 + p6, p7);
    FillAppend(NoSlots, p1 + p2 + p3 + p4 + p5, p6);
    FillAppend(NoSlots, p1 + p2 + p3 + p4, p5);
    FillAppend(NoSlots, p1 + p2 + p3, p4);
    FillAppend(NoSlots, p1 + p2, p3);
    FillAppend(NoSlots, p1, p2);
    FillTwo(NoSlots, p1[0], p1[1]);
    var s1 := Fill(NoSlots, p1);
    FillOptional(s1, "voiceName", c.voiceName);
    var s2 := Fill(s1, p2);
    FillOne(s2, p3[0]);
    var s3 := Fill(s2, p3);
    FillOptional(s3, "model", c.model);
    var s4 := Fill(s3, p4);
    FillOptional(s4, "emotion", c.emotion);
    var s5 := Fill(s4, p5);
    FillOptional(s5, "soundEffect", c.soundEffect);
    var s6 := Fill(s5, p6);
    FillTwo(s6, p7[0], p7[1]);
  }

  lemma ItemOfItemJson(item: HistoryItem)
    ensures ItemOfJson(ItemJson(item)) == Some(item)
  {
    SlotsOfItemJson(item);
    assert TypeOfName(TypeName(item.content.kind)) == Some(item.content.kind);
  }

  lemma {:induction false} ItemsOfItemsJson(items: seq<HistoryItem>)
    ensures ItemsOfJson(ItemsJson(items)) == Some(items)
  {
    if items != [] {
      ItemOfItemJson(items[0]);
      assert ItemsJson(items)[1..] == ItemsJson(items[1..]);
      ItemsOfItemsJson(items[1..]);
      assert [items[0]] + items[1..] == items;
    }
  }

  /** Mounting again restores the saved list whole, without truncating
      it. */
  lemma LoadSerialized(history: seq<HistoryItem>)
    ensures LoadedHistory(Some(Serialize(history))) == history
  {
    Json.ParseStringify(Json.JArr(ItemsJson(history)));
    ItemsOfItemsJson(history);
  }

  // ---------------------------------------------------------------------
  // The provider

  class HistoryStore {
    var history: seq<HistoryItem>
    /** The session storage area the provider writes. */
    const session: Storage.LocalStorage

    /** The copy in session storage is the serialised list. */
    predicate Persisted()
      reads this, session
    {
      HistoryStorageKey in session.items && session.items[HistoryStorageKey] == Serialize(history)
    }

    /** The provider's first render: an empty list, before the effects
        run. */
    constructor (session: Storage.LocalStorage)
      ensures this.session == session && history == []
    {
      this.session := session;
      history := [];
    }

    /** The two effects on mount: the load effect reads the stored text
        and schedules the parsed list; the save effect first writes the
        empty list, then, after the update, the loaded one. */
    method Mount()
      modifies this, session
      ensures history == LoadedHistory(Storage.GetItem(old(session.items), HistoryStorageKey))
      ensures session.items == old(session.items)[HistoryStorageKey := Serialize(history)]
      ensures Persisted()
    {
      var saved := Storage.GetItem(session.items, HistoryStorageKey);
      var loaded := LoadedHistory(saved);
      session.SaveToStorage(HistoryStorageKey, Serialize(history));
      history := loaded;
      session.SaveToStorage(HistoryStorageKey, Serialize(history));
    }

    /** `addToHistory(item)` with the id and clock reading passed in. */
    method AddToHistory(item: Generation, id: string, now: int)
      requires forall i :: 0 <= i < |history| ==> history[i].id != id
      modifies this, session
      ensures history == Prepend(old(history), HistoryItem(id, now, item))
      ensures session.items == old(session.items)[HistoryStorageKey := Serialize(history)]
      ensures Persisted()
    {
      var newItem := HistoryItem(id, now, item);
      history := Prepend(history, newItem);
      session.SaveToStorage(HistoryStorageKey, Serialize(history));
    }

    /** `removeFromHistory(id)`. */
    method RemoveFromHistory(id: string)
      modifies this, session
      ensures history == Remove(old(history), id)
      ensures session.items == old(session.items)[HistoryStorageKey := Serialize(history)]
      ensures Persisted()
    {
      history := Remove(history, id);
      session.SaveToStorage(HistoryStorageKey, Serialize(history));
    }

    /** `clearHistory()`. */
    method ClearHistory()
      modifies this, session
      ensures history == []
      ensures session.items == old(session.items)[HistoryStorageKey := Serialize([])]
      ensures Persisted()
    {
      history := [];
      session.SaveToStorage(HistoryStorageKey, Serialize(history));
    }
  }
}

/** The browser's key-value storage as the client uses it: plain strings,
    JSON-encoded objects and files kept as a JSON envelope that holds a
    base64 data URL (section 3 of RFC 2397). */
module Storage {
  import opened Wrappers
  import JsString
  import Json
  import Base64

  /** The contents of one storage area: key to stored string. */
  type Store = map<string, string>

  /** `getItem(key)`: `None` stands for `null`. */
  function GetItem(store: Store, key: string): Option<string> {
    if key in store then Some(store[key]) else None
  }

  /** `loadFromStorage(key, default)`, i.e. `getItem(key) || default`: an
      empty stored string counts as missing. */
  function LoadFromStorage(store: Store, key: string, default: string): (r: string)
    ensures key in store && store[key] != "" ==> r == store[key]
    ensures key !in store || store[key] == "" ==> r == default
  {
    match GetItem(store, key)
    case Some(v) => if v != "" then v else default
    case None => default
  }

  /** `loadFromStorage(key, null)`: the stored string when it is not
      empty, otherwise `null`. */
  function LoadOrNull(store: Store, key: string): (r: Option<string>)
    ensures r.Some? <==> key in store && store[key] != ""
    ensures r.Some? ==> r.value == store[key]
  {
    if key in store && store[key] != "" then Some(store[key]) else None
  }

  /** `loadObjectFromStorage(key, default)`: the default when the stored
      value is missing or empty, otherwise the parsed value. A malformed
      value makes `JSON.parse` throw, which the function does not catch. */
  function LoadObjectFromStorage(store: Store, key: string, default: Json.Json): (r: Result<Json.Json, string>)
    ensures key !in store || store[key] == "" ==> r == Success(default)
    ensures key in store && store[key] != "" ==>
      (r.Success? <==> Json.Parse(store[key]).Some?) &&
      (r.Success? ==> Some(r.value) == Json.Parse(store[key]))
  {
    match GetItem(store, key)
    case None => Success(default)
    case Some(saved) =>
      if saved == "" then Success(default)
      else
        match Json.Parse(saved)
        case None => Failure("SyntaxError")
        case Some(j) => Success(j)
  }

  // ---------------------------------------------------------------------
  // Files

  /** A browser `File`: its name, its media type and its bytes. */
  datatype File = File(name: string, mimeType: string, bytes: seq<Base64.byte>)

  /** `file.type.startsWith('audio/')`. */
  predicate IsAudio(f: File) {
    JsString.StartsWith(f.mimeType, "audio/")
  }

  predicate PrintableAscii(c: char) {
    0x20 <= c as int <= 0x7E
  }

  /** A media type as the `File` constructor leaves it: printable ASCII
      without upper-case letters. */
  predicate IsNormalizedType(t: string) {
    forall i :: 0 <= i < |t| ==> PrintableAscii(t[i]) && !('A' <= t[i] <= 'Z')
  }

  /** The `type` option of the `File` constructor: the empty string when
      any code unit lies outside U+0020..U+007E, otherwise the text in
      ASCII lower case. */
  function NormalizeType(t: string): (r: string)
    ensures IsNormalizedType(r)
    ensures IsNormalizedType(t) ==> r == t
  {
    if forall i :: 0 <= i < |t| ==> PrintableAscii(t[i]) then JsString.ToLowerAscii(t) else ""
  }

  /** What `readAsDataURL` produces: the base64 form of the bytes behind a
      header naming the media type; an empty type gives `data:;base64,`. */
  function DataUrl(f: File): string {
    "data:" + f.mimeType + ";base64," + Base64.Encode(f.bytes)
  }

  /** The object `saveFileToStorage` serialises for a file. */
  function Envelope(f: File): Json.Json {
    Json.JObj([
      Json.Field("name", Json.JStr(f.name)),
      Json.Field("type", Json.JStr(f.mimeType)),
      Json.Field("data", Json.JStr(DataUrl(f)))])
  }

  /** The new contents of the storage after `saveFileToStorage(key, file)`:
      `null` removes the key. */
  function StoreFile(store: Store, key: string, file: Option<File>): Store {
    match file
    case None => store - {key}
    case Some(f) => store[key := Json.Stringify(Envelope(f))]
  }

  /** The `data` member when it is a non-empty string. A falsy one makes
      `loadFileFromStorage` return `null`; any other truthy value has no
      `split` method, so the call throws and the `catch` returns `null`. */
  function StoredData(parsed: Json.Json): Option<string> {
    var m := Json.Member(parsed, "data");
    if m.Some? && m.value.JStr? && m.value.s != "" then Some(m.value.s) else None
  }

  /** `data.split(',')[0]`. */
  function Header(data: string): string {
    JsString.Split(data, ',')[0]
  }

  /** `data.split(',')[1]` as `atob` sees it: a missing part is `undefined`,
      which becomes the text "undefined". */
  function Payload(data: string): string {
    var parts := JsString.Split(data, ',');
    if |parts| >= 2 then parts[1] else "undefined"
  }

  predicate IsLineTerminator(c: char) {
    c == '\n' || c == '\r' || c as int == 0x2028 || c as int == 0x2029
  }

  /** The first `;` at or after `k` that `.*?` can reach: no line
      terminator before it. */
  function SemicolonFrom(s: string, k: nat): (r: Option<nat>)
    ensures r.Some? ==> k <= r.value < |s| && s[r.value] == ';'
    ensures r.Some? ==> forall m :: k <= m < r.value ==> s[m] != ';' && !IsLineTerminator(s[m])
    decreases |s| - k
  {
    if k >= |s| then None
    else if s[k] == ';' then Some(k)
    else if IsLineTerminator(s[k]) then None
    else SemicolonFrom(s, k + 1)
  }

  function MatchFrom(s: string, i: nat): Option<string>
    decreases |s| - i
  {
    if i >= |s| then None
    else if s[i] == ':' && SemicolonFrom(s, i + 1).Some? then Some(s[i + 1..SemicolonFrom(s, i + 1).value])
    else MatchFrom(s, i + 1)
  }

  /** `header.match(/:(.*?);/)?.[1]`: the text between the leftmost `:`
      that has a reachable `;` and the first such `;`. */
  function MatchMime(header: string): Option<string> {
    MatchFrom(header, 0)
  }

  /** `String(v)` for a member passed to the `File` constructor, where
      `undefined` gives "undefined". */
  function NameOf(v: Option<Json.Json>): string {
    match v
    case None => "undefined"
    case Some(j) => Json.ToJsString(j)
  }

  /** The `type` option: `undefined` leaves the default, the empty
      string. */
  function TypeOptionOf(v: Option<Json.Json>): string {
    match v
    case None => ""
    case Some(j) => Json.ToJsString(j)
  }

  /** `mime`: the matched media type when it is not empty, otherwise the
      stored `type` member. */
  function MimeOf(header: string, typeMember: Option<Json.Json>): string {
    var m := MatchMime(header);
    if m.Some? && m.value != "" then m.value else TypeOptionOf(typeMember)
  }

  /** What the countdown loop leaves in the `Uint8Array`: each char code
      taken modulo 256. */
  function ByteValues(bstr: string): (r: seq<Base64.byte>)
    ensures |r| == |bstr|
  {
    seq(|bstr|, i requires 0 <= i < |bstr| => bstr[i] as int % 256)
  }

  /** `loadFileFromStorage` on the stored string, `null` as `None`. */
  function DecodeStoredFile(stored: Option<string>): (r: Option<File>)
    ensures r.None? <==>
      stored.None? || stored.value == "" || Json.Parse(stored.value).None? ||
      StoredData(Json.Parse(stored.value).value).None? ||
      Base64.Decode(Payload(StoredData(Json.Parse(stored.value).value).value)).None?
    ensures r.Some? ==> IsNormalizedType(r.value.mimeType)
  {
    if stored.None? || stored.value == "" then None
    else
      match Json.Parse(stored.value)
      case None => None
      case Some(parsed) =>
        match StoredData(parsed)
        case None => None
        case Some(data) =>
          var mime := MimeOf(Header(data), Json.Member(parsed, "type"));
          match Base64.Atob(Payload(data))
          case None => None
          case Some(bstr) =>
            Some(File(NameOf(Json.Member(parsed, "name")), NormalizeType(mime), ByteValues(bstr)))
  }

  // ---------------------------------------------------------------------
  // The storage object

  class LocalStorage {
    var items: Store

    constructor ()
      ensures items == map[]
    {
      items := map[];
    }

    /** `saveToStorage(key, value)`. */
    method SaveToStorage(key: string, value: string)
      modifies this
      ensures items == old(items)[key := value]
    {
      items := items[key := value];
    }

    /** `removeFromStorage(key)`. */
    method RemoveFromStorage(key: string)
      modifies this
      ensures items == old(items) - {key}
    {
      items := items - {key};
    }

    /** `saveObjectToStorage(key, value)`. */
    method SaveObjectToStorage(key: string, value: Json.Json)
      modifies this
      ensures items == old(items)[key := Json.Stringify(value)]
    {
      SaveToStorage(key, Json.Stringify(value));
    }

    /** `saveFileToStorage(key, file)`, with the reader's completion taken
        as immediate. */
    method SaveFileToStorage(key: string, file: Option<File>)
      modifies this
      ensures items == StoreFile(old(items), key, file)
    {
      if file.None? {
        RemoveFromStorage(key);
        return;
      }
      var f := file.value;
      SaveObjectToStorage(key, Json.JObj([
        Json.Field("name", Json.JStr(f.name)),
        Json.Field("type", Json.JStr(f.mimeType)),
        Json.Field("data", Json.JStr(DataUrl(f)))]));
    }

    /** `loadFileFromStorage(key)`: every failure, including those the
        `catch` absorbs, gives `None`. */
    method LoadFileFromStorage(key: string) returns (r: Option<File>)
      ensures r == DecodeStoredFile(GetItem(items, key))
    {
      var stored := GetItem(items, key);
      if stored.None? || stored.value == "" {
        return None;
      }
      var parsed := Json.Parse(stored.value);
      if parsed.None? {
        return None;
      }
      var data := StoredData(parsed.value);
      if data.None? {
        return None;
      }
      var mime := MimeOf(Header(data.value), Json.Member(parsed.value, "type"));
      var decoded := Base64.Atob(Payload(data.value));
      if decoded.None? {
        return None;
      }
      var bytes := ToBytes(decoded.value);
      r := Some(File(NameOf(Json.Member(parsed.value, "name")), NormalizeType(mime), bytes));
    }

    /** The countdown loop that fills the `Uint8Array` from the binary
        string. */
    static method ToBytes(bstr: string) returns (bytes: seq<Base64.byte>)
      ensures bytes == ByteValues(bstr)
    {
      var n := |bstr|;
      var u8arr := new Base64.byte[n](i => 0);
      while n > 0
        invariant 0 <= n <= |bstr| == u8arr.Length
        invariant forall i :: n <= i < |bstr| ==> u8arr[i] == bstr[i] as int % 256
      {
        n := n - 1;
        u8arr[n] := bstr[n] as int % 256;
      }
      bytes := u8arr[..];
    }
  }

  // ---------------------------------------------------------------------
  // Properties

  /** Saving then loading gives the value back, or the default when the
      value was empty, since the load uses `||`. */
  lemma LoadAfterSave(store: Store, key: string, value: string, default: string)
    ensures LoadFromStorage(store[key := value], key, default) == if value == "" then default else value
  {
  }

  /** Removing twice is removing once, and a later load gives the
      default. */
  lemma RemoveIdempotent(store: Store, key: string, default: string)
    ensures (store - {key}) - {key} == store - {key}
    ensures LoadFromStorage(store - {key}, key, default) == default
  {
  }

  /** An object saved with `saveObjectToStorage` loads back unchanged. */
  lemma LoadObjectAfterSave(store: Store, key: string, value: Json.Json, default: Json.Json)
    ensures LoadObjectFromStorage(store[key := Json.Stringify(value)], key, default) == Success(value)
  {
    Json.ParseStringify(value);
  }

  lemma SemicolonFromFirst(s: string, k: nat, j: nat)
    requires k <= j < |s| && s[j] == ';'
    requires forall m :: k <= m < j ==> s[m] != ';' && !IsLineTerminator(s[m])
    ensures SemicolonFrom(s, k) == Some(j)
    decreases j - k
  {
    if k < j {
      SemicolonFromFirst(s, k + 1, j);
    }
  }

  /** In a data-URL header the media type runs from the colon after
      `data` to the first `;`. */
  lemma MatchMimeOfHeader(t: string, more: string)
    requires ';' !in t
    requires forall i :: 0 <= i < |t| ==> !IsLineTerminator(t[i])
    ensures MatchMime("data:" + t + ";" + more) == Some(t)
  {
    var h := "data:" + t + ";" + more;
    assert h[5 + |t|] == ';';
    forall m | 5 <= m < 5 + |t|
      ensures h[m] != ';' && !IsLineTerminator(h[m])
    {
      assert h[m] == t[m - 5];
    }
    SemicolonFromFirst(h, 5, 5 + |t|);
    assert h[5..5 + |t|] == t;
    assert MatchFrom(h, 4) == Some(t);
    assert h[..5] == "data:";
    assert MatchFrom(h, 3) == MatchFrom(h, 4) by { assert h[3] == 'a'; }
    assert MatchFrom(h, 2) == MatchFrom(h, 3) by { assert h[2] == 't'; }
    assert MatchFrom(h, 1) == MatchFrom(h, 2) by { assert h[1] == 'a'; }
    assert MatchFrom(h, 0) == MatchFrom(h, 1) by { assert h[0] == 'd'; }
  }

  lemma NoCommaInEncoding(b: seq<Base64.byte>)
    ensures ',' !in Base64.Encode(b)
  {
    var v := Base64.Sextets(b);
    var e := Base64.Encode(b);
    assert e == Base64.Letters(v) + Base64.Padding(|b|);
    forall i | 0 <= i < |e|
      ensures e[i] != ','
    {
      if i < |v| {
        assert e[i] == Base64.Alphabet(v[i]);
      } else {
        assert e[i] == Base64.Padding(|b|)[i - |v|];
      }
    }
  }

  /** A data URL splits at its only comma into header and payload. */
  lemma SplitDataUrl(f: File)
    requires ',' !in f.mimeType
    ensures Header(DataUrl(f)) == "data:" + f.mimeType + ";base64"
    ensures Payload(DataUrl(f)) == Base64.Encode(f.bytes)
  {
    var header := "data:" + f.mimeType + ";base64";
    assert ',' !in header by {
      forall i | 0 <= i < |header| ensures header[i] != ',' {
        if 5 <= i < 5 + |f.mimeType| { assert header[i] == f.mimeType[i - 5]; }
      }
    }
    NoCommaInEncoding(f.bytes);
    assert DataUrl(f) == header + [','] + Base64.Encode(f.bytes);
    JsString.SplitOnce(header, Base64.Encode(f.bytes), ',');
  }

  lemma ByteValuesOfLatin1(b: seq<Base64.byte>)
    ensures ByteValues(Base64.Latin1(b)) == b
  {
  }

  /** The stored envelope parses back into its three members. */
  lemma EnvelopeMembers(f: File)
    ensures Json.Parse(Json.Stringify(Envelope(f))) == Some(Envelope(f))
    ensures Json.Member(Envelope(f), "name") == Some(Json.JStr(f.name))
    ensures Json.Member(Envelope(f), "type") == Some(Json.JStr(f.mimeType))
    ensures StoredData(Envelope(f)) == Some(DataUrl(f))
  {
    Json.ParseStringify(Envelope(f));
    var fields := Envelope(f).fields;
    assert fields[..2] == [fields[0], fields[1]];
    assert fields[..2][..1] == [fields[0]];
  }

  /** Loading the envelope of a file whose media type holds no comma
      gives its name and bytes back, with the media type the header
      names. */
  lemma DecodeEnvelope(f: File)
    requires ',' !in f.mimeType
    ensures DecodeStoredFile(Some(Json.Stringify(Envelope(f)))) ==
      Some(File(f.name, NormalizeType(MimeOf("data:" + f.mimeType + ";base64", Some(Json.JStr(f.mimeType)))), f.bytes))
  {
    EnvelopeMembers(f);
    SplitDataUrl(f);
    Base64.DecodeEncode(f.bytes);
    ByteValuesOfLatin1(f.bytes);
  }

  /** A file saved with `saveFileToStorage` loads back with the same name,
      media type and bytes, the empty file included, when its media type
      holds neither `,` nor `;`. */
  lemma LoadFileAfterSave(store: Store, key: string, f: File)
    requires IsNormalizedType(f.mimeType) && ',' !in f.mimeType && ';' !in f.mimeType
    ensures DecodeStoredFile(GetItem(StoreFile(store, key, Some(f)), key)) == Some(f)
  {
    assert GetItem(StoreFile(store, key, Some(f)), key) == Some(Json.Stringify(Envelope(f)));
    DecodeEnvelope(f);
    MimeOfPlainType(f.mimeType);
  }

  lemma MimeOfPlainType(t: string)
    requires IsNormalizedType(t) && ';' !in t
    ensures NormalizeType(MimeOf("data:" + t + ";base64", Some(Json.JStr(t)))) == t
  {
    assert "data:" + t + ";base64" == "data:" + t + ";" + "base64";
    MatchMimeOfHeader(t, "base64");
  }

  lemma MimeOfParameters(t: string, base: string, params: string)
    requires IsNormalizedType(t)
    requires t == base + ";" + params && base != "" && ';' !in base
    ensures NormalizeType(MimeOf("data:" + t + ";base64", Some(Json.JStr(t)))) == base
  {
    assert forall i :: 0 <= i < |base| ==> base[i] == t[i];
    assert "data:" + t + ";base64" == "data:" + base + ";" + (params + ";base64");
    MatchMimeOfHeader(base, params + ";base64");
    assert IsNormalizedType(base);
  }

  /** A media type with parameters (`audio/webm;codecs=opus`) loads back
      as the part before the first `;`. */
  lemma LoadFileDropsParameters(store: Store, key: string, f: File, base: string, params: string)
    requires IsNormalizedType(f.mimeType) && ',' !in f.mimeType
    requires f.mimeType == base + ";" + params && base != "" && ';' !in base
    ensures DecodeStoredFile(GetItem(StoreFile(store, key, Some(f)), key)) == Some(File(f.name, base, f.bytes))
  {
    assert GetItem(StoreFile(store, key, Some(f)), key) == Some(Json.Stringify(Envelope(f)));
    DecodeEnvelope(f);
    MimeOfParameters(f.mimeType, base, params);
  }

  /** A media type holding one comma splits the data URL in three, and
      the payload `atob` gets is the text after that comma followed by
      `;base64`. */
  lemma PayloadOfCommaType(f: File, a: string, b: string)
    requires f.mimeType == a + "," + b && ',' !in a && ',' !in b
    ensures Payload(DataUrl(f)) == b + ";base64"
  {
    var head, payload, enc := "data:" + a, b + ";base64", Base64.Encode(f.bytes);
    assert ',' !in head by {
      forall i | 0 <= i < |head| ensures head[i] != ',' {
        if 5 <= i { assert head[i] == a[i - 5]; }
      }
    }
    assert ',' !in payload by {
      forall i | 0 <= i < |payload| ensures payload[i] != ',' {
        if i < |b| { assert payload[i] == b[i]; }
      }
    }
    NoCommaInEncoding(f.bytes);
    assert DataUrl(f) == head + [','] + (payload + [','] + enc);
    JsString.SplitPrefix(head, payload + [','] + enc, ',');
    JsString.SplitOnce(payload, enc, ',');
  }

  /** So a file whose media type holds one comma is saved, but its `;`
      in the payload makes `atob` throw and the load gives `None`. */
  lemma LoadFileCommaInType(store: Store, key: string, f: File, a: string, b: string)
    requires f.mimeType == a + "," + b && ',' !in a && ',' !in b
    ensures DecodeStoredFile(GetItem(StoreFile(store, key, Some(f)), key)).None?
  {
    assert GetItem(StoreFile(store, key, Some(f)), key) == Some(Json.Stringify(Envelope(f)));
    CommaPayloadRejected(f, a, b);
    EnvelopeMembers(f);
  }

  lemma CommaPayloadRejected(f: File, a: string, b: string)
    requires f.mimeType == a + "," + b && ',' !in a && ',' !in b
    ensures Base64.Decode(Payload(DataUrl(f))).None?
  {
    PayloadOfCommaType(f, a, b);
    var payload := b + ";base64";
    assert payload[|b|] == ';';
    Base64.ForeignCharRejected(payload, |b|);
  }

  /** Saving `null` removes the stored file, so a later load gives
      `None`. */
  lemma LoadFileAfterRemove(store: Store, key: string)
    ensures DecodeStoredFile(GetItem(StoreFile(store, key, None), key)).None?
  {
  }

  /** A data URL without a comma has the payload "undefined", which is
      not base64, so the load gives `None`. */
  lemma CommalessDataFails(data: string)
    requires ',' !in data
    ensures Base64.Decode(Payload(data)).None?
  {
    JsString.SplitNone(data, ',');
    assert Payload(data) == "undefined";
    UndefinedIsNotBase64();
  }

  lemma UndefinedIsNotBase64()
    ensures Base64.Decode("undefined").None?
  {
    var u := "undefined";
    assert forall i :: 0 <= i < |u| ==> 'a' <= u[i] <= 'z';
    Base64.LoneSextetRejected(u);
  }
}

/** The JSON text the client writes with `JSON.stringify` and reads back
    with `JSON.parse`, and the JavaScript conversions it applies to parsed
    values (truthiness, `String(x)`, property access). */
module Json {
  import opened Wrappers
  import JsString

  /** A parsed JSON value. Numbers are integers; an object keeps its
      members in text order, duplicates included (see `Member`). */
  datatype Json =
    | JNull
    | JBool(b: bool)
    | JNum(n: int)
    | JStr(s: string)
    | JArr(items: seq<Json>)
    | JObj(fields: seq<Field>)

  datatype Field = Field(key: string, value: Json)

  // ---------------------------------------------------------------------
  // JSON.stringify

  function HexDigit(d: int): char
    requires 0 <= d < 16
  {
    if d < 10 then ('0' as int + d) as char else ('a' as int + (d - 10)) as char
  }

  /** How `JSON.stringify` writes one code unit inside a string literal. */
  function EscapeChar(c: char): (r: string)
    ensures |r| >= 1
    ensures r[0] == '\\' || (r == [c] && c != '"' && c != '\\' && c as int >= 0x20)
  {
    if c == '"' then "\\\""
    else if c == '\\' then "\\\\"
    else if c as int == 0x08 then "\\b"
    else if c as int == 0x0C then "\\f"
    else if c == '\n' then "\\n"
    else if c == '\r' then "\\r"
    else if c == '\t' then "\\t"
    else if c as int < 0x20 then "\\u00" + [HexDigit(c as int / 16), HexDigit(c as int % 16)]
    else [c]
  }

  function Escape(s: string): string {
    if s == [] then [] else EscapeChar(s[0]) + Escape(s[1..])
  }

  function Quote(s: string): string {
    "\"" + Escape(s) + "\""
  }

  function Stringify(j: Json): (r: string)
    ensures |r| >= 1
    decreases j
  {
    match j
    case JNull => "null"
    case JBool(b) => if b then "true" else "false"
    case JNum(n) => JsString.IntToString(n)
    case JStr(s) => Quote(s)
    case JArr(items) => "[" + StringifyItems(items) + "]"
    case JObj(fields) => "{" + StringifyFields(fields) + "}"
  }

  /** The items of an array, separated by commas. */
  function StringifyItems(items: seq<Json>): string
    decreases items
  {
    if items == [] then ""
    else if |items| == 1 then Stringify(items[0])
    else Stringify(items[0]) + "," + StringifyItems(items[1..])
  }

  /** The members of an object, `"key":value`, separated by commas. */
  function StringifyFields(fields: seq<Field>): string
    decreases fields
  {
    if fields == [] then ""
    else
      var f := Quote(fields[0].key) + ":" + Stringify(fields[0].value);
      if |fields| == 1 then f else f + "," + StringifyFields(fields[1..])
  }

  // ---------------------------------------------------------------------
  // JSON.parse

  predicate IsJsonWhitespace(c: char) {
    c == ' ' || c == '\t' || c == '\n' || c == '\r'
  }

  predicate IsDigit(c: char) {
    '0' <= c <= '9'
  }

  function SkipWhitespace(s: string): (r: string)
    ensures |r| <= |s|
    ensures s == [] || !IsJsonWhitespace(s[0]) ==> r == s
  {
    if s != [] && IsJsonWhitespace(s[0]) then SkipWhitespace(s[1..]) else s
  }

  function HexValue(c: char): (r: Option<int>)
    ensures r.Some? ==> 0 <= r.value < 16
  {
    if '0' <= c <= '9' then Some(c as int - '0' as int)
    else if 'a' <= c <= 'f' then Some(c as int - 'a' as int + 10)
    else if 'A' <= c <= 'F' then Some(c as int - 'A' as int + 10)
    else None
  }

  /** The code unit written by a `\u` escape, from its four hex digits.
      `None` for a malformed escape and for a surrogate code unit, which a
      `char` cannot hold. */
  function HexEscape(h: string): Option<char>
    requires |h| == 4
  {
    var a, b, c, d := HexValue(h[0]), HexValue(h[1]), HexValue(h[2]), HexValue(h[3]);
    if a.None? || b.None? || c.None? || d.None? then None
    else
      var u := ((a.value * 16 + b.value) * 16 + c.value) * 16 + d.value;
      if 0xD800 <= u <= 0xDFFF then None else Some(u as char)
  }

  /** The rest of a string literal after its opening quote: the decoded
      text and what follows the closing quote. */
  function ParseStringBody(t: string): (r: Option<(string, string)>)
    ensures r.Some? ==> |r.value.1| < |t|
    decreases |t|
  {
    if t == [] then None
    else if t[0] == '"' then Some(([], t[1..]))
    else if t[0] == '\\' then
      if |t| < 2 then None
      else
        var e := t[1];
        var simple :=
          if e == '"' then Some('"') else if e == '\\' then Some('\\') else if e == '/' then Some('/')
          else if e == 'b' then Some(0x08 as char) else if e == 'f' then Some(0x0C as char)
          else if e == 'n' then Some('\n') else if e == 'r' then Some('\r') else if e == 't' then Some('\t')
          else None;
        if simple.Some? then
          match ParseStringBody(t[2..])
          case None => None
          case Some((s, rest)) => Some(([simple.value] + s, rest))
        else if e == 'u' && |t| >= 6 then
          match HexEscape(t[2..6])
          case None => None
          case Some(c) =>
            match ParseStringBody(t[6..])
            case None => None
            case Some((s, rest)) => Some(([c] + s, rest))
        else None
    else if t[0] as int < 0x20 then None
    else
      match ParseStringBody(t[1..])
      case None => None
      case Some((s, rest)) => Some(([t[0]] + s, rest))
  }

  /** The longest prefix of decimal digits and the text after it. */
  function TakeDigits(s: string): (r: (string, string))
    ensures r.0 + r.1 == s
    ensures forall i :: 0 <= i < |r.0| ==> IsDigit(r.0[i])
    ensures r.1 == [] || !IsDigit(r.1[0])
  {
    if s != [] && IsDigit(s[0]) then
      var (d, rest) := TakeDigits(s[1..]);
      ([s[0]] + d, rest)
    else ([], s)
  }

  function DigitsValue(d: string): (v: nat)
    requires forall i :: 0 <= i < |d| ==> IsDigit(d[i])
  {
    if d == [] then 0
    else
      assert IsDigit(d[|d| - 1]);
      var last: int := d[|d| - 1] as int - '0' as int;
      DigitsValue(d[..|d| - 1]) * 10 + last
  }

  /** `0`, or a digit string without a leading zero, and the text after
      it. A fraction or an exponent is not modelled and fails. */
  function ParseUnsigned(d: string): (r: Option<(nat, string)>)
    ensures r.Some? ==> |r.value.1| < |d|
  {
    if d == [] || !IsDigit(d[0]) then None
    else
      var (digits, rest) := if d[0] == '0' then ("0", d[1..]) else TakeDigits(d);
      if rest != [] && (rest[0] == '.' || rest[0] == 'e' || rest[0] == 'E') then None
      else Some((DigitsValue(digits), rest))
  }

  /** A number: an optional minus, then an unsigned integer. */
  function ParseNumber(t: string): (r: Option<(Json, string)>)
    ensures r.Some? ==> |r.value.1| < |t|
  {
    var neg := t != [] && t[0] == '-';
    match ParseUnsigned(if neg then t[1..] else t)
    case None => None
    case Some((m, rest)) =>
      var v: int := if neg then -(m as int) else m;
      Some((JNum(v), rest))
  }

  function Literal(t: string, word: string, value: Json): (r: Option<(Json, string)>)
    requires |word| >= 1
    ensures r.Some? ==> |r.value.1| < |t|
  {
    if JsString.StartsWith(t, word) then Some((value, t[|word|..])) else None
  }

  /** One value after optional white space, and the text after it. */
  function ParseValue(s: string): (r: Option<(Json, string)>)
    ensures r.Some? ==> |r.value.1| < |s|
    decreases |s|, 0
  {
    var t := SkipWhitespace(s);
    if t == [] then None
    else if t[0] == 'n' then Literal(t, "null", JNull)
    else if t[0] == 't' then Literal(t, "true", JBool(true))
    else if t[0] == 'f' then Literal(t, "false", JBool(false))
    else if t[0] == '"' then
      match ParseStringBody(t[1..])
      case None => None
      case Some((str, rest)) => Some((JStr(str), rest))
    else if t[0] == '[' then ParseArray(t[1..])
    else if t[0] == '{' then ParseObject(t[1..])
    else if t[0] == '-' || IsDigit(t[0]) then ParseNumber(t)
    else None
  }

  /** An array after its opening bracket. */
  function ParseArray(t: string): (r: Option<(Json, string)>)
    ensures r.Some? ==> |r.value.1| < |t|
    decreases |t|, 3
  {
    var u := SkipWhitespace(t);
    if u != [] && u[0] == ']' then Some((JArr([]), u[1..]))
    else
      match ParseItems(u)
      case None => None
      case Some((items, rest)) => Some((JArr(items), rest))
  }

  /** An object after its opening brace. */
  function ParseObject(t: string): (r: Option<(Json, string)>)
    ensures r.Some? ==> |r.value.1| < |t|
    decreases |t|, 3
  {
    var u := SkipWhitespace(t);
    if u != [] && u[0] == '}' then Some((JObj([]), u[1..]))
    else
      match ParseFields(u)
      case None => None
      case Some((fields, rest)) => Some((JObj(fields), rest))
  }

  /** `value (, value)* ]`: the items of a non-empty array and the text
      after its closing bracket. */
  function ParseItems(u: string): (r: Option<(seq<Json>, string)>)
    ensures r.Some? ==> |r.value.1| < |u|
    decreases |u|, 1
  {
    match ParseValue(u)
    case None => None
    case Some((v, rest)) =>
      var w := SkipWhitespace(rest);
      if w != [] && w[0] == ']' then Some(([v], w[1..]))
      else if w != [] && w[0] == ',' then
        match ParseItems(w[1..])
        case None => None
        case Some((vs, rest')) => Some(([v] + vs, rest'))
      else None
  }

  /** The value of one member after its key: `: value`. */
  function ParseMemberValue(c: string): (r: Option<(Json, string)>)
    ensures r.Some? ==> |r.value.1| < |c|
    decreases |c|, 1
  {
    var c' := SkipWhitespace(c);
    if c' == [] || c'[0] != ':' then None else ParseValue(c'[1..])
  }

  /** `"key" : value (, "key" : value)* }`: the members of a non-empty
      object and the text after its closing brace. */
  function ParseFields(u: string): (r: Option<(seq<Field>, string)>)
    ensures r.Some? ==> |r.value.1| < |u|
    decreases |u|, 2
  {
    if u == [] || u[0] != '"' then None
    else
      match ParseStringBody(u[1..])
      case None => None
      case Some((key, afterKey)) =>
        match ParseMemberValue(afterKey)
        case None => None
        case Some((v, rest)) =>
          var w := SkipWhitespace(rest);
          if w != [] && w[0] == '}' then Some(([Field(key, v)], w[1..]))
          else if w != [] && w[0] == ',' then
            match ParseFields(SkipWhitespace(w[1..]))
            case None => None
            case Some((fs, rest')) => Some(([Field(key, v)] + fs, rest'))
          else None
  }

  /** `JSON.parse(s)`: `None` where it throws a `SyntaxError`. */
  function Parse(s: string): Option<Json> {
    match ParseValue(s)
    case None => None
    case Some((v, rest)) => if SkipWhitespace(rest) == [] then Some(v) else None
  }

  // ---------------------------------------------------------------------
  // The round trip

  /** What may follow a value in the text `Stringify` writes. */
  predicate Delimited(rest: string) {
    rest == [] || rest[0] == ',' || rest[0] == ']' || rest[0] == '}'
  }

  lemma ParseEscapeChar(c: char, tail: string)
    ensures ParseStringBody(EscapeChar(c) + tail) == (match ParseStringBody(tail) case None => None case Some((s, rest)) => Some(([c] + s, rest)))
  {
    var e := EscapeChar(c);
    var t := e + tail;
    if c as int < 0x20 && c != '\n' && c != '\r' && c != '\t' && c as int != 0x08 && c as int != 0x0C {
      assert t[2..6] == e[2..6];
      assert t[6..] == tail;
      assert HexEscape(t[2..6]) == Some(c);
    } else if e[0] == '\\' {
      assert t[2..] == tail;
    } else {
      assert t[1..] == tail;
    }
  }

  lemma {:induction false} ParseEscape(s: string, rest: string)
    ensures ParseStringBody(Escape(s) + "\"" + rest) == Some((s, rest))
  {
    if s == [] {
      assert Escape(s) + "\"" + rest == "\"" + rest;
    } else {
      assert Escape(s) + "\"" + rest == EscapeChar(s[0]) + (Escape(s[1..]) + "\"" + rest);
      ParseEscapeChar(s[0], Escape(s[1..]) + "\"" + rest);
      ParseEscape(s[1..], rest);
      assert [s[0]] + s[1..] == s;
    }
  }

  lemma {:induction false} TakeDigitsOf(d: string, rest: string)
    requires forall i :: 0 <= i < |d| ==> IsDigit(d[i])
    requires rest == [] || !IsDigit(rest[0])
    ensures TakeDigits(d + rest) == (d, rest)
  {
    if d != [] {
      assert (d + rest)[1..] == d[1..] + rest;
      TakeDigitsOf(d[1..], rest);
      assert [d[0]] + d[1..] == d;
    } else {
      assert d + rest == rest;
    }
  }

  lemma {:induction false} DigitsValueOf(n: nat)
    ensures DigitsValue(JsString.NatToString(n)) == n
  {
    var d := JsString.NatToString(n);
    if n >= 10 {
      DigitsValueOf(n / 10);
      assert d[..|d| - 1] == JsString.NatToString(n / 10);
    }
  }

  lemma ParseNat(n: nat, rest: string)
    requires Delimited(rest)
    ensures ParseUnsigned(JsString.NatToString(n) + rest) == Some((n, rest))
  {
    var d := JsString.NatToString(n);
    var t := d + rest;
    assert t[0] == d[0];
    if d[0] == '0' {
      assert d == "0";
      assert t[1..] == rest;
    } else {
      TakeDigitsOf(d, rest);
    }
    DigitsValueOf(n);
  }

  lemma ParseSigned(neg: bool, d: string, m: nat, rest: string)
    requires d != [] && d[0] != '-'
    requires ParseUnsigned(d + rest) == Some((m, rest))
    ensures ParseNumber((if neg then "-" else "") + d + rest) == Some((JNum(if neg then -(m as int) else m), rest))
  {
    var t := (if neg then "-" else "") + d + rest;
    if neg {
      assert t[1..] == d + rest;
    } else {
      assert t == d + rest;
      assert t[0] == d[0];
    }
  }

  lemma ParseInt(n: int, rest: string)
    requires Delimited(rest)
    ensures ParseNumber(JsString.IntToString(n) + rest) == Some((JNum(n), rest))
  {
    var m: nat := if n < 0 then -n else n;
    ParseNat(m, rest);
    ParseSigned(n < 0, JsString.NatToString(m), m, rest);
    assert JsString.IntToString(n) == (if n < 0 then "-" else "") + JsString.NatToString(m);
  }

  lemma ParseLiteral(word: string, value: Json, rest: string)
    requires |word| >= 1
    ensures Literal(word + rest, word, value) == Some((value, rest))
  {
    assert (word + rest)[..|word|] == word;
    assert (word + rest)[|word|..] == rest;
  }

  lemma ParseStringifiedString(s: string, rest: string)
    ensures ParseValue(Quote(s) + rest) == Some((JStr(s), rest))
  {
    var t := Quote(s) + rest;
    assert SkipWhitespace(t) == t;
    assert t[1..] == Escape(s) + "\"" + rest;
    ParseEscape(s, rest);
  }

  lemma ParseStringifiedLiteral(j: Json, rest: string)
    requires j.JNull? || j.JBool?
    ensures ParseValue(Stringify(j) + rest) == Some((j, rest))
  {
    var t := Stringify(j) + rest;
    assert SkipWhitespace(t) == t;
    ParseLiteral(Stringify(j), j, rest);
  }

  lemma ParseStringifiedNumber(n: int, rest: string)
    requires Delimited(rest)
    ensures ParseValue(Stringify(JNum(n)) + rest) == Some((JNum(n), rest))
  {
    var t := Stringify(JNum(n)) + rest;
    assert SkipWhitespace(t) == t;
    ParseInt(n, rest);
    if n >= 0 { assert JsString.NatToString(n)[0] == t[0]; }
  }

  /** Parsing the text of a value, followed by anything that may follow a
      value, gives the value back and stops right after it. */
  lemma {:induction false} ParseStringified(j: Json, rest: string)
    requires Delimited(rest)
    ensures ParseValue(Stringify(j) + rest) == Some((j, rest))
    decreases j, 4
  {
    match j
    case JNull => ParseStringifiedLiteral(j, rest);
    case JBool(_) => ParseStringifiedLiteral(j, rest);
    case JNum(n) => ParseStringifiedNumber(n, rest);
    case JStr(s) => ParseStringifiedString(s, rest);
    case JArr(items) => ParseStringifiedArray(items, rest);
    case JObj(fields) => ParseStringifiedObject(fields, rest);
  }

  lemma ParseValueBracket(t: string)
    requires t != [] && (t[0] == '[' || t[0] == '{')
    ensures ParseValue(t) == if t[0] == '[' then ParseArray(t[1..]) else ParseObject(t[1..])
  {
    assert SkipWhitespace(t) == t;
  }

  lemma BracketText(open: string, body: string, close: string, rest: string)
    ensures open + body + close + rest == open + (body + close + rest)
  {
  }

  lemma {:induction false} ParseStringifiedArray(items: seq<Json>, rest: string)
    ensures ParseValue(Stringify(JArr(items)) + rest) == Some((JArr(items), rest))
    decreases items, 3
  {
    var body := StringifyItems(items) + "]" + rest;
    BracketText("[", StringifyItems(items), "]", rest);
    ParseValueBracket("[" + body);
    assert ("[" + body)[1..] == body;
    ParseArrayBody(items, rest);
  }

  lemma {:induction false} ParseArrayBody(items: seq<Json>, rest: string)
    ensures ParseArray(StringifyItems(items) + "]" + rest) == Some((JArr(items), rest))
    decreases items, 2
  {
    var body := StringifyItems(items) + "]" + rest;
    if items == [] {
      assert body == "]" + rest;
      assert body[1..] == rest;
    } else {
      StringifiedItemsStart(items);
      assert SkipWhitespace(body) == body;
      ParseStringifiedItems(items, rest);
    }
  }

  lemma {:induction false} ParseStringifiedObject(fields: seq<Field>, rest: string)
    ensures ParseValue(Stringify(JObj(fields)) + rest) == Some((JObj(fields), rest))
    decreases fields, 3
  {
    var body := StringifyFields(fields) + "}" + rest;
    BracketText("{", StringifyFields(fields), "}", rest);
    ParseValueBracket("{" + body);
    assert ("{" + body)[1..] == body;
    ParseObjectBody(fields, rest);
  }

  lemma {:induction false} ParseObjectBody(fields: seq<Field>, rest: string)
    ensures ParseObject(StringifyFields(fields) + "}" + rest) == Some((JObj(fields), rest))
    decreases fields, 2
  {
    var body := StringifyFields(fields) + "}" + rest;
    if fields == [] {
      assert body == "}" + rest;
      assert body[1..] == rest;
    } else {
      FieldsText(fields, rest);
      assert body[0] == '"';
      assert SkipWhitespace(body) == body;
      ParseStringifiedFields(fields, rest);
    }
  }

  lemma StringifyStart(j: Json)
    ensures !IsJsonWhitespace(Stringify(j)[0]) && Stringify(j)[0] != ']' && Stringify(j)[0] != '}'
  {
    match j
    case JNum(n) =>
      if n >= 0 { assert JsString.NatToString(n)[0] == Stringify(j)[0]; }
    case _ =>
  }

  lemma StringifiedItemsStart(items: seq<Json>)
    requires items != []
    ensures !IsJsonWhitespace(StringifyItems(items)[0]) && StringifyItems(items)[0] != ']'
  {
    StringifyStart(items[0]);
  }

  lemma StringifiedFieldsStart(fields: seq<Field>)
    requires fields != []
    ensures StringifyFields(fields)[0] == '"'
  {
  }

  lemma {:induction false} ParseStringifiedItems(items: seq<Json>, rest: string)
    requires items != []
    ensures ParseItems(StringifyItems(items) + "]" + rest) == Some((items, rest))
    decreases items, 0
  {
    var u := StringifyItems(items) + "]" + rest;
    if |items| == 1 {
      assert u == Stringify(items[0]) + ("]" + rest);
      ParseStringified(items[0], "]" + rest);
      assert ("]" + rest)[1..] == rest;
      assert items == [items[0]];
    } else {
      var tail := StringifyItems(items[1..]) + "]" + rest;
      assert u == Stringify(items[0]) + ("," + tail);
      ParseStringified(items[0], "," + tail);
      assert ("," + tail)[1..] == tail;
      ParseStringifiedItems(items[1..], rest);
      assert [items[0]] + items[1..] == items;
    }
  }

  lemma ParseStringifiedMemberValue(v: Json, after: string)
    requires Delimited(after)
    ensures ParseMemberValue(":" + Stringify(v) + after) == Some((v, after))
    decreases v, 5
  {
    var c := ":" + Stringify(v) + after;
    assert c[1..] == Stringify(v) + after;
    ParseStringified(v, after);
  }

  /** The text after the first member of a non-empty object. */
  function AfterFirstField(fields: seq<Field>, rest: string): string
    requires fields != []
  {
    if |fields| == 1 then "}" + rest else "," + (StringifyFields(fields[1..]) + "}" + rest)
  }

  lemma FieldsText(fields: seq<Field>, rest: string)
    requires fields != []
    ensures StringifyFields(fields) + "}" + rest
         == "\"" + (Escape(fields[0].key) + "\"" + (":" + Stringify(fields[0].value) + AfterFirstField(fields, rest)))
  {
    var k, v, a := Escape(fields[0].key), Stringify(fields[0].value), AfterFirstField(fields, rest);
    var f := Quote(fields[0].key) + ":" + v;
    if |fields| == 1 {
      Reassoc3(f, "}", rest);
    } else {
      var t := StringifyFields(fields[1..]);
      assert StringifyFields(fields) == f + "," + t;
      Reassoc4(f, ",", t, "}", rest);
    }
    ReassocField(k, v, a);
  }

  lemma Reassoc3(a: string, b: string, c: string)
    ensures a + b + c == a + (b + c)
  {
  }

  lemma Reassoc4(a: string, b: string, c: string, d: string, e: string)
    ensures a + b + c + d + e == a + (b + (c + d + e))
  {
  }

  lemma ReassocField(k: string, v: string, a: string)
    ensures "\"" + k + "\"" + ":" + v + a == "\"" + (k + "\"" + (":" + v + a))
  {
  }

  /** The first member of the text `StringifyFields` writes parses: its
      quoted key, then its value up to the text after it. */
  predicate FirstFieldParses(fields: seq<Field>, rest: string)
    requires fields != []
  {
    var u := StringifyFields(fields) + "}" + rest;
    var a := ":" + Stringify(fields[0].value) + AfterFirstField(fields, rest);
    u != [] && u[0] == '"' &&
    ParseStringBody(u[1..]) == Some((fields[0].key, a)) &&
    ParseMemberValue(a) == Some((fields[0].value, AfterFirstField(fields, rest)))
  }

  lemma ParseFirstField(fields: seq<Field>, rest: string)
    requires fields != []
    ensures FirstFieldParses(fields, rest)
    decreases fields, 0
  {
    var after := AfterFirstField(fields, rest);
    FieldsText(fields, rest);
    ParseEscape(fields[0].key, ":" + Stringify(fields[0].value) + after);
    ParseStringifiedMemberValue(fields[0].value, after);
  }

  /** A single member followed by the closing brace. */
  lemma ParseLastField(fields: seq<Field>, rest: string)
    requires |fields| == 1 && FirstFieldParses(fields, rest)
    ensures ParseFields(StringifyFields(fields) + "}" + rest) == Some((fields, rest))
  {
    var after := AfterFirstField(fields, rest);
    assert SkipWhitespace(after) == after;
    assert after[1..] == rest;
    assert fields == [Field(fields[0].key, fields[0].value)];
  }

  /** The first member, a comma, and the remaining members, which parse. */
  lemma ParseNextField(fields: seq<Field>, rest: string)
    requires |fields| > 1 && FirstFieldParses(fields, rest)
    requires ParseFields(StringifyFields(fields[1..]) + "}" + rest) == Some((fields[1..], rest))
    ensures ParseFields(StringifyFields(fields) + "}" + rest) == Some((fields, rest))
  {
    var after := AfterFirstField(fields, rest);
    assert SkipWhitespace(after) == after;
    AfterFirstFieldTail(fields, rest);
    assert [Field(fields[0].key, fields[0].value)] + fields[1..] == fields;
  }

  /** After the comma that follows the first member come the remaining
      members, with no white space before them. */
  lemma AfterFirstFieldTail(fields: seq<Field>, rest: string)
    requires |fields| > 1
    ensures var tail := StringifyFields(fields[1..]) + "}" + rest;
      AfterFirstField(fields, rest)[1..] == tail && SkipWhitespace(tail) == tail
  {
    var tail := StringifyFields(fields[1..]) + "}" + rest;
    assert AfterFirstField(fields, rest)[1..] == tail;
    StringifiedFieldsStart(fields[1..]);
  }

  lemma {:induction false} ParseStringifiedFields(fields: seq<Field>, rest: string)
    requires fields != []
    ensures ParseFields(StringifyFields(fields) + "}" + rest) == Some((fields, rest))
    decreases fields, 1
  {
    ParseFirstField(fields, rest);
    if |fields| == 1 {
      ParseLastField(fields, rest);
    } else {
      ParseStringifiedFields(fields[1..], rest);
      ParseNextField(fields, rest);
    }
  }

  /** `JSON.parse(JSON.stringify(j))` is `j`. */
  lemma ParseStringify(j: Json)
    ensures Parse(Stringify(j)) == Some(j)
  {
    ParseStringified(j, []);
    assert Stringify(j) + [] == Stringify(j);
  }

  // ---------------------------------------------------------------------
  // JavaScript conversions of parsed values

  /** Whether JavaScript treats the value as true in a condition. */
  predicate Truthy(j: Json) {
    match j
    case JNull => false
    case JBool(b) => b
    case JNum(n) => n != 0
    case JStr(s) => s != []
    case JArr(_) => true
    case JObj(_) => true
  }

  /** `String(j)`: arrays join their items with commas (a `null` item
      gives the empty string), objects give `[object Object]`. */
  function ToJsString(j: Json): string
    decreases j
  {
    match j
    case JNull => "null"
    case JBool(b) => if b then "true" else "false"
    case JNum(n) => JsString.IntToString(n)
    case JStr(s) => s
    case JArr(items) => JoinItems(items)
    case JObj(_) => "[object Object]"
  }

  function JoinItems(items: seq<Json>): string
    decreases items
  {
    if items == [] then ""
    else
      var first := if items[0] == JNull then "" else ToJsString(items[0]);
      if |items| == 1 then first else first + "," + JoinItems(items[1..])
  }

  /** The last member named `key`, or `None`. */
  function LastField(fields: seq<Field>, key: string): (r: Option<Json>)
    ensures r.Some? ==> exists i :: (0 <= i < |fields| && fields[i] == Field(key, r.value)
                                    && forall k :: i < k < |fields| ==> fields[k].key != key)
    ensures r.None? ==> forall i :: 0 <= i < |fields| ==> fields[i].key != key
  {
    if fields == [] then None
    else if fields[|fields| - 1].key == key then Some(fields[|fields| - 1].value)
    else LastField(fields[..|fields| - 1], key)
  }

  /** `j.key` (or `j?.key`) for a key that names no built-in property:
      `None` for `undefined`. For a parsed object the last duplicate wins,
      which is the value `JSON.parse` keeps. */
  function Member(j: Json, key: string): Option<Json> {
    match j
    case JObj(fields) => LastField(fields, key)
    case _ => None
  }

  /** An object whose keys are all different. */
  predicate DistinctKeys(fields: seq<Field>) {
    forall i, k :: 0 <= i < k < |fields| ==> fields[i].key != fields[k].key
  }

  /** In an object with distinct keys each member is found under its own
      key. */
  lemma {:induction false} MemberOfDistinct(fields: seq<Field>, i: nat)
    requires DistinctKeys(fields) && i < |fields|
    ensures Member(JObj(fields), fields[i].key) == Some(fields[i].value)
  {
    if i != |fields| - 1 {
      MemberOfDistinct(fields[..|fields| - 1], i);
    }
  }
}

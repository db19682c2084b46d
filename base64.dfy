/** Base 64 encoding as in section 4 of RFC 4648, the decoding `atob`
    performs (the "forgiving-base64 decode" of the WHATWG Infra standard),
    and the binary strings `btoa`/`atob` exchange with JavaScript code. */
module Base64 {
  import opened Wrappers

  type byte = b: int | 0 <= b < 256

  /** A 6-bit group value. */
  type sextet = x: int | 0 <= x < 64

  /** The alphabet of table 1 of RFC 4648. */
  function Alphabet(i: sextet): char {
    if i < 26 then ('A' as int + i) as char
    else if i < 52 then ('a' as int + (i - 26)) as char
    else if i < 62 then ('0' as int + (i - 52)) as char
    else if i == 62 then '+'
    else '/'
  }

  /** The value of an alphabet character, `None` for any other character. */
  function IndexOf(c: char): (r: Option<sextet>)
    ensures r.Some? ==> Alphabet(r.value) == c
  {
    if 'A' <= c <= 'Z' then Some(c as int - 'A' as int)
    else if 'a' <= c <= 'z' then Some(c as int - 'a' as int + 26)
    else if '0' <= c <= '9' then Some(c as int - '0' as int + 52)
    else if c == '+' then Some(62)
    else if c == '/' then Some(63)
    else None
  }

  lemma IndexOfAlphabet(i: sextet)
    ensures IndexOf(Alphabet(i)) == Some(i)
  {
  }

  /** The four sextets of a full group of three bytes. */
  function Quad(x: byte, y: byte, z: byte): (r: seq<sextet>)
    ensures |r| == 4
  {
    [x / 4, (x % 4) * 16 + y / 16, (y % 16) * 4 + z / 64, z % 64]
  }

  /** The sextets of a final group of one or two bytes, the unused low
      bits zero. */
  function Tail(b: seq<byte>): (r: seq<sextet>)
    requires 1 <= |b| <= 2
    ensures |r| == |b| + 1
  {
    if |b| == 1 then [b[0] / 4, (b[0] % 4) * 16]
    else [b[0] / 4, (b[0] % 4) * 16 + b[1] / 16, (b[1] % 16) * 4]
  }

  /** The sextets of `b`: four per full group of three bytes, then two or
      three for a final group of one or two bytes. */
  function Sextets(b: seq<byte>): (r: seq<sextet>)
    ensures |r| % 4 != 1
    ensures |r| == 4 * (|b| / 3) + (if |b| % 3 == 0 then 0 else |b| % 3 + 1)
  {
    if |b| == 0 then []
    else if |b| <= 2 then Tail(b)
    else Quad(b[0], b[1], b[2]) + Sextets(b[3..])
  }

  function Letters(v: seq<sextet>): (r: string)
    ensures |r| == |v| && forall i :: 0 <= i < |v| ==> r[i] == Alphabet(v[i])
  {
    seq(|v|, i requires 0 <= i < |v| => Alphabet(v[i]))
  }

  /** The padding that completes the final quantum. */
  function Padding(n: nat): string {
    if n % 3 == 1 then "==" else if n % 3 == 2 then "=" else ""
  }

  /** The base 64 encoding of `b` with padding, as `btoa` produces it. */
  function Encode(b: seq<byte>): (r: string)
    ensures |r| % 4 == 0
    ensures |r| == 4 * ((|b| + 2) / 3)
  {
    PaddedLength(|b|);
    Letters(Sextets(b)) + Padding(|b|)
  }

  lemma PaddedLength(n: nat)
    ensures var k := 4 * (n / 3) + (if n % 3 == 0 then 0 else n % 3 + 1);
      k + |Padding(n)| == 4 * ((n + 2) / 3) && (k + |Padding(n)|) % 4 == 0
  {
  }

  /** ASCII whitespace (tab, line feed, form feed, carriage return, space),
      which the forgiving decoder skips. */
  predicate IsAsciiWhitespace(c: char) {
    c == '\t' || c == '\n' || c as int == 0x0C || c == '\r' || c == ' '
  }

  function RemoveWhitespace(s: string): (r: string)
    ensures |r| <= |s|
    ensures (forall i :: 0 <= i < |s| ==> !IsAsciiWhitespace(s[i])) ==> r == s
  {
    if s == [] then []
    else (if IsAsciiWhitespace(s[0]) then [] else [s[0]]) + RemoveWhitespace(s[1..])
  }

  /** When the length is a multiple of four, one or two trailing `=` are
      dropped. */
  function StripPadding(s: string): string {
    if |s| % 4 != 0 then s
    else if |s| >= 2 && s[|s| - 1] == '=' && s[|s| - 2] == '=' then s[..|s| - 2]
    else if |s| >= 1 && s[|s| - 1] == '=' then s[..|s| - 1]
    else s
  }

  predicate AllInAlphabet(s: string) {
    forall i :: 0 <= i < |s| ==> IndexOf(s[i]).Some?
  }

  function Values(s: string): (r: seq<sextet>)
    requires AllInAlphabet(s)
    ensures |r| == |s| && forall i :: 0 <= i < |s| ==> Some(r[i]) == IndexOf(s[i])
  {
    seq(|s|, i requires 0 <= i < |s| => IndexOf(s[i]).value)
  }

  /** The three bytes of a group of four sextets. */
  function Triple(a: sextet, b: sextet, c: sextet, d: sextet): (r: seq<byte>)
    ensures |r| == 3
  {
    [a * 4 + b / 16, (b % 16) * 16 + c / 4, (c % 4) * 64 + d]
  }

  /** The bytes of a final pair or triple of sextets; leftover low bits
      are discarded. */
  function Partial(v: seq<sextet>): (r: seq<byte>)
    requires 2 <= |v| <= 3
    ensures |r| == |v| - 1
  {
    var a: int, b: int := v[0], v[1];
    if |v| == 2 then [a * 4 + b / 16]
    else [a * 4 + b / 16, (b % 16) * 16 + v[2] / 4]
  }

  /** Reassembles bytes from sextets: three per group of four, then one
      for a final pair and two for a final triple. */
  function FromSextets(v: seq<sextet>): (r: seq<byte>)
    requires |v| % 4 != 1
    ensures |r| == 3 * (|v| / 4) + (if |v| % 4 == 0 then 0 else |v| % 4 - 1)
  {
    if |v| == 0 then []
    else if |v| <= 3 then Partial(v)
    else Triple(v[0], v[1], v[2], v[3]) + FromSextets(v[4..])
  }

  /** The forgiving-base64 decode: `None` where `atob` throws
      `InvalidCharacterError`. */
  function Decode(s: string): (r: Option<seq<byte>>)
  {
    var d := StripPadding(RemoveWhitespace(s));
    if |d| % 4 == 1 || !AllInAlphabet(d) then None
    else Some(FromSextets(Values(d)))
  }

  lemma ByteSplits(x: byte, y: byte, z: byte)
    ensures (x / 4) * 4 + ((x % 4) * 16 + y / 16) / 16 == x
    ensures (((x % 4) * 16 + y / 16) % 16) * 16 + ((y % 16) * 4 + z / 64) / 4 == y
    ensures (((y % 16) * 4 + z / 64) % 4) * 64 + z % 64 == z
  {
  }

  /** A full group's sextets reassemble into its bytes. */
  lemma TripleOfQuad(x: byte, y: byte, z: byte)
    ensures var q := Quad(x, y, z); Triple(q[0], q[1], q[2], q[3]) == [x, y, z]
  {
    ByteSplits(x, y, z);
  }

  /** So does a final group of one or two bytes. */
  lemma PartialOfTail(b: seq<byte>)
    requires 1 <= |b| <= 2
    ensures Partial(Tail(b)) == b
  {
    if |b| == 1 {
      ByteSplits(b[0], 0, 0);
    } else {
      ByteSplits(b[0], b[1], 0);
    }
  }

  lemma {:induction false} FromSextetsOfSextets(b: seq<byte>)
    ensures FromSextets(Sextets(b)) == b
  {
    if |b| == 0 {
    } else if |b| <= 2 {
      PartialOfTail(b);
    } else {
      var q, w := Quad(b[0], b[1], b[2]), Sextets(b[3..]);
      var v := q + w;
      assert v[..4] == q && v[4..] == w;
      TripleOfQuad(b[0], b[1], b[2]);
      FromSextetsOfSextets(b[3..]);
      assert b == [b[0], b[1], b[2]] + b[3..];
    }
  }

  lemma {:induction false} NoWhitespaceInEncoding(b: seq<byte>)
    ensures RemoveWhitespace(Encode(b)) == Encode(b)
  {
    var v := Sextets(b);
    var letters, padding := Letters(v), Padding(|b|);
    assert Encode(b) == letters + padding;
    forall i | 0 <= i < |letters| ensures !IsAsciiWhitespace(letters[i]) {
      AlphabetIsPrintable(v[i]);
    }
    forall i | 0 <= i < |padding| ensures !IsAsciiWhitespace(padding[i]) {
    }
  }

  lemma AlphabetIsPrintable(i: sextet)
    ensures 0x21 <= Alphabet(i) as int <= 0x7E
  {
  }

  lemma {:induction false} StripPaddingOfEncoding(b: seq<byte>)
    ensures StripPadding(Encode(b)) == Letters(Sextets(b))
  {
    var v := Sextets(b);
    var letters := Letters(v);
    var e := Encode(b);
    if |b| % 3 == 0 {
      assert e == letters;
      if |letters| > 0 { assert e[|e| - 1] == Alphabet(v[|v| - 1]); }
    } else if |b| % 3 == 1 {
      assert e == letters + "==";
      assert e[..|e| - 2] == letters;
    } else {
      assert e == letters + "=";
      assert e[..|e| - 1] == letters;
      assert e[|e| - 2] == Alphabet(v[|v| - 1]);
    }
  }

  lemma {:induction false} ValuesOfLetters(v: seq<sextet>)
    ensures AllInAlphabet(Letters(v)) && Values(Letters(v)) == v
  {
    var letters := Letters(v);
    forall i | 0 <= i < |letters| ensures IndexOf(letters[i]) == Some(v[i]) {
      IndexOfAlphabet(v[i]);
    }
  }

  /** Decoding what `Encode` produced gives the bytes back, the empty
      sequence included. */
  lemma {:induction false} DecodeEncode(b: seq<byte>)
    ensures Decode(Encode(b)) == Some(b)
  {
    NoWhitespaceInEncoding(b);
    StripPaddingOfEncoding(b);
    ValuesOfLetters(Sextets(b));
    FromSextetsOfSextets(b);
  }

  /** The whitespace removal keeps every other character. */
  lemma {:induction false} RemoveWhitespaceKeeps(s: string, i: nat)
    requires i < |s| && !IsAsciiWhitespace(s[i])
    ensures s[i] in RemoveWhitespace(s)
  {
    if i > 0 {
      RemoveWhitespaceKeeps(s[1..], i - 1);
    }
  }

  /** Stripping the padding removes only `=`. */
  lemma StripPaddingKeeps(s: string, i: nat)
    requires i < |s| && s[i] != '='
    ensures s[i] in StripPadding(s)
  {
    if |s| % 4 == 0 && |s| >= 2 && s[|s| - 1] == '=' && s[|s| - 2] == '=' {
      assert StripPadding(s)[i] == s[i];
    } else if |s| % 4 == 0 && s[|s| - 1] == '=' {
      assert StripPadding(s)[i] == s[i];
    }
  }

  /** A text without whitespace whose length is 1 modulo 4 leaves a
      lone sextet, so `atob` throws. */
  lemma LoneSextetRejected(s: string)
    requires forall i :: 0 <= i < |s| ==> !IsAsciiWhitespace(s[i])
    requires |s| % 4 == 1
    ensures Decode(s).None?
  {
    assert RemoveWhitespace(s) == s;
  }

  /** A character that is neither whitespace, padding nor in the alphabet
      makes `atob` throw. */
  lemma ForeignCharRejected(s: string, i: nat)
    requires i < |s| && !IsAsciiWhitespace(s[i]) && s[i] != '=' && IndexOf(s[i]).None?
    ensures Decode(s).None?
  {
    var w := RemoveWhitespace(s);
    RemoveWhitespaceKeeps(s, i);
    var k :| 0 <= k < |w| && w[k] == s[i];
    StripPaddingKeeps(w, k);
    var d := StripPadding(w);
    var m :| 0 <= m < |d| && d[m] == s[i];
    assert !AllInAlphabet(d) by { assert IndexOf(d[m]).None?; }
  }

  /** The binary string with one code unit per byte. */
  function Latin1(b: seq<byte>): (r: string)
    ensures |r| == |b| && forall i :: 0 <= i < |b| ==> r[i] as int == b[i]
  {
    seq(|b|, i requires 0 <= i < |b| => b[i] as char)
  }

  /** `btoa(s)`: `None` (an `InvalidCharacterError`) when some code unit
      is above 255. */
  function Btoa(s: string): (r: Option<string>)
    ensures r.Some? <==> forall i :: 0 <= i < |s| ==> s[i] as int < 256
  {
    if forall i :: 0 <= i < |s| ==> s[i] as int < 256 then
      Some(Encode(seq(|s|, i requires 0 <= i < |s| && s[i] as int < 256 => s[i] as int as byte)))
    else None
  }

  lemma BtoaLatin1(b: seq<byte>)
    ensures Btoa(Latin1(b)) == Some(Encode(b))
  {
    var s := Latin1(b);
    assert seq(|s|, i requires 0 <= i < |s| && s[i] as int < 256 => s[i] as int as byte) == b;
  }

  /** `atob(s)`: the decoded bytes as a binary string. */
  function Atob(s: string): (r: Option<string>)
    ensures r.Some? <==> Decode(s).Some?
    ensures r.Some? ==> r.value == Latin1(Decode(s).value)
  {
    match Decode(s)
    case None => None
    case Some(b) => Some(Latin1(b))
  }
}

/** JSON values as Python's `json` module sees them, and `json.dumps` with its default
    settings (`ensure_ascii=True`, separators `", "` and `": "`, keys in insertion order). */
module Json {
  import opened Wrappers
  import opened Text

  /** Floating-point numbers are not part of this model. */
  datatype Json =
    | JNull
    | JBool(b: bool)
    | JInt(i: int)
    | JString(s: string)
    | JArray(items: seq<Json>)
    | JObject(fields: seq<Field>)

  datatype Field = Field(key: string, value: Json)

  /** Lower-case hexadecimal digit. */
  function HexDigit(d: nat): (c: char)
    requires d < 16
    ensures c as int < 128
  {
    if d < 10 then ('0' as int + d) as char else ('a' as int + d - 10) as char
  }

  /** `'\\u{0:04x}'.format(n)` */
  function UnicodeEscape(n: nat): (r: string)
    requires n < 0x1_0000
    ensures |r| == 6 && Ascii(r)
  {
    ['\\', 'u', HexDigit(n / 0x1000), HexDigit(n / 0x100 % 16), HexDigit(n / 0x10 % 16), HexDigit(n % 16)]
  }

  /** The text `json.dumps` writes for one character of a string: printable ASCII other
      than the quote and the backslash stands for itself, the usual control characters
      get their short escapes, everything else a `\uXXXX` escape (a surrogate pair above
      the Basic Multilingual Plane). */
  function EscapeChar(c: char): (r: string)
    ensures Ascii(r) && |r| >= 1
    ensures (' ' <= c <= '~' && c != '"' && c != '\\') <==> r == [c]
  {
    var n := c as int;
    if c == '"' then "\\\""
    else if c == '\\' then "\\\\"
    else if c == '\n' then "\\n"
    else if c == '\r' then "\\r"
    else if c == '\t' then "\\t"
    else if n == 8 then "\\b"
    else if n == 12 then "\\f"
    else if 0x20 <= n <= 0x7E then [c]
    else if n < 0x1_0000 then UnicodeEscape(n)
    else
      var m := n - 0x1_0000;
      UnicodeEscape(0xD800 + m / 0x400) + UnicodeEscape(0xDC00 + m % 0x400)
  }

  function EscapeChars(s: string): (r: string)
    ensures Ascii(r) && |r| >= |s|
  {
    if s == [] then "" else EscapeChar(s[0]) + EscapeChars(s[1..])
  }

  /** A JSON string literal. */
  function Quote(s: string): (r: string)
    ensures Ascii(r) && |r| >= 2 && r[0] == '"' && r[|r| - 1] == '"'
  {
    "\"" + EscapeChars(s) + "\""
  }

  /** `json.dumps(v)` */
  function Dumps(v: Json): (r: string)
    ensures r != []
    ensures r[0] == '"' <==> v.JString?
    ensures r[0] == '[' <==> v.JArray?
    ensures r[0] == '{' <==> v.JObject?
    decreases v
  {
    match v
    case JNull => "null"
    case JBool(b) => if b then "true" else "false"
    case JInt(i) => Decimal(i)
    case JString(s) => Quote(s)
    case JArray(items) =>
      "[" + Join(", ", seq(|items|, k requires 0 <= k < |items| => Dumps(items[k]))) + "]"
    case JObject(fields) =>
      "{" + Join(", ", seq(|fields|, k requires 0 <= k < |fields| =>
        Quote(fields[k].key) + ": " + Dumps(fields[k].value))) + "}"
  }

  lemma BracketedAscii(open: string, parts: seq<string>, close: string)
    requires Ascii(open) && Ascii(close)
    requires forall i :: 0 <= i < |parts| ==> Ascii(parts[i])
    ensures Ascii(open + Join(", ", parts) + close)
  {
    JoinAscii(", ", parts);
  }

  /** With `ensure_ascii`, the whole text `json.dumps` produces is ASCII, whatever
      characters the value holds. */
  lemma {:induction false} DumpsAscii(v: Json)
    ensures Ascii(Dumps(v))
    decreases v
  {
    match v
    case JNull =>
    case JBool(b) =>
    case JInt(i) =>
    case JString(s) =>
    case JArray(items) =>
      var parts := seq(|items|, k requires 0 <= k < |items| => Dumps(items[k]));
      forall k | 0 <= k < |items| ensures Ascii(parts[k]) {
        DumpsAscii(items[k]);
      }
      BracketedAscii("[", parts, "]");
      assert Dumps(v) == "[" + Join(", ", parts) + "]";
    case JObject(fields) =>
      var parts := seq(|fields|, k requires 0 <= k < |fields| =>
        Quote(fields[k].key) + ": " + Dumps(fields[k].value));
      forall k | 0 <= k < |fields| ensures Ascii(parts[k]) {
        DumpsAscii(fields[k].value);
      }
      BracketedAscii("{", parts, "}");
      assert Dumps(v) == "{" + Join(", ", parts) + "}";
  }

  // ---------------------------------------------------------------------------
  // Reading a string literal back (`json.loads` on a JSON string)

  function HexValue(c: char): (d: int)
    ensures 0 <= d < 16
  {
    if '0' <= c <= '9' then c as int - '0' as int
    else if 'a' <= c <= 'f' then c as int - 'a' as int + 10
    else if 'A' <= c <= 'F' then c as int - 'A' as int + 10
    else 0
  }

  predicate IsHex(c: char) {
    '0' <= c <= '9' || 'a' <= c <= 'f' || 'A' <= c <= 'F'
  }

  /** The value of the four hexadecimal digits of a `\uXXXX` escape. */
  function Hex4(h: string): (n: int)
    requires |h| == 4
    ensures 0 <= n < 0x1_0000
  {
    ((HexValue(h[0]) * 16 + HexValue(h[1])) * 16 + HexValue(h[2])) * 16 + HexValue(h[3])
  }

  predicate IsHex4(h: string) {
    |h| == 4 && IsHex(h[0]) && IsHex(h[1]) && IsHex(h[2]) && IsHex(h[3])
  }

  function Prepend(c: char, rest: Option<string>): Option<string> {
    match rest
    case Some(r) => Some([c] + r)
    case None => None
  }

  /** The characters denoted by the body of a JSON string literal, or None when it is not
      a valid body: a bare quote or control character, an unknown escape, bad hex digits,
      or a surrogate escape that is not a high-low pair. */
  function Unescape(t: string): (o: Option<string>)
    ensures o.Some? ==> |o.value| <= |t|
    decreases |t|
  {
    if t == [] then Some([])
    else if t[0] != '\\' then
      if t[0] == '"' || t[0] as int < 0x20 then None else Prepend(t[0], Unescape(t[1..]))
    else if |t| < 2 then None
    else if t[1] == '"' then Prepend('"', Unescape(t[2..]))
    else if t[1] == '\\' then Prepend('\\', Unescape(t[2..]))
    else if t[1] == '/' then Prepend('/', Unescape(t[2..]))
    else if t[1] == 'b' then Prepend(8 as char, Unescape(t[2..]))
    else if t[1] == 'f' then Prepend(12 as char, Unescape(t[2..]))
    else if t[1] == 'n' then Prepend('\n', Unescape(t[2..]))
    else if t[1] == 'r' then Prepend('\r', Unescape(t[2..]))
    else if t[1] == 't' then Prepend('\t', Unescape(t[2..]))
    else if t[1] != 'u' || |t| < 6 || !IsHex4(t[2..6]) then None
    else
      var n := Hex4(t[2..6]);
      if n < 0xD800 || 0xE000 <= n then Prepend(n as char, Unescape(t[6..]))
      else if 0xDC00 <= n || |t| < 12 || t[6] != '\\' || t[7] != 'u' || !IsHex4(t[8..12]) then None
      else
        var low := Hex4(t[8..12]);
        if low < 0xDC00 || 0xE000 <= low then None
        else Prepend((0x1_0000 + (n - 0xD800) * 0x400 + (low - 0xDC00)) as char, Unescape(t[12..]))
  }

  /** The whitespace JSON allows around a value: space, tab, line feed, carriage return. */
  predicate JsonSpace(c: char) {
    c == ' ' || c == '\t' || c == '\n' || c == '\r'
  }

  /** The text with JSON whitespace removed from both ends, as `json.loads` skips it. */
  function TrimJsonSpace(t: string): (u: string)
    ensures |u| <= |t|
    ensures u == [] || (!JsonSpace(u[0]) && !JsonSpace(u[|u| - 1]))
    decreases |t|
  {
    if t == [] then []
    else if JsonSpace(t[0]) then TrimJsonSpace(t[1..])
    else if JsonSpace(t[|t| - 1]) then TrimJsonSpace(t[..|t| - 1])
    else t
  }

  /** `json.loads` of a text that should be a JSON string: one string literal, with
      optional JSON whitespace before and after it. */
  function LoadsString(t: string): (o: Option<string>)
    ensures o.Some? ==>
      var u := TrimJsonSpace(t);
      |u| >= 2 && u[0] == '"' && u[|u| - 1] == '"' && |o.value| <= |t| - 2
  {
    var u := TrimJsonSpace(t);
    if |u| >= 2 && u[0] == '"' && u[|u| - 1] == '"' then Unescape(u[1..|u| - 1]) else None
  }

  lemma HexDigitValue(d: nat)
    requires d < 16
    ensures IsHex(HexDigit(d)) && HexValue(HexDigit(d)) == d
  {
  }

  /** Taking hexadecimal digits off one at a time. */
  lemma DivDiv(n: nat)
    ensures n / 0x10 / 16 == n / 0x100 && n / 0x100 / 16 == n / 0x1000
  {
  }

  lemma UnicodeEscapeValue(n: nat)
    requires n < 0x1_0000
    ensures IsHex4(UnicodeEscape(n)[2..6]) && Hex4(UnicodeEscape(n)[2..6]) == n
  {
    var d0, d1, d2, d3 := n / 0x1000, n / 0x100 % 16, n / 0x10 % 16, n % 16;
    var h := UnicodeEscape(n)[2..6];
    assert h == [HexDigit(d0), HexDigit(d1), HexDigit(d2), HexDigit(d3)];
    HexDigitValue(d0);
    HexDigitValue(d1);
    HexDigitValue(d2);
    HexDigitValue(d3);
    DivDiv(n);
    assert d0 * 16 + d1 == n / 0x100;
    assert (d0 * 16 + d1) * 16 + d2 == n / 0x10;
    assert ((d0 * 16 + d1) * 16 + d2) * 16 + d3 == n;
  }

  lemma UnescapeShort(c: char, rest: string)
    requires c == '"' || c == '\\' || c == '\n' || c == '\r' || c == '\t' || c as int == 8 || c as int == 12
    ensures Unescape(EscapeChar(c) + rest) == Prepend(c, Unescape(rest))
  {
    var e := EscapeChar(c);
    var t := e + rest;
    assert |e| == 2 && t[0] == '\\' && t[1] == e[1] && t[2..] == rest;
    if c == '"' {
      assert e[1] == '"';
    } else if c == '\\' {
      assert e[1] == '\\';
    } else if c == '\n' {
      assert e[1] == 'n';
    } else if c == '\r' {
      assert e[1] == 'r';
    } else if c == '\t' {
      assert e[1] == 't';
    } else if c as int == 8 {
      assert e[1] == 'b';
    } else {
      assert e[1] == 'f';
    }
  }

  lemma UnescapeBasic(c: char, rest: string)
    requires c as int < 0x1_0000
    requires !(c == '"' || c == '\\' || c == '\n' || c == '\r' || c == '\t' || c as int == 8 || c as int == 12)
    ensures Unescape(EscapeChar(c) + rest) == Prepend(c, Unescape(rest))
  {
    if 0x20 <= c as int <= 0x7E {
      var t := [c] + rest;
      assert EscapeChar(c) == [c];
      assert t[1..] == rest;
    } else {
      assert EscapeChar(c) == UnicodeEscape(c as int);
      UnescapeUnicode(c as int, rest);
    }
  }

  /** A `\\uXXXX` escape of a character outside the surrogate range decodes to it. */
  lemma UnescapeUnicode(n: nat, rest: string)
    requires n < 0xD800 || 0xE000 <= n < 0x1_0000
    ensures Unescape(UnicodeEscape(n) + rest) == Prepend(n as char, Unescape(rest))
  {
    var e := UnicodeEscape(n);
    var t := e + rest;
    UnicodeEscapeValue(n);
    assert t[0] == '\\' && t[1] == 'u';
    assert t[2..6] == e[2..6];
    assert t[6..] == rest;
  }

  /** A high-low pair of `\\uXXXX` escapes decodes to the one character it encodes. */
  lemma UnescapePair(high: nat, low: nat, rest: string)
    requires 0xD800 <= high < 0xDC00 && 0xDC00 <= low < 0xE000
    ensures Unescape(UnicodeEscape(high) + UnicodeEscape(low) + rest) ==
            Prepend((0x1_0000 + (high - 0xD800) * 0x400 + (low - 0xDC00)) as char, Unescape(rest))
  {
    var e1, e2 := UnicodeEscape(high), UnicodeEscape(low);
    var t := e1 + e2 + rest;
    UnicodeEscapeValue(high);
    UnicodeEscapeValue(low);
    assert t[0] == '\\' && t[1] == 'u' && t[6] == '\\' && t[7] == 'u';
    assert t[2..6] == e1[2..6];
    assert t[8..12] == e2[2..6];
    assert t[12..] == rest;
  }

  lemma UnescapeAstral(c: char, rest: string)
    requires c as int >= 0x1_0000
    ensures Unescape(EscapeChar(c) + rest) == Prepend(c, Unescape(rest))
  {
    var m := c as int - 0x1_0000;
    var high := 0xD800 + m / 0x400;
    var low := 0xDC00 + m % 0x400;
    assert EscapeChar(c) == UnicodeEscape(high) + UnicodeEscape(low);
    UnescapePair(high, low, rest);
    assert 0x1_0000 + (high - 0xD800) * 0x400 + (low - 0xDC00) == c as int;
  }

  /** Decoding the escape of one character gives that character back. */
  lemma UnescapeStep(c: char, rest: string)
    ensures Unescape(EscapeChar(c) + rest) == Prepend(c, Unescape(rest))
  {
    if c == '"' || c == '\\' || c == '\n' || c == '\r' || c == '\t' || c as int == 8 || c as int == 12 {
      UnescapeShort(c, rest);
    } else if c as int < 0x1_0000 {
      UnescapeBasic(c, rest);
    } else {
      UnescapeAstral(c, rest);
    }
  }

  lemma {:induction false} UnescapeEscapeChars(s: string)
    ensures Unescape(EscapeChars(s)) == Some(s)
  {
    if s != [] {
      UnescapeEscapeChars(s[1..]);
      UnescapeStep(s[0], EscapeChars(s[1..]));
      assert EscapeChars(s) == EscapeChar(s[0]) + EscapeChars(s[1..]);
      assert [s[0]] + s[1..] == s;
    }
  }

  /** `json.loads(json.dumps(s)) == s` for every string: the escaping loses nothing. */
  /** Trimming removes exactly the whitespace padding around a text that neither starts
      nor ends with whitespace. */
  lemma {:induction false} TrimPadded(before: string, q: string, after: string)
    requires forall i :: 0 <= i < |before| ==> JsonSpace(before[i])
    requires forall i :: 0 <= i < |after| ==> JsonSpace(after[i])
    requires q != [] && !JsonSpace(q[0]) && !JsonSpace(q[|q| - 1])
    ensures TrimJsonSpace(before + q + after) == q
    decreases |before| + |after|
  {
    var t := before + q + after;
    if before != [] {
      assert t[0] == before[0];
      assert t[1..] == before[1..] + q + after;
      TrimPadded(before[1..], q, after);
    } else if after != [] {
      assert t == q + after;
      assert t[0] == q[0];
      assert t[|t| - 1] == after[|after| - 1];
      assert t[..|t| - 1] == [] + q + after[..|after| - 1];
      TrimPadded([], q, after[..|after| - 1]);
    } else {
      assert t == q;
    }
  }

  lemma StringRoundTrip(s: string)
    ensures LoadsString(Dumps(JString(s))) == Some(s)
  {
    var q := Dumps(JString(s));
    TrimPadded([], q, []);
    assert [] + q + [] == q;
    assert q[1..|q| - 1] == EscapeChars(s);
    UnescapeEscapeChars(s);
  }

  /** Whitespace written around the JSON text of a string does not change what is read. */
  lemma PaddedStringRoundTrip(before: string, s: string, after: string)
    requires forall i :: 0 <= i < |before| ==> JsonSpace(before[i])
    requires forall i :: 0 <= i < |after| ==> JsonSpace(after[i])
    ensures LoadsString(before + Dumps(JString(s)) + after) == Some(s)
  {
    var q := Dumps(JString(s));
    TrimPadded(before, q, after);
    TrimPadded([], q, []);
    assert [] + q + [] == q;
    StringRoundTrip(s);
  }
}

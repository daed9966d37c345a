/**
 * The backend's serialisation of one stream record, `json.dumps({"sentence": s, "audioUrl": u})`
 * with Python's defaults: keys in insertion order, separators ", " and ": ", and ASCII-only
 * output (every character outside space..tilde, and every quote and backslash, is escaped as
 * section 7 of RFC 8259 allows). A reference decoder for exactly this shape is its inverse.
 */
module JsonRecord {
  import opened Wrappers

  /** One line of the chat stream: a sentence and the locator of the clip that speaks it. */
  datatype StreamRecord = StreamRecord(sentence: string, audioUrl: string)

  /** Characters from space to tilde: everything `json.dumps` writes unescaped. */
  predicate IsPrintableAscii(c: char)
  {
    ' ' <= c <= '~'
  }

  predicate AllPrintableAscii(s: string)
  {
    forall k :: 0 <= k < |s| ==> IsPrintableAscii(s[k])
  }

  lemma {:induction false} PrintableAsciiAppend(a: string, b: string)
    requires AllPrintableAscii(a) && AllPrintableAscii(b)
    ensures AllPrintableAscii(a + b)
  {
    forall k | 0 <= k < |a + b| ensures IsPrintableAscii((a + b)[k]) {
      if k >= |a| { assert (a + b)[k] == b[k - |a|]; }
    }
  }

  lemma PrintableAsciiHasNoNewline(s: string)
    requires AllPrintableAscii(s)
    ensures '\n' !in s
  {
  }

  /** A lower-case hexadecimal digit, as Python's `'{0:04x}'` formats it. */
  function HexDigit(d: int): (c: char)
    requires 0 <= d < 16
    ensures IsPrintableAscii(c)
  {
    if d < 10 then (('0' as int) + d) as char else (('a' as int) + d - 10) as char
  }

  /** The value of a hexadecimal digit of either case, as JSON readers accept it. */
  function HexValue(c: char): Option<int>
  {
    if '0' <= c <= '9' then Some(c as int - '0' as int)
    else if 'a' <= c <= 'f' then Some(c as int - 'a' as int + 10)
    else if 'A' <= c <= 'F' then Some(c as int - 'A' as int + 10)
    else None
  }

  /** Four hexadecimal digits for a 16-bit code unit. */
  function Hex4(n: int): (r: string)
    requires 0 <= n < 0x10000
    ensures |r| == 4 && AllPrintableAscii(r)
  {
    [HexDigit(n / 0x1000), HexDigit(n / 0x100 % 0x10), HexDigit(n / 0x10 % 0x10), HexDigit(n % 0x10)]
  }

  /** The 16-bit code unit four hexadecimal digits spell, if they are digits. */
  function ParseHex4(t: string): (r: Option<int>)
    requires |t| == 4
    ensures r.Some? ==> 0 <= r.value < 0x10000
  {
    match (HexValue(t[0]), HexValue(t[1]), HexValue(t[2]), HexValue(t[3]))
    case (Some(a), Some(b), Some(c), Some(d)) =>
      assert 0 <= a < 16 && 0 <= b < 16 && 0 <= c < 16 && 0 <= d < 16;
      Some(a * 0x1000 + b * 0x100 + c * 0x10 + d)
    case _ => None
  }

  lemma HexDigitValue(d: int)
    requires 0 <= d < 16
    ensures HexValue(HexDigit(d)) == Some(d)
  {
  }

  /** The four base-16 digits of a 16-bit number recompose it. */
  lemma {:induction false} HexDigitsCompose(n: int)
    requires 0 <= n < 0x10000
    ensures 0 <= n / 0x1000 < 16
    ensures n / 0x1000 * 0x1000 + n / 0x100 % 0x10 * 0x100 + n / 0x10 % 0x10 * 0x10 + n % 0x10 == n
  {
    var q1 := n / 0x10;
    var q2 := q1 / 0x10;
    var q3 := q2 / 0x10;
    assert n == q1 * 0x10 + n % 0x10;
    assert q1 == q2 * 0x10 + q1 % 0x10;
    assert q2 == q3 * 0x10 + q2 % 0x10;
    assert q2 == n / 0x100;
    assert q3 == n / 0x1000;
  }

  lemma {:induction false} Hex4RoundTrip(n: int)
    requires 0 <= n < 0x10000
    ensures ParseHex4(Hex4(n)) == Some(n)
  {
    HexDigitsCompose(n);
    HexDigitValue(n / 0x1000);
    HexDigitValue(n / 0x100 % 0x10);
    HexDigitValue(n / 0x10 % 0x10);
    HexDigitValue(n % 0x10);
  }

  /** The code unit 8, backspace. */
  const Backspace: char := 8 as char
  /** The code unit 12, form feed. */
  const FormFeed: char := 12 as char

  /**
   * The escape of one character: two-character escapes for quote, backslash and the five
   * named controls, the character itself when it is printable ASCII, a `\uXXXX` escape for
   * every other code point of the basic plane, and a surrogate pair above it.
   */
  function EscapeChar(c: char): (r: string)
    ensures |r| >= 1 && AllPrintableAscii(r)
  {
    if c == '"' then "\\\""
    else if c == '\\' then "\\\\"
    else if c == '\n' then "\\n"
    else if c == '\r' then "\\r"
    else if c == '\t' then "\\t"
    else if c == Backspace then "\\b"
    else if c == FormFeed then "\\f"
    else if IsPrintableAscii(c) then [c]
    else if c as int < 0x10000 then
      PrintableAsciiAppend("\\u", Hex4(c as int));
      "\\u" + Hex4(c as int)
    else
      var v := c as int - 0x10000;
      var high := "\\u" + Hex4(0xD800 + v / 0x400);
      var low := "\\u" + Hex4(0xDC00 + v % 0x400);
      PrintableAsciiAppend("\\u", Hex4(0xD800 + v / 0x400));
      PrintableAsciiAppend("\\u", Hex4(0xDC00 + v % 0x400));
      PrintableAsciiAppend(high, low);
      high + low
  }

  /** The body of a JSON string literal for `s`, quotes excluded. */
  function Escape(s: string): (r: string)
    ensures AllPrintableAscii(r)
    ensures |r| >= |s|
  {
    if s == [] then ""
    else
      PrintableAsciiAppend(EscapeChar(s[0]), Escape(s[1..]));
      EscapeChar(s[0]) + Escape(s[1..])
  }

  const SentenceOpen: string := "{\"sentence\": \""
  const UrlOpen: string := ", \"audioUrl\": \""

  /** The record as one JSON object with exactly the keys `sentence` and `audioUrl`, in that order. */
  function EncodeRecord(r: StreamRecord): (line: string)
    ensures AllPrintableAscii(line)
    ensures '\n' !in line
    ensures |line| > 0 && line[0] == '{'
  {
    var a := SentenceOpen + Escape(r.sentence) + "\"";
    var b := UrlOpen + Escape(r.audioUrl) + "\"}";
    var line := a + b;
    PrintableAsciiAppend(SentenceOpen, Escape(r.sentence));
    PrintableAsciiAppend(SentenceOpen + Escape(r.sentence), "\"");
    PrintableAsciiAppend(UrlOpen, Escape(r.audioUrl));
    PrintableAsciiAppend(UrlOpen + Escape(r.audioUrl), "\"}");
    PrintableAsciiAppend(a, b);
    PrintableAsciiHasNoNewline(line);
    line
  }

  /** The character a two-character escape `\x` stands for. */
  function SimpleUnescape(x: char): Option<char>
  {
    if x == '"' then Some('"')
    else if x == '\\' then Some('\\')
    else if x == '/' then Some('/')
    else if x == 'b' then Some(Backspace)
    else if x == 'f' then Some(FormFeed)
    else if x == 'n' then Some('\n')
    else if x == 'r' then Some('\r')
    else if x == 't' then Some('\t')
    else None
  }

  function Prepend(c: char, p: Option<(string, string)>): Option<(string, string)>
  {
    match p
    case None => None
    case Some((value, rest)) => Some(([c] + value, rest))
  }

  /**
   * Reads the body of a JSON string literal up to and including its closing quote: the
   * decoded value and the text after the quote, or None when the body is malformed.
   */
  function ParseBody(t: string): Option<(string, string)>
    decreases |t|
  {
    if |t| == 0 then None
    else if t[0] == '"' then Some(("", t[1..]))
    else if t[0] == '\\' then
      if |t| < 2 then None
      else if t[1] != 'u' then
        match SimpleUnescape(t[1])
        case None => None
        case Some(c) => Prepend(c, ParseBody(t[2..]))
      else if |t| < 6 then None
      else
        match ParseHex4(t[2..6])
        case None => None
        case Some(n) =>
          if 0xD800 <= n < 0xDC00 then
            if |t| < 12 || t[6] != '\\' || t[7] != 'u' then None
            else
              match ParseHex4(t[8..12])
              case None => None
              case Some(m) =>
                if 0xDC00 <= m < 0xE000 then
                  Prepend((0x10000 + (n - 0xD800) * 0x400 + (m - 0xDC00)) as char, ParseBody(t[12..]))
                else None
          else if 0xDC00 <= n < 0xE000 then None
          else Prepend(n as char, ParseBody(t[6..]))
    else if t[0] < ' ' then None
    else Prepend(t[0], ParseBody(t[1..]))
  }

  /** A character with a two-character escape. */
  predicate ShortEscaped(c: char)
  {
    c == '"' || c == '\\' || c == '\n' || c == '\r' || c == '\t' || c == Backspace || c == FormFeed
  }

  lemma {:induction false} ParseShortEscape(c: char, rest: string)
    requires ShortEscaped(c)
    ensures ParseBody(EscapeChar(c) + rest) == Prepend(c, ParseBody(rest))
  {
    var t := EscapeChar(c) + rest;
    assert |EscapeChar(c)| == 2;
    assert t[0] == '\\' && t[1] != 'u';
    assert SimpleUnescape(t[1]) == Some(c);
    assert t[2..] == rest;
  }

  lemma {:induction false} ParseUnitEscape(c: char, rest: string)
    requires !ShortEscaped(c) && !IsPrintableAscii(c) && c as int < 0x10000
    ensures ParseBody(EscapeChar(c) + rest) == Prepend(c, ParseBody(rest))
  {
    var h := Hex4(c as int);
    var t := "\\u" + h + rest;
    assert EscapeChar(c) + rest == t;
    assert t[2..6] == h;
    Hex4RoundTrip(c as int);
    assert t[6..] == rest;
  }

  /** The surrogate pair of a code point above the basic plane. */
  lemma SurrogatesCompose(c: char)
    requires c as int >= 0x10000
    ensures var v := c as int - 0x10000;
            && 0xD800 <= 0xD800 + v / 0x400 < 0xDC00
            && 0xDC00 <= 0xDC00 + v % 0x400 < 0xE000
            && 0x10000 + v / 0x400 * 0x400 + v % 0x400 == c as int
  {
  }

  lemma {:induction false} ParsePairEscape(c: char, rest: string)
    requires c as int >= 0x10000
    ensures ParseBody(EscapeChar(c) + rest) == Prepend(c, ParseBody(rest))
  {
    var v := c as int - 0x10000;
    SurrogatesCompose(c);
    var hi := 0xD800 + v / 0x400;
    var lo := 0xDC00 + v % 0x400;
    PairEscapeText(c, rest);
    ParsePairText(hi, lo, rest);
    assert (0x10000 + (hi - 0xD800) * 0x400 + (lo - 0xDC00)) as char == c;
  }

  /** Above the basic plane, the escape is the `\u` escapes of the high and then the low surrogate. */
  lemma {:induction false} PairEscapeText(c: char, rest: string)
    requires c as int >= 0x10000
    ensures var v := c as int - 0x10000;
            && 0xD800 <= 0xD800 + v / 0x400 < 0xDC00
            && 0xDC00 <= 0xDC00 + v % 0x400 < 0xE000
            && EscapeChar(c) + rest == "\\u" + Hex4(0xD800 + v / 0x400) + "\\u" + Hex4(0xDC00 + v % 0x400) + rest
  {
    SurrogatesCompose(c);
  }

  /** A high and a low surrogate escape read back as the code point they encode. */
  lemma {:induction false} ParsePairText(hi: int, lo: int, rest: string)
    requires 0xD800 <= hi < 0xDC00 && 0xDC00 <= lo < 0xE000
    ensures ParseBody("\\u" + Hex4(hi) + "\\u" + Hex4(lo) + rest)
         == Prepend((0x10000 + (hi - 0xD800) * 0x400 + (lo - 0xDC00)) as char, ParseBody(rest))
  {
    var t := "\\u" + Hex4(hi) + "\\u" + Hex4(lo) + rest;
    assert t[2..6] == Hex4(hi);
    assert t[6] == '\\' && t[7] == 'u';
    assert t[8..12] == Hex4(lo);
    Hex4RoundTrip(hi);
    Hex4RoundTrip(lo);
    assert t[12..] == rest;
  }

  /** Reading back one escaped character consumes exactly its escape. */
  lemma {:induction false} ParseEscapeChar(c: char, rest: string)
    ensures ParseBody(EscapeChar(c) + rest) == Prepend(c, ParseBody(rest))
  {
    if ShortEscaped(c) {
      ParseShortEscape(c, rest);
    } else if IsPrintableAscii(c) {
      var t := EscapeChar(c) + rest;
      assert t[0] == c && t[1..] == rest;
    } else if c as int < 0x10000 {
      ParseUnitEscape(c, rest);
    } else {
      ParsePairEscape(c, rest);
    }
  }

  /** A string literal body written by `Escape`, then a quote, reads back as the original string. */
  lemma {:induction false} ParseEscape(s: string, rest: string)
    ensures ParseBody(Escape(s) + "\"" + rest) == Some((s, rest))
    decreases |s|
  {
    if s == [] {
      assert Escape(s) + "\"" + rest == "\"" + rest;
    } else {
      var tail := Escape(s[1..]) + "\"" + rest;
      assert Escape(s) + "\"" + rest == EscapeChar(s[0]) + tail;
      ParseEscapeChar(s[0], tail);
      ParseEscape(s[1..], rest);
      assert [s[0]] + s[1..] == s;
    }
  }

  /** `p` starts `t`. */
  predicate StartsWith(t: string, p: string)
  {
    |p| <= |t| && t[..|p|] == p
  }

  /** A reference reader for lines of exactly the shape `EncodeRecord` writes. */
  function DecodeRecord(line: string): Option<StreamRecord>
  {
    if !StartsWith(line, SentenceOpen) then None
    else
      match ParseBody(line[|SentenceOpen|..])
      case None => None
      case Some((sentence, rest)) =>
        if !StartsWith(rest, UrlOpen) then None
        else
          match ParseBody(rest[|UrlOpen|..])
          case None => None
          case Some((url, tail)) =>
            if tail == "}" then Some(StreamRecord(sentence, url)) else None
  }

  /** Where the pieces of a serialised record sit for the reader. */
  lemma {:induction false} RecordLayout(a: string, b: string)
    ensures StartsWith(SentenceOpen + a + "\"" + (UrlOpen + b + "\"}"), SentenceOpen)
    ensures (SentenceOpen + a + "\"" + (UrlOpen + b + "\"}"))[|SentenceOpen|..]
         == a + "\"" + (UrlOpen + b + "\"}")
    ensures StartsWith(UrlOpen + b + "\"}", UrlOpen)
    ensures (UrlOpen + b + "\"}")[|UrlOpen|..] == b + "\"" + "}"
  {
    assert SentenceOpen + a + "\"" + (UrlOpen + b + "\"}")
        == SentenceOpen + (a + "\"" + (UrlOpen + b + "\"}"));
    assert UrlOpen + b + "\"}" == UrlOpen + (b + "\"" + "}");
  }

  /** Every serialised record reads back as itself. */
  lemma {:induction false} DecodeEncode(r: StreamRecord)
    ensures DecodeRecord(EncodeRecord(r)) == Some(r)
  {
    var a := Escape(r.sentence);
    var b := Escape(r.audioUrl);
    RecordLayout(a, b);
    ParseEscape(r.sentence, UrlOpen + b + "\"}");
    ParseEscape(r.audioUrl, "}");
  }
}

/**
 * How the printer writes string constants: backtick escaping inside double
 * quotes, quote doubling inside single quotes, and here-strings. Each
 * encoding is paired with a reader that does what PowerShell's tokenizer
 * does with the text, and the round trips between them are proved.
 */
module Escaping {
  import opened Wrappers

  // ---------------------------------------------------------------------
  // UTF-16 code units: a .NET string is a sequence of these, so the printer
  // sees a character outside the Basic Multilingual Plane as two units.
  // ---------------------------------------------------------------------

  predicate IsSurrogate(u: int) {
    0xD800 <= u < 0xE000
  }

  /** The UTF-16 code units of one character. */
  function Utf16(c: char): (r: seq<nat>)
    ensures |r| == 1 || |r| == 2
    ensures forall i :: 0 <= i < |r| ==> r[i] < 0x10000
    ensures c as int < 128 <==> (|r| == 1 && r[0] < 128)
  {
    var v := c as int;
    if v < 0x10000 then [v]
    else [0xD800 + (v - 0x10000) / 0x400, 0xDC00 + (v - 0x10000) % 0x400]
  }

  /** The UTF-16 code units of a string. */
  function Utf16All(s: string): seq<nat>
    decreases |s|
  {
    if s == [] then [] else Utf16(s[0]) + Utf16All(s[1..])
  }

  /** Turning UTF-16 code units back into characters; a lone surrogate is not a character. */
  function DecodeUtf16(us: seq<nat>): Option<string>
    decreases |us|
  {
    if us == [] then Some([])
    else if 0 <= us[0] < 0xD800 || 0xE000 <= us[0] < 0x10000 then
      var rest :- DecodeUtf16(us[1..]);
      Some([us[0] as char] + rest)
    else if 0xD800 <= us[0] < 0xDC00 && |us| >= 2 && 0xDC00 <= us[1] < 0xE000 then
      var rest :- DecodeUtf16(us[2..]);
      Some([(0x10000 + (us[0] - 0xD800) * 0x400 + (us[1] - 0xDC00)) as char] + rest)
    else
      None
  }

  /** Prefixing an optional text; a failure stays a failure. */
  function Prepend<T>(p: seq<T>, r: Option<seq<T>>): Option<seq<T>> {
    if r.Some? then Some(p + r.value) else None
  }

  lemma {:induction false} DecodeChar(c: char, us: seq<nat>)
    ensures DecodeUtf16(Utf16(c) + us) == Prepend([c], DecodeUtf16(us))
  {
    var v := c as int;
    var all := Utf16(c) + us;
    if v < 0x10000 {
      assert all[1..] == us;
    } else {
      var q := (v - 0x10000) / 0x400;
      var r := (v - 0x10000) % 0x400;
      assert v - 0x10000 == q * 0x400 + r;
      assert all[2..] == us;
      assert (0x10000 + q * 0x400 + r) as char == c;
    }
  }

  /** Decoding undoes the UTF-16 encoding of any string. */
  lemma {:induction false} DecodeUtf16All(s: string)
    ensures DecodeUtf16(Utf16All(s)) == Some(s)
    decreases |s|
  {
    if s != [] {
      DecodeUtf16All(s[1..]);
      DecodeChar(s[0], Utf16All(s[1..]));
      assert [s[0]] + s[1..] == s;
    }
  }

  // ---------------------------------------------------------------------
  // Hexadecimal, as `ToString("X")` writes it: upper case, no leading zeros.
  // ---------------------------------------------------------------------

  function HexDigit(n: int): (c: char)
    requires 0 <= n < 16
  {
    if n < 10 then ('0' as int + n) as char else ('A' as int + n - 10) as char
  }

  function Hex(n: nat): (r: string)
    decreases n
  {
    if n < 16 then [HexDigit(n)] else Hex(n / 16) + [HexDigit(n % 16)]
  }

  /** The value of a hexadecimal digit of either case, as PowerShell reads `` `u{...} ``. */
  function DigitValue(c: char): Option<nat> {
    if '0' <= c <= '9' then Some(c as int - '0' as int)
    else if 'A' <= c <= 'F' then Some(c as int - 'A' as int + 10)
    else if 'a' <= c <= 'f' then Some(c as int - 'a' as int + 10)
    else None
  }

  function ParseHex(s: string): Option<nat>
    decreases |s|
  {
    if |s| == 0 then None
    else if |s| == 1 then DigitValue(s[0])
    else
      var high :- ParseHex(s[..|s| - 1]);
      var low :- DigitValue(s[|s| - 1]);
      Some(high * 16 + low)
  }

  /** `Hex` writes at least one digit, never a closing brace, and reads back as the number it wrote. */
  lemma {:induction false} HexRoundTrip(n: nat)
    ensures |Hex(n)| >= 1
    ensures forall i :: 0 <= i < |Hex(n)| ==> DigitValue(Hex(n)[i]).Some?
    ensures ParseHex(Hex(n)) == Some(n)
    decreases n
  {
    if n >= 16 {
      HexRoundTrip(n / 16);
      assert Hex(n)[..|Hex(n)| - 1] == Hex(n / 16);
    }
  }

  /** A code unit is written with at most four hexadecimal digits. */
  lemma {:induction false} HexWidth(n: nat, bound: nat, width: nat)
    requires n < bound && bound == Pow16(width) && width >= 1
    ensures |Hex(n)| <= width
    decreases width
  {
    if n >= 16 {
      assert width >= 2;
      HexWidth(n / 16, Pow16(width - 1), width - 1);
    }
  }

  function Pow16(k: nat): nat {
    if k == 0 then 1 else 16 * Pow16(k - 1)
  }

  // ---------------------------------------------------------------------
  // Double-quoted strings.
  // ---------------------------------------------------------------------

  /**
   * The text `WriteDoubleQuotedString` writes for one character: the twelve
   * special characters become backtick escapes, any other character below
   * 128 is copied, and every other character becomes one `` `u{X} `` escape
   * per UTF-16 code unit.
   */
  function EscapeChar(c: char): string {
    match c
    case '\0' => "`0"
    case '\U{7}' => "`a"
    case '\U{8}' => "`b"
    case '\U{C}' => "`f"
    case '\n' => "`n"
    case '\r' => "`r"
    case '\t' => "`t"
    case '\U{B}' => "`v"
    case '`' => "``"
    case '"' => "`\""
    case '$' => "`$"
    case '\U{1B}' => "`e"
    case _ =>
      if c as int < 128 then [c] else UnicodeEscapes(Utf16(c))
  }

  function UnicodeEscape(u: nat): string {
    "`u{" + Hex(u) + "}"
  }

  function UnicodeEscapes(us: seq<nat>): string
    decreases |us|
  {
    if us == [] then [] else UnicodeEscapes(us[..|us| - 1]) + UnicodeEscape(us[|us| - 1])
  }

  /** The body the printer writes between the quotes, one character after the other. */
  function Escaped(v: string): string
    decreases |v|
  {
    if v == [] then [] else Escaped(v[..|v| - 1]) + EscapeChar(v[|v| - 1])
  }

  /** The whole double-quoted literal. */
  function DoubleQuoted(v: string): string {
    "\"" + Escaped(v) + "\""
  }

  /** The body grows by one escaped character at a time. */
  lemma EscapedSnoc(v: string, i: nat)
    requires i < |v|
    ensures Escaped(v[..i + 1]) == Escaped(v[..i]) + EscapeChar(v[i])
  {
    assert v[..i + 1][..i] == v[..i];
  }

  lemma {:induction false} EscapedCons(c: char, v: string)
    ensures Escaped([c] + v) == EscapeChar(c) + Escaped(v)
    decreases |v|
  {
    var w := [c] + v;
    if v != [] {
      var init := v[..|v| - 1];
      assert w[..|w| - 1] == [c] + init && w[|w| - 1] == v[|v| - 1];
      EscapedCons(c, init);
    } else {
      EscapedSnoc(w, 0);
      assert w[..1] == w && w[..0] == [];
    }
  }

  /** The value of the character after a backtick, for the escapes that are not `` `u{...} ``. */
  function BacktickValue(c: char): seq<nat> {
    match c
    case '0' => [0]
    case 'a' => [7]
    case 'b' => [8]
    case 'e' => [27]
    case 'f' => [12]
    case 'n' => [10]
    case 'r' => [13]
    case 't' => [9]
    case 'v' => [11]
    case _ => Utf16(c)
  }

  /** The index of the first closing brace in `t`, if any. */
  function BraceEnd(t: string): (r: Option<nat>)
    ensures r.Some? ==> r.value < |t| && t[r.value] == '}'
    decreases |t|
  {
    if t == [] then None
    else if t[0] == '}' then Some(0)
    else
      var j :- BraceEnd(t[1..]);
      Some(j + 1)
  }

  /**
   * How PowerShell reads the body of a double-quoted string into UTF-16 code
   * units: a backtick escapes the next character (the letters above stand for
   * control characters, and `` `u{X} `` for one to six hexadecimal digits
   * stands for code point X); an unescaped double quote mark of any kind would
   * end the string and an unescaped `$` would start an expansion, so a constant
   * body has neither.
   */
  function ReadDoubleQuotedBody(t: string): Option<seq<nat>>
    decreases |t|
  {
    if t == [] then Some([])
    else if IsDoubleQuote(t[0]) || t[0] == '$' then None
    else if t[0] != '`' then Prepend(Utf16(t[0]), ReadDoubleQuotedBody(t[1..]))
    else if |t| == 1 then None
    else if t[1] != 'u' then Prepend(BacktickValue(t[1]), ReadDoubleQuotedBody(t[2..]))
    else if |t| == 2 || t[2] != '{' then Prepend(Utf16('u'), ReadDoubleQuotedBody(t[2..]))
    else
      var j :- BraceEnd(t[3..]);
      var n :- ParseHex(t[3..3 + j]);
      if j > 6 || n > 0x10FFFF then None
      else if n < 0x10000 then Prepend([n], ReadDoubleQuotedBody(t[3 + j + 1..]))
      else Prepend([0xD800 + (n - 0x10000) / 0x400, 0xDC00 + (n - 0x10000) % 0x400], ReadDoubleQuotedBody(t[3 + j + 1..]))
  }

  /** Reading a whole double-quoted constant back into its value. */
  function ReadDoubleQuoted(text: string): Option<string> {
    if |text| >= 2 && text[0] == '"' && text[|text| - 1] == '"' then
      var units :- ReadDoubleQuotedBody(text[1..|text| - 1]);
      DecodeUtf16(units)
    else
      None
  }

  lemma {:induction false} BraceEndAfterHex(n: nat, t: string)
    ensures BraceEnd(Hex(n) + "}" + t) == Some(|Hex(n)|)
  {
    HexRoundTrip(n);
    forall i | 0 <= i < |Hex(n)|
      ensures Hex(n)[i] != '}'
    {
      assert DigitValue(Hex(n)[i]).Some?;
    }
    BraceEndSkip(Hex(n), "}" + t);
    assert Hex(n) + "}" + t == Hex(n) + ("}" + t);
  }

  lemma {:induction false} BraceEndSkip(s: string, t: string)
    requires forall i :: 0 <= i < |s| ==> s[i] != '}'
    requires |t| > 0 && t[0] == '}'
    ensures BraceEnd(s + t) == Some(|s|)
    decreases |s|
  {
    if s != [] {
      assert (s + t)[1..] == s[1..] + t;
      BraceEndSkip(s[1..], t);
    } else {
      assert s + t == t;
    }
  }

  /** One `` `u{X} `` escape of a code unit reads back as that unit. */
  lemma {:induction false} ReadUnicodeEscape(u: nat, t: string)
    requires u < 0x10000
    ensures ReadDoubleQuotedBody(UnicodeEscape(u) + t) == Prepend([u], ReadDoubleQuotedBody(t))
  {
    var all := UnicodeEscape(u) + t;
    var h := Hex(u);
    HexRoundTrip(u);
    HexWidth(u, 0x10000, 4);
    var tail := h + "}" + t;
    assert all[3..] == tail;
    BraceEndAfterHex(u, t);
    assert tail[..|h|] == h && tail[|h| + 1..] == t;
    assert all[3..3 + |h|] == tail[..|h|];
    assert all[3 + |h| + 1..] == tail[|h| + 1..];
  }

  lemma {:induction false} UnicodeEscapesTwo(a: nat, b: nat)
    ensures UnicodeEscapes([a, b]) == UnicodeEscape(a) + UnicodeEscape(b)
  {
    assert [a, b][..1] == [a];
    assert [a][..0] == [];
    assert UnicodeEscapes([a]) == UnicodeEscapes([]) + UnicodeEscape(a);
    assert UnicodeEscapes([a, b]) == UnicodeEscapes([a]) + UnicodeEscape(b);
  }

  lemma {:induction false} ReadTwoUnicodeEscapes(a: nat, b: nat, t: string)
    requires a < 0x10000 && b < 0x10000
    ensures ReadDoubleQuotedBody(UnicodeEscape(a) + (UnicodeEscape(b) + t)) == Prepend([a, b], ReadDoubleQuotedBody(t))
  {
    ReadUnicodeEscape(a, UnicodeEscape(b) + t);
    ReadUnicodeEscape(b, t);
    PrependTwice([a], [b], ReadDoubleQuotedBody(t));
    assert [a] + [b] == [a, b];
  }

  /** The escapes of one or two code units read back as those units. */
  lemma {:induction false} ReadUnicodeEscapes(us: seq<nat>, t: string)
    requires |us| == 1 || |us| == 2
    requires forall i :: 0 <= i < |us| ==> us[i] < 0x10000
    ensures ReadDoubleQuotedBody(UnicodeEscapes(us) + t) == Prepend(us, ReadDoubleQuotedBody(t))
  {
    if |us| == 1 {
      assert us[..0] == [];
      assert UnicodeEscapes(us) == UnicodeEscape(us[0]);
      assert us == [us[0]];
      ReadUnicodeEscape(us[0], t);
    } else {
      var a, b := us[0], us[1];
      UnicodeEscapesTwo(a, b);
      assert us == [a, b];
      assert UnicodeEscapes(us) + t == UnicodeEscape(a) + (UnicodeEscape(b) + t);
      ReadTwoUnicodeEscapes(a, b, t);
    }
  }

  lemma {:induction false} PrependTwice<T>(p: seq<T>, q: seq<T>, r: Option<seq<T>>)
    ensures Prepend(p, Prepend(q, r)) == Prepend(p + q, r)
  {
    if r.Some? {
      assert p + (q + r.value) == (p + q) + r.value;
    }
  }

  lemma {:induction false} ReadBacktick(x: char, t: string)
    requires x != 'u'
    ensures ReadDoubleQuotedBody(['`', x] + t) == Prepend(BacktickValue(x), ReadDoubleQuotedBody(t))
  {
    assert (['`', x] + t)[2..] == t;
  }

  lemma {:induction false} ReadPlain(y: char, t: string)
    requires y != '`' && !IsDoubleQuote(y) && y != '$'
    ensures ReadDoubleQuotedBody([y] + t) == Prepend(Utf16(y), ReadDoubleQuotedBody(t))
  {
    assert ([y] + t)[1..] == t;
  }

  /** The twelve characters `WriteDoubleQuotedString` writes as a backtick escape. */
  predicate HasBacktickEscape(c: char) {
    c == '\0' || c == '\U{7}' || c == '\U{8}' || c == '\U{C}' || c == '\n' || c == '\r'
    || c == '\t' || c == '\U{B}' || c == '`' || c == '"' || c == '$' || c == '\U{1B}'
  }

  /** The escape of one character reads back as that character's code units. */
  lemma ReadEscapeChar(c: char, t: string)
    ensures ReadDoubleQuotedBody(EscapeChar(c) + t) == Prepend(Utf16(c), ReadDoubleQuotedBody(t))
  {
    if HasBacktickEscape(c) {
      ReadBacktickEscape(c, t);
    } else if c as int < 128 {
      ReadPlain(c, t);
    } else {
      ReadUnicodeEscapes(Utf16(c), t);
    }
  }

  lemma ReadBacktickEscape(c: char, t: string)
    requires HasBacktickEscape(c)
    ensures ReadDoubleQuotedBody(EscapeChar(c) + t) == Prepend(Utf16(c), ReadDoubleQuotedBody(t))
  {
    match c
    case '\0' => ReadEscapedAs(c, '0', t);
    case '\U{7}' => ReadEscapedAs(c, 'a', t);
    case '\U{8}' => ReadEscapedAs(c, 'b', t);
    case '\U{C}' => ReadEscapedAs(c, 'f', t);
    case '\n' => ReadEscapedAs(c, 'n', t);
    case '\r' => ReadEscapedAs(c, 'r', t);
    case '\t' => ReadEscapedAs(c, 't', t);
    case '\U{B}' => ReadEscapedAs(c, 'v', t);
    case '`' => ReadEscapedAs(c, '`', t);
    case '"' => ReadEscapedAs(c, '"', t);
    case '$' => ReadEscapedAs(c, '$', t);
    case '\U{1B}' => ReadEscapedAs(c, 'e', t);
  }

  /** A character escaped as a backtick and `x` reads back as its code units when `x` stands for it. */
  lemma ReadEscapedAs(c: char, x: char, t: string)
    requires x != 'u' && EscapeChar(c) == ['`', x] && BacktickValue(x) == Utf16(c)
    ensures ReadDoubleQuotedBody(EscapeChar(c) + t) == Prepend(Utf16(c), ReadDoubleQuotedBody(t))
  {
    ReadBacktick(x, t);
  }

  /** The escaped body reads back as the code units of the value. */
  lemma {:induction false} ReadEscaped(v: string)
    ensures ReadDoubleQuotedBody(Escaped(v)) == Some(Utf16All(v))
    decreases |v|
  {
    if v != [] {
      assert [v[0]] + v[1..] == v;
      EscapedCons(v[0], v[1..]);
      ReadEscapeChar(v[0], Escaped(v[1..]));
      ReadEscaped(v[1..]);
    }
  }

  /** A double-quoted constant the printer writes reads back as the value it was given. */
  lemma {:induction false} DoubleQuotedRoundTrip(v: string)
    ensures ReadDoubleQuoted(DoubleQuoted(v)) == Some(v)
  {
    var text := DoubleQuoted(v);
    assert text[1..|text| - 1] == Escaped(v);
    ReadEscaped(v);
    DecodeUtf16All(v);
  }

  /** Since every value reads back, two different values never print the same. */
  lemma {:induction false} DoubleQuotedInjective(v: string, w: string)
    requires DoubleQuoted(v) == DoubleQuoted(w)
    ensures v == w
  {
    DoubleQuotedRoundTrip(v);
    DoubleQuotedRoundTrip(w);
  }

  /**
   * What a double-quoted body is made of: ASCII only, and every `"` or `$` is
   * escaped by the backtick before it, so neither ends the string or starts
   * an expansion.
   */
  ghost predicate InertBody(s: string) {
    forall i :: 0 <= i < |s| ==>
      && s[i] as int < 128
      && (s[i] == '"' || s[i] == '$' ==> i > 0 && s[i - 1] == '`')
  }

  lemma {:induction false} InertConcat(a: string, b: string)
    requires InertBody(a) && InertBody(b)
    requires |b| > 0 ==> b[0] != '"' && b[0] != '$'
    ensures InertBody(a + b)
  {
    forall i | 0 <= i < |a + b|
      ensures (a + b)[i] as int < 128
      ensures (a + b)[i] == '"' || (a + b)[i] == '$' ==> i > 0 && (a + b)[i - 1] == '`'
    {
      if i >= |a| {
        var k := i - |a|;
        assert (a + b)[i] == b[k];
        assert b[k] as int < 128;
        assert b[k] == '"' || b[k] == '$' ==> k > 0 && b[k - 1] == '`';
        if i - |a| > 0 {
          assert (a + b)[i - 1] == b[i - |a| - 1];
        }
      } else {
        assert (a + b)[i] == a[i];
        assert a[i] as int < 128;
        assert a[i] == '"' || a[i] == '$' ==> i > 0 && a[i - 1] == '`';
        if i > 0 {
          assert (a + b)[i - 1] == a[i - 1];
        }
      }
    }
  }

  lemma {:induction false} UnicodeEscapesInert(us: seq<nat>)
    ensures InertBody(UnicodeEscapes(us))
    ensures |us| > 0 ==> UnicodeEscapes(us)[0] == '`'
    decreases |us|
  {
    if us != [] {
      var u := us[|us| - 1];
      UnicodeEscapesInert(us[..|us| - 1]);
      HexRoundTrip(u);
      assert InertBody(UnicodeEscape(u)) by {
        forall i | 0 <= i < |Hex(u)|
          ensures Hex(u)[i] as int < 128 && Hex(u)[i] != '"' && Hex(u)[i] != '$'
        {
          assert DigitValue(Hex(u)[i]).Some?;
        }
      }
      InertConcat(UnicodeEscapes(us[..|us| - 1]), UnicodeEscape(u));
    }
  }

  /** Each character's escape is inert and does not begin with a quote or a dollar. */
  lemma {:induction false} EscapeCharInert(c: char)
    ensures |EscapeChar(c)| > 0
    ensures EscapeChar(c)[0] != '"' && EscapeChar(c)[0] != '$'
    ensures InertBody(EscapeChar(c))
  {
    if c as int >= 128 && !(c in "\0\U{7}\U{8}\U{C}\n\r\t\U{B}`\"$\U{1B}") {
      UnicodeEscapesInert(Utf16(c));
    }
  }

  /** The body `WriteDoubleQuotedString` writes is inert: no raw `"`, no raw `$`, nothing outside ASCII. */
  lemma {:induction false} EscapedInert(v: string)
    ensures InertBody(Escaped(v))
    decreases |v|
  {
    if v != [] {
      EscapedInert(v[..|v| - 1]);
      EscapeCharInert(v[|v| - 1]);
      InertConcat(Escaped(v[..|v| - 1]), EscapeChar(v[|v| - 1]));
    }
  }

  // ---------------------------------------------------------------------
  // Single-quoted strings.
  // ---------------------------------------------------------------------

  /** The characters PowerShell accepts as a single quote mark: the apostrophe and the four typographic single quotes. */
  predicate IsSingleQuote(c: char) {
    c == '\'' || c == '\U{2018}' || c == '\U{2019}' || c == '\U{201A}' || c == '\U{201B}'
  }

  /** `Replace("'", "''")` as the printer calls it: only the apostrophe is doubled. */
  function DoubleApostrophes(v: string): string
    decreases |v|
  {
    if v == [] then []
    else (if v[0] == '\'' then "''" else [v[0]]) + DoubleApostrophes(v[1..])
  }

  /** The single-quoted literal as the printer writes it. */
  function SingleQuotedAsWritten(v: string): string {
    "'" + DoubleApostrophes(v) + "'"
  }

  /** Doubling every quote mark PowerShell recognises. */
  function DoubleQuoteMarks(v: string): string
    decreases |v|
  {
    if v == [] then []
    else (if IsSingleQuote(v[0]) then [v[0], v[0]] else [v[0]]) + DoubleQuoteMarks(v[1..])
  }

  /** The corrected single-quoted literal, used by the rest of the model. */
  function SingleQuoted(v: string): string {
    "'" + DoubleQuoteMarks(v) + "'"
  }

  /**
   * How PowerShell reads a single-quoted body after the opening quote: two
   * quote marks in a row stand for one (the second is kept), and a lone quote
   * mark closes the string, which must then be the end of the text.
   */
  function ReadSingleQuotedBody(t: string): Option<string>
    decreases |t|
  {
    if t == [] then None
    else if !IsSingleQuote(t[0]) then Prepend([t[0]], ReadSingleQuotedBody(t[1..]))
    else if |t| == 1 then Some([])
    else if IsSingleQuote(t[1]) then Prepend([t[1]], ReadSingleQuotedBody(t[2..]))
    else None
  }

  function ReadSingleQuoted(text: string): Option<string> {
    if |text| >= 1 && IsSingleQuote(text[0]) then ReadSingleQuotedBody(text[1..]) else None
  }

  lemma {:induction false} ReadDoubledMarks(v: string)
    ensures ReadSingleQuotedBody(DoubleQuoteMarks(v) + "'") == Some(v)
    decreases |v|
  {
    if v != [] {
      ReadDoubledMarks(v[1..]);
      var rest := DoubleQuoteMarks(v[1..]) + "'";
      if IsSingleQuote(v[0]) {
        assert DoubleQuoteMarks(v) + "'" == [v[0], v[0]] + rest;
        assert ([v[0], v[0]] + rest)[2..] == rest;
      } else {
        assert DoubleQuoteMarks(v) + "'" == [v[0]] + rest;
        assert ([v[0]] + rest)[1..] == rest;
      }
      assert [v[0]] + v[1..] == v;
    }
  }

  /** A single-quoted constant written with every quote mark doubled reads back as its value. */
  lemma SingleQuotedRoundTrip(v: string)
    ensures ReadSingleQuoted(SingleQuoted(v)) == Some(v)
  {
    ReadDoubledMarks(v);
    assert SingleQuoted(v)[1..] == DoubleQuoteMarks(v) + "'";
  }

  lemma {:induction false} DoublingsAgree(v: string)
    requires forall i :: 0 <= i < |v| ==> IsSingleQuote(v[i]) ==> v[i] == '\''
    ensures DoubleApostrophes(v) == DoubleQuoteMarks(v)
    decreases |v|
  {
    if v != [] {
      DoublingsAgree(v[1..]);
    }
  }

  /** The two ways of doubling agree on values whose only quote mark is the apostrophe. */
  lemma DoublingAgreesOnApostrophes(v: string)
    requires forall i :: 0 <= i < |v| ==> IsSingleQuote(v[i]) ==> v[i] == '\''
    ensures SingleQuotedAsWritten(v) == SingleQuoted(v)
  {
    DoublingsAgree(v);
  }

  /**
   * As written, a value holding a typographic apostrophe is printed as a
   * literal that PowerShell closes early: `it’s` cannot be read back.
   */
  lemma SingleQuotedAsWrittenBreaks()
    ensures SingleQuotedAsWritten("it\U{2019}s") == "'it\U{2019}s'"
    ensures ReadSingleQuoted(SingleQuotedAsWritten("it\U{2019}s")) == None
    ensures ReadSingleQuoted(SingleQuoted("it\U{2019}s")) == Some("it\U{2019}s")
  {
    SingleQuotedRoundTrip("it\U{2019}s");
  }

  // ---------------------------------------------------------------------
  // Here-strings: the value verbatim between a header line and a footer line.
  // ---------------------------------------------------------------------

  /** `@'` or `@"`, a line feed, the value, a line feed, and `'@` or `"@`. */
  function HereString(q: char, v: string): string {
    ['@', q, '\n'] + v + ['\n', q, '@']
  }

  /** The characters PowerShell accepts as a double quote mark: `"` and the three typographic double quotes. */
  predicate IsDoubleQuote(c: char) {
    c == '"' || c == '\U{201C}' || c == '\U{201D}' || c == '\U{201E}'
  }

  /** `c` is a quote mark of the same family as `q`, the quote of a here-string's header. */
  predicate IsQuoteOf(q: char, c: char) {
    if q == '"' then IsDoubleQuote(c) else IsSingleQuote(c)
  }

  /** A here-string footer starts at `i` in `s`: a line feed, a quote mark of `q`'s family, and `@`. */
  predicate FooterAt(q: char, s: string, i: int) {
    0 <= i && i + 3 <= |s| && s[i] == '\n' && IsQuoteOf(q, s[i + 1]) && s[i + 2] == '@'
  }

  /** The first footer in `s` at or after `i`. */
  function FindFooter(q: char, s: string, i: nat): (r: Option<nat>)
    ensures r.Some? ==> i <= r.value && FooterAt(q, s, r.value)
    ensures r.Some? ==> forall k :: i <= k < r.value ==> !FooterAt(q, s, k)
    ensures r.None? ==> forall k :: i <= k ==> !FooterAt(q, s, k)
    decreases |s| - i
  {
    if i + 3 > |s| then None
    else if FooterAt(q, s, i) then Some(i)
    else FindFooter(q, s, i + 1)
  }

  /**
   * How PowerShell reads a here-string: after the header `@q` (any quote mark
   * of the family), the body runs from the first line feed up to the first
   * line that begins with a quote mark of the same family followed by `@`;
   * that footer must end the text. A double-quoted here-string would expand
   * `$` and backtick escapes, so a constant one holds neither.
   */
  function ReadHereString(q: char, text: string): Option<string> {
    if |text| < 3 || text[0] != '@' || !IsQuoteOf(q, text[1]) || text[2] != '\n' then None
    else
      var rest := text[2..];
      var j :- FindFooter(q, rest, 0);
      if j + 3 != |rest| then None
      else
        var body := if j == 0 then [] else rest[1..j];
        if q == '"' && ('$' in body || '`' in body) then None else Some(body)
  }

  /** No line of `v` begins with a quote mark of `q`'s family followed by `@`, so the footer cannot appear early. */
  ghost predicate NoFooterLine(q: char, v: string) {
    forall i :: 0 <= i < |v| - 1 && IsQuoteOf(q, v[i]) && v[i + 1] == '@' ==> i > 0 && v[i - 1] != '\n'
  }

  /** In a here-string, the only footer is the one the printer appends exactly when the value has no footer line. */
  lemma NoEarlyFooter(q: char, v: string)
    requires q == '\'' || q == '"'
    ensures NoFooterLine(q, v) <==> forall i :: 0 <= i < |v| + 1 ==> !FooterAt(q, (['\n'] + v) + ['\n', q, '@'], i)
  {
    if NoFooterLine(q, v) {
      FooterOnlyAtEnd(q, v);
    } else {
      FooterLineEndsEarly(q, v);
    }
  }

  lemma {:induction false} FooterOnlyAtEnd(q: char, v: string)
    requires q == '\'' || q == '"'
    requires NoFooterLine(q, v)
    ensures forall i :: 0 <= i < |v| + 1 ==> !FooterAt(q, (['\n'] + v) + ['\n', q, '@'], i)
  {
    var w := ['\n'] + v;
    var s := w + ['\n', q, '@'];
    forall i | 0 <= i < |w|
      ensures !FooterAt(q, s, i)
    {
      if i + 2 < |w| {
        assert s[i + 1] == v[i] && s[i + 2] == v[i + 1];
        if i > 0 {
          assert s[i] == v[i - 1];
        }
      } else if i + 2 == |w| {
        assert s[i + 2] == '\n';
      } else {
        assert s[i + 2] == q;
      }
    }
  }

  lemma {:induction false} FooterLineEndsEarly(q: char, v: string)
    requires q == '\'' || q == '"'
    requires !NoFooterLine(q, v)
    ensures exists i :: 0 <= i < |v| + 1 && FooterAt(q, (['\n'] + v) + ['\n', q, '@'], i)
  {
    var s := (['\n'] + v) + ['\n', q, '@'];
    var i :| 0 <= i < |v| - 1 && IsQuoteOf(q, v[i]) && v[i + 1] == '@' && !(i > 0 && v[i - 1] != '\n');
    assert s[i + 1] == v[i] && s[i + 2] == v[i + 1];
    assert s[i] == '\n' by {
      if i > 0 {
        assert s[i] == v[i - 1];
      }
    }
    assert FooterAt(q, s, i);
  }

  /**
   * A here-string reads back as its value exactly when no line of the value
   * begins with the footer and, for the double-quoted form, the value holds
   * no `$` and no backtick.
   */
  lemma HereStringRoundTrip(q: char, v: string)
    requires q == '\'' || q == '"'
    ensures ReadHereString(q, HereString(q, v)) == Some(v)
      <==> NoFooterLine(q, v) && (q == '"' ==> '$' !in v && '`' !in v)
  {
    var text := HereString(q, v);
    var w := ['\n'] + v;
    var s := w + ['\n', q, '@'];
    assert text[2..] == s;
    assert FooterAt(q, s, |w|);
    assert s[1..|w|] == v;
    NoEarlyFooter(q, v);
  }

  /**
   * A typographic apostrophe opening a line closes a single-quoted here-string
   * early, so a value holding such a line cannot be written as one.
   */
  lemma TypographicFooterClosesEarly()
    ensures !NoFooterLine('\'', "a\n\U{2019}@b")
    ensures ReadHereString('\'', HereString('\'', "a\n\U{2019}@b")) == None
  {
    var v := "a\n\U{2019}@b";
    assert IsQuoteOf('\'', v[2]) && v[3] == '@' && v[1] == '\n';
    var s := HereString('\'', v)[2..];
    assert FooterAt('\'', s, 2);
  }

  // ---------------------------------------------------------------------
  // String constants of every kind.
  // ---------------------------------------------------------------------

  datatype StringConstantType = BareWord | SingleQuotedString | DoubleQuotedString | SingleQuotedHereString | DoubleQuotedHereString

  /** The text the printer writes for a string constant of the given kind (single quotes corrected). */
  function StringConstantText(kind: StringConstantType, v: string): string {
    match kind
    case BareWord => v
    case SingleQuotedString => SingleQuoted(v)
    case DoubleQuotedString => DoubleQuoted(v)
    case SingleQuotedHereString => HereString('\'', v)
    case DoubleQuotedHereString => HereString('"', v)
  }

  function ReadStringConstant(kind: StringConstantType, text: string): Option<string> {
    match kind
    case BareWord => Some(text)
    case SingleQuotedString => ReadSingleQuoted(text)
    case DoubleQuotedString => ReadDoubleQuoted(text)
    case SingleQuotedHereString => ReadHereString('\'', text)
    case DoubleQuotedHereString => ReadHereString('"', text)
  }

  /** Every string constant the printer writes reads back as its value, within the here-string limits above. */
  lemma StringConstantRoundTrip(kind: StringConstantType, v: string)
    requires kind == SingleQuotedHereString ==> NoFooterLine('\'', v)
    requires kind == DoubleQuotedHereString ==> NoFooterLine('"', v) && '$' !in v && '`' !in v
    ensures ReadStringConstant(kind, StringConstantText(kind, v)) == Some(v)
  {
    match kind
    case BareWord =>
    case SingleQuotedString => SingleQuotedRoundTrip(v);
    case DoubleQuotedString => DoubleQuotedRoundTrip(v);
    case SingleQuotedHereString => HereStringRoundTrip('\'', v);
    case DoubleQuotedHereString => HereStringRoundTrip('"', v);
  }
}

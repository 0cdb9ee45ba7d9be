/** JSON text as the shipper writes it, and RFC 8259 as a backend reads it. A string here is a byte string:
    one char a byte, UTF-8 for what is not ASCII. */
module Json {

  // -------------------------------------------------------------------- escaping

  function HexDigit(d: nat): char
    requires d < 16
  {
    if d < 10 then ('0' as int + d) as char else ('a' as int + (d - 10)) as char
  }

  /** What JsonEscape writes for one byte. */
  function EscapeChar(c: char): string {
    if c == '\\' then "\\\\"
    else if c == '"' then "\\\""
    else if c == '\n' then "\\n"
    else if c == '\r' then "\\r"
    else if c == '\t' then "\\t"
    else if c < ' ' then "\\u00" + [HexDigit(c as int / 16), HexDigit(c as int % 16)]
    else [c]
  }

  function Escape(s: string): string {
    if s == "" then "" else EscapeChar(s[0]) + Escape(s[1..])
  }

  lemma {:induction false} EscapeSnoc(s: string, c: char)
    ensures Escape(s + [c]) == Escape(s) + EscapeChar(c)
  {
    if s == "" {
      assert [c][1..] == "";
    } else {
      assert (s + [c])[0] == s[0] && (s + [c])[1..] == s[1..] + [c];
      EscapeSnoc(s[1..], c);
    }
  }

  /** JsonEscape: one pass over the bytes, appending to a local buffer. */
  method JsonEscape(s: string) returns (out: string)
    ensures out == Escape(s)
  {
    out := "";
    for i := 0 to |s|
      invariant out == Escape(s[..i])
    {
      var c := s[i];
      EscapeSnoc(s[..i], c);
      assert s[..i + 1] == s[..i] + [c];
      if c == '\\' {
        out := out + "\\\\";
      } else if c == '"' {
        out := out + "\\\"";
      } else if c == '\n' {
        out := out + "\\n";
      } else if c == '\r' {
        out := out + "\\r";
      } else if c == '\t' {
        out := out + "\\t";
      } else if c < ' ' {
        out := out + ("\\u00" + [HexDigit(c as int / 16), HexDigit(c as int % 16)]);
      } else {
        out := out + [c];
      }
    }
    assert s[..|s|] == s;
  }

  // ------------------------------------------------- strings: RFC 8259, section 7

  datatype Scanned<T> = Got(value: T, rest: string) | Bad

  predicate IsHex(c: char) {
    '0' <= c <= '9' || 'a' <= c <= 'f' || 'A' <= c <= 'F'
  }

  function HexValue(c: char): (d: nat)
    requires IsHex(c)
    ensures d < 16
  {
    if c <= '9' then c as int - '0' as int
    else if c <= 'F' then c as int - 'A' as int + 10
    else c as int - 'a' as int + 10
  }

  /** A code unit from four hex digits. */
  function Scan4(s: string): (u: Scanned<nat>)
    ensures u.Got? ==> u.value < 0x1_0000 && |u.rest| == |s| - 4
  {
    if |s| >= 4 && IsHex(s[0]) && IsHex(s[1]) && IsHex(s[2]) && IsHex(s[3]) then
      Got(0x1000 * HexValue(s[0]) + 0x100 * HexValue(s[1]) + 0x10 * HexValue(s[2]) + HexValue(s[3]), s[4..])
    else
      Bad
  }

  /** The UTF-8 encoding of a code point. */
  function Utf8(p: nat): (bytes: string)
    requires p < 0x11_0000
    ensures 1 <= |bytes| <= 4
  {
    if p < 0x80 then [p as char]
    else if p < 0x800 then [(0xC0 + p / 0x40) as char, (0x80 + p % 0x40) as char]
    else if p < 0x1_0000 then
      [(0xE0 + p / 0x1000) as char, (0x80 + p / 0x40 % 0x40) as char, (0x80 + p % 0x40) as char]
    else
      [(0xF0 + p / 0x4_0000) as char, (0x80 + p / 0x1000 % 0x40) as char,
       (0x80 + p / 0x40 % 0x40) as char, (0x80 + p % 0x40) as char]
  }

  /** After a backslash and a u: one code unit, or a surrogate pair written as two escapes. */
  function ScanUnicode(s: string): (u: Scanned<string>)
    ensures u.Got? ==> |u.value| + |u.rest| < |s|
  {
    var high := Scan4(s);
    if high.Bad? then Bad
    else if high.value < 0xD800 || high.value >= 0xE000 then
      Got(Utf8(high.value), high.rest)
    else if high.value < 0xDC00 && |high.rest| >= 2 && high.rest[0] == '\\' && high.rest[1] == 'u' then
      var low := Scan4(high.rest[2..]);
      if low.Got? && 0xDC00 <= low.value < 0xE000 then
        Got(Utf8(0x1_0000 + 0x400 * (high.value - 0xD800) + (low.value - 0xDC00)), low.rest)
      else Bad
    else Bad
  }

  /** After a backslash. */
  function ScanEscape(s: string): (e: Scanned<string>)
    ensures e.Got? ==> |e.value| + |e.rest| <= |s|
  {
    if s == "" then Bad
    else if s[0] == '"' || s[0] == '\\' || s[0] == '/' then Got([s[0]], s[1..])
    else if s[0] == 'b' then Got([8 as char], s[1..])
    else if s[0] == 'f' then Got([12 as char], s[1..])
    else if s[0] == 'n' then Got("\n", s[1..])
    else if s[0] == 'r' then Got("\r", s[1..])
    else if s[0] == 't' then Got("\t", s[1..])
    else if s[0] == 'u' then ScanUnicode(s[1..])
    else Bad
  }

  function Prepend(v: string, r: Scanned<string>): Scanned<string> {
    if r.Bad? then Bad else Got(v + r.value, r.rest)
  }

  /** After an opening quote: the decoded string and what follows the closing quote. */
  function ScanString(s: string): Scanned<string>
    decreases |s|
  {
    if s == "" then Bad
    else if s[0] == '"' then Got("", s[1..])
    else if s[0] == '\\' then
      var e := ScanEscape(s[1..]);
      if e.Bad? then Bad else Prepend(e.value, ScanString(e.rest))
    else if s[0] < ' ' then Bad
    else Prepend([s[0]], ScanString(s[1..]))
  }

  lemma HexDigitBack(d: nat)
    requires d < 16
    ensures IsHex(HexDigit(d)) && HexValue(HexDigit(d)) == d
  {
  }

  lemma ScanShort(s: string, c: char)
    requires |s| >= 2 && s[0] == '\\' && ScanEscape(s[1..]) == Got([c], s[2..])
    ensures ScanString(s) == Prepend([c], ScanString(s[2..]))
  {
  }

  lemma ScanOne(c: char, t: string)
    ensures ScanString(EscapeChar(c) + t) == Prepend([c], ScanString(t))
  {
    hide ScanString;
    var s := EscapeChar(c) + t;
    if c == '\\' || c == '"' || c == '\n' || c == '\r' || c == '\t' {
      assert s[1..][1..] == s[2..] == t;
      ScanShort(s, c);
    } else if c < ' ' {
      ScanControlEscape(c, t);
    } else {
      ScanPlain(c, t);
    }
  }

  lemma ScanPlain(c: char, t: string)
    requires c >= ' ' && c != '"' && c != '\\'
    ensures ScanString([c] + t) == Prepend([c], ScanString(t))
  {
  }

  lemma ScanControlEscape(c: char, t: string)
    requires c < ' ' && c != '\n' && c != '\r' && c != '\t'
    ensures ScanString(EscapeChar(c) + t) == Prepend([c], ScanString(t))
  {
  }

  /** Whatever bytes are escaped, a conforming reader gets them back, and stops right after the closing quote. */
  lemma {:induction false} EscapeRoundTrip(s: string, t: string)
    ensures ScanString(Escape(s) + "\"" + t) == Got(s, t)
  {
    hide EscapeChar, ScanEscape;
    if s == "" {
      assert (Escape(s) + "\"" + t)[1..] == t;
    } else {
      var rest := Escape(s[1..]) + "\"" + t;
      assert Escape(s) + "\"" + t == EscapeChar(s[0]) + rest;
      ScanOne(s[0], rest);
      EscapeRoundTrip(s[1..], t);
      assert [s[0]] + s[1..] == s;
    }
  }

  /** Different byte strings are never written the same way. */
  lemma EscapeInjective(a: string, b: string)
    requires Escape(a) == Escape(b)
    ensures a == b
  {
    EscapeRoundTrip(a, "");
    EscapeRoundTrip(b, "");
  }

  ghost predicate NoControl(s: string) {
    forall c :: c in s ==> c >= ' '
  }

  lemma EscapeCharClean(c: char)
    ensures NoControl(EscapeChar(c))
  {
  }

  /** No raw control byte survives escaping: the text never breaks a line. */
  lemma {:induction false} EscapeClean(s: string)
    ensures NoControl(Escape(s))
  {
    hide EscapeChar;
    if s != "" {
      EscapeCharClean(s[0]);
      EscapeClean(s[1..]);
    }
  }

  predicate IsPlainChar(c: char) {
    c >= ' ' && c != '"' && c != '\\'
  }

  /** Bytes that stand for themselves between quotes. */
  predicate Plain(s: string) {
    forall i :: 0 <= i < |s| ==> IsPlainChar(s[i])
  }

  lemma PlainAppend(s: string, t: string)
    ensures Plain(s + t) <==> Plain(s) && Plain(t)
  {
    assert forall i :: 0 <= i < |s| ==> (s + t)[i] == s[i];
    assert forall i :: 0 <= i < |t| ==> (s + t)[|s| + i] == t[i];
  }

  lemma PlainTail(s: string)
    requires s != ""
    ensures Plain(s) <==> IsPlainChar(s[0]) && Plain(s[1..])
  {
    assert forall i :: 0 <= i < |s| - 1 ==> s[1..][i] == s[i + 1];
  }

  lemma {:induction false} ScanShrinks(s: string)
    ensures var r := ScanString(s); r.Got? ==> |r.value| + |r.rest| < |s|
    decreases |s|
  {
    hide ScanEscape;
    if s == "" || s[0] == '"' {
    } else if s[0] == '\\' {
      var e := ScanEscape(s[1..]);
      if e.Got? {
        ScanShrinks(e.rest);
      }
    } else {
      ScanShrinks(s[1..]);
    }
  }

  /** Text written between quotes without escaping, as the hash and the index name are, is read back as
      written exactly when it is plain. */
  lemma {:induction false} RawIffPlain(s: string, t: string)
    ensures ScanString(s + "\"" + t) == Got(s, t) <==> Plain(s)
  {
    hide ScanEscape;
    var whole := s + "\"" + t;
    if s == "" {
      assert whole[1..] == t;
    } else {
      assert whole[1..] == s[1..] + "\"" + t;
      assert s == [s[0]] + s[1..];
      if s[0] == '\\' {
        var e := ScanEscape(whole[1..]);
        if e.Got? {
          ScanShrinks(e.rest);
        }
        assert s[0] in s;
      } else if s[0] == '"' || s[0] < ' ' {
        assert s[0] in s;
      } else {
        RawIffPlain(s[1..], t);
        PlainTail(s);
        PrependCancels(s[0], s[1..], ScanString(whole[1..]), t);
      }
    }
  }

  lemma PrependCancels(c: char, s: string, r: Scanned<string>, t: string)
    ensures Prepend([c], r) == Got([c] + s, t) <==> r == Got(s, t)
  {
    if r.Got? {
      assert ([c] + r.value)[1..] == r.value && ([c] + s)[1..] == s;
    }
  }

  lemma {:induction false} PlainEscapesToItself(s: string)
    requires Plain(s)
    ensures Escape(s) == s
  {
    if s != "" {
      PlainTail(s);
      assert s[0] in s;
      PlainEscapesToItself(s[1..]);
    }
  }

  // ------------------------------------------------------------------ numbers

  function Digits(n: nat, base: nat): (ds: string)
    requires base == 10 || base == 16
    ensures ds != "" && forall d :: d in ds ==> IsHex(d) && HexValue(d) < base
    decreases n
  {
    if n < base then [HexDigit(n)] else Digits(n / base, base) + [HexDigit(n % base)]
  }

  /** A number as std::ostream writes it. */
  function Decimal(n: int): string {
    if n < 0 then "-" + Digits(-n, 10) else Digits(n, 10)
  }

  function Amount(ds: string, base: nat): nat
    requires forall d :: d in ds ==> IsHex(d)
  {
    if ds == "" then 0 else base * Amount(ds[..|ds| - 1], base) + HexValue(ds[|ds| - 1])
  }

  lemma {:induction false} DigitsBack(n: nat, base: nat)
    requires base == 10 || base == 16
    ensures Amount(Digits(n, base), base) == n
    decreases n
  {
    if n < base {
      HexDigitBack(n);
      assert Digits(n, base)[..0] == "";
    } else {
      HexDigitBack(n % base);
      DigitsBack(n / base, base);
      assert Digits(n, base)[..|Digits(n, base)| - 1] == Digits(n / base, base);
    }
  }

  lemma {:induction false} NoLeadingZero(n: nat, base: nat)
    requires base == 10 || base == 16
    ensures Digits(n, base)[0] == '0' <==> n == 0
    decreases n
  {
    if n < base {
      HexDigitBack(n);
    } else {
      NoLeadingZero(n / base, base);
    }
  }

  predicate IsDecimal(c: char) {
    '0' <= c <= '9'
  }

  /** The longest run of decimal digits at the start of s. */
  function DigitRun(s: string): (k: nat)
    ensures k <= |s| && (forall d :: d in s[..k] ==> IsDecimal(d)) && (k < |s| ==> !IsDecimal(s[k]))
  {
    if s == "" || !IsDecimal(s[0]) then 0
    else
      var k := DigitRun(s[1..]);
      assert s[..k + 1] == [s[0]] + s[1..][..k];
      k + 1
  }

  /** Digits without a superfluous leading zero. */
  function ScanDigits(s: string): Scanned<nat> {
    var k := DigitRun(s);
    if k == 0 || (s[0] == '0' && k > 1) then Bad else Got(Amount(s[..k], 10), s[k..])
  }

  /** RFC 8259 integers: digits after an optional minus sign. */
  function ScanNumber(s: string): Scanned<int> {
    var negative := s != "" && s[0] == '-';
    var n := ScanDigits(if negative then s[1..] else s);
    if n.Bad? then Bad else Got(if negative then -(n.value as int) else n.value as int, n.rest)
  }

  lemma {:induction false} RunOfDecimals(ds: string, t: string)
    requires (forall d :: d in ds ==> IsDecimal(d)) && (t == "" || !IsDecimal(t[0]))
    ensures DigitRun(ds + t) == |ds|
  {
    if ds == "" {
      assert ds + t == t;
    } else {
      assert (ds + t)[0] == ds[0] && (ds + t)[1..] == ds[1..] + t;
      assert ds[0] in ds;
      RunOfDecimals(ds[1..], t);
    }
  }

  lemma DigitsRoundTrip(n: nat, t: string)
    requires t == "" || !IsDecimal(t[0])
    ensures ScanDigits(Digits(n, 10) + t) == Got(n, t)
  {
    var ds := Digits(n, 10);
    RunOfDecimals(ds, t);
    DigitsBack(n, 10);
    NoLeadingZero(n, 10);
    assert (ds + t)[..|ds|] == ds && (ds + t)[|ds|..] == t;
    assert n == 0 ==> ds == [HexDigit(0)];
  }

  lemma NumberRoundTrip(n: int, t: string)
    requires t == "" || !IsDecimal(t[0])
    ensures ScanNumber(Decimal(n) + t) == Got(n, t)
  {
    hide ScanDigits, Digits;
    var m := if n < 0 then -n else n;
    var ds := Digits(m, 10);
    DigitsRoundTrip(m, t);
    assert ds[0] in ds;
    if n < 0 {
      assert (Decimal(n) + t)[1..] == ds + t;
    } else {
      assert (ds + t)[0] == ds[0];
    }
  }

  // -------------------------------------------------------------- flat objects

  /** A field value; Raw is text put between quotes without escaping. */
  datatype Value = Text(s: string) | Raw(s: string) | Number(n: int) | Flag(b: bool)

  datatype Field = Field(name: string, value: Value)

  function RenderValue(v: Value): string {
    match v
    case Text(s) => "\"" + Escape(s) + "\""
    case Raw(s) => "\"" + s + "\""
    case Number(n) => Decimal(n)
    case Flag(b) => if b then "true" else "false"
  }

  function RenderField(f: Field): string {
    "\"" + f.name + "\":" + RenderValue(f.value)
  }

  /** The fields after an opening brace, and the closing one. */
  function RenderTail(fs: seq<Field>): string
    requires fs != []
  {
    RenderField(fs[0]) + if |fs| == 1 then "}" else "," + RenderTail(fs[1..])
  }

  function Render(fs: seq<Field>): string
    requires fs != []
  {
    "{" + RenderTail(fs)
  }

  /** What a reader makes of a value: no trace of how its text was written. */
  function Meaning(v: Value): Value {
    if v.Raw? then Text(v.s) else v
  }

  function Meanings(fs: seq<Field>): seq<Field> {
    seq(|fs|, i requires 0 <= i < |fs| => Field(fs[i].name, Meaning(fs[i].value)))
  }

  predicate StartsWith(s: string, prefix: string) {
    |prefix| <= |s| && s[..|prefix|] == prefix
  }

  function ScanValue(s: string): Scanned<Value> {
    if s == "" then Bad
    else if s[0] == '"' then
      var r := ScanString(s[1..]);
      if r.Bad? then Bad else Got(Text(r.value), r.rest)
    else if StartsWith(s, "true") then Got(Flag(true), s[4..])
    else if StartsWith(s, "false") then Got(Flag(false), s[5..])
    else
      var r := ScanNumber(s);
      if r.Bad? then Bad else Got(Number(r.value), r.rest)
  }

  /** A quoted name, a colon and a value. */
  function ScanField(s: string): Scanned<Field> {
    if s == "" || s[0] != '"' then Bad
    else
      var name := ScanString(s[1..]);
      if name.Bad? || name.rest == "" || name.rest[0] != ':' then Bad
      else
        var v := ScanValue(name.rest[1..]);
        if v.Bad? then Bad else Got(Field(name.value, v.value), v.rest)
  }

  /** Fields separated by commas up to a closing brace. */
  function ScanFields(s: string): Scanned<seq<Field>>
    decreases |s|
  {
    var f := ScanField(s);
    if f.Bad? || f.rest == "" || |f.rest| >= |s| then Bad
    else if f.rest[0] == '}' then Got([f.value], f.rest[1..])
    else if f.rest[0] == ',' then
      var more := ScanFields(f.rest[1..]);
      if more.Bad? then Bad else Got([f.value] + more.value, more.rest)
    else Bad
  }

  /** A whole line: one object and nothing after it. */
  function ParseObject(s: string): Scanned<seq<Field>> {
    if s == "" || s[0] != '{' then Bad else ScanFields(s[1..])
  }

  predicate Readable(f: Field) {
    Plain(f.name) && (f.value.Raw? ==> Plain(f.value.s))
  }

  lemma QuotedRoundTrip(x: string, s: string, t: string)
    requires ScanString(x + "\"" + t) == Got(s, t)
    ensures ScanValue("\"" + x + "\"" + t) == Got(Text(s), t)
  {
    hide ScanString, ScanNumber;
    assert ("\"" + x + "\"" + t)[1..] == x + "\"" + t;
  }

  lemma FlagRoundTrip(b: bool, t: string)
    ensures ScanValue((if b then "true" else "false") + t) == Got(Flag(b), t)
  {
    hide ScanString, ScanNumber;
    if b {
      assert ("true" + t)[..4] == "true" && ("true" + t)[4..] == t;
    } else {
      assert ("false" + t)[..5] == "false" && ("false" + t)[5..] == t;
    }
  }

  /** Text that begins like a number is scanned as one. */
  lemma NumberValue(s: string)
    requires s != "" && (s[0] == '-' || IsDecimal(s[0]))
    ensures var r := ScanNumber(s);
      ScanValue(s) == if r.Bad? then Bad else Got(Number(r.value), r.rest)
  {
    hide ScanString, ScanNumber;
  }

  lemma ValueRoundTrip(v: Value, t: string)
    requires v.Raw? ==> Plain(v.s)
    requires t != "" && !IsDecimal(t[0])
    ensures ScanValue(RenderValue(v) + t) == Got(Meaning(v), t)
  {
    hide ScanString, ScanNumber, ScanValue, Decimal, Escape, Plain, IsDecimal;
    match v
    case Text(x) =>
      EscapeRoundTrip(x, t);
      QuotedRoundTrip(Escape(x), x, t);
    case Raw(x) =>
      RawIffPlain(x, t);
      QuotedRoundTrip(x, x, t);
    case Number(n) =>
      NumberRoundTrip(n, t);
      DecimalStarts(n);
      assert (Decimal(n) + t)[0] == Decimal(n)[0];
      NumberValue(Decimal(n) + t);
    case Flag(b) =>
      FlagRoundTrip(b, t);
  }

  lemma DecimalStarts(n: int)
    ensures Decimal(n) != "" && (Decimal(n)[0] == '-' || IsDecimal(Decimal(n)[0]))
  {
    var ds := Digits(if n < 0 then -n else n, 10);
    assert ds[0] in ds;
  }

  lemma FieldRoundTrip(f: Field, t: string)
    requires Readable(f) && t != "" && !IsDecimal(t[0])
    ensures ScanField(RenderField(f) + t) == Got(Field(f.name, Meaning(f.value)), t)
  {
    hide ScanString, ScanValue, RenderValue, Meaning;
    var s := RenderField(f) + t;
    var value := RenderValue(f.value) + t;
    assert s[1..] == f.name + "\"" + (":" + value);
    RawIffPlain(f.name, ":" + value);
    assert (":" + value)[1..] == value;
    ValueRoundTrip(f.value, t);
  }

  lemma {:induction false} FieldsRoundTrip(fs: seq<Field>, t: string)
    requires fs != [] && forall f :: f in fs ==> Readable(f)
    ensures ScanFields(RenderTail(fs) + t) == Got(Meanings(fs), t)
  {
    hide ScanField, RenderField, Readable;
    var s := RenderTail(fs) + t;
    var after := (if |fs| == 1 then "}" else "," + RenderTail(fs[1..])) + t;
    assert s == RenderField(fs[0]) + after;
    assert fs[0] in fs;
    FieldRoundTrip(fs[0], after);
    RenderedFieldNotEmpty(fs[0]);
    if |fs| == 1 {
      assert after[1..] == t;
      assert Meanings(fs) == [Field(fs[0].name, Meaning(fs[0].value))];
    } else {
      assert after[1..] == RenderTail(fs[1..]) + t;
      FieldsRoundTrip(fs[1..], t);
      assert Meanings(fs) == [Field(fs[0].name, Meaning(fs[0].value))] + Meanings(fs[1..]);
    }
  }

  lemma RenderedFieldNotEmpty(f: Field)
    ensures |RenderField(f)| > 0
  {
  }

  lemma ScanRawField(f: Field, t: string)
    requires Plain(f.name) && f.value.Raw?
    ensures var r := ScanString(f.value.s + "\"" + t);
      ScanField(RenderField(f) + t) == if r.Bad? then Bad else Got(Field(f.name, Text(r.value)), r.rest)
  {
    hide ScanString, Escape, Decimal;
    var s := RenderField(f) + t;
    var raw := f.value.s + "\"" + t;
    assert s[1..] == f.name + "\"" + (":\"" + raw);
    RawIffPlain(f.name, ":\"" + raw);
    assert (":\"" + raw)[1..] == "\"" + raw && ("\"" + raw)[1..] == raw;
  }

  lemma LastRaw(f: Field, t: string)
    requires Plain(f.name) && f.value.Raw?
    requires ScanFields(RenderTail([f]) + t) == Got(Meanings([f]), t)
    ensures Plain(f.value.s)
  {
    hide ScanString, ScanField, RenderField, Plain;
    assert RenderTail([f]) + t == RenderField(f) + ("}" + t);
    ScanRawField(f, "}" + t);
    var r := ScanString(f.value.s + "\"" + ("}" + t));
    assert Meanings([f])[0] == Field(f.name, Text(f.value.s));
    assert r.Got? && r.value == f.value.s;
    assert r.rest == "}" + r.rest[1..];
    RawIffPlain(f.value.s, "}" + t);
  }

  /** If only the last field may hold raw text that needs an escape, reading back works exactly when it does not. */
  lemma {:induction false} LastFieldDecides(fs: seq<Field>, t: string)
    requires fs != [] && forall f :: f in fs[..|fs| - 1] ==> Readable(f)
    requires Plain(fs[|fs| - 1].name)
    ensures ScanFields(RenderTail(fs) + t) == Got(Meanings(fs), t) <==> Readable(fs[|fs| - 1])
  {
    hide ScanField, RenderField, Readable, Plain, ScanFields, RenderTail;
    var last := fs[|fs| - 1];
    if Readable(last) {
      assert forall f :: f in fs ==> f in fs[..|fs| - 1] || f == last;
      FieldsRoundTrip(fs, t);
    } else if |fs| == 1 {
      assert fs == [last];
      NotReadable(last);
      if ScanFields(RenderTail(fs) + t) == Got(Meanings(fs), t) {
        LastRaw(last, t);
      }
    } else {
      assert fs[0] in fs[..|fs| - 1];
      assert fs[1..][..|fs| - 2] == fs[..|fs| - 1][1..];
      LastFieldDecides(fs[1..], t);
      FirstField(fs, t);
    }
  }

  lemma NotReadable(f: Field)
    requires Plain(f.name) && !Readable(f)
    ensures f.value.Raw? && !Plain(f.value.s)
  {
  }

  lemma FirstField(fs: seq<Field>, t: string)
    requires |fs| > 1 && Readable(fs[0])
    ensures ScanFields(RenderTail(fs) + t) == Got(Meanings(fs), t) ==>
            ScanFields(RenderTail(fs[1..]) + t) == Got(Meanings(fs[1..]), t)
  {
    hide ScanField, RenderField, Readable;
    var after := "," + RenderTail(fs[1..]) + t;
    assert RenderTail(fs) + t == RenderField(fs[0]) + after;
    FieldRoundTrip(fs[0], after);
    assert after[1..] == RenderTail(fs[1..]) + t;
    var more := ScanFields(after[1..]);
    assert Meanings(fs)[1..] == Meanings(fs[1..]);
    assert more.Got? ==> ([Field(fs[0].name, Meaning(fs[0].value))] + more.value)[1..] == more.value;
  }

  /** A rendered object whose fields up to the last need no care is read back as exactly its fields, in order and
      with nothing left over, if and only if its last field is readable too. */
  lemma ObjectRoundTrip(fs: seq<Field>)
    requires fs != [] && (forall f :: f in fs[..|fs| - 1] ==> Readable(f)) && Plain(fs[|fs| - 1].name)
    ensures ParseObject(Render(fs)) == Got(Meanings(fs), "") <==> Readable(fs[|fs| - 1])
  {
    hide ScanFields, RenderTail, Readable, Plain;
    LastFieldDecides(fs, "");
    assert Render(fs)[1..] == RenderTail(fs) + "";
  }

  lemma ValueClean(v: Value)
    requires v.Raw? ==> NoControl(v.s)
    ensures NoControl(RenderValue(v))
  {
    match v
    case Text(s) => EscapeClean(s);
    case Number(n) => var ds := Digits(if n < 0 then -n else n, 10);
    case _ =>
  }

  lemma {:induction false} TailClean(fs: seq<Field>)
    requires fs != [] && forall f :: f in fs ==> NoControl(f.name) && (f.value.Raw? ==> NoControl(f.value.s))
    ensures NoControl(RenderTail(fs))
  {
    hide RenderValue;
    assert fs[0] in fs;
    ValueClean(fs[0].value);
    if |fs| > 1 {
      TailClean(fs[1..]);
    }
  }

  /** A rendered object is one line. */
  lemma RenderClean(fs: seq<Field>)
    requires fs != [] && forall f :: f in fs ==> NoControl(f.name) && (f.value.Raw? ==> NoControl(f.value.s))
    ensures NoControl(Render(fs))
  {
    TailClean(fs);
  }
}

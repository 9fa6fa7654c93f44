/**
 * `strconv.Quote`, read back as JSON.  The MCP tool that updates a stream takes a Go-quoted name for a
 * JSON string; here is exactly when it is one.
 */
module GoQuote {
  import opened Prelude
  import opened JsonText

  // --------------------------------------------------------------- quoting

  /** Go's `IsPrint`: exact up to U+00FF, the parameter `printable` beyond. */
  predicate IsPrint(c: char, printable: char -> bool) {
    var x := c as int;
    if x <= 0xFF then 0x20 <= x < 0x7F || (0xA1 <= x && x != 0xAD) else printable(c)
  }

  function HexDigit(n: nat): char
    requires n < 16
  {
    if n < 10 then ('0' as int + n) as char else ('a' as int + n - 10) as char
  }

  function ToHex(n: nat, width: nat): string {
    if width == 0 then "" else ToHex(n / 16, width - 1) + [HexDigit(n % 16)]
  }

  function QuotedRune(c: char, printable: char -> bool): string {
    if c == '"' || c == '\\' then ['\\', c]
    else if IsPrint(c, printable) then [c]
    else if c == '\U{07}' then "\\a"
    else if c == '\U{08}' then "\\b"
    else if c == '\U{0C}' then "\\f"
    else if c == '\n' then "\\n"
    else if c == '\r' then "\\r"
    else if c == '\t' then "\\t"
    else if c == '\U{0B}' then "\\v"
    else if c < ' ' || c == '\U{7F}' then "\\x" + ToHex(c as int, 2)
    else if c as int < 0x1_0000 then "\\u" + ToHex(c as int, 4)
    else "\\U" + ToHex(c as int, 8)
  }

  function QuotedRunes(s: string, printable: char -> bool): string {
    if s == "" then "" else QuotedRune(s[0], printable) + QuotedRunes(s[1..], printable)
  }

  function Quote(s: string, printable: char -> bool): string {
    "\"" + QuotedRunes(s, printable) + "\""
  }

  // --------------------------------------------------------------- reading

  /** The characters up to the closing quote, which must be the last character. */
  function ParseChars(s: string): Option<seq<Char>>
    decreases |s|
  {
    if s == "" then None
    else if s[0] == '"' then (if |s| == 1 then Some([]) else None)
    else if s[0] == '\\' then
      if |s| >= 6 && s[1] == 'u' && CharWf(Hex(s[2..6])) then Prepend(Hex(s[2..6]), ParseChars(s[6..]))
      else if |s| >= 2 && CharWf(Escaped(s[1])) then Prepend(Escaped(s[1]), ParseChars(s[2..]))
      else None
    else if CharWf(Plain(s[0])) then Prepend(Plain(s[0]), ParseChars(s[1..]))
    else None
  }

  function Prepend(x: Char, rest: Option<seq<Char>>): Option<seq<Char>> {
    match rest
    case None => None
    case Some(xs) => Some([x] + xs)
  }

  /** The text as one JSON string. */
  function ParseString(text: string): Option<seq<Char>> {
    if text == "" || text[0] != '"' then None else ParseChars(text[1..])
  }

  function HexValue(ds: string): nat {
    if ds == "" then 0 else HexValue(ds[..|ds| - 1]) * 16 + DigitValue(ds[|ds| - 1])
  }

  function DigitValue(c: char): (n: nat)
    ensures n < 16
  {
    if '0' <= c <= '9' then c as int - '0' as int
    else if 'a' <= c <= 'f' then c as int - 'a' as int + 10
    else if 'A' <= c <= 'F' then c as int - 'A' as int + 10
    else 0
  }

  function EscapeMeaning(c: char): char {
    match c
    case 'b' => '\U{08}'
    case 'f' => '\U{0C}'
    case 'n' => '\n'
    case 'r' => '\r'
    case 't' => '\t'
    case _ => c
  }

  /** The string a JSON string denotes; a pair of surrogates is one character, a lone one the replacement. */
  function Meaning(xs: seq<Char>): string {
    if xs == [] then ""
    else
      match xs[0]
      case Plain(c) => [c] + Meaning(xs[1..])
      case Escaped(c) => [EscapeMeaning(c)] + Meaning(xs[1..])
      case Hex(ds) =>
        var u := HexValue(ds);
        if u < 0xD800 || 0xE000 <= u < 0x1_0000 then [u as char] + Meaning(xs[1..])
        else if u < 0xDC00 && |xs| > 1 && xs[1].Hex? && 0xDC00 <= HexValue(xs[1].digits) < 0xE000 then
          [((u - 0xD800) * 0x400 + (HexValue(xs[1].digits) - 0xDC00) + 0x1_0000) as char] + Meaning(xs[2..])
        else ['\U{FFFD}'] + Meaning(xs[1..])
  }

  // --------------------------------------------------- the reader is exact

  lemma {:induction false} ParseCharsExact(s: string, xs: seq<Char>)
    ensures ParseChars(s) == Some(xs) <==>
      (forall i :: 0 <= i < |xs| ==> CharWf(xs[i])) && s == CharsText(xs) + "\""
    decreases |s|
  {
    if ParseChars(s) == Some(xs) {
      ParsedText(s);
    }
    if (forall i :: 0 <= i < |xs| ==> CharWf(xs[i])) && s == CharsText(xs) + "\"" {
      TextParsed(xs);
    }
  }

  lemma {:induction false} ParsedText(s: string)
    requires ParseChars(s).Some?
    ensures var xs := ParseChars(s).value;
      (forall i :: 0 <= i < |xs| ==> CharWf(xs[i])) && s == CharsText(xs) + "\""
    decreases |s|
  {
    hide CharWf;
    if s[0] != '"' {
      var xs := ParseChars(s).value;
      FirstParsed(s);
      ParsedText(s[|CharText(xs[0])|..]);
      assert xs == [xs[0]] + xs[1..];
    }
  }

  lemma FirstParsed(s: string)
    requires ParseChars(s).Some? && s[0] != '"'
    ensures var xs := ParseChars(s).value;
      && xs != [] && CharWf(xs[0])
      && 0 < |CharText(xs[0])| <= |s|
      && s == CharText(xs[0]) + s[|CharText(xs[0])|..]
      && ParseChars(s[|CharText(xs[0])|..]) == Some(xs[1..])
  {
    var xs := ParseChars(s).value;
    var n := |CharText(xs[0])|;
    assert s[..n] == CharText(xs[0]);
    assert s == s[..n] + s[n..];
  }

  lemma {:induction false} TextParsed(xs: seq<Char>)
    requires forall i :: 0 <= i < |xs| ==> CharWf(xs[i])
    ensures ParseChars(CharsText(xs) + "\"") == Some(xs)
  {
    hide CharWf, CharText, ParseChars;
    if xs != [] {
      TextParsed(xs[1..]);
      var rest := CharsText(xs[1..]) + "\"";
      assert CharsText(xs) + "\"" == CharText(xs[0]) + rest;
      CharParsed(xs[0], rest);
      assert xs == [xs[0]] + xs[1..];
    } else {
      EmptyQuoted();
    }
  }

  lemma CharParsed(x: Char, rest: string)
    requires CharWf(x)
    ensures ParseChars(CharText(x) + rest) == Prepend(x, ParseChars(rest))
  {
    var s := CharText(x) + rest;
    assert s[|CharText(x)|..] == rest;
    match x
    case Plain(c) => assert s[0] == c;
    case Escaped(c) => assert s[0] == '\\' && s[1] == c;
    case Hex(ds) => assert s[0] == '\\' && s[1] == 'u' && s[2..6] == ds;
  }

  /** A text is read exactly when it is a JSON string, and then as that string. */
  lemma ParseStringExact(text: string, xs: seq<Char>)
    ensures ParseString(text) == Some(xs) <==>
      (forall i :: 0 <= i < |xs| ==> CharWf(xs[i])) && text == StringText(xs)
  {
    hide ParseChars, CharsText;
    if text != "" {
      ParseCharsExact(text[1..], xs);
      assert StringText(xs) == "\"" + (CharsText(xs) + "\"");
      assert text == [text[0]] + text[1..];
      assert StringText(xs)[1..] == CharsText(xs) + "\"";
    }
  }

  // ------------------------------------------------------ what Quote writes

  /** No control character but the five JSON has escapes for, no delete, nothing unprintable above U+FFFF. */
  predicate Encodable(c: char, printable: char -> bool) {
    && (c < ' ' ==> c in "\U{08}\U{0C}\n\r\t")
    && c != '\U{7F}'
    && (c as int > 0xFFFF ==> printable(c))
  }

  predicate AllEncodable(s: string, printable: char -> bool) {
    forall i :: 0 <= i < |s| ==> Encodable(s[i], printable)
  }

  /** How many numbers have `width` hexadecimal digits. */
  function HexLimit(width: nat): nat {
    if width == 0 then 1 else 16 * HexLimit(width - 1)
  }

  lemma {:induction false} HexRoundTrip(n: nat, width: nat)
    requires n < HexLimit(width)
    ensures |ToHex(n, width)| == width && HexValue(ToHex(n, width)) == n
    ensures forall i :: 0 <= i < width ==> IsHexDigit(ToHex(n, width)[i])
  {
    if width > 0 {
      HexRoundTrip(n / 16, width - 1);
      var init, last := ToHex(n / 16, width - 1), HexDigit(n % 16);
      assert (init + [last])[..width - 1] == init;
      DigitRoundTrip(n % 16);
    }
  }

  lemma DigitRoundTrip(n: nat)
    requires n < 16
    ensures IsHexDigit(HexDigit(n)) && DigitValue(HexDigit(n)) == n
  {
  }

  lemma FourDigits()
    ensures HexLimit(4) == 0x1_0000
  {
    assert HexLimit(1) == 16 && HexLimit(2) == 0x100 && HexLimit(3) == 0x1000;
  }

  function JsonChar(c: char, printable: char -> bool): Char {
    if c == '"' || c == '\\' then Escaped(c)
    else if IsPrint(c, printable) then Plain(c)
    else if c == '\U{08}' then Escaped('b')
    else if c == '\U{0C}' then Escaped('f')
    else if c == '\n' then Escaped('n')
    else if c == '\r' then Escaped('r')
    else if c == '\t' then Escaped('t')
    else Hex(ToHex(c as int, 4))
  }

  lemma EncodableRune(c: char, printable: char -> bool)
    requires Encodable(c, printable)
    ensures CharWf(JsonChar(c, printable)) && CharText(JsonChar(c, printable)) == QuotedRune(c, printable)
  {
    if JsonChar(c, printable).Hex? {
      FourDigits();
      HexRoundTrip(c as int, 4);
    }
  }

  lemma OtherRune(c: char, rest: string, printable: char -> bool)
    requires !Encodable(c, printable)
    ensures ParseChars(QuotedRune(c, printable) + rest) == None
  {
    var q := QuotedRune(c, printable);
    assert |q| >= 2 && q[0] == '\\' && (q[1] == 'a' || q[1] == 'v' || q[1] == 'x' || q[1] == 'U');
    var s := q + rest;
    assert s[0] == '\\' && s[1] == q[1];
  }

  lemma RuneMeaning(c: char, xs: seq<Char>, printable: char -> bool)
    requires Encodable(c, printable)
    ensures Meaning([JsonChar(c, printable)] + xs) == [c] + Meaning(xs)
  {
    assert ([JsonChar(c, printable)] + xs)[1..] == xs;
    if JsonChar(c, printable).Hex? {
      FourDigits();
      HexRoundTrip(c as int, 4);
    }
  }

  lemma {:induction false} QuotedParsed(s: string, printable: char -> bool)
    ensures var r := ParseChars(QuotedRunes(s, printable) + "\"");
      && (r.Some? <==> AllEncodable(s, printable))
      && (r.Some? ==> Meaning(r.value) == s)
  {
    hide QuotedRune, Encodable, Meaning;
    if s == "" {
      EmptyQuoted();
    } else {
      QuotedParsed(s[1..], printable);
      var rest := QuotedRunes(s[1..], printable) + "\"";
      assert QuotedRunes(s, printable) + "\"" == QuotedRune(s[0], printable) + rest;
      assert s == [s[0]] + s[1..];
      if Encodable(s[0], printable) {
        EncodableRune(s[0], printable);
        CharParsed(JsonChar(s[0], printable), rest);
        if ParseChars(rest).Some? {
          RuneMeaning(s[0], ParseChars(rest).value, printable);
        }
        assert AllEncodable(s, printable) <==> AllEncodable(s[1..], printable) by {
          assert forall i :: 0 < i < |s| ==> s[i] == s[1..][i - 1];
        }
      } else {
        OtherRune(s[0], rest, printable);
      }
    }
  }

  lemma EmptyQuoted()
    ensures ParseChars("" + "\"") == Some([]) && Meaning([]) == ""
  {
    assert "" + "\"" == "\"";
  }

  /** A quoted text is a JSON string exactly when all its characters are encodable, and then it denotes that text. */
  lemma QuoteExact(s: string, printable: char -> bool)
    ensures var r := ParseString(Quote(s, printable));
      && (r.Some? <==> AllEncodable(s, printable))
      && (r.Some? ==> Meaning(r.value) == s)
  {
    hide ParseChars, QuotedRunes, Meaning, AllEncodable;
    QuotedParsed(s, printable);
    assert Quote(s, printable)[1..] == QuotedRunes(s, printable) + "\"";
  }

  // ---------------------------------------------------- nothing else is JSON

  lemma ValueStart(v: Value)
    requires ValueWf(v) && !v.Str?
    ensures ValueText(v) != "" && ValueText(v)[0] != '"'
  {
    match v
    case Literal(w) => assert w in ["null", "true", "false"];
    case Number(ds) => NumberStart(ds);
    case _ =>
  }

  lemma NumberStart(s: string)
    requires IsNumber(s)
    ensures s != "" && s[0] != '"'
  {
    hide IsExponent;
    var minus, whole, frac, exp :|
      && s == minus + whole + frac + exp
      && minus in ["", "-"]
      && Digits(whole) && (whole[0] == '0' ==> |whole| == 1)
      && (frac == "" || (frac[0] == '.' && Digits(frac[1..])))
      && (exp == "" || IsExponent(exp));
    assert s[0] == if minus == "" then whole[0] else minus[0];
  }

  /** Quoted on both ends, a text is JSON exactly when it is one JSON string. */
  lemma QuotedIsString(text: string)
    requires |text| >= 2 && text[0] == '"' && text[|text| - 1] == '"'
    ensures Valid(text) <==> ParseString(text).Some?
  {
    hide ParseString, IsNumber;
    if Valid(text) {
      var n :| NodeWf(n) && NodeText(n) == text;
      NodeIsString(n, text);
      ParseStringExact(text, n.value.chars);
    }
    if ParseString(text).Some? {
      var xs := ParseString(text).value;
      ParseStringExact(text, xs);
      assert NodeWf(Node("", Str(xs), "")) && NodeText(Node("", Str(xs), "")) == text;
    }
  }

  lemma Ends(a: string, b: string, c: string)
    ensures var t := a + b + c;
      && (a != "" ==> t[0] == a[0])
      && (c != "" ==> t[|t| - 1] == c[|c| - 1])
  {
  }

  lemma NodeIsString(n: Node, text: string)
    requires |text| >= 2 && text[0] == '"' && text[|text| - 1] == '"'
    requires NodeWf(n) && NodeText(n) == text
    ensures n.value.Str? && ValueWf(n.value) && text == StringText(n.value.chars)
  {
    hide ValueWf, ValueText;
    Ends(n.before, ValueText(n.value), n.after);
    assert text == ValueText(n.value);
    if !n.value.Str? {
      ValueStart(n.value);
    }
    StringValue(n.value);
  }

  lemma StringValue(v: Value)
    ensures v.Str? ==> ValueText(v) == StringText(v.chars)
  {
  }

  /** The same of JSON at large, which is what `json.Marshal` asks of a raw value. */
  lemma QuoteValid(s: string, printable: char -> bool)
    ensures Valid(Quote(s, printable)) <==> AllEncodable(s, printable)
  {
    hide ParseString, QuotedRunes, AllEncodable;
    QuoteExact(s, printable);
    QuotedIsString(Quote(s, printable));
  }
}

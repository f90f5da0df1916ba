/**
 * Reading back what was written: JSON strings by section 7 of RFC 8259, and the string
 * literals of Python that repr writes. Both readers are said without the writers.
 */
module LiteralReading {
  import opened Prelude
  import opened TextReplace
  import opened PlanText

  // ---------------------------------------------------------------- hexadecimal

  function DigitValue(c: char): Option<nat> {
    if '0' <= c <= '9' then Some((c - '0') as nat)
    else if 'a' <= c <= 'f' then Some((c - 'a') as nat + 10)
    else if 'A' <= c <= 'F' then Some((c - 'A') as nat + 10)
    else None
  }

  function HexValue(text: string): Option<nat> {
    if text == "" then Some(0)
    else
      var (before, last) := (HexValue(text[..|text| - 1]), DigitValue(text[|text| - 1]));
      if before.None? || last.None? then None else Some(before.value * 16 + last.value)
  }

  function Power16(digits: nat): nat {
    if digits == 0 then 1 else 16 * Power16(digits - 1)
  }

  lemma DigitReadsBack(n: nat)
    requires n < 16
    ensures DigitValue(HexDigit(n)) == Some(n)
  {
  }

  lemma {:induction false} HexReadsBack(n: nat, digits: nat)
    requires n < Power16(digits)
    ensures |Hex(n, digits)| == digits && HexValue(Hex(n, digits)) == Some(n)
  {
    if digits > 0 {
      HexReadsBack(n / 16, digits - 1);
      DigitReadsBack(n % 16);
      var text := Hex(n, digits);
      assert text[..digits - 1] == Hex(n / 16, digits - 1) && text[digits - 1] == HexDigit(n % 16);
    }
  }

  lemma Powers()
    ensures Power16(2) == 256 && Power16(4) == 65536 && Power16(8) == 0x1_0000_0000
  {
    assert Power16(1) == 16 && Power16(2) == 256 && Power16(3) == 4096 && Power16(4) == 65536;
    assert Power16(5) == 1048576 && Power16(6) == 16777216 && Power16(7) == 268435456;
  }

  predicate CodePoint(n: nat) {
    n < 0xD800 || 0xE000 <= n < 0x11_0000
  }

  /** The character with this many hexadecimal digits after an escape, and what follows. */
  function ReadHex(text: string, digits: nat): Option<(char, string)> {
    if |text| < digits then None
    else
      var n := HexValue(text[..digits]);
      if n.None? || !CodePoint(n.value) then None else Some((n.value as char, text[digits..]))
  }

  lemma HexIsRead(c: char, digits: nat, rest: string)
    requires c as int < Power16(digits)
    ensures ReadHex(Hex(c as int, digits) + rest, digits) == Some((c, rest))
  {
    HexReadsBack(c as int, digits);
    var text := Hex(c as int, digits) + rest;
    assert text[..digits] == Hex(c as int, digits) && text[digits..] == rest;
  }

  // ---------------------------------------------------------------- JSON strings

  /** One character of a JSON string, after its opening quote; None at its end or where it is malformed. */
  function ReadJsonChar(text: string): Option<(char, string)> {
    if text == "" || text[0] == '"' || text[0] as int < 0x20 then None
    else if text[0] != '\\' then Some((text[0], text[1..]))
    else if |text| == 1 then None
    else
      var rest := text[2..];
      match text[1]
      case '"' => Some(('"', rest))
      case '\\' => Some(('\\', rest))
      case '/' => Some(('/', rest))
      case 'b' => Some((8 as char, rest))
      case 'f' => Some((12 as char, rest))
      case 'n' => Some(('\n', rest))
      case 'r' => Some(('\r', rest))
      case 't' => Some(('\t', rest))
      case 'u' => ReadHex(rest, 4)
      case _ => None
  }

  /** The string up to its closing quote, and what follows. */
  function ReadJson(text: string): Option<(string, string)>
    decreases |text|
  {
    if text != "" && text[0] == '"' then Some(("", text[1..]))
    else
      var first := ReadJsonChar(text);
      if first.None? || |first.value.1| >= |text| then None
      else
        var more := ReadJson(first.value.1);
        if more.None? then None else Some(([first.value.0] + more.value.0, more.value.1))
  }

  lemma JsonCharIsRead(c: char, rest: string)
    ensures ReadJsonChar(JsonEscape(c) + rest) == Some((c, rest)) && JsonEscape(c) != "" && JsonEscape(c)[0] != '"'
  {
    var text := JsonEscape(c) + rest;
    Powers();
    if |JsonEscape(c)| == 1 {
      assert text[1..] == rest;
    } else if |JsonEscape(c)| == 2 {
      assert text[2..] == rest;
    } else {
      HexIsRead(c, 4, rest);
      assert text[2..] == Hex(c as int, 4) + rest;
    }
  }

  lemma ReadJsonOn(text: string, c: char, more: string, s: string, rest: string)
    requires text != "" && text[0] != '"' && |more| < |text|
    requires ReadJsonChar(text) == Some((c, more)) && ReadJson(more) == Some((s, rest))
    ensures ReadJson(text) == Some(([c] + s, rest))
  {
    hide ReadJsonChar;
  }

  lemma Regrouped(a: string, b: string, c: string)
    ensures a + b + c == a + (b + c)
  {
  }

  lemma HeadAndTail(s: string)
    requires s != ""
    ensures s == [s[0]] + s[1..]
  {
  }

  /** The first character's escape, and what comes after it. */
  lemma EncodeHead(esc: char -> string, s: string, tail: string)
    requires s != ""
    ensures Encode(esc, s) + tail == esc(s[0]) + (Encode(esc, s[1..]) + tail)
    ensures s == [s[0]] + s[1..]
  {
    HeadAndTail(s);
    var (first, more) := (esc(s[0]), Encode(esc, s[1..]));
    assert Encode(esc, s) == first + more;
    hide Encode;
    Regrouped(first, more, tail);
  }

  lemma {:induction false} JsonIsReadBefore(s: string, tail: string)
    requires tail != "" && tail[0] == '"'
    ensures ReadJson(Encode(JsonEscape, s) + tail) == Some((s, tail[1..]))
  {
    if s == "" {
      assert Encode(JsonEscape, s) + tail == tail;
    } else {
      var more := Encode(JsonEscape, s[1..]) + tail;
      EncodeHead(JsonEscape, s, tail);
      JsonCharIsRead(s[0], more);
      hide JsonEscape, ReadJsonChar, Encode, ReadJson;
      JsonIsReadBefore(s[1..], tail);
      ReadJsonOn(JsonEscape(s[0]) + more, s[0], more, s[1..], tail[1..]);
    }
  }

  /** Every string is read back from its JSON, whatever follows. */
  lemma JsonIsRead(s: string, rest: string)
    ensures ReadJson(Encode(JsonEscape, s) + "\"" + rest) == Some((s, rest))
  {
    hide ReadJson, Encode, JsonEscape;
    JsonIsReadBefore(s, "\"" + rest);
    assert Encode(JsonEscape, s) + "\"" + rest == Encode(JsonEscape, s) + ("\"" + rest);
    assert ("\"" + rest)[1..] == rest;
  }

  // ---------------------------------------------------------------- Python literals

  /** One character of a literal in these quotes; None at its end or where it is malformed. */
  function ReadPythonChar(text: string, quote: char): Option<(char, string)> {
    if text == "" || text[0] == quote || text[0] == '\n' then None
    else if text[0] != '\\' then Some((text[0], text[1..]))
    else if |text| == 1 then None
    else
      var rest := text[2..];
      match text[1]
      case '\'' => Some(('\'', rest))
      case '"' => Some(('"', rest))
      case '\\' => Some(('\\', rest))
      case 'n' => Some(('\n', rest))
      case 'r' => Some(('\r', rest))
      case 't' => Some(('\t', rest))
      case 'x' => ReadHex(rest, 2)
      case 'u' => ReadHex(rest, 4)
      case 'U' => ReadHex(rest, 8)
      case _ => None
  }

  function ReadPython(text: string, quote: char): Option<(string, string)>
    decreases |text|
  {
    if text != "" && text[0] == quote then Some(("", text[1..]))
    else
      var first := ReadPythonChar(text, quote);
      if first.None? || |first.value.1| >= |text| then None
      else
        var more := ReadPython(first.value.1, quote);
        if more.None? then None else Some(([first.value.0] + more.value.0, more.value.1))
  }

  /** A literal in single or double quotes, and what follows it. */
  function ReadLiteral(text: string): Option<(string, string)> {
    if text == "" || !IsQuote(text[0]) then None else ReadPython(text[1..], text[0])
  }

  /** What stands for a character takes one, two, or two and 2, 4 or 8 more. */
  lemma EscapeShape(printable: char -> bool, quote: char, c: char)
    requires IsQuote(quote)
    ensures var escaped := ReprEscape(printable, quote)(c);
      || (escaped == [c] && c != quote && c != '\\' && c != '\n')
      || (escaped == ['\\', c] && (c == '\'' || c == '"' || c == '\\'))
      || (escaped == "\\n" && c == '\n') || (escaped == "\\r" && c == '\r') || (escaped == "\\t" && c == '\t')
      || (escaped == "\\x" + Hex(c as int, 2) && c as int < 256)
      || (escaped == "\\u" + Hex(c as int, 4) && c as int < 65536)
      || escaped == "\\U" + Hex(c as int, 8)
  {
    hide Hex;
  }

  lemma PythonCharIsRead(printable: char -> bool, quote: char, c: char, rest: string)
    requires IsQuote(quote)
    ensures var escaped := ReprEscape(printable, quote)(c);
      ReadPythonChar(escaped + rest, quote) == Some((c, rest)) && escaped != "" && escaped[0] != quote
  {
    var escaped := ReprEscape(printable, quote)(c);
    EscapeShape(printable, quote, c);
    HexLength(c as int, 2);
    HexLength(c as int, 4);
    HexLength(c as int, 8);
    hide ReprEscape, Hex, HexValue, ReadHex;
    var text := escaped + rest;
    if |escaped| == 1 {
      assert text[1..] == rest;
    } else if |escaped| == 2 {
      assert text[2..] == rest;
    } else {
      var digits := |escaped| - 2;
      Powers();
      HexIsRead(c, digits, rest);
      assert text[2..] == Hex(c as int, digits) + rest;
    }
  }

  lemma {:induction false} HexLength(n: nat, digits: nat)
    ensures |Hex(n, digits)| == digits
  {
    if digits > 0 { HexLength(n / 16, digits - 1); }
  }

  lemma ReadPythonOn(text: string, quote: char, c: char, more: string, s: string, rest: string)
    requires text != "" && text[0] != quote && |more| < |text|
    requires ReadPythonChar(text, quote) == Some((c, more)) && ReadPython(more, quote) == Some((s, rest))
    ensures ReadPython(text, quote) == Some(([c] + s, rest))
  {
    hide ReadPythonChar;
  }

  lemma {:induction false} PythonIsReadBefore(printable: char -> bool, quote: char, s: string, tail: string)
    requires IsQuote(quote) && tail != "" && tail[0] == quote
    ensures ReadPython(Encode(ReprEscape(printable, quote), s) + tail, quote) == Some((s, tail[1..]))
  {
    var esc := ReprEscape(printable, quote);
    if s == "" {
      assert Encode(esc, s) + tail == tail;
    } else {
      var more := Encode(esc, s[1..]) + tail;
      EncodeHead(esc, s, tail);
      PythonCharIsRead(printable, quote, s[0], more);
      hide ReprEscape, ReadPythonChar, Encode, ReadPython;
      PythonIsReadBefore(printable, quote, s[1..], tail);
      ReadPythonOn(esc(s[0]) + more, quote, s[0], more, s[1..], tail[1..]);
    }
  }

  lemma PythonIsRead(printable: char -> bool, quote: char, s: string, rest: string)
    requires IsQuote(quote)
    ensures ReadPython(Encode(ReprEscape(printable, quote), s) + [quote] + rest, quote) == Some((s, rest))
  {
    hide ReadPython, Encode, ReprEscape;
    PythonIsReadBefore(printable, quote, s, [quote] + rest);
    var text := Encode(ReprEscape(printable, quote), s);
    assert text + [quote] + rest == text + ([quote] + rest);
    assert ([quote] + rest)[1..] == rest;
  }

  /** What repr writes is read back as the very text, whatever characters Python prints as they are. */
  lemma LiteralIsRead(form: Form, s: string, rest: string)
    ensures ReadLiteral(Repr(form, s) + rest) == Some((s, rest))
  {
    hide ReprEscape;
    var quote := QuoteFor(s);
    PythonIsRead(form.printable, quote, s, rest);
    var text := Repr(form, s) + rest;
    assert text[1..] == Encode(ReprEscape(form.printable, quote), s) + [quote] + rest;
  }
}

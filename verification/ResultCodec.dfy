/** How a run result is stored: a JSON object with the content in base64 (section 4 of RFC 4648). */
module ResultCodec {
  import opened Prelude
  import opened RunnerModel

  // ---------------------------------------------------------------- base64

  type Sextet = v: int | 0 <= v < 64

  function Symbol(v: Sextet): char {
    if v < 26 then 'A' + v as char
    else if v < 52 then 'a' + (v - 26) as char
    else if v < 62 then '0' + (v - 52) as char
    else if v == 62 then '+' else '/'
  }

  function ValueOf(symbol: char): Option<Sextet> {
    if 'A' <= symbol <= 'Z' then Some(symbol as int - 'A' as int)
    else if 'a' <= symbol <= 'z' then Some(symbol as int - 'a' as int + 26)
    else if '0' <= symbol <= '9' then Some(symbol as int - '0' as int + 52)
    else if symbol == '+' then Some(62)
    else if symbol == '/' then Some(63)
    else None
  }

  /** b64encode: three bytes to four symbols, the last group padded. */
  function Encode(bytes: seq<Byte>): string {
    if bytes == [] then ""
    else if |bytes| == 1 then
      [Symbol(bytes[0] / 4), Symbol(bytes[0] % 4 * 16), '=', '=']
    else if |bytes| == 2 then
      [Symbol(bytes[0] / 4), Symbol(bytes[0] % 4 * 16 + bytes[1] / 16), Symbol(bytes[1] % 16 * 4), '=']
    else
      [Symbol(bytes[0] / 4), Symbol(bytes[0] % 4 * 16 + bytes[1] / 16), Symbol(bytes[1] % 16 * 4 + bytes[2] / 64),
        Symbol(bytes[2] % 64)]
        + Encode(bytes[3..])
  }

  /** Where the decoder stands: symbols taken of the current group, bits left over, pads seen since the last symbol. */
  datatype Cursor = Cursor(position: int, left: int, pads: nat)

  predicate Proper(at: Cursor) {
    && 0 <= at.position < 4 && 0 <= at.left
    && (at.position == 1 ==> at.left < 64) && (at.position == 2 ==> at.left < 16) && (at.position == 3 ==> at.left < 4)
  }

  function Taken(at: Cursor, v: Sextet): (next: (seq<Byte>, Cursor))
    requires Proper(at)
    ensures Proper(next.1)
  {
    if at.position == 0 then ([], Cursor(1, v, 0))
    else if at.position == 1 then ([at.left * 4 + v / 16], Cursor(2, v % 16, 0))
    else if at.position == 2 then ([at.left * 16 + v / 4], Cursor(3, v % 4, 0))
    else ([at.left * 64 + v], Cursor(0, 0, 0))
  }

  /** b64decode without validation: foreign characters are skipped, enough padding ends the input. */
  function Scan(at: Cursor, text: string): Option<seq<Byte>>
    requires Proper(at)
    decreases |text|
  {
    if text == "" then
      if at.position == 0 then Some([]) else None
    else if text[0] == '=' then
      if at.position >= 2 && at.position + at.pads + 1 >= 4 then Some([])
      else Scan(if at.position >= 2 then at.(pads := at.pads + 1) else at, text[1..])
    else
      var v := ValueOf(text[0]);
      if v.None? then Scan(at, text[1..])
      else
        var next := Taken(at, v.value);
        var rest := Scan(next.1, text[1..]);
        if rest.None? then None else Some(next.0 + rest.value)
  }

  function Decode(text: string): Option<seq<Byte>> {
    Scan(Cursor(0, 0, 0), text)
  }

  lemma SymbolHasValue(v: Sextet)
    ensures ValueOf(Symbol(v)) == Some(v) && Symbol(v) != '='
  {
  }

  /** One symbol is read back. */
  lemma ReadOne(at: Cursor, v: Sextet, text: string, rest: seq<Byte>)
    requires Proper(at) && text != "" && text[0] == Symbol(v) && Scan(Taken(at, v).1, text[1..]) == Some(rest)
    ensures Scan(at, text) == Some(Taken(at, v).0 + rest)
  {
    hide Symbol, ValueOf, Taken;
    SymbolHasValue(v);
  }

  /** A group of symbols, whose end is read as `rest`. */
  lemma ReadPair(a: Sextet, b: Sextet, text: string, rest: seq<Byte>)
    requires |text| >= 2 && text[0] == Symbol(a) && text[1] == Symbol(b)
    requires Scan(Cursor(2, b % 16, 0), text[2..]) == Some(rest)
    ensures Decode(text) == Some([a * 4 + b / 16] + rest)
  {
    hide Scan, Symbol;
    assert text[1..][1..] == text[2..];
    ReadOne(Cursor(1, a, 0), b, text[1..], rest);
    ReadOne(Cursor(0, 0, 0), a, text, [a * 4 + b / 16] + rest);
    assert [] + ([a * 4 + b / 16] + rest) == [a * 4 + b / 16] + rest;
  }

  lemma ReadFour(a: Sextet, b: Sextet, c: Sextet, d: Sextet, rest: string)
    requires Decode(rest).Some?
    ensures Decode([Symbol(a), Symbol(b), Symbol(c), Symbol(d)] + rest)
      == Some([a * 4 + b / 16, b % 16 * 16 + c / 4, c % 4 * 64 + d] + Decode(rest).value)
  {
    hide Scan, Symbol;
    var text := [Symbol(a), Symbol(b), Symbol(c), Symbol(d)] + rest;
    var bytes := Decode(rest).value;
    assert text[2..][1..] == text[3..] && text[3..][1..] == rest;
    ReadOne(Cursor(3, c % 4, 0), d, text[3..], bytes);
    ReadOne(Cursor(2, b % 16, 0), c, text[2..], [c % 4 * 64 + d] + bytes);
    ReadPair(a, b, text, [b % 16 * 16 + c / 4] + ([c % 4 * 64 + d] + bytes));
    assert [a * 4 + b / 16] + ([b % 16 * 16 + c / 4] + ([c % 4 * 64 + d] + bytes))
      == [a * 4 + b / 16, b % 16 * 16 + c / 4, c % 4 * 64 + d] + bytes;
  }

  /** Enough padding for the symbols so far: nothing more is read. */
  lemma PaddingEnds(left: int)
    requires 0 <= left
    ensures left < 16 ==> Scan(Cursor(2, left, 0), "==") == Some([])
    ensures left < 4 ==> Scan(Cursor(3, left, 0), "=") == Some([])
  {
    assert "=="[1..] == "=";
  }

  lemma ReadTwo(a: Sextet, b: Sextet)
    ensures Decode([Symbol(a), Symbol(b), '=', '=']) == Some([a * 4 + b / 16])
  {
    hide Scan, Symbol;
    var text := [Symbol(a), Symbol(b), '=', '='];
    assert text[2..] == "==";
    PaddingEnds(b % 16);
    ReadPair(a, b, text, []);
    assert [a * 4 + b / 16] + [] == [a * 4 + b / 16];
  }

  lemma ReadThree(a: Sextet, b: Sextet, c: Sextet)
    ensures Decode([Symbol(a), Symbol(b), Symbol(c), '=']) == Some([a * 4 + b / 16, b % 16 * 16 + c / 4])
  {
    hide Scan, Symbol;
    var text := [Symbol(a), Symbol(b), Symbol(c), '='];
    assert text[2..][1..] == "=";
    PaddingEnds(c % 4);
    ReadOne(Cursor(2, b % 16, 0), c, text[2..], []);
    assert [b % 16 * 16 + c / 4] + [] == [b % 16 * 16 + c / 4];
    ReadPair(a, b, text, [b % 16 * 16 + c / 4]);
    assert [a * 4 + b / 16] + [b % 16 * 16 + c / 4] == [a * 4 + b / 16, b % 16 * 16 + c / 4];
  }

  lemma OneReadsBack(a: Byte)
    ensures Decode(Encode([a])) == Some([a])
  {
    hide Symbol, Scan, Decode;
    ReadTwo(a / 4, a % 4 * 16);
  }

  lemma TwoReadBack(a: Byte, b: Byte)
    ensures Decode(Encode([a, b])) == Some([a, b])
  {
    hide Symbol, Scan, Decode;
    ReadThree(a / 4, a % 4 * 16 + b / 16, b % 16 * 4);
  }

  lemma GroupReadsBack(a: Byte, b: Byte, c: Byte, rest: seq<Byte>)
    requires Decode(Encode(rest)) == Some(rest)
    ensures Decode(Encode([a, b, c] + rest)) == Some([a, b, c] + rest)
  {
    hide Symbol, Scan, Decode;
    EncodeGroup(a, b, c, rest);
    hide Encode;
    SextetsRegroup(a, b, c);
    ReadFour(a / 4, a % 4 * 16 + b / 16, b % 16 * 4 + c / 64, c % 64, Encode(rest));
  }

  /** Four times six bits are three times eight. */
  lemma SextetsRegroup(a: Byte, b: Byte, c: Byte)
    ensures var (v, w, x, y) := (a / 4, a % 4 * 16 + b / 16, b % 16 * 4 + c / 64, c % 64);
      v * 4 + w / 16 == a && w % 16 * 16 + x / 4 == b && x % 4 * 64 + y == c
  {
  }

  lemma EncodeGroup(a: Byte, b: Byte, c: Byte, rest: seq<Byte>)
    ensures Encode([a, b, c] + rest)
      == [Symbol(a / 4), Symbol(a % 4 * 16 + b / 16), Symbol(b % 16 * 4 + c / 64), Symbol(c % 64)] + Encode(rest)
  {
    hide Symbol;
    var bytes := [a, b, c] + rest;
    assert bytes[3..] == rest && bytes[0] == a && bytes[1] == b && bytes[2] == c;
  }

  /** Every byte string reads back, in each of the three padding cases. */
  lemma {:induction false} Base64RoundTrip(bytes: seq<Byte>)
    ensures Decode(Encode(bytes)) == Some(bytes)
    decreases |bytes|
  {
    if bytes == [] {
      EmptyReadsBack();
    } else if |bytes| == 1 {
      hide Encode, Decode;
      OneReadsBack(bytes[0]);
      assert bytes == [bytes[0]];
    } else if |bytes| == 2 {
      hide Encode, Decode;
      TwoReadBack(bytes[0], bytes[1]);
      assert bytes == [bytes[0], bytes[1]];
    } else {
      hide Encode, Decode;
      Base64RoundTrip(bytes[3..]);
      GroupReadsBack(bytes[0], bytes[1], bytes[2], bytes[3..]);
      assert bytes == [bytes[0], bytes[1], bytes[2]] + bytes[3..];
    }
  }

  lemma EmptyReadsBack()
    ensures Decode("") == Some([])
  {
  }

  const UPPER := "ABCDEFGHIJKLMNOPQRSTUVWXYZ"
  const LOWER := "abcdefghijklmnopqrstuvwxyz"
  const DIGITS := "0123456789"

  /** The alphabet of table 1 of RFC 4648, both ways. */
  lemma AlphabetSpec(v: Sextet, c: char)
    ensures v < 26 ==> Symbol(v) == UPPER[v]
    ensures 26 <= v < 52 ==> Symbol(v) == LOWER[v - 26]
    ensures 52 <= v < 62 ==> Symbol(v) == DIGITS[v - 52]
    ensures Symbol(62) == '+' && Symbol(63) == '/'
    ensures ValueOf(c) == Some(v) <==> c == Symbol(v)
  {
    if v < 26 { assert UPPER[v] == 'A' + v as char; }
    else if v < 52 { assert LOWER[v - 26] == 'a' + (v - 26) as char; }
    else if v < 62 { assert DIGITS[v - 52] == '0' + (v - 52) as char; }
  }

  /** Test vectors of section 10 of RFC 4648. */
  lemma VectorsHold()
    ensures Encode([]) == "" && Encode([0x66]) == "Zg==" && Encode([0x66, 0x6f]) == "Zm8="
    ensures Encode([0x66, 0x6f, 0x6f]) == "Zm9v" && Encode([0x66, 0x6f, 0x6f, 0x62, 0x61, 0x72]) == "Zm9vYmFy"
  {
    ShortVectors();
    FooHolds([]);
    FooHolds([0x62, 0x61, 0x72]);
    BarHolds();
    assert [0x66, 0x6f, 0x6f] + [] == [0x66, 0x6f, 0x6f];
    assert [0x66, 0x6f, 0x6f] + [0x62, 0x61, 0x72] == [0x66, 0x6f, 0x6f, 0x62, 0x61, 0x72];
    hide Encode;
  }

  lemma ShortVectors()
    ensures Encode([]) == "" && Encode([0x66]) == "Zg==" && Encode([0x66, 0x6f]) == "Zm8="
  {
  }

  lemma FooHolds(rest: seq<Byte>)
    ensures Encode([0x66, 0x6f, 0x6f] + rest) == "Zm9v" + Encode(rest)
  {
    hide Encode;
    EncodeGroup(0x66, 0x6f, 0x6f, rest);
    assert Symbol(25) == 'Z' && Symbol(38) == 'm' && Symbol(61) == '9' && Symbol(47) == 'v';
    hide Symbol;
  }

  lemma BarHolds()
    ensures Encode([0x62, 0x61, 0x72]) == "YmFy"
  {
    hide Encode;
    ShortVectors();
    EncodeGroup(0x62, 0x61, 0x72, []);
    assert [0x62, 0x61, 0x72] + [] == [0x62, 0x61, 0x72];
    assert Symbol(24) == 'Y' && Symbol(38) == 'm' && Symbol(5) == 'F' && Symbol(50) == 'y';
    hide Symbol;
  }

  /** Characters outside the alphabet are read over. */
  lemma {:induction false} ForeignIsSkipped(at: Cursor, before: string, c: char, after: string)
    requires Proper(at) && ValueOf(c).None? && c != '='
    ensures Scan(at, before + [c] + after) == Scan(at, before + after)
    decreases |before|
  {
    hide ValueOf, Taken;
    var (whole, less) := (before + [c] + after, before + after);
    if before == "" {
      assert whole == [c] + after && less == after && whole[1..] == after;
    } else {
      assert whole[1..] == before[1..] + [c] + after && less[1..] == before[1..] + after;
      var v := ValueOf(before[0]);
      if before[0] == '=' {
        ForeignIsSkipped(if at.position >= 2 then at.(pads := at.pads + 1) else at, before[1..], c, after);
      } else {
        ForeignIsSkipped(if v.None? then at else Taken(at, v.value).1, before[1..], c, after);
      }
    }
  }

  // ---------------------------------------------------------------- the stored object

  datatype Json = Str(text: string) | Flag(on: bool) | Num(n: int) | Obj(members: map<string, string>)

  type Stored = map<string, Json>

  function ResultToDict(result: RunResult): Stored {
    map["status" := Str(result.status),
        "relationship" := Str(result.relationship),
        "content_b64" := Str(Encode(result.content)),
        "attributes" := Obj(result.attributes),
        "retryable" := Flag(result.retryable),
        "error_code" := Str(result.errorCode),
        "error_message" := Str(result.errorMessage),
        "worker_id" := Str(result.workerId),
        "duration_ms" := Num(result.durationMs)]
  }

  function TextOf(raw: Stored, name: string, default: string): Option<string> {
    if name !in raw then Some(default) else if raw[name].Str? then Some(raw[name].text) else None
  }

  function FlagOf(raw: Stored, name: string): Option<bool> {
    if name !in raw then Some(false) else if raw[name].Flag? then Some(raw[name].on) else None
  }

  function NumOf(raw: Stored, name: string): Option<int> {
    if name !in raw then Some(0) else if raw[name].Num? then Some(raw[name].n) else None
  }

  function MembersOf(raw: Stored, name: string): Option<map<string, string>> {
    if name !in raw then Some(map[]) else if raw[name].Obj? then Some(raw[name].members) else None
  }

  /** _result_from_dict: only the status has no default. */
  function ResultFromDict(raw: Stored): Option<RunResult> {
    if "status" !in raw || !raw["status"].Str? then None
    else
      var relationship := TextOf(raw, "relationship", "success");
      var content := TextOf(raw, "content_b64", "");
      var attributes := MembersOf(raw, "attributes");
      var retryable := FlagOf(raw, "retryable");
      var errorCode := TextOf(raw, "error_code", "");
      var errorMessage := TextOf(raw, "error_message", "");
      var workerId := TextOf(raw, "worker_id", "");
      var durationMs := NumOf(raw, "duration_ms");
      if relationship.None? || content.None? || attributes.None? || retryable.None? || errorCode.None?
        || errorMessage.None?
         || workerId.None? || durationMs.None? || Decode(content.value).None? then None
      else Some(RunResult(raw["status"].text, relationship.value, Decode(content.value).value, attributes.value,
        retryable.value,
                          errorCode.value, errorMessage.value, workerId.value, durationMs.value))
  }

  /** A stored result reads back unchanged. */
  lemma StoredResultReadsBack(result: RunResult)
    ensures ResultFromDict(ResultToDict(result)) == Some(result)
  {
    hide Encode, Decode;
    Base64RoundTrip(result.content);
  }

  /** The names the stored object uses, and what stands under them. */
  lemma StoredFields(result: RunResult)
    ensures ResultToDict(result).Keys == {"status", "relationship", "content_b64", "attributes", "retryable",
      "error_code", "error_message", "worker_id", "duration_ms"}
    ensures var raw := ResultToDict(result);
      && raw["status"] == Str(result.status) && raw["relationship"] == Str(result.relationship)
      && raw["content_b64"] == Str(Encode(result.content)) && raw["attributes"] == Obj(result.attributes)
      && raw["retryable"] == Flag(result.retryable) && raw["error_code"] == Str(result.errorCode)
      && raw["error_message"] == Str(result.errorMessage) && raw["worker_id"] == Str(result.workerId)
      && raw["duration_ms"] == Num(result.durationMs)
  {
    hide Encode;
  }

  /** Everything but the status may be missing from an object that is read back. */
  lemma MissingFields(status: string)
    ensures ResultFromDict(map["status" := Str(status)])
      == Some(RunResult(status, "success", [], map[], false, "", "", "", 0))
    ensures ResultFromDict(map[]) == None
  {
    hide Decode;
    EmptyReadsBack();
  }
}

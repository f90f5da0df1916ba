/** JSON without spaces, as json.dumps writes it with (",", ":"), and a reader for it (RFC 8259). */
module JsonText {
  import opened Prelude
  import opened TextReplace
  import opened PlanText
  import opened LiteralReading

  type Fields = seq<(string, Json)>

  datatype Json =
    | JNull
    | JBool(b: bool)
    | JNumeral(numeral: NumeralText)
    | JString(text: string)
    | JArray(items: seq<Json>)
    | JObject(fields: seq<(string, Json)>)

  // ---------------------------------------------------------------- writing

  /** The texts with commas between them. */
  function Joined(texts: seq<string>): string {
    if texts == [] then ""
    else if |texts| == 1 then texts[0]
    else texts[0] + "," + Joined(texts[1..])
  }

  function DumpString(s: string): string {
    "\"" + Encode(JsonEscape, s) + "\""
  }

  function Dump(j: Json): string {
    match j
    case JNull => "null"
    case JBool(b) => if b then "true" else "false"
    case JNumeral(numeral) => numeral
    case JString(text) => DumpString(text)
    case JArray(items) => "[" + Joined(seq(|items|, i requires 0 <= i < |items| => Dump(items[i]))) + "]"
    case JObject(fields) =>
      "{" + Joined(seq(|fields|, i requires 0 <= i < |fields| => DumpString(fields[i].0) + ":" + Dump(fields[i].1)))
        + "}"
  }

  function DumpItems(items: seq<Json>): (texts: seq<string>)
    ensures |texts| == |items| && forall i :: 0 <= i < |items| ==> texts[i] == Dump(items[i])
  {
    seq(|items|, i requires 0 <= i < |items| => Dump(items[i]))
  }

  function DumpFields(fields: seq<(string, Json)>): (texts: seq<string>)
    ensures |texts| == |fields| && forall i :: 0 <= i < |fields| ==>
      texts[i] == DumpString(fields[i].0) + ":" + Dump(fields[i].1)
  {
    seq(|fields|, i requires 0 <= i < |fields| => DumpString(fields[i].0) + ":" + Dump(fields[i].1))
  }

  lemma DumpArray(items: seq<Json>)
    ensures Dump(JArray(items)) == "[" + Joined(DumpItems(items)) + "]"
  {
    assert seq(|items|, i requires 0 <= i < |items| => Dump(items[i])) == DumpItems(items);
  }

  lemma DumpObject(fields: seq<(string, Json)>)
    ensures Dump(JObject(fields)) == "{" + Joined(DumpFields(fields)) + "}"
  {
    assert seq(|fields|, i requires 0 <= i < |fields| => DumpString(fields[i].0) + ":" + Dump(fields[i].1))
      == DumpFields(fields);
  }

  // ---------------------------------------------------------------- reading

  /** How long the numeral at the start of the text is. */
  function NumeralSpan(text: string): (n: nat)
    ensures n <= |text| && forall i :: 0 <= i < n ==> NumeralChar(text[i])
  {
    if text == "" || !NumeralChar(text[0]) then 0 else 1 + NumeralSpan(text[1..])
  }

  /** A value at the start of the text, and what follows it. */
  function ReadValue(text: string): Option<(Json, string)>
    decreases |text|, 1
  {
    if text == "" then None
    else if StartsWith(text, "null") then Some((JNull, text[4..]))
    else if StartsWith(text, "true") then Some((JBool(true), text[4..]))
    else if StartsWith(text, "false") then Some((JBool(false), text[5..]))
    else if text[0] == '"' then
      var s := ReadJson(text[1..]);
      if s.None? then None else Some((JString(s.value.0), s.value.1))
    else if text[0] == '[' then
      if StartsWith(text, "[]") then Some((JArray([]), text[2..]))
      else
        var items := ReadItems(text[1..]);
        if items.None? then None else Some((JArray(items.value.0), items.value.1))
    else if text[0] == '{' then
      if StartsWith(text, "{}") then Some((JObject([]), text[2..]))
      else
        var fields := ReadFields(text[1..]);
        if fields.None? then None else Some((JObject(fields.value.0), fields.value.1))
    else
      var n := NumeralSpan(text);
      if n == 0 then None else Some((JNumeral(text[..n]), text[n..]))
  }

  /** Values with commas between them, up to the closing bracket. */
  function ReadItems(text: string): Option<(seq<Json>, string)>
    decreases |text|, 2
  {
    var first := ReadValue(text);
    if first.None? || first.value.1 == "" || |first.value.1| >= |text| then None
    else
      var (item, rest) := first.value;
      if rest[0] == ']' then Some(([item], rest[1..]))
      else if rest[0] != ',' then None
      else
        var more := ReadItems(rest[1..]);
        if more.None? then None else Some(([item] + more.value.0, more.value.1))
  }

  /** Names and values with commas between them, up to the closing brace. */
  function ReadFields(text: string): Option<(seq<(string, Json)>, string)>
    decreases |text|, 2
  {
    if text == "" || text[0] != '"' then None
    else
      var name := ReadJson(text[1..]);
      if name.None? || !StartsWith(name.value.1, ":") || |name.value.1| >= |text| then None
      else
        var first := ReadValue(name.value.1[1..]);
        if first.None? || first.value.1 == "" || |first.value.1| >= |text| then None
        else
          var (item, rest) := ((name.value.0, first.value.0), first.value.1);
          if rest[0] == '}' then Some(([item], rest[1..]))
          else if rest[0] != ',' then None
          else
            var more := ReadFields(rest[1..]);
            if more.None? then None else Some(([item] + more.value.0, more.value.1))
  }

  // ---------------------------------------------------------------- what is written is read

  /** What may follow a value. */
  predicate Ends(rest: string) {
    rest == "" || !NumeralChar(rest[0])
  }

  lemma {:induction false} NumeralEnds(numeral: string, rest: string)
    requires (forall i :: 0 <= i < |numeral| ==> NumeralChar(numeral[i])) && Ends(rest)
    ensures NumeralSpan(numeral + rest) == |numeral|
  {
    if numeral == "" {
      assert numeral + rest == rest;
    } else {
      assert (numeral + rest)[1..] == numeral[1..] + rest;
      NumeralEnds(numeral[1..], rest);
    }
  }

  lemma NumeralIsRead(numeral: string, rest: string)
    requires IsNumeral(numeral) && Ends(rest)
    ensures ReadValue(numeral + rest) == Some((JNumeral(numeral), rest))
  {
    var text := numeral + rest;
    assert text[0] == numeral[0];
    NumeralEnds(numeral, rest);
    assert text[..|numeral|] == numeral && text[|numeral|..] == rest;
    assert text[..1] == [numeral[0]];
    NotAWord(text, "null");
    NotAWord(text, "true");
    NotAWord(text, "false");
  }

  lemma NotAWord(text: string, word: string)
    requires text != "" && word != "" && text[0] != word[0]
    ensures !StartsWith(text, word)
  {
    if StartsWith(text, word) { PrefixChars(text, word); }
  }

  lemma WordIsRead(b: bool, rest: string)
    ensures ReadValue("null" + rest) == Some((JNull, rest))
    ensures ReadValue((if b then "true" else "false") + rest) == Some((JBool(b), rest))
  {
    var word := if b then "true" else "false";
    assert ("null" + rest)[..4] == "null" && ("null" + rest)[4..] == rest;
    assert (word + rest)[..|word|] == word && (word + rest)[|word|..] == rest;
    NotAWord(word + rest, "null");
    if !b { NotAWord(word + rest, "true"); }
  }

  lemma StringIsRead(s: string, rest: string)
    ensures ReadValue(DumpString(s) + rest) == Some((JString(s), rest))
  {
    var text := DumpString(s) + rest;
    assert text[1..] == Encode(JsonEscape, s) + "\"" + rest;
    JsonIsRead(s, rest);
    NotAWord(text, "null");
    NotAWord(text, "true");
    NotAWord(text, "false");
  }

  /** No value begins like the end of an array or an object. */
  lemma DumpStarts(j: Json)
    ensures Dump(j) != "" && Dump(j)[0] != ']' && Dump(j)[0] != '}' && Dump(j)[0] != ','
  {
  }

  function Width(j: Json): nat {
    match j
    case JArray(items) => |items|
    case JObject(fields) => |fields|
    case _ => 0
  }

  /** Every value is read back from what is written of it, whatever follows. */
  lemma {:induction false} ValueIsRead(j: Json, rest: string)
    requires Ends(rest)
    ensures ReadValue(Dump(j) + rest) == Some((j, rest))
    decreases j, Width(j) + 1
  {
    match j
    case JNull => WordIsRead(true, rest);
    case JBool(b) => WordIsRead(b, rest);
    case JNumeral(numeral) => NumeralIsRead(numeral, rest);
    case JString(text) => StringIsRead(text, rest);
    case JArray(items) =>
      if items != [] { ItemsAreRead(j, 0, rest); }
      ArrayIsRead(items, rest);
    case JObject(fields) =>
      if fields != [] { FieldsAreRead(j, 0, rest); }
      ObjectIsRead(fields, rest);
  }

  lemma Opened(text: string)
    requires text != "" && (text[0] == '[' || text[0] == '{')
    ensures !StartsWith(text, "null") && !StartsWith(text, "true") && !StartsWith(text, "false")
  {
    NotAWord(text, "null");
    NotAWord(text, "true");
    NotAWord(text, "false");
  }

  lemma ArrayIsRead(items: seq<Json>, rest: string)
    requires items != [] ==> ReadItems(Joined(DumpItems(items)) + "]" + rest) == Some((items, rest))
    ensures ReadValue(Dump(JArray(items)) + rest) == Some((JArray(items), rest))
  {
    hide ReadItems, ReadFields, ReadJson, NumeralSpan;
    DumpArray(items);
    var (body, text) := (Joined(DumpItems(items)), Dump(JArray(items)) + rest);
    Opened(text);
    assert text[1..] == body + "]" + rest;
    if items == [] {
      assert text[..2] == "[]" && text[2..] == rest;
    } else {
      JoinedStarts(DumpItems(items));
      DumpStarts(items[0]);
      assert text[1] == body[0] == Dump(items[0])[0];
      if StartsWith(text, "[]") { PrefixChars(text, "[]"); }
    }
  }

  lemma JoinedStarts(texts: seq<string>)
    requires texts != [] && texts[0] != ""
    ensures Joined(texts) != "" && Joined(texts)[0] == texts[0][0]
  {
  }

  lemma ObjectIsRead(fields: seq<(string, Json)>, rest: string)
    requires fields != [] ==> ReadFields(Joined(DumpFields(fields)) + "}" + rest) == Some((fields, rest))
    ensures ReadValue(Dump(JObject(fields)) + rest) == Some((JObject(fields), rest))
  {
    hide ReadItems, ReadFields, ReadJson, NumeralSpan;
    DumpObject(fields);
    var (body, text) := (Joined(DumpFields(fields)), Dump(JObject(fields)) + rest);
    Opened(text);
    assert text[1..] == body + "}" + rest;
    if fields == [] {
      assert text[..2] == "{}" && text[2..] == rest;
    } else {
      JoinedStarts(DumpFields(fields));
      assert text[1] == body[0] == '"';
      if StartsWith(text, "{}") { PrefixChars(text, "{}"); }
    }
  }

  /** One item that is read, and what is read after its comma. */
  lemma ItemIsRead(text: string, item: Json, tail: string, more: seq<Json>, rest: string)
    requires ReadValue(text) == Some((item, tail)) && tail != "" && |tail| < |text|
    requires if tail[0] == ']' then more == [] && rest == tail[1..]
      else tail[0] == ',' && ReadItems(tail[1..]) == Some((more, rest))
    ensures ReadItems(text) == Some(([item] + more, rest))
  {
    hide ReadValue;
    assert [item] + [] == [item];
  }

  /** The items from the k-th on, up to the closing bracket. */
  lemma {:induction false} ItemsAreRead(j: Json, k: nat, rest: string)
    requires j.JArray? && k < |j.items|
    ensures ReadItems(Joined(DumpItems(j.items)[k..]) + "]" + rest) == Some((j.items[k..], rest))
    decreases j, |j.items| - k
  {
    hide ReadValue, ReadItems;
    var (items, texts) := (j.items, DumpItems(j.items)[k..]);
    assert texts[0] == Dump(items[k]);
    DumpStarts(items[k]);
    hide Dump;
    if k + 1 == |items| {
      ValueIsRead(items[k], "]" + rest);
      assert Joined(texts) + "]" + rest == Dump(items[k]) + ("]" + rest);
      ItemIsRead(Dump(items[k]) + ("]" + rest), items[k], "]" + rest, [], rest);
      assert items[k..] == [items[k]] + [];
    } else {
      ItemsAreRead(j, k + 1, rest);
      var more := Joined(DumpItems(items)[k + 1..]) + "]" + rest;
      ValueIsRead(items[k], "," + more);
      assert texts[1..] == DumpItems(items)[k + 1..];
      assert Joined(texts) + "]" + rest == Dump(items[k]) + ("," + more);
      assert ("," + more)[1..] == more;
      ItemIsRead(Dump(items[k]) + ("," + more), items[k], "," + more, items[k + 1..], rest);
      assert items[k..] == [items[k]] + items[k + 1..];
    }
  }

  lemma JoinedSteps(texts: seq<string>)
    requires texts != []
    ensures Joined(texts) == if |texts| == 1 then texts[0] else texts[0] + "," + Joined(texts[1..])
  {
  }

  /** A name and a colon before a value. */
  function Named(name: string, value: string): string {
    DumpString(name) + ":" + value
  }

  lemma NameIsRead(name: string, value: string)
    ensures Named(name, value)[0] == '"' && ReadJson(Named(name, value)[1..]) == Some((name, ":" + value))
    ensures StartsWith(":" + value, ":") && (":" + value)[1..] == value
    ensures |":" + value| < |Named(name, value)|
  {
    hide Encode, JsonEscape, ReadJson;
    JsonIsRead(name, ":" + value);
    assert Named(name, value)[1..] == Encode(JsonEscape, name) + "\"" + (":" + value);
    assert (":" + value)[..1] == ":";
  }

  /** One field that is read, and what is read after its comma. */
  lemma FieldIsRead(name: string, text: string, value: Json, tail: string, more: seq<(string, Json)>, rest: string)
    requires ReadValue(text) == Some((value, tail)) && tail != "" && |tail| < |text|
    requires if tail[0] == '}' then more == [] && rest == tail[1..]
      else tail[0] == ',' && ReadFields(tail[1..]) == Some((more, rest))
    ensures ReadFields(Named(name, text)) == Some(([(name, value)] + more, rest))
  {
    hide ReadValue, ReadJson, Named;
    NameIsRead(name, text);
    assert [(name, value)] + [] == [(name, value)];
  }

  lemma FieldTexts(fields: Fields, k: nat)
    requires k < |fields|
    ensures var texts := DumpFields(fields)[k..];
      Joined(texts) == Named(fields[k].0, Dump(fields[k].1))
        + if k + 1 == |fields| then "" else "," + Joined(DumpFields(fields)[k + 1..])
  {
    hide Dump, DumpString;
    var texts := DumpFields(fields)[k..];
    JoinedSteps(texts);
    assert texts[1..] == DumpFields(fields)[k + 1..];
    assert texts[0] + "" == texts[0];
  }

  lemma {:induction false} FieldsAreRead(j: Json, k: nat, rest: string)
    requires j.JObject? && k < |j.fields|
    ensures ReadFields(Joined(DumpFields(j.fields)[k..]) + "}" + rest) == Some((j.fields[k..], rest))
    decreases j, |j.fields| - k
  {
    hide ReadValue, ReadFields, Joined, Named, DumpFields;
    var fields := j.fields;
    var (name, value) := fields[k];
    FieldTexts(fields, k);
    DumpStarts(value);
    hide Dump;
    if k + 1 == |fields| {
      ValueIsRead(value, "}" + rest);
      NamedGrows(name, Dump(value), "}" + rest);
      assert Named(name, Dump(value)) + "" + "}" + rest == Named(name, Dump(value)) + ("}" + rest);
      FieldIsRead(name, Dump(value) + ("}" + rest), value, "}" + rest, [], rest);
      assert fields[k..] == [fields[k]] + [];
    } else {
      FieldsAreRead(j, k + 1, rest);
      var (body, more) := (Joined(DumpFields(fields)[k + 1..]), Joined(DumpFields(fields)[k + 1..]) + "}" + rest);
      ValueIsRead(value, "," + more);
      NamedGrows(name, Dump(value), "," + more);
      assert Named(name, Dump(value)) + ("," + body) + "}" + rest == Named(name, Dump(value)) + ("," + more);
      FieldIsRead(name, Dump(value) + ("," + more), value, "," + more, fields[k + 1..], rest);
      assert fields[k..] == [fields[k]] + fields[k + 1..];
    }
  }

  lemma NamedGrows(name: string, value: string, rest: string)
    ensures Named(name, value) + rest == Named(name, value + rest)
  {
    hide DumpString;
  }
}
